/**
 * The players of graphicalMM1.py: `Player`, `SelfishPlayer` and
 * `OptimalPlayer`. A player is a record of the attributes the simulation
 * reads and writes; the graphics attributes are not part of this model.
 * The methods `arrive`, `startservice` and `endservice` change one player
 * and the queue or server; their effect on the player is given here as
 * functions from the old record to the new one, and the simulation applies
 * them to its table of players.
 */
module Players {
  import Naor

  /** Which class the player belongs to, with the attribute that class adds. */
  datatype Kind =
    | Plain
    | Selfish(costOfBalking: real)
    | Optimal(naorThreshold: int)

  /**
   * The attributes of a player. Those that Python sets only later
   * (`arrivaldate`, `servicedate`, ...) start at 0.0 here; the simulation's
   * invariants show that each is set before it is read.
   */
  datatype Player = Player(
    kind: Kind,
    interArrivalTime: real,
    serviceTime: real,
    arrivalDate: real,
    serviceDate: real,
    endQueueDate: real,
    endServiceDate: real,
    waitingTime: real,
    served: bool,
    balked: bool)

  /** `Player.__init__`: the two exponential samples are passed in. */
  function Create(kind: Kind, interArrivalTime: real, serviceTime: real): (p: Player)
    ensures p.kind == kind && p.interArrivalTime == interArrivalTime && p.serviceTime == serviceTime
    ensures !p.served && !p.balked
  {
    Player(kind, interArrivalTime, serviceTime, 0.0, 0.0, 0.0, 0.0, 0.0, false, false)
  }

  /**
   * The decision taken on arrival, with `occupancy` = len(queue) + len(server):
   * a plain player always joins, a selfish one joins when its expected time
   * through the system (occupancy + 1)/mu is below its cost of balking, and
   * an optimal one joins when fewer than its Naor threshold are present.
   */
  predicate Joins(kind: Kind, mu: real, occupancy: nat): (joins: bool)
    requires kind.Selfish? ==> mu != 0.0
    ensures kind.Plain? ==> joins
    ensures kind.Selfish? ==> (joins <==> ((occupancy + 1) as real) / mu < kind.costOfBalking)
    ensures kind.Optimal? ==> (joins <==> occupancy < kind.naorThreshold)
  {
    match kind
    case Plain => true
    case Selfish(cost) => ((occupancy + 1) as real) / mu < cost
    case Optimal(threshold) => occupancy < threshold
  }

  /** `arrive(t)`: records the arrival date and, when the player does not join, that it balked. */
  function Arrived(p: Player, t: real, joins: bool): (q: Player)
    ensures q.arrivalDate == t && q.balked == (p.balked || !joins)
    ensures q == p.(arrivalDate := t, balked := q.balked)
  {
    if joins then p.(arrivalDate := t) else p.(arrivalDate := t, balked := true)
  }

  /** The part of `startservice(t)` that changes the player, when it is neither served nor balked. */
  function Started(p: Player, t: real): (q: Player)
    ensures q.endQueueDate == t && q.serviceDate == t + p.serviceTime
    ensures q == p.(serviceDate := q.serviceDate, endQueueDate := t)
  {
    p.(serviceDate := t + p.serviceTime, endQueueDate := t)
  }

  /** The part of `endservice()` that changes the player. */
  function Ended(p: Player): (q: Player)
    ensures q.served
    ensures q.endServiceDate - q.endQueueDate == p.serviceTime
    ensures q.waitingTime == q.endQueueDate - q.arrivalDate
    ensures q == p.(endServiceDate := q.endServiceDate, waitingTime := q.waitingTime, served := true)
  {
    p.(endServiceDate := p.endQueueDate + p.serviceTime, waitingTime := p.endQueueDate - p.arrivalDate, served := true)
  }

  /**
   * A player that arrives at a, joins, starts service at s and ends it
   * waited s - a, left at its recorded service date, and spent its waiting
   * time plus its service time in the system.
   */
  lemma Lifecycle(p: Player, a: real, s: real)
    ensures var q := Ended(Started(Arrived(p, a, true), s));
      q.waitingTime == s - a && q.endServiceDate == q.serviceDate &&
      q.endServiceDate - q.arrivalDate == q.waitingTime + q.serviceTime &&
      q.served && q.balked == p.balked
  {
  }

  /** The selfish rule, without the division: join iff occupancy + 1 < mu * cost. */
  lemma SelfishJoinsIff(cost: real, mu: real, occupancy: nat)
    requires mu > 0.0
    ensures Joins(Selfish(cost), mu, occupancy) <==> ((occupancy + 1) as real) < mu * cost
  {
    var e := (occupancy + 1) as real;
    if e / mu < cost {
      assert e == (e / mu) * mu;
      assert e < cost * mu;
    } else {
      assert e == (e / mu) * mu;
      assert e >= cost * mu;
    }
  }

  /**
   * Both balking rules are thresholds: whoever joins at some occupancy
   * would also join at any smaller one.
   */
  lemma JoinsDownwardClosed(kind: Kind, mu: real, m: nat, n: nat)
    requires mu > 0.0 && m <= n && Joins(kind, mu, n)
    ensures Joins(kind, mu, m)
  {
    if kind.Selfish? {
      SelfishJoinsIff(kind.costOfBalking, mu, n);
      SelfishJoinsIff(kind.costOfBalking, mu, m);
    }
  }

  /**
   * Naor's comparison: a player following the social threshold joins only
   * where (occupancy + 1)/mu <= cost, so never where a selfish player with
   * the same cost would refuse by more than the tie.
   */
  lemma OptimalWithinSelfishBound(lmbda: real, mu: real, cost: real, threshold: nat, occupancy: nat)
    requires 0.0 <= lmbda && 0.0 < mu && lmbda != mu
    requires Naor.Rho(lmbda, mu) != 1.0
    requires Naor.Brackets(Naor.Rho(lmbda, mu), Naor.Center(mu, cost), threshold)
    requires Joins(Optimal(threshold), mu, occupancy)
    ensures ((occupancy + 1) as real) <= mu * cost
  {
    Naor.ThresholdAtMostCenter(Naor.Rho(lmbda, mu), Naor.Center(mu, cost), threshold);
  }

  /**
   * At the tie the two rules differ: with mu * cost = 1 an empty system
   * admits an optimal player (threshold 1) but turns a selfish one away.
   */
  lemma TieSeparatesRules()
    ensures Naor.Brackets(Naor.Rho(0.0, 1.0), Naor.Center(1.0, 1.0), 1)
    ensures Joins(Optimal(1), 1.0, 0) && !Joins(Selfish(1.0), 1.0, 0)
  {
    Naor.WaitAtZero(0.0);
    Naor.WaitStep(0.0, 1);
    assert Naor.GeomSum(0.0, 1) == 1.0;
  }
}
