/**
 * The computations of `Sim.printsummary(warmup)` in graphicalMM1.py: the
 * lists it gathers from the recorded tallies and from the completed and
 * balked players, and the means, balking probabilities and costs it derives
 * from them. Writing to stdout is not part of this model. Python's False,
 * which the source stores where a list is empty or a division is skipped,
 * is `None`.
 */
module Summary {
  import opened Wrappers
  import opened Stats
  import opened Players
  import opened Simulation

  /** Which number of a recorded entry a list takes. */
  datatype Part = Whole | SelfishPart | OptimalPart

  /**
   * An entry read as a number: without balking the count itself; with
   * balking item [0] or [1] of the pair, or both added up, as
   * `sum(k) for k in zip(...)` does.
   */
  function Value(x: Tally, part: Part): (v: real)
    ensures 0.0 <= v
    ensures x.Count? && part.Whole? ==> v == x.n as real
    ensures x.Split? ==> (part.SelfishPart? ==> v == x.selfish as real) && (part.OptimalPart? ==> v == x.optimal as real)
  {
    match part
    case Whole => if x.Count? then x.n as real else (x.selfish + x.optimal) as real
    case SelfishPart => if x.Split? then x.selfish as real else 0.0
    case OptimalPart => if x.Split? then x.optimal as real else 0.0
  }

  /** Every tick 1..h has an entry. */
  predicate HasTicks(d: map<int, Tally>, h: nat)
  {
    forall k :: 1 <= k <= h ==> k in d
  }

  /** How many of the ticks 1..h are not before warmup. */
  function TicksFrom(h: nat, warmup: real): (n: nat)
    ensures n <= h
    decreases h
  {
    if h == 0 then 0 else TicksFrom(h - 1, warmup) + (if h as real >= warmup then 1 else 0)
  }

  /**
   * The entries of d at the ticks 1..h that are not before warmup, read as
   * numbers, in tick order: the order in which `run` inserted them and so
   * the order in which `for t in self.queuelengthdict` visits them.
   */
  function Series(d: map<int, Tally>, h: nat, warmup: real, part: Part): (r: seq<real>)
    requires HasTicks(d, h)
    ensures |r| == TicksFrom(h, warmup)
    ensures forall i :: 0 <= i < |r| ==> 0.0 <= r[i]
    decreases h
  {
    if h == 0 then []
    else Series(d, h - 1, warmup, part) + (if h as real >= warmup then [Value(d[h], part)] else [])
  }

  /** The players a list keeps: all of them, the selfish class, or the rest (the `else` of `type(p) is SelfishPlayer`). */
  datatype Group = Everyone | SelfishClass | OtherClass

  predicate InGroup(p: Player, g: Group)
  {
    match g
    case Everyone => true
    case SelfishClass => p.kind.Selfish?
    case OtherClass => !p.kind.Selfish?
  }

  /** A listed player that a summary counts: one of the group who arrived from warmup on. */
  predicate Kept(p: Player, warmup: real, g: Group)
  {
    p.arrivalDate >= warmup && InGroup(p, g)
  }

  /** The number read off a player: its waiting time, its service time, or its whole stay. */
  datatype Field = WaitingTime | ServiceTime | TimeInSystem

  function FieldOf(p: Player, f: Field): real
  {
    match f
    case WaitingTime => p.waitingTime
    case ServiceTime => p.serviceTime
    case TimeInSystem => p.endServiceDate - p.arrivalDate
  }

  /** How many of the listed players are kept. */
  function KeptCount(roster: seq<Player>, ids: seq<nat>, warmup: real, g: Group): (n: nat)
    requires Within(ids, |roster|)
    ensures n <= |ids|
    decreases |ids|
  {
    if ids == [] then 0
    else KeptCount(roster, ids[..|ids| - 1], warmup, g) + (if Kept(roster[ids[|ids| - 1]], warmup, g) then 1 else 0)
  }

  /** The field of every kept player among ids, in list order. */
  function Column(roster: seq<Player>, ids: seq<nat>, warmup: real, g: Group, f: Field): (r: seq<real>)
    requires Within(ids, |roster|)
    ensures |r| == KeptCount(roster, ids, warmup, g)
    decreases |ids|
  {
    if ids == [] then []
    else
      var p := roster[ids[|ids| - 1]];
      Column(roster, ids[..|ids| - 1], warmup, g, f) + (if Kept(p, warmup, g) then [FieldOf(p, f)] else [])
  }

  /**
   * The means reported for one group of players: queue length, system
   * state and waiting time (False for an empty list), and the system time,
   * `mean(servicetimes) + meanwaitingtime`, where False adds as 0.
   */
  datatype Means = Means(queueLength: Option<real>, systemState: Option<real>, waitingTime: Option<real>, systemTime: real)

  /** The three mean costs: per player overall, per selfish player, per other player. */
  datatype Costs = Costs(overall: Option<real>, selfish: Option<real>, optimal: Option<real>)

  /** What `printsummary` computes, without balking and with it. */
  datatype Report =
    | NoBalkReport(overall: Means)
    | BalkReport(selfish: Means, optimal: Means, queueLength: Option<real>, systemState: Option<real>,
                 selfishBalk: Option<real>, optimalBalk: Option<real>, costs: Costs)

  /** The system time as the source adds it up: mean service time plus mean waiting time. */
  function SystemTime(services: seq<real>, waits: seq<real>): real
  {
    AsNumber(Mean(services)) + AsNumber(Mean(waits))
  }

  /** `x /= d` when d != 0, and False when the source skips the division. */
  function Ratio(x: real, d: nat): (r: Option<real>)
    ensures r.None? <==> d == 0
    ensures r.Some? ==> r.value * (d as real) == x
  {
    if d != 0 then Some(x / d as real) else None
  }

  /** The share of balkers among a group's players who balked or completed service. */
  function BalkProbability(balks: nat, completions: nat): (r: Option<real>)
    ensures r.None? <==> balks + completions == 0
    ensures r.Some? ==> r.value * ((balks + completions) as real) == balks as real
  {
    Ratio(balks as real, balks + completions)
  }

  /** A probability of balking lies in [0, 1]; it is 0 exactly without balkers and 1 exactly without completions. */
  lemma BalkProbabilityBounds(balks: nat, completions: nat)
    requires balks + completions > 0
    ensures var p := BalkProbability(balks, completions).value;
      0.0 <= p <= 1.0 && (p == 0.0 <==> balks == 0) && (p == 1.0 <==> completions == 0)
  {
    var p := BalkProbability(balks, completions).value;
    var n := (balks + completions) as real;
    assert p * n == balks as real;
  }

  /** What a group's players cost altogether: each balker the cost of balking, each completed player its service and waiting times. */
  function GroupCost(cost: real, balks: nat, services: seq<real>, waits: seq<real>): real
  {
    balks as real * cost + Sum(services) + Sum(waits)
  }

  /**
   * The mean costs as lines 639-654 compute them: when no player of the
   * second group is counted, line 649 sets the selfish mean cost to False
   * and leaves the second group's undivided total in place.
   */
  function CostsAsWritten(cost: real, selfishBalks: nat, selfishServices: seq<real>, selfishWaits: seq<real>,
                          otherBalks: nat, otherServices: seq<real>, otherWaits: seq<real>): (c: Costs)
    ensures otherBalks + |otherWaits| == 0 ==> c.selfish.None?
  {
    var selfishTotal := GroupCost(cost, selfishBalks, selfishServices, selfishWaits);
    var otherTotal := GroupCost(cost, otherBalks, otherServices, otherWaits);
    var everybody := selfishBalks + otherBalks + |selfishWaits| + |otherWaits|;
    if otherBalks + |otherWaits| != 0 then
      Costs(Ratio(selfishTotal + otherTotal, everybody), Ratio(selfishTotal, selfishBalks + |selfishWaits|),
            Ratio(otherTotal, otherBalks + |otherWaits|))
    else
      Costs(Ratio(selfishTotal + otherTotal, everybody), None, Some(otherTotal))
  }

  /** The mean costs with line 649 setting the second group's mean cost to False, as evidently intended. */
  function CostsCorrected(cost: real, selfishBalks: nat, selfishServices: seq<real>, selfishWaits: seq<real>,
                          otherBalks: nat, otherServices: seq<real>, otherWaits: seq<real>): (c: Costs)
    ensures c.selfish.None? <==> selfishBalks + |selfishWaits| == 0
    ensures c.optimal.None? <==> otherBalks + |otherWaits| == 0
    ensures c.overall.None? <==> selfishBalks + otherBalks + |selfishWaits| + |otherWaits| == 0
  {
    var selfishTotal := GroupCost(cost, selfishBalks, selfishServices, selfishWaits);
    var otherTotal := GroupCost(cost, otherBalks, otherServices, otherWaits);
    Costs(Ratio(selfishTotal + otherTotal, selfishBalks + otherBalks + |selfishWaits| + |otherWaits|),
          Ratio(selfishTotal, selfishBalks + |selfishWaits|), Ratio(otherTotal, otherBalks + |otherWaits|))
  }

  /**
   * Line 649 as written: whenever selfish players are counted but no
   * others, the selfish mean cost is lost (False), while the corrected
   * computation reports it, as the mean cost per selfish player.
   */
  lemma SelfishCostLost(cost: real, selfishBalks: nat, selfishServices: seq<real>, selfishWaits: seq<real>)
    requires selfishBalks + |selfishWaits| > 0
    ensures CostsAsWritten(cost, selfishBalks, selfishServices, selfishWaits, 0, [], []).selfish.None?
    ensures var c := CostsCorrected(cost, selfishBalks, selfishServices, selfishWaits, 0, [], []);
      c.selfish.Some? && c.selfish == c.overall
  {
    var total := GroupCost(cost, selfishBalks, selfishServices, selfishWaits);
    assert GroupCost(cost, 0, [], []) == 0.0;
    assert total + 0.0 == total;
  }

  /** One selfish player who balked at a cost of 2 and nobody else: as written False, corrected 2. */
  lemma SelfishCostLostExample()
    ensures CostsAsWritten(2.0, 1, [], [], 0, [], []) == Costs(Some(2.0), None, Some(0.0))
    ensures CostsCorrected(2.0, 1, [], [], 0, [], []) == Costs(Some(2.0), Some(2.0), None)
  {
  }

  /**
   * The corrected costs: a group's mean cost is False exactly when none of
   * its players is counted, and the overall mean cost is the average of
   * the two groups' mean costs weighted by their sizes.
   */
  lemma CostsWeighted(cost: real, selfishBalks: nat, selfishServices: seq<real>, selfishWaits: seq<real>,
                      otherBalks: nat, otherServices: seq<real>, otherWaits: seq<real>)
    requires |selfishServices| == |selfishWaits| && |otherServices| == |otherWaits|
    ensures var c := CostsCorrected(cost, selfishBalks, selfishServices, selfishWaits, otherBalks, otherServices, otherWaits);
      var ns, no := selfishBalks + |selfishWaits|, otherBalks + |otherWaits|;
      (c.selfish.None? <==> ns == 0) && (c.optimal.None? <==> no == 0) && (c.overall.None? <==> ns + no == 0) &&
      (c.overall.Some? ==>
        c.overall.value * ((ns + no) as real) ==
          (if ns == 0 then 0.0 else c.selfish.value * ns as real) + (if no == 0 then 0.0 else c.optimal.value * no as real))
  {
    var ns, no := selfishBalks + |selfishWaits|, otherBalks + |otherWaits|;
    var selfishTotal := GroupCost(cost, selfishBalks, selfishServices, selfishWaits);
    var otherTotal := GroupCost(cost, otherBalks, otherServices, otherWaits);
    var c := CostsCorrected(cost, selfishBalks, selfishServices, selfishWaits, otherBalks, otherServices, otherWaits);
    assert c == Costs(Ratio(selfishTotal + otherTotal, ns + no), Ratio(selfishTotal, ns), Ratio(otherTotal, no));
    if ns == 0 {
      assert selfishServices == [] && selfishWaits == [];
      assert selfishTotal == 0.0;
    }
    if no == 0 {
      assert otherServices == [] && otherWaits == [];
      assert otherTotal == 0.0;
    }
  }

  /** The means of one group, from the lists gathered for it. */
  function MeansOf(lengths: seq<real>, states: seq<real>, services: seq<real>, waits: seq<real>): Means
  {
    Means(Mean(lengths), Mean(states), Mean(waits), SystemTime(services, waits))
  }

  /** What the no-balking branch computes (lines 571-587). */
  function NoBalkReportOf(queueLengths: map<int, Tally>, systemStates: map<int, Tally>, h: nat,
                          roster: seq<Player>, completed: seq<nat>, warmup: real): Report
    requires HasTicks(queueLengths, h) && HasTicks(systemStates, h) && Within(completed, |roster|)
  {
    NoBalkReport(MeansOf(Series(queueLengths, h, warmup, Whole), Series(systemStates, h, warmup, Whole),
                         Column(roster, completed, warmup, Everyone, ServiceTime),
                         Column(roster, completed, warmup, Everyone, WaitingTime)))
  }

  /**
   * The balking report from the lists and counts lines 596-637 gather: the
   * per-group means, the overall means of `sum(k) for k in zip(...)`, the
   * balking probabilities and the costs, with line 649 as written.
   */
  function BalkReportFrom(selfishLengths: seq<real>, otherLengths: seq<real>, selfishStates: seq<real>, otherStates: seq<real>,
                          selfishServices: seq<real>, selfishWaits: seq<real>, otherServices: seq<real>, otherWaits: seq<real>,
                          selfishBalks: nat, otherBalks: nat, cost: real): (r: Report)
    requires |selfishLengths| == |otherLengths| && |selfishStates| == |otherStates|
    ensures r.BalkReport?
  {
    BalkReport(
      MeansOf(selfishLengths, selfishStates, selfishServices, selfishWaits),
      MeansOf(otherLengths, otherStates, otherServices, otherWaits),
      Mean(Pointwise(selfishLengths, otherLengths)), Mean(Pointwise(selfishStates, otherStates)),
      BalkProbability(selfishBalks, |selfishWaits|), BalkProbability(otherBalks, |otherWaits|),
      CostsAsWritten(cost, selfishBalks, selfishServices, selfishWaits, otherBalks, otherServices, otherWaits))
  }

  /** What the balking branch computes (lines 596-663), with the cost of balking `cost`. */
  function BalkReportOf(queueLengths: map<int, Tally>, systemStates: map<int, Tally>, h: nat,
                        roster: seq<Player>, completed: seq<nat>, balked: seq<nat>, warmup: real, cost: real): (r: Report)
    requires HasTicks(queueLengths, h) && HasTicks(systemStates, h)
    requires Within(completed, |roster|) && Within(balked, |roster|)
    ensures r.BalkReport?
  {
    BalkReportFrom(
      Series(queueLengths, h, warmup, SelfishPart), Series(queueLengths, h, warmup, OptimalPart),
      Series(systemStates, h, warmup, SelfishPart), Series(systemStates, h, warmup, OptimalPart),
      Column(roster, completed, warmup, SelfishClass, ServiceTime), Column(roster, completed, warmup, SelfishClass, WaitingTime),
      Column(roster, completed, warmup, OtherClass, ServiceTime), Column(roster, completed, warmup, OtherClass, WaitingTime),
      KeptCount(roster, balked, warmup, SelfishClass), KeptCount(roster, balked, warmup, OtherClass), cost)
  }

  /**
   * The balking report as lines 596-663 evidently intend: the same means
   * and balking probabilities, with the costs of the corrected line 649.
   */
  function CorrectedBalkReportOf(queueLengths: map<int, Tally>, systemStates: map<int, Tally>, h: nat,
                                 roster: seq<Player>, completed: seq<nat>, balked: seq<nat>, warmup: real, cost: real): Report
    requires HasTicks(queueLengths, h) && HasTicks(systemStates, h)
    requires Within(completed, |roster|) && Within(balked, |roster|)
  {
    var written := BalkReportOf(queueLengths, systemStates, h, roster, completed, balked, warmup, cost);
    written.(costs :=
      CostsCorrected(cost,
        KeptCount(roster, balked, warmup, SelfishClass), Column(roster, completed, warmup, SelfishClass, ServiceTime),
        Column(roster, completed, warmup, SelfishClass, WaitingTime),
        KeptCount(roster, balked, warmup, OtherClass), Column(roster, completed, warmup, OtherClass, ServiceTime),
        Column(roster, completed, warmup, OtherClass, WaitingTime)))
  }

  /**
   * The report as written and the intended one differ in the costs alone,
   * and not at all once some optimal player is counted; the intended one
   * loses the selfish mean cost only when no selfish player is counted.
   */
  lemma CorrectedReportAgrees(queueLengths: map<int, Tally>, systemStates: map<int, Tally>, h: nat,
                              roster: seq<Player>, completed: seq<nat>, balked: seq<nat>, warmup: real, cost: real)
    requires HasTicks(queueLengths, h) && HasTicks(systemStates, h)
    requires Within(completed, |roster|) && Within(balked, |roster|)
    ensures var written := BalkReportOf(queueLengths, systemStates, h, roster, completed, balked, warmup, cost);
      var intended := CorrectedBalkReportOf(queueLengths, systemStates, h, roster, completed, balked, warmup, cost);
      written.BalkReport? && intended == written.(costs := intended.costs)
    ensures KeptCount(roster, balked, warmup, OtherClass) + |Column(roster, completed, warmup, OtherClass, WaitingTime)| > 0 ==>
      CorrectedBalkReportOf(queueLengths, systemStates, h, roster, completed, balked, warmup, cost) ==
        BalkReportOf(queueLengths, systemStates, h, roster, completed, balked, warmup, cost)
    ensures CorrectedBalkReportOf(queueLengths, systemStates, h, roster, completed, balked, warmup, cost).costs.selfish.None? <==>
      KeptCount(roster, balked, warmup, SelfishClass) + |Column(roster, completed, warmup, SelfishClass, WaitingTime)| == 0
  {
  }

  /**
   * `printsummary(warmup)` on the state `run` leaves: the recorded ticks
   * 1..h and the completed and balked players. When `costofbalking` is a
   * non-zero number, line 639 indexes it and Python raises TypeError.
   */
  method PrintSummary(b: Balking, queueLengths: map<int, Tally>, systemStates: map<int, Tally>, h: nat,
                      roster: seq<Player>, completed: seq<nat>, balked: seq<nat>, warmup: real)
    returns (r: Result<Report>)
    requires KeysAreTicks(queueLengths, h) && KeysAreTicks(systemStates, h)
    requires Within(completed, |roster|) && Within(balked, |roster|)
    ensures !Truthy(b) ==> r == Ok(NoBalkReportOf(queueLengths, systemStates, h, roster, completed, warmup))
    ensures b.Mixed? ==> r == Ok(BalkReportOf(queueLengths, systemStates, h, roster, completed, balked, warmup, b.cost))
    ensures b.AllSelfish? && Truthy(b) ==> r == Err(NotSubscriptable)
  {
    if !Truthy(b) {
      var report := NoBalkSummary(queueLengths, systemStates, h, roster, completed, warmup);
      r := Ok(report);
    } else {
      r := BalkSummary(b, queueLengths, systemStates, h, roster, completed, balked, warmup);
    }
  }

  /** Lines 572-587: the loop over the ticks, the loop over the completed players, and the means. */
  method NoBalkSummary(queueLengths: map<int, Tally>, systemStates: map<int, Tally>, h: nat,
                       roster: seq<Player>, completed: seq<nat>, warmup: real)
    returns (report: Report)
    requires HasTicks(queueLengths, h) && HasTicks(systemStates, h) && Within(completed, |roster|)
    ensures report == NoBalkReportOf(queueLengths, systemStates, h, roster, completed, warmup)
  {
    var lengths, states := TickLists(queueLengths, systemStates, h, warmup, Whole);
    var waits, services := TimeLists(roster, completed, warmup, Everyone);
    report := NoBalkReport(MeansOf(lengths, states, services, waits));
  }

  /**
   * Lines 596-663: the loop over the ticks, the loop over the completed
   * players, the loop over the balked players, then the means, the balking
   * probabilities and the costs, which need `costofbalking[1]`.
   */
  method BalkSummary(b: Balking, queueLengths: map<int, Tally>, systemStates: map<int, Tally>, h: nat,
                     roster: seq<Player>, completed: seq<nat>, balked: seq<nat>, warmup: real)
    returns (r: Result<Report>)
    requires HasTicks(queueLengths, h) && HasTicks(systemStates, h)
    requires Within(completed, |roster|) && Within(balked, |roster|)
    ensures b.Mixed? ==> r == Ok(BalkReportOf(queueLengths, systemStates, h, roster, completed, balked, warmup, b.cost))
    ensures !b.Mixed? ==> r == Err(NotSubscriptable)
  {
    var selfishLengths, selfishStates := TickLists(queueLengths, systemStates, h, warmup, SelfishPart);
    var otherLengths, otherStates := TickLists(queueLengths, systemStates, h, warmup, OptimalPart);
    var selfishWaits, selfishServices := TimeLists(roster, completed, warmup, SelfishClass);
    var otherWaits, otherServices := TimeLists(roster, completed, warmup, OtherClass);
    var selfishBalks, otherBalks := BalkCounts(roster, balked, warmup);
    if !b.Mixed? {
      r := Err(NotSubscriptable);
      return;
    }
    r := Ok(BalkReportFrom(selfishLengths, otherLengths, selfishStates, otherStates,
                           selfishServices, selfishWaits, otherServices, otherWaits, selfishBalks, otherBalks, b.cost));
  }

  /**
   * `for t in self.queuelengthdict: if t >= warmup: ...append(...)`: the
   * queue lengths and system states from warmup on, in tick order, each
   * entry read as `part` says.
   */
  method TickLists(queueLengths: map<int, Tally>, systemStates: map<int, Tally>, h: nat, warmup: real, part: Part)
    returns (lengths: seq<real>, states: seq<real>)
    requires HasTicks(queueLengths, h) && HasTicks(systemStates, h)
    ensures lengths == Series(queueLengths, h, warmup, part)
    ensures states == Series(systemStates, h, warmup, part)
  {
    lengths, states := [], [];
    var t := 1;
    while t <= h
      invariant 1 <= t <= h + 1
      invariant lengths == Series(queueLengths, t - 1, warmup, part)
      invariant states == Series(systemStates, t - 1, warmup, part)
    {
      assert Series(queueLengths, t, warmup, part) == lengths + (if t as real >= warmup then [Value(queueLengths[t], part)] else []);
      assert Series(systemStates, t, warmup, part) == states + (if t as real >= warmup then [Value(systemStates[t], part)] else []);
      if t as real >= warmup {
        lengths := lengths + [Value(queueLengths[t], part)];
        states := states + [Value(systemStates[t], part)];
      }
      t := t + 1;
    }
  }

  /**
   * `for p in self.completed: if p.arrivaldate >= warmup: ...`: the waiting
   * and service times of the group's completed players from warmup on, in
   * order of completion.
   */
  method TimeLists(roster: seq<Player>, completed: seq<nat>, warmup: real, g: Group)
    returns (waits: seq<real>, services: seq<real>)
    requires Within(completed, |roster|)
    ensures waits == Column(roster, completed, warmup, g, WaitingTime)
    ensures services == Column(roster, completed, warmup, g, ServiceTime)
  {
    waits, services := [], [];
    var k := 0;
    while k < |completed|
      invariant 0 <= k <= |completed|
      invariant waits == Column(roster, completed[..k], warmup, g, WaitingTime)
      invariant services == Column(roster, completed[..k], warmup, g, ServiceTime)
    {
      assert completed[..k + 1][..k] == completed[..k];
      var p := roster[completed[k]];
      if p.arrivalDate >= warmup && InGroup(p, g) {
        waits := waits + [p.waitingTime];
        services := services + [p.serviceTime];
      }
      k := k + 1;
    }
    assert completed[..k] == completed;
  }

  /** Lines 630-637: how many selfish and how many other players balked from warmup on. */
  method BalkCounts(roster: seq<Player>, balked: seq<nat>, warmup: real) returns (selfishBalks: nat, otherBalks: nat)
    requires Within(balked, |roster|)
    ensures selfishBalks == KeptCount(roster, balked, warmup, SelfishClass)
    ensures otherBalks == KeptCount(roster, balked, warmup, OtherClass)
    ensures selfishBalks + otherBalks == KeptCount(roster, balked, warmup, Everyone)
  {
    selfishBalks, otherBalks := 0, 0;
    var k := 0;
    while k < |balked|
      invariant 0 <= k <= |balked|
      invariant selfishBalks == KeptCount(roster, balked[..k], warmup, SelfishClass)
      invariant otherBalks == KeptCount(roster, balked[..k], warmup, OtherClass)
      invariant selfishBalks + otherBalks == KeptCount(roster, balked[..k], warmup, Everyone)
    {
      assert balked[..k + 1][..k] == balked[..k];
      var p := roster[balked[k]];
      if p.arrivalDate >= warmup {
        if p.kind.Selfish? {
          selfishBalks := selfishBalks + 1;
        } else {
          otherBalks := otherBalks + 1;
        }
      }
      k := k + 1;
    }
    assert balked[..k] == balked;
  }

  /** With the default warmup of 0 (or any warmup up to the first tick) every recorded tick is summarised. */
  lemma {:induction false} EarlyWarmupKeepsAllTicks(h: nat, warmup: real)
    requires 0 <= h && warmup <= 1.0
    ensures TicksFrom(h, warmup) == h
    decreases h
  {
    if h > 0 {
      EarlyWarmupKeepsAllTicks(h - 1, warmup);
    }
  }

  /** With a warmup no later than every arrival, every completed player of the group is summarised. */
  lemma {:induction false} EarlyWarmupKeepsAllPlayers(roster: seq<Player>, ids: seq<nat>, warmup: real)
    requires Within(ids, |roster|)
    requires forall j :: 0 <= j < |ids| ==> warmup <= roster[ids[j]].arrivalDate
    ensures KeptCount(roster, ids, warmup, Everyone) == |ids|
    decreases |ids|
  {
    if ids != [] {
      EarlyWarmupKeepsAllPlayers(roster, ids[..|ids| - 1], warmup);
    }
  }

  /** The tallies recorded at ticks 1..h are all well tallied. */
  ghost predicate TalliedUpTo(b: Balking, queueLengths: map<int, Tally>, systemStates: map<int, Tally>, h: nat)
  {
    HasTicks(queueLengths, h) && HasTicks(systemStates, h) &&
    forall k :: 1 <= k <= h ==> WellTallied(b, queueLengths[k], systemStates[k])
  }

  /** What `run` records is well tallied at every tick. */
  lemma RecordedTallied(b: Balking, queueLengths: map<int, Tally>, systemStates: map<int, Tally>, h: nat)
    requires Recorded(b, queueLengths, systemStates, h)
    ensures TalliedUpTo(b, queueLengths, systemStates, h)
  {
  }

  /**
   * Without balking, the system state recorded at a tick is 0 or the queue
   * length plus one; so the reported mean system state (`meansystemstate`,
   * the mean of the states series) is never more than one above the
   * reported mean queue length.
   */
  lemma NoBalkSystemStateBound(b: Balking, queueLengths: map<int, Tally>, systemStates: map<int, Tally>, h: nat,
                               warmup: real)
    requires Recorded(b, queueLengths, systemStates, h) && !Truthy(b)
    requires TicksFrom(h, warmup) > 0
    ensures var meanLength, meanState := Mean(Series(queueLengths, h, warmup, Whole)), Mean(Series(systemStates, h, warmup, Whole));
      meanLength.Some? && meanState.Some? && 0.0 <= meanState.value <= meanLength.value + 1.0
  {
    var lengths, states := Series(queueLengths, h, warmup, Whole), Series(systemStates, h, warmup, Whole);
    RecordedTallied(b, queueLengths, systemStates, h);
    StatesFollowLengths(b, queueLengths, systemStates, h, warmup);
    assert forall i :: 0 <= i < |states| ==> 0.0 <= states[i] <= lengths[i] + 1.0;
    AtMostOneMore(lengths, states);
  }

  /** Items never above their partner plus one, and not negative, have a mean in [0, partner mean + 1]. */
  lemma AtMostOneMore(lengths: seq<real>, states: seq<real>)
    requires |lengths| == |states| && states != []
    requires forall i :: 0 <= i < |states| ==> 0.0 <= states[i] <= lengths[i] + 1.0
    ensures 0.0 <= Mean(states).value <= Mean(lengths).value + 1.0
  {
    var ones := seq(|lengths|, i => 1.0);
    var shifted := Pointwise(lengths, ones);
    MeanAtLeast(states, 0.0);
    MeanDominated(states, shifted);
    MeanPointwise(lengths, ones);
    MeanBetween(ones, 1.0, 1.0);
  }

  /** Without balking each recorded system state is 0 or the queue length at that tick plus one. */
  lemma {:induction false} StatesFollowLengths(b: Balking, queueLengths: map<int, Tally>, systemStates: map<int, Tally>,
                                               h: nat, warmup: real)
    requires TalliedUpTo(b, queueLengths, systemStates, h) && !Truthy(b)
    ensures forall i :: 0 <= i < TicksFrom(h, warmup) ==>
      Series(systemStates, h, warmup, Whole)[i] == 0.0 ||
      Series(systemStates, h, warmup, Whole)[i] == Series(queueLengths, h, warmup, Whole)[i] + 1.0
    decreases h
  {
    if h > 0 {
      assert TalliedUpTo(b, queueLengths, systemStates, h - 1);
      StatesFollowLengths(b, queueLengths, systemStates, h - 1, warmup);
      assert WellTallied(b, queueLengths[h], systemStates[h]);
      var lengths, states := Series(queueLengths, h - 1, warmup, Whole), Series(systemStates, h - 1, warmup, Whole);
      if h as real >= warmup {
        assert Series(queueLengths, h, warmup, Whole) == lengths + [Value(queueLengths[h], Whole)];
        assert Series(systemStates, h, warmup, Whole) == states + [Value(systemStates[h], Whole)];
      } else {
        assert Series(queueLengths, h, warmup, Whole) == lengths;
        assert Series(systemStates, h, warmup, Whole) == states;
      }
    }
  }

  /**
   * With balking, the reported overall mean queue length (the mean of
   * `sum(k) for k in zip(...)`) is the mean of the whole count at each
   * tick, and the selfish mean plus the optimal mean; so is the overall
   * mean system state.
   */
  lemma BalkOverallMeans(b: Balking, queueLengths: map<int, Tally>, systemStates: map<int, Tally>, h: nat, warmup: real)
    requires Recorded(b, queueLengths, systemStates, h) && Truthy(b)
    requires TicksFrom(h, warmup) > 0
    ensures var selfish, other := Series(queueLengths, h, warmup, SelfishPart), Series(queueLengths, h, warmup, OptimalPart);
      Mean(Pointwise(selfish, other)) == Mean(Series(queueLengths, h, warmup, Whole)) == Some(Mean(selfish).value + Mean(other).value)
    ensures var selfish, other := Series(systemStates, h, warmup, SelfishPart), Series(systemStates, h, warmup, OptimalPart);
      Mean(Pointwise(selfish, other)) == Mean(Series(systemStates, h, warmup, Whole)) == Some(Mean(selfish).value + Mean(other).value)
  {
    RecordedTallied(b, queueLengths, systemStates, h);
    PairsAddUp(b, queueLengths, systemStates, h, warmup);
    MeanPointwise(Series(queueLengths, h, warmup, SelfishPart), Series(queueLengths, h, warmup, OptimalPart));
    MeanPointwise(Series(systemStates, h, warmup, SelfishPart), Series(systemStates, h, warmup, OptimalPart));
  }

  /**
   * With balking every entry is a pair, so `sum(k) for k in zip(...)` is
   * the whole count at each tick: the overall mean is the mean of the
   * total queue length (or system state).
   */
  lemma {:induction false} PairsAddUp(b: Balking, queueLengths: map<int, Tally>, systemStates: map<int, Tally>,
                                      h: nat, warmup: real)
    requires TalliedUpTo(b, queueLengths, systemStates, h) && Truthy(b)
    ensures Pointwise(Series(queueLengths, h, warmup, SelfishPart), Series(queueLengths, h, warmup, OptimalPart)) ==
            Series(queueLengths, h, warmup, Whole)
    ensures Pointwise(Series(systemStates, h, warmup, SelfishPart), Series(systemStates, h, warmup, OptimalPart)) ==
            Series(systemStates, h, warmup, Whole)
    decreases h
  {
    if h > 0 {
      assert TalliedUpTo(b, queueLengths, systemStates, h - 1);
      PairsAddUp(b, queueLengths, systemStates, h - 1, warmup);
      assert WellTallied(b, queueLengths[h], systemStates[h]);
      PointwiseStep(queueLengths, h, warmup);
      PointwiseStep(systemStates, h, warmup);
    }
  }

  lemma PointwiseStep(d: map<int, Tally>, h: nat, warmup: real)
    requires 0 < h && HasTicks(d, h) && d[h].Split?
    requires Pointwise(Series(d, h - 1, warmup, SelfishPart), Series(d, h - 1, warmup, OptimalPart)) ==
             Series(d, h - 1, warmup, Whole)
    ensures Pointwise(Series(d, h, warmup, SelfishPart), Series(d, h, warmup, OptimalPart)) == Series(d, h, warmup, Whole)
  {
    var s, o := Series(d, h - 1, warmup, SelfishPart), Series(d, h - 1, warmup, OptimalPart);
    if h as real >= warmup {
      PointwiseAppend(s, o, [Value(d[h], SelfishPart)], [Value(d[h], OptimalPart)]);
    }
  }

  /**
   * The system time a group reports, mean service plus mean waiting time,
   * is the mean time its completed players spent from arrival to the end
   * of their service.
   */
  lemma SystemTimeIsStay(roster: seq<Player>, completed: seq<nat>, warmup: real, g: Group)
    requires Within(completed, |roster|)
    requires forall j :: 0 <= j < |completed| ==> Done(roster[completed[j]])
    ensures SystemTime(Column(roster, completed, warmup, g, ServiceTime), Column(roster, completed, warmup, g, WaitingTime)) ==
            AsNumber(Mean(Column(roster, completed, warmup, g, TimeInSystem)))
  {
    var services := Column(roster, completed, warmup, g, ServiceTime);
    var waits := Column(roster, completed, warmup, g, WaitingTime);
    StaysAddUp(roster, completed, warmup, g);
    if services != [] {
      MeanPointwise(services, waits);
    }
  }

  lemma {:induction false} StaysAddUp(roster: seq<Player>, ids: seq<nat>, warmup: real, g: Group)
    requires Within(ids, |roster|)
    requires forall j :: 0 <= j < |ids| ==> Done(roster[ids[j]])
    ensures Pointwise(Column(roster, ids, warmup, g, ServiceTime), Column(roster, ids, warmup, g, WaitingTime)) ==
            Column(roster, ids, warmup, g, TimeInSystem)
    decreases |ids|
  {
    if ids != [] {
      var front := ids[..|ids| - 1];
      StaysAddUp(roster, front, warmup, g);
      var p := roster[ids[|ids| - 1]];
      if Kept(p, warmup, g) {
        assert Done(p);
        PointwiseAppend(Column(roster, front, warmup, g, ServiceTime), Column(roster, front, warmup, g, WaitingTime),
                        [p.serviceTime], [p.waitingTime]);
      }
    }
  }

  /** Completed players never wait a negative time, so a reported mean waiting time is not negative. */
  lemma MeanWaitNotNegative(roster: seq<Player>, completed: seq<nat>, warmup: real, g: Group)
    requires Within(completed, |roster|)
    requires forall j :: 0 <= j < |completed| ==> Done(roster[completed[j]])
    ensures var m := Mean(Column(roster, completed, warmup, g, WaitingTime)); m.Some? ==> 0.0 <= m.value
  {
    var waits := Column(roster, completed, warmup, g, WaitingTime);
    if waits != [] {
      WaitsNotNegative(roster, completed, warmup, g);
      MeanAtLeast(waits, 0.0);
    }
  }

  lemma {:induction false} WaitsNotNegative(roster: seq<Player>, ids: seq<nat>, warmup: real, g: Group)
    requires Within(ids, |roster|)
    requires forall j :: 0 <= j < |ids| ==> Done(roster[ids[j]])
    ensures forall i :: 0 <= i < |Column(roster, ids, warmup, g, WaitingTime)| ==> 0.0 <= Column(roster, ids, warmup, g, WaitingTime)[i]
    decreases |ids|
  {
    if ids != [] {
      var front := ids[..|ids| - 1];
      WaitsNotNegative(roster, front, warmup, g);
      var p := roster[ids[|ids| - 1]];
      assert Done(p);
      assert Column(roster, ids, warmup, g, WaitingTime) ==
             Column(roster, front, warmup, g, WaitingTime) + (if Kept(p, warmup, g) then [p.waitingTime] else []);
    }
  }
}
