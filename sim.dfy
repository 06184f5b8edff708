/**
 * `Sim` of graphicalMM1.py: the tick-driven M/M/1 simulation with balking.
 *
 * Every player the simulation creates is kept in `roster`, by creation
 * order; the queue, the server and the lists of completed and balked players
 * hold positions in it. The random numbers the source draws (the two
 * exponential samples of a new player and the uniform sample that picks its
 * class) come from `draws`: the k-th created player uses `draws(k)`.
 */
module Simulation {
  import opened Players
  import opened Queueing
  import Naor
  import Stats

  /**
   * The `costofbalking` argument: False (no balking), a number (every
   * player is selfish with that cost) or a list [proportion, cost] (a
   * player is selfish with that probability, otherwise optimal).
   */
  datatype Balking =
    | NoBalking
    | AllSelfish(cost: real)
    | Mixed(proportion: real, cost: real)

  /** The random samples used when the k-th player is created. */
  datatype Draw = Draw(u: real, interArrivalTime: real, serviceTime: real)

  /**
   * An entry of `queuelengthdict` or `systemstatedict`: a number without
   * balking, the pair [selfish, optimal] with it.
   */
  datatype Tally = Count(n: nat) | Split(selfish: nat, optimal: nat)

  /** Python truthiness of `costofbalking`: False and 0.0 are false, any list is true. */
  predicate Truthy(b: Balking)
  {
    match b
    case NoBalking => false
    case AllSelfish(cost) => cost != 0.0
    case Mixed(_, _) => true
  }

  /** The cost handed to `naorthreshold`; False counts as 0. */
  function ThresholdCost(b: Balking): (c: real)
    ensures b.NoBalking? ==> c == 0.0
    ensures !b.NoBalking? ==> c == b.cost
  {
    match b
    case NoBalking => 0.0
    case AllSelfish(cost) => cost
    case Mixed(_, cost) => cost
  }

  /** The class `newplayer` picks, given the uniform sample u. */
  function KindFor(b: Balking, threshold: nat, u: real): (k: Kind)
    ensures !Truthy(b) <==> k.Plain?
    ensures k.Selfish? ==> k.costOfBalking == b.cost
    ensures k.Optimal? ==> b.Mixed? && u >= b.proportion && k.naorThreshold == threshold
    ensures b.Mixed? ==> (k.Selfish? <==> u < b.proportion)
  {
    if !Truthy(b) then Plain
    else match b
      case Mixed(proportion, cost) => if u < proportion then Selfish(cost) else Optimal(threshold)
      case AllSelfish(cost) => Selfish(cost)
      case NoBalking => Plain
  }

  /** The value of t when `while t < T: t += 1` stops, starting from 0. */
  function Horizon(T: real): (h: nat)
    ensures T <= h as real
    ensures h == 0 || ((h - 1) as real) < T
  {
    if T <= 0.0 then 0
    else if T.Floor as real == T then T.Floor
    else T.Floor + 1
  }

  /** The keys of d are the ticks 1..h, those recorded by a run that stopped at h. */
  ghost predicate KeysAreTicks(d: map<int, Tally>, h: int)
  {
    forall k :: k in d <==> 1 <= k <= h
  }

  /** The tallies recorded at ticks 1..h: both maps have those keys and every pair is well tallied. */
  ghost predicate Recorded(b: Balking, queueLengths: map<int, Tally>, systemStates: map<int, Tally>, h: int)
  {
    KeysAreTicks(queueLengths, h) && KeysAreTicks(systemStates, h) &&
    forall k :: k in queueLengths ==> k in systemStates && WellTallied(b, queueLengths[k], systemStates[k])
  }

  /** Recording a well-tallied pair at the next tick keeps the record. */
  lemma RecordStep(b: Balking, queueLengths: map<int, Tally>, systemStates: map<int, Tally>, h0: int, h: int, q: Tally, s: Tally)
    requires 0 <= h0 && h == h0 + 1 && Recorded(b, queueLengths, systemStates, h0) && WellTallied(b, q, s)
    ensures Recorded(b, queueLengths[h := q], systemStates[h := s], h)
  {
    var q1, s1 := queueLengths[h := q], systemStates[h := s];
    forall k
      ensures (k in q1 <==> 1 <= k <= h) && (k in s1 <==> 1 <= k <= h)
    {
      if k != h {
        assert (k in q1) == (k in queueLengths) && (k in s1) == (k in systemStates);
      }
    }
  }

  /** `self.server.players[1:]`, which is [] for an empty list. */
  function Tail(s: seq<nat>): (r: seq<nat>)
    ensures |s| > 0 ==> r == s[1..]
    ensures |s| == 0 ==> r == []
  {
    if |s| == 0 then [] else s[1..]
  }

  /** The service date of every player, by position. */
  function ServiceDates(roster: seq<Player>): (d: seq<real>)
    ensures |d| == |roster| && forall k :: 0 <= k < |roster| ==> d[k] == roster[k].serviceDate
  {
    seq(|roster|, k requires 0 <= k < |roster| => roster[k].serviceDate)
  }

  /** How many of the given players are of the selfish class. */
  function CountSelfish(roster: seq<Player>, ids: seq<nat>): (n: nat)
    requires Within(ids, |roster|)
    ensures n <= |ids|
    decreases |ids|
  {
    if ids == [] then 0
    else CountSelfish(roster, ids[..|ids| - 1]) + (if roster[ids[|ids| - 1]].kind.Selfish? then 1 else 0)
  }

  /** How many of the given players are of the optimal class. */
  function CountOptimal(roster: seq<Player>, ids: seq<nat>): (n: nat)
    requires Within(ids, |roster|)
    ensures n <= |ids|
    decreases |ids|
  {
    if ids == [] then 0
    else CountOptimal(roster, ids[..|ids| - 1]) + (if roster[ids[|ids| - 1]].kind.Optimal? then 1 else 0)
  }

  /** With no plain player among them, every player is counted once, as selfish or optimal. */
  lemma {:induction false} CountsCover(roster: seq<Player>, ids: seq<nat>)
    requires Within(ids, |roster|)
    requires forall k :: 0 <= k < |ids| ==> !roster[ids[k]].kind.Plain?
    ensures CountSelfish(roster, ids) + CountOptimal(roster, ids) == |ids|
    decreases |ids|
  {
    if ids != [] {
      CountsCover(roster, ids[..|ids| - 1]);
    }
  }

  /** `queuelengthdict[t]` as `collectdata` computes it. */
  function QueueTally(b: Balking, roster: seq<Player>, queue: seq<nat>): (r: Tally)
    requires Within(queue, |roster|)
    ensures Truthy(b) ==> r.Split? && r.selfish == CountSelfish(roster, queue) && r.selfish + r.optimal == |queue|
    ensures !Truthy(b) ==> r.Count? && r.n == |queue|
  {
    if Truthy(b) then
      var selfish := CountSelfish(roster, queue);
      Split(selfish, |queue| - selfish)
    else Count(|queue|)
  }

  /** `systemstatedict[t]` as `collectdata` computes it: nobody counts while the server is free. */
  function SystemTally(b: Balking, roster: seq<Player>, queue: seq<nat>, server: seq<nat>): (r: Tally)
    requires Within(queue, |roster|) && Within(server, |roster|)
    ensures !Truthy(b) ==> r == Count(if |server| == 0 then 0 else |queue| + 1)
    ensures Truthy(b) && |server| == 0 ==> r == Split(0, 0)
    ensures Truthy(b) && |server| > 0 ==> r == Split(
      QueueTally(b, roster, queue).selfish + CountSelfish(roster, server),
      QueueTally(b, roster, queue).optimal + CountOptimal(roster, server))
  {
    var q := QueueTally(b, roster, queue);
    if Truthy(b) then
      if |server| == 0 then Split(0, 0)
      else Split(q.selfish + CountSelfish(roster, server), q.optimal + CountOptimal(roster, server))
    else if |server| == 0 then Count(0)
    else Count(q.n + 1)
  }

  /**
   * What a recorded pair of entries says: without balking the system state
   * is 0 (server free) or the queue length plus one; with balking it is
   * [0, 0] or the queue's pair plus the single player in service.
   */
  ghost predicate WellTallied(b: Balking, q: Tally, s: Tally)
  {
    if Truthy(b) then
      q.Split? && s.Split? &&
      (s == Split(0, 0) ||
       (q.selfish <= s.selfish && q.optimal <= s.optimal && s.selfish + s.optimal == q.selfish + q.optimal + 1))
    else
      q.Count? && s.Count? && (s.n == 0 || s.n == q.n + 1)
  }

  /**
   * `collectdata` records a well-tallied pair whenever the server holds at
   * most one player and, with balking, nobody is of the plain class.
   */
  lemma TallyMeaning(b: Balking, roster: seq<Player>, queue: seq<nat>, server: seq<nat>)
    requires Within(queue, |roster|) && Within(server, |roster|) && |server| <= 1
    requires Truthy(b) ==> forall k :: 0 <= k < |roster| ==> !roster[k].kind.Plain?
    ensures WellTallied(b, QueueTally(b, roster, queue), SystemTally(b, roster, queue, server))
  {
    if Truthy(b) && |server| == 1 {
      CountsCover(roster, server);
    }
  }

  predicate Increasing(s: seq<nat>)
  {
    forall i, j :: 0 <= i < j < |s| ==> s[i] < s[j]
  }

  predicate Within(s: seq<nat>, n: nat)
  {
    forall i :: 0 <= i < |s| ==> s[i] < n
  }

  /** A player in service: started at its end-of-queue date, not after t. */
  ghost predicate InService(p: Player, t: real)
  {
    !p.served && !p.balked &&
    p.serviceDate == p.endQueueDate + p.serviceTime &&
    p.arrivalDate <= p.endQueueDate <= t
  }

  /** A player whose service has ended, with the dates `endservice` records. */
  ghost predicate Done(p: Player)
  {
    p.served && !p.balked &&
    p.endServiceDate == p.endQueueDate + p.serviceTime &&
    p.waitingTime == p.endQueueDate - p.arrivalDate &&
    0.0 <= p.waitingTime
  }

  /** The queue holds players in arrival order who have arrived, neither served nor balked. */
  ghost predicate QueueOk(roster: seq<Player>, queue: seq<nat>, t: real)
  {
    Increasing(queue) && Within(queue, |roster|) &&
    forall j :: 0 <= j < |queue| ==>
      !roster[queue[j]].served && !roster[queue[j]].balked && roster[queue[j]].arrivalDate <= t
  }

  /**
   * At most one player is in service: it came before everybody in the
   * queue, after everybody completed, and started after they all left. It
   * can still be at the head of the queue only when it is the first player.
   */
  ghost predicate ServerOk(roster: seq<Player>, queue: seq<nat>, server: seq<nat>, completed: seq<nat>,
                           nextServiceDate: real, t: real)
  {
    Within(server, |roster|) && Within(completed, |roster|) && |server| <= 1 &&
    (|server| == 1 ==>
      InService(roster[server[0]], t) &&
      nextServiceDate == roster[server[0]].serviceDate &&
      (|queue| > 0 ==> server[0] <= queue[0]) &&
      (|queue| > 0 && server[0] == queue[0] ==> server[0] == 0) &&
      forall j :: 0 <= j < |completed| ==>
        completed[j] < server[0] && roster[completed[j]].endServiceDate < roster[server[0]].endQueueDate)
  }

  /**
   * Completed players left in arrival order (FIFO), before t, one service
   * after another, and all came before those still queued.
   */
  ghost predicate CompletedOk(roster: seq<Player>, queue: seq<nat>, completed: seq<nat>, t: real)
  {
    Increasing(completed) && Within(completed, |roster|) &&
    (forall j :: 0 <= j < |completed| ==> Done(roster[completed[j]]) && roster[completed[j]].endServiceDate < t) &&
    (forall i, j :: 0 <= i < j < |completed| ==>
      roster[completed[i]].endServiceDate < roster[completed[j]].endQueueDate) &&
    (forall i, j :: 0 <= i < |completed| && 0 <= j < |queue| ==> completed[i] < queue[j])
  }

  /** Balked players are marked so, never served, and of a balking class. */
  ghost predicate BalkedOk(roster: seq<Player>, balked: seq<nat>)
  {
    Increasing(balked) && Within(balked, |roster|) &&
    forall j :: 0 <= j < |balked| ==>
      roster[balked[j]].balked && !roster[balked[j]].served && !roster[balked[j]].kind.Plain?
  }

  /** x is a whole number. */
  predicate IsTick(x: real)
  {
    x.Floor as real == x
  }

  /**
   * Players 0..last have arrived, at whole ticks no later than t, at most
   * one per tick. Player i arrives at the first tick after the previous
   * arrival at which its inter-arrival time has elapsed, so less than one
   * tick late.
   */
  ghost predicate ArrivalsOk(roster: seq<Player>, last: nat, t: real)
  {
    last < |roster| && roster[0].arrivalDate == 0.0 &&
    (forall i :: 0 <= i <= last ==> IsTick(roster[i].arrivalDate) && 0.0 <= roster[i].arrivalDate <= t) &&
    (forall i, j :: 0 <= i && j == i + 1 && j <= last ==> Follows(roster[i], roster[j]))
  }

  /**
   * p arrived at a later tick than prev, after prev's arrival plus p's
   * inter-arrival time, and less than one tick after that.
   */
  ghost predicate Follows(prev: Player, p: Player)
  {
    prev.arrivalDate + 1.0 <= p.arrivalDate &&
    prev.arrivalDate + p.interArrivalTime < p.arrivalDate &&
    p.arrivalDate - 1.0 <= Stats.Max(prev.arrivalDate + p.interArrivalTime, prev.arrivalDate)
  }

  /** The created player after `last` has not arrived by tick t. */
  ghost predicate PendingOk(roster: seq<Player>, last: nat, t: real)
  {
    last + 1 < |roster| ==>
      !roster[last + 1].served && !roster[last + 1].balked &&
      (t == roster[last].arrivalDate || t <= roster[last].arrivalDate + roster[last + 1].interArrivalTime)
  }

  /**
   * The invariants on players at tick t, when players 0..last have arrived.
   * The body binds the conjunction to `ok` and returns it, so that a use of
   * StateOk stays a single fact instead of being split into its conjuncts
   * wherever it appears; the lemmas below open it where they need a part.
   */
  ghost predicate StateOk(roster: seq<Player>, queue: seq<nat>, server: seq<nat>, completed: seq<nat>, balked: seq<nat>,
                          nextServiceDate: real, t: real, last: nat)
  {
    var ok :=
      Within(queue, last + 1) && Within(server, last + 1) && Within(completed, last + 1) && Within(balked, last + 1) &&
      QueueOk(roster, queue, t) &&
      ServerOk(roster, queue, server, completed, nextServiceDate, t) &&
      CompletedOk(roster, queue, completed, t) &&
      BalkedOk(roster, balked) &&
      ArrivalsOk(roster, last, t);
    ok
  }

  /** Two rosters that agree on every arrival date and inter-arrival time. */
  ghost predicate SameArrivals(r0: seq<Player>, r1: seq<Player>)
  {
    |r0| == |r1| &&
    forall k :: 0 <= k < |r0| ==>
      r1[k].arrivalDate == r0[k].arrivalDate && r1[k].interArrivalTime == r0[k].interArrivalTime
  }

  lemma ArrivalsTransfer(r0: seq<Player>, r1: seq<Player>, last: nat, t: real)
    requires SameArrivals(r0, r1) && ArrivalsOk(r0, last, t)
    ensures ArrivalsOk(r1, last, t)
  {
  }

  /** The invariants on players, apart from those about arrivals, do not depend on how late it is. */
  lemma StateLater(roster: seq<Player>, queue: seq<nat>, server: seq<nat>, completed: seq<nat>, balked: seq<nat>,
                   nextServiceDate: real, t: real, t': real, last: nat)
    requires StateOk(roster, queue, server, completed, balked, nextServiceDate, t, last) && t <= t'
    ensures StateOk(roster, queue, server, completed, balked, nextServiceDate, t', last)
  {
  }

  /** Creating a player (appending to the roster) keeps the invariants. */
  lemma StateExtend(roster: seq<Player>, p: Player, queue: seq<nat>, server: seq<nat>, completed: seq<nat>, balked: seq<nat>,
                    nextServiceDate: real, t: real, last: nat)
    requires StateOk(roster, queue, server, completed, balked, nextServiceDate, t, last)
    requires Accounted(roster, queue, server, completed, balked, last)
    ensures StateOk(roster + [p], queue, server, completed, balked, nextServiceDate, t, last)
    ensures Accounted(roster + [p], queue, server, completed, balked, last)
  {
    AccountedExtend(roster, p, queue, server, completed, balked, last);
    var r := roster + [p];
    assert forall k :: 0 <= k < |roster| ==> r[k] == roster[k];
    ArrivalsTransfer(roster, r[..|roster|], last, t);
    assert r[..|roster|] == roster;
  }

  /**
   * The first player arrives at 0 and, unless it balked, starts service at
   * once while staying at the head of the queue; the second player is
   * created and waits to arrive.
   */
  lemma FirstArrivalOk(roster: seq<Player>, queue: seq<nat>, server: seq<nat>, completed: seq<nat>, balked: seq<nat>,
                       nextServiceDate: real, t: real, first: nat)
    requires t == 0.0 && first == 0
    requires |roster| == 2 && roster[0].arrivalDate == t && !roster[0].served && completed == [] && balked == []
    requires !roster[1].served && !roster[1].balked
    requires roster[0].balked ==> queue == [] && server == []
    requires !roster[0].balked ==>
      queue == [0] && server == [0] && nextServiceDate == roster[0].serviceDate && InService(roster[0], t)
    ensures StateOk(roster, queue, server, completed, balked, nextServiceDate, t, first) && PendingOk(roster, first, t)
    ensures Accounted(roster, queue, server, completed, balked, first)
  {
    assert IsTick(0.0);
    AccountedFirst(roster, queue, server);
  }

  /** A player created right after an arrival at t has not arrived by t. */
  lemma PendingFresh(roster: seq<Player>, p: Player, last: nat, t: real)
    requires |roster| == last + 1 && roster[last].arrivalDate == t && !p.served && !p.balked
    ensures PendingOk(roster + [p], last, t)
  {
  }

  /** Changes that keep every arrival and the waiting player keep the pending player's invariant. */
  lemma PendingTransfer(r0: seq<Player>, r1: seq<Player>, last: nat, t: real)
    requires SameArrivals(r0, r1) && PendingOk(r0, last, t)
    requires last + 1 < |r0| ==> r1[last + 1] == r0[last + 1]
    ensures PendingOk(r1, last, t)
  {
  }

  /** Changing a player who is not in the queue keeps the queue's invariant. */
  lemma QueueOkUpdate(r0: seq<Player>, q: seq<nat>, t: real, i: nat, p: Player)
    requires QueueOk(r0, q, t) && i < |r0|
    requires forall j :: 0 <= j < |q| ==> q[j] != i
    ensures QueueOk(r0[i := p], q, t)
  {
  }

  /** Changing a player who has not completed keeps the completed list's invariant. */
  lemma CompletedOkUpdate(r0: seq<Player>, q: seq<nat>, c: seq<nat>, t: real, i: nat, p: Player)
    requires CompletedOk(r0, q, c, t) && i < |r0| && Within(c, i)
    ensures CompletedOk(r0[i := p], q, c, t)
  {
    assert forall j :: 0 <= j < |c| ==> r0[i := p][c[j]] == r0[c[j]];
  }

  /** Changing a player who has not balked keeps the balked list's invariant. */
  lemma BalkedOkUpdate(r0: seq<Player>, b: seq<nat>, i: nat, p: Player)
    requires BalkedOk(r0, b) && i < |r0| && !r0[i].balked
    ensures BalkedOk(r0[i := p], b)
  {
  }

  /**
   * The first check of a tick, when t has passed the next service date: the
   * player in service ends and joins `completed`; then either the server
   * stays free (the queue is empty, or its head was that same player, the
   * first of the run) or the head of the queue starts at t.
   */
  lemma CompleteKeeps(r0: seq<Player>, q0: seq<nat>, s0: seq<nat>, c0: seq<nat>, b0: seq<nat>, nd0: real,
                      r: seq<Player>, q: seq<nat>, s: seq<nat>, c: seq<nat>, b: seq<nat>, nd: real, t: real, last: nat)
    requires StateOk(r0, q0, s0, c0, b0, nd0, t, last) && Accounted(r0, q0, s0, c0, b0, last)
    requires |s0| > 0 && nd0 < t && c == c0 + [s0[0]] && b == b0
    requires var ended := r0[s0[0] := Ended(r0[s0[0]])];
      (|q0| == 0 && q == q0 && s == [] && r == ended) ||
      (|q0| > 0 && q0[0] == s0[0] && q == q0[1..] && s == [] && r == ended) ||
      (|q0| > 0 && q0[0] != s0[0] && q == q0[1..] && s == [q0[0]] &&
       r == ended[q0[0] := Started(r0[q0[0]], t)] && nd == r[q0[0]].serviceDate)
    ensures StateOk(r, q, s, c, b, nd, t, last) && Accounted(r, q, s, c, b, last) && SameArrivals(r0, r)
    ensures forall k :: last < k < |r| ==> r[k] == r0[k]
  {
    if s == [] {
      CompleteIdleKeeps(r0, q0, s0, c0, b0, nd0, r, q, s, c, b, nd, t, last);
    } else {
      CompleteStartKeeps(r0, q0, s0, c0, b0, nd0, r, q, s, c, b, nd, t, last);
    }
    AccountedComplete(r0, q0, s0, c0, b, nd0, r, q, s, c, t, last);
  }

  /**
   * A completion after which the server stays free: the player in service
   * ends and joins `completed`, and either the queue is empty or its head is
   * that same player (the first player of the run), which is popped.
   */
  lemma CompleteIdleKeeps(r0: seq<Player>, q0: seq<nat>, s0: seq<nat>, c0: seq<nat>, b0: seq<nat>, nd0: real,
                          r: seq<Player>, q: seq<nat>, s: seq<nat>, c: seq<nat>, b: seq<nat>, nd: real, t: real, last: nat)
    requires StateOk(r0, q0, s0, c0, b0, nd0, t, last)
    requires |s0| > 0 && nd0 < t && s == [] && b == b0
    requires r == r0[s0[0] := Ended(r0[s0[0]])] && c == c0 + [s0[0]]
    requires (|q0| == 0 && q == q0) || (|q0| > 0 && q0[0] == s0[0] && q == q0[1..])
    ensures StateOk(r, q, s, c, b, nd, t, last) && SameArrivals(r0, r)
    ensures forall k :: last < k < |r| ==> r[k] == r0[k]
  {
    assert SameArrivals(r0, r);
    ArrivalsTransfer(r0, r, last, t);
    CompleteIdleCore(r0, q0, s0, c0, b, nd0, r, q, c, nd, t);
  }

  lemma CompleteIdleCore(r0: seq<Player>, q0: seq<nat>, s0: seq<nat>, c0: seq<nat>, b: seq<nat>, nd0: real,
                         r: seq<Player>, q: seq<nat>, c: seq<nat>, nd: real, t: real)
    requires QueueOk(r0, q0, t) && ServerOk(r0, q0, s0, c0, nd0, t) && CompletedOk(r0, q0, c0, t) && BalkedOk(r0, b)
    requires |s0| > 0 && nd0 < t
    requires r == r0[s0[0] := Ended(r0[s0[0]])] && c == c0 + [s0[0]]
    requires (|q0| == 0 && q == q0) || (|q0| > 0 && q0[0] == s0[0] && q == q0[1..])
    ensures QueueOk(r, q, t) && ServerOk(r, q, [], c, nd, t) && CompletedOk(r, q, c, t) && BalkedOk(r, b)
  {
    var done := s0[0];
    QueueTail(r0, q0, q, t);
    assert forall j :: 0 <= j < |q| ==> q[j] != done;
    QueueOkUpdate(r0, q, t, done, Ended(r0[done]));
    BalkedOkUpdate(r0, b, done, Ended(r0[done]));
    assert forall j :: 0 <= j < |c0| ==> r[c0[j]] == r0[c0[j]];
    CompletedAppend(r0, q0, s0, c0, nd0, r, q, t);
  }

  /** Dropping the head of the queue keeps the queue's invariant. */
  lemma QueueTail(r: seq<Player>, q0: seq<nat>, q: seq<nat>, t: real)
    requires QueueOk(r, q0, t) && ((|q0| == 0 && q == q0) || (|q0| > 0 && q == q0[1..]))
    ensures QueueOk(r, q, t)
  {
    assert forall j :: 0 <= j < |q| ==> q[j] == q0[j + 1];
  }

  /**
   * The player in service ends and is appended to `completed` while the
   * queue loses its head, if any: completions stay in arrival order, ended
   * before t, one after another, and before everybody still queued.
   */
  lemma CompletedAppend(r0: seq<Player>, q0: seq<nat>, s0: seq<nat>, c0: seq<nat>, nd0: real,
                        r: seq<Player>, q: seq<nat>, t: real)
    requires QueueOk(r0, q0, t) && ServerOk(r0, q0, s0, c0, nd0, t) && CompletedOk(r0, q0, c0, t)
    requires |s0| > 0 && nd0 < t && |r| == |r0| && r[s0[0]] == Ended(r0[s0[0]])
    requires forall j :: 0 <= j < |c0| ==> r[c0[j]] == r0[c0[j]]
    requires (|q0| == 0 && q == q0) || (|q0| > 0 && q == q0[1..])
    ensures CompletedOk(r, q, c0 + [s0[0]], t)
  {
    var done, c := s0[0], c0 + [s0[0]];
    assert forall j :: 0 <= j < |c0| ==> c[j] == c0[j];
    assert r[done].endQueueDate == r0[done].endQueueDate;
    assert Done(r[done]) && r[done].endServiceDate < t;
    forall i, j | 0 <= i < |c| && 0 <= j < |q|
      ensures c[i] < q[j]
    {
      assert q[j] == q0[j + 1];
      if i == |c0| {
        assert done <= q0[0] < q0[j + 1];
      }
    }
  }

  /**
   * A completion after which the head of the queue starts: the player in
   * service ends and joins `completed`, the head h (another player) is
   * popped and starts at t.
   */
  lemma CompleteStartKeeps(r0: seq<Player>, q0: seq<nat>, s0: seq<nat>, c0: seq<nat>, b0: seq<nat>, nd0: real,
                           r: seq<Player>, q: seq<nat>, s: seq<nat>, c: seq<nat>, b: seq<nat>, nd: real, t: real, last: nat)
    requires StateOk(r0, q0, s0, c0, b0, nd0, t, last)
    requires |s0| > 0 && nd0 < t && |q0| > 0 && q0[0] != s0[0]
    requires r == r0[s0[0] := Ended(r0[s0[0]])][q0[0] := Started(r0[q0[0]], t)]
    requires c == c0 + [s0[0]] && q == q0[1..] && b == b0
    requires s == [q0[0]] && nd == r[q0[0]].serviceDate
    ensures StateOk(r, q, s, c, b, nd, t, last) && SameArrivals(r0, r)
    ensures forall k :: last < k < |r| ==> r[k] == r0[k]
  {
    var done, h := s0[0], q0[0];
    var r1 := r0[done := Ended(r0[done])];
    assert SameArrivals(r0, r1);
    assert SameArrivals(r0, r);
    ArrivalsTransfer(r0, r, last, t);
    QueueTail(r0, q0, q, t);
    assert forall j :: 0 <= j < |q| ==> q[j] != done && q[j] != h;
    QueueOkUpdate(r0, q, t, done, Ended(r0[done]));
    QueueOkUpdate(r1, q, t, h, Started(r0[h], t));
    BalkedOkUpdate(r0, b, done, Ended(r0[done]));
    BalkedOkUpdate(r1, b, h, Started(r0[h], t));
    CompleteStartServer(r0, q0, s0, c0, nd0, r, q, c, t);
    assert done < h && r[done] == Ended(r0[done]);
    assert forall j :: 0 <= j < |c0| ==> c0[j] < done && r[c0[j]] == r0[c0[j]];
    CompletedAppend(r0, q0, s0, c0, nd0, r, q, t);
  }

  lemma CompleteStartServer(r0: seq<Player>, q0: seq<nat>, s0: seq<nat>, c0: seq<nat>, nd0: real,
                            r: seq<Player>, q: seq<nat>, c: seq<nat>, t: real)
    requires QueueOk(r0, q0, t) && ServerOk(r0, q0, s0, c0, nd0, t) && CompletedOk(r0, q0, c0, t)
    requires |s0| > 0 && nd0 < t && |q0| > 0 && q0[0] != s0[0]
    requires r == r0[s0[0] := Ended(r0[s0[0]])][q0[0] := Started(r0[q0[0]], t)]
    requires c == c0 + [s0[0]] && q == q0[1..]
    ensures ServerOk(r, q, [q0[0]], c, r[q0[0]].serviceDate, t)
  {
    var done, h := s0[0], q0[0];
    assert done < h;
    assert r[h] == Started(r0[h], t) && r[done] == Ended(r0[done]);
    assert InService(r[h], t);
    assert |q| > 0 ==> h < q[0];
    forall j | 0 <= j < |c|
      ensures c[j] < h && r[c[j]].endServiceDate < r[h].endQueueDate
    {
      if j < |c0| {
        assert c0[j] < done && r[c0[j]] == r0[c0[j]];
      }
    }
  }

  /**
   * The waiting player w = last + 1 arrives at tick t, the first tick after
   * the previous arrival plus its inter-arrival time, and joins the tail of
   * the queue or balks.
   */
  lemma ArriveKeeps(r0: seq<Player>, q0: seq<nat>, s: seq<nat>, c: seq<nat>, b0: seq<nat>, nd: real,
                    r: seq<Player>, q: seq<nat>, b: seq<nat>, before: real, t: real, last: nat, joins: bool)
    requires StateOk(r0, q0, s, c, b0, nd, t, last) && ArrivalsOk(r0, last, before) && t == before + 1.0
    requires |r0| == last + 2 && !r0[last + 1].served && !r0[last + 1].balked
    requires PendingOk(r0, last, before) && IsTick(t) && r0[last].arrivalDate + r0[last + 1].interArrivalTime < t
    requires joins || !r0[last + 1].kind.Plain?
    requires r == r0[last + 1 := Arrived(r0[last + 1], t, joins)]
    requires q == (if joins then q0 + [last + 1] else q0) && b == (if joins then b0 else b0 + [last + 1])
    requires Accounted(r0, q0, s, c, b0, last)
    ensures StateOk(r, q, s, c, b, nd, t, last + 1) && Accounted(r, q, s, c, b, last + 1) && r[last + 1].arrivalDate == t
  {
    ArriveArrivals(r0, r, before, t, last, joins);
    ArriveCore(r0, q0, s, c, b0, nd, r, q, b, t, last, joins);
    AccountedArrive(r0, q0, s, c, b0, r, q, b, t, last, joins);
  }

  lemma ArriveArrivals(r0: seq<Player>, r: seq<Player>, before: real, t: real, last: nat, joins: bool)
    requires ArrivalsOk(r0, last, before) && |r0| == last + 2 && t == before + 1.0
    requires PendingOk(r0, last, before) && IsTick(t) && r0[last].arrivalDate + r0[last + 1].interArrivalTime < t
    requires r == r0[last + 1 := Arrived(r0[last + 1], t, joins)]
    ensures ArrivalsOk(r, last + 1, t) && r[last + 1].arrivalDate == t
  {
    var w := last + 1;
    assert forall k :: 0 <= k <= last ==> r[k] == r0[k];
    assert r[w].arrivalDate == t && r[w].interArrivalTime == r0[w].interArrivalTime;
    assert r0[last].arrivalDate <= before;
    assert Follows(r[last], r[w]);
  }

  lemma ArriveCore(r0: seq<Player>, q0: seq<nat>, s: seq<nat>, c: seq<nat>, b0: seq<nat>, nd: real,
                   r: seq<Player>, q: seq<nat>, b: seq<nat>, t: real, last: nat, joins: bool)
    requires Within(q0, last + 1) && Within(s, last + 1) && Within(c, last + 1) && Within(b0, last + 1)
    requires QueueOk(r0, q0, t) && ServerOk(r0, q0, s, c, nd, t) && CompletedOk(r0, q0, c, t) && BalkedOk(r0, b0)
    requires |r0| == last + 2 && !r0[last + 1].served && !r0[last + 1].balked
    requires joins || !r0[last + 1].kind.Plain?
    requires r == r0[last + 1 := Arrived(r0[last + 1], t, joins)]
    requires q == (if joins then q0 + [last + 1] else q0) && b == (if joins then b0 else b0 + [last + 1])
    ensures Within(q, last + 2) && Within(s, last + 2) && Within(c, last + 2) && Within(b, last + 2)
    ensures QueueOk(r, q, t) && ServerOk(r, q, s, c, nd, t) && CompletedOk(r, q, c, t) && BalkedOk(r, b)
  {
    var w := last + 1;
    WithinMore(s, w);
    WithinMore(c, w);
    QueueOkUpdate(r0, q0, t, w, r[w]);
    BalkedOkUpdate(r0, b0, w, r[w]);
    CompletedOkUpdate(r0, q0, c, t, w, r[w]);
    ArriveServer(r0, r, q0, q, s, c, nd, t, w);
    if joins {
      WithinMore(b0, w);
      ArriveJoins(r, q0, c, t, w);
    } else {
      WithinMore(q0, w);
      ArriveBalks(r, b0, w);
    }
  }

  lemma WithinMore(s: seq<nat>, n: nat)
    requires Within(s, n)
    ensures Within(s, n + 1)
  {
  }

  /** A newcomer w joining the tail of the queue keeps the queue's and completed list's invariants. */
  lemma ArriveJoins(r: seq<Player>, q0: seq<nat>, c: seq<nat>, t: real, w: nat)
    requires w < |r| && Within(q0, w) && Within(c, w) && QueueOk(r, q0, t) && CompletedOk(r, q0, c, t)
    requires !r[w].served && !r[w].balked && r[w].arrivalDate <= t
    ensures QueueOk(r, q0 + [w], t) && CompletedOk(r, q0 + [w], c, t) && Within(q0 + [w], w + 1)
  {
    var q := q0 + [w];
    assert forall j :: 0 <= j < |q0| ==> q[j] == q0[j];
  }

  /** A newcomer w that balks is appended to the balked list. */
  lemma ArriveBalks(r: seq<Player>, b0: seq<nat>, w: nat)
    requires w < |r| && Within(b0, w) && BalkedOk(r, b0)
    requires r[w].balked && !r[w].served && !r[w].kind.Plain?
    ensures BalkedOk(r, b0 + [w]) && Within(b0 + [w], w + 1)
  {
    var b := b0 + [w];
    assert forall j :: 0 <= j < |b0| ==> b[j] == b0[j];
  }

  /** The occupant of the server is older than a newcomer w, whom the arrival does not put in service. */
  lemma ArriveServer(r0: seq<Player>, r: seq<Player>, q0: seq<nat>, q: seq<nat>, s: seq<nat>, c: seq<nat>,
                     nd: real, t: real, w: nat)
    requires |r0| == |r| == w + 1 && Within(s, w) && Within(c, w)
    requires forall k :: 0 <= k < w ==> r[k] == r0[k]
    requires ServerOk(r0, q0, s, c, nd, t) && (q == q0 || q == q0 + [w])
    ensures ServerOk(r, q, s, c, nd, t)
  {
    if |s| == 1 && |q| > 0 {
      assert q[0] == (if |q0| > 0 then q0[0] else w);
    }
  }

  /** With the server free, the head of the queue is popped and starts at t. */
  lemma StartHeadKeeps(r0: seq<Player>, q0: seq<nat>, s0: seq<nat>, c0: seq<nat>, b0: seq<nat>, nd0: real,
                       r: seq<Player>, q: seq<nat>, s: seq<nat>, c: seq<nat>, b: seq<nat>, nd: real, t: real, last: nat)
    requires StateOk(r0, q0, s0, c0, b0, nd0, t, last) && s0 == [] && |q0| > 0
    requires r == r0[q0[0] := Started(r0[q0[0]], t)] && q == q0[1..]
    requires s == [q0[0]] && nd == r[q0[0]].serviceDate && c == c0 && b == b0
    requires Accounted(r0, q0, s0, c0, b0, last)
    ensures StateOk(r, q, s, c, b, nd, t, last) && Accounted(r, q, s, c, b, last)
    ensures SameArrivals(r0, r) && forall k :: last < k < |r| ==> r[k] == r0[k]
  {
    StartHeadState(r0, q0, s0, c0, b0, nd0, r, q, s, c, b, nd, t, last);
    AccountedStartHead(r0, q0, c, b, r, q, s, t, last);
  }

  lemma StartHeadState(r0: seq<Player>, q0: seq<nat>, s0: seq<nat>, c0: seq<nat>, b0: seq<nat>, nd0: real,
                       r: seq<Player>, q: seq<nat>, s: seq<nat>, c: seq<nat>, b: seq<nat>, nd: real, t: real, last: nat)
    requires StateOk(r0, q0, s0, c0, b0, nd0, t, last) && s0 == [] && |q0| > 0
    requires r == r0[q0[0] := Started(r0[q0[0]], t)] && q == q0[1..]
    requires s == [q0[0]] && nd == r[q0[0]].serviceDate && c == c0 && b == b0
    ensures StateOk(r, q, s, c, b, nd, t, last) && Within(q0, last + 1)
    ensures SameArrivals(r0, r) && forall k :: last < k < |r| ==> r[k] == r0[k]
  {
    var h := q0[0];
    assert SameArrivals(r0, r);
    ArrivalsTransfer(r0, r, last, t);
    assert forall j :: 0 <= j < |q| ==> q[j] != h;
    QueueOkUpdate(r0, q, t, h, Started(r0[h], t));
    BalkedOkUpdate(r0, b, h, Started(r0[h], t));
    assert forall j :: 0 <= j < |c| ==> c[j] < h && r[c[j]] == r0[c[j]];
  }

  /**
   * Every player who has arrived is accounted for: it is served exactly
   * when it is in `completed`, it is in `balked` exactly when it balked
   * (except the first player, whose balk `run` does not record), and one
   * neither served nor balked is still in the queue or in service.
   */
  ghost predicate Accounted(roster: seq<Player>, queue: seq<nat>, server: seq<nat>, completed: seq<nat>, balked: seq<nat>,
                            last: nat)
  {
    last < |roster| &&
    forall k :: 0 <= k <= last ==>
      (roster[k].served <==> k in completed) &&
      (roster[k].balked && 0 < k <==> k in balked) &&
      (!roster[k].served && !roster[k].balked ==> k in queue || k in server)
  }

  /** After the first arrival player 0 is unserved and, unless it balked, queued. */
  lemma AccountedFirst(roster: seq<Player>, queue: seq<nat>, server: seq<nat>)
    requires |roster| == 2 && !roster[0].served
    requires roster[0].balked || queue == [0]
    ensures Accounted(roster, queue, server, [], [], 0)
  {
  }

  /** Creating a player keeps every arrived player accounted for. */
  lemma AccountedExtend(roster: seq<Player>, p: Player, queue: seq<nat>, server: seq<nat>, completed: seq<nat>,
                        balked: seq<nat>, last: nat)
    requires Accounted(roster, queue, server, completed, balked, last)
    ensures Accounted(roster + [p], queue, server, completed, balked, last)
  {
    assert forall k :: 0 <= k < |roster| ==> (roster + [p])[k] == roster[k];
  }

  /**
   * A completion keeps every arrived player accounted for: the player in
   * service is now served and in `completed`, and the head of the queue,
   * if another player, moves into service.
   */
  lemma AccountedComplete(r0: seq<Player>, q0: seq<nat>, s0: seq<nat>, c0: seq<nat>, b: seq<nat>, nd0: real,
                          r: seq<Player>, q: seq<nat>, s: seq<nat>, c: seq<nat>, t: real, last: nat)
    requires Accounted(r0, q0, s0, c0, b, last) && Within(s0, last + 1)
    requires QueueOk(r0, q0, t) && ServerOk(r0, q0, s0, c0, nd0, t) && CompletedOk(r0, q0, c0, t)
    requires |s0| > 0 && c == c0 + [s0[0]]
    requires var ended := r0[s0[0] := Ended(r0[s0[0]])];
      (|q0| == 0 && q == q0 && s == [] && r == ended) ||
      (|q0| > 0 && q0[0] == s0[0] && q == q0[1..] && s == [] && r == ended) ||
      (|q0| > 0 && q0[0] != s0[0] && q == q0[1..] && s == [q0[0]] && r == ended[q0[0] := Started(r0[q0[0]], t)])
    ensures Accounted(r, q, s, c, b, last)
  {
    var done := s0[0];
    forall k | 0 <= k <= last
      ensures (r[k].served <==> k in c) && (r[k].balked && 0 < k <==> k in b)
      ensures !r[k].served && !r[k].balked ==> k in q || k in s
    {
      if k == done {
        assert r[k].served && r[k].balked == r0[k].balked;
      } else if |q0| > 0 && k == q0[0] {
        assert k !in c0 by {
          forall i | 0 <= i < |c0|
            ensures c0[i] != k
          {
            assert c0[i] < q0[0];
          }
        }
        assert r[k].served == r0[k].served && r[k].balked == r0[k].balked;
      } else {
        assert r[k] == r0[k];
        if !r[k].served && !r[k].balked {
          assert k !in s0;
          var j :| 0 <= j < |q0| && q0[j] == k;
          assert q[j - 1] == k;
        }
      }
    }
  }

  /** An arrival keeps every player accounted for: the newcomer joins the queue or is recorded as balked. */
  lemma AccountedArrive(r0: seq<Player>, q0: seq<nat>, s: seq<nat>, c: seq<nat>, b0: seq<nat>,
                        r: seq<Player>, q: seq<nat>, b: seq<nat>, t: real, last: nat, joins: bool)
    requires Accounted(r0, q0, s, c, b0, last) && Within(c, last + 1) && Within(b0, last + 1)
    requires |r0| == last + 2 && !r0[last + 1].served && !r0[last + 1].balked
    requires r == r0[last + 1 := Arrived(r0[last + 1], t, joins)]
    requires q == (if joins then q0 + [last + 1] else q0) && b == (if joins then b0 else b0 + [last + 1])
    ensures Accounted(r, q, s, c, b, last + 1)
  {
    var w := last + 1;
    assert w !in c && w !in b0;
    forall k | 0 <= k <= last
      ensures (r[k].served <==> k in c) && (r[k].balked && 0 < k <==> k in b)
      ensures !r[k].served && !r[k].balked ==> k in q || k in s
    {
      assert r[k] == r0[k];
      assert k in b <==> k in b0;
      assert k in q0 ==> k in q;
    }
  }

  /** Moving the head of the queue into the free server keeps every player accounted for. */
  lemma AccountedStartHead(r0: seq<Player>, q0: seq<nat>, c: seq<nat>, b: seq<nat>,
                           r: seq<Player>, q: seq<nat>, s: seq<nat>, t: real, last: nat)
    requires Accounted(r0, q0, [], c, b, last) && |q0| > 0 && Within(q0, last + 1)
    requires r == r0[q0[0] := Started(r0[q0[0]], t)] && q == q0[1..] && s == [q0[0]]
    ensures Accounted(r, q, s, c, b, last)
  {
    forall k | 0 <= k <= last
      ensures (r[k].served <==> k in c) && (r[k].balked && 0 < k <==> k in b)
      ensures !r[k].served && !r[k].balked ==> k in q || k in s
    {
      assert r[k].served == r0[k].served && r[k].balked == r0[k].balked;
      if k in q0 && k != q0[0] {
        var j :| 0 <= j < |q0| && q0[j] == k;
        assert q[j - 1] == k;
      }
    }
  }

  /** The queue and the server, as the numbers of the players they hold. */
  datatype Lines = Lines(queue: seq<nat>, server: seq<nat>)

  /**
   * The queue and the server once `server[0]` completes: the head of the
   * queue leaves it and enters service, unless it is that same player (the
   * first player of a run is at the head of the queue while it is served).
   */
  function AfterCompletion(l: Lines): Lines
  {
    if l.queue != [] && l.server != [] && l.queue[0] != l.server[0] then Lines(l.queue[1..], [l.queue[0]])
    else Lines(Tail(l.queue), [])
  }

  /** The roster once `server[0]` completes at t: it has Ended, and the head of the queue, if another player, has Started. */
  function CompletedRoster(r: seq<Player>, l: Lines, t: real): seq<Player>
  {
    if l.server == [] || l.server[0] >= |r| then r
    else
      var ended := r[l.server[0] := Ended(r[l.server[0]])];
      if l.queue != [] && l.queue[0] != l.server[0] && l.queue[0] < |r| then ended[l.queue[0] := Started(r[l.queue[0]], t)]
      else ended
  }

  /** Player w arrives: it joins the tail of the queue unless it balks. */
  function Admitted(l: Lines, w: nat, balks: bool): Lines
  {
    if balks then l else Lines(l.queue + [w], l.server)
  }

  /** `if self.server.free()`: a free server takes the head of a non-empty queue. */
  function Filled(l: Lines): Lines
  {
    if l.server == [] && l.queue != [] then Lines(l.queue[1..], [l.queue[0]]) else l
  }

  /** The roster once a free server has taken the head of the queue at t: the head has Started. */
  function FilledRoster(r: seq<Player>, l: Lines, t: real): seq<Player>
  {
    if l.server == [] && l.queue != [] && l.queue[0] < |r| then r[l.queue[0] := Started(r[l.queue[0]], t)] else r
  }

  /**
   * The arrival check of a tick (lines 501-512), from roster r0, lines l0
   * and balked list b0 to r, l and b: without an arrival nothing changes;
   * with one, player w arrives at t and joins or balks, a balk is recorded,
   * a free server takes the head of the queue, and `newplayer` appends p.
   */
  ghost predicate ArrivalStep(r0: seq<Player>, l0: Lines, b0: seq<nat>, r: seq<Player>, l: Lines, b: seq<nat>,
                              t: real, w: nat, arrives: bool, p: Player)
  {
    var ok := if !arrives then r == r0 && l == l0 && b == b0 else |r| == |r0| + 1 && Admits(r0, l0, b0, r[..|r0|], l, b, t, w) && r[|r0|] == p;
    ok
  }

  /**
   * Lines 502-511 from roster r0, lines l0 and balked list b0 to r, l and
   * b: player w arrives at t and joins the queue or balks, a balk is
   * recorded, then a free server takes the head of the queue.
   */
  ghost predicate Admits(r0: seq<Player>, l0: Lines, b0: seq<nat>, r: seq<Player>, l: Lines, b: seq<nat>, t: real, w: nat)
  {
    var ok := w < |r| && var balks := r[w].balked;
      var admitted := Admitted(l0, w, balks);
      w < |r0| && l == Filled(admitted) && b == b0 + (if balks then [w] else []) &&
      r == FilledRoster(r0[w := Arrived(r0[w], t, !balks)], admitted, t);
    ok
  }

  /** Admits from the state r1, l1 right after the arrival, before a free server takes the head of the queue. */
  lemma AdmitsFrom(r0: seq<Player>, l0: Lines, b0: seq<nat>, r1: seq<Player>, l1: Lines,
                   r: seq<Player>, l: Lines, b: seq<nat>, t: real, w: nat)
    requires w < |r0| && w < |r1| && w < |r| && r[w].balked == r1[w].balked
    requires r1 == r0[w := Arrived(r0[w], t, !r1[w].balked)] && l1 == Admitted(l0, w, r1[w].balked)
    requires b == b0 + (if r1[w].balked then [w] else [])
    requires l == Filled(l1) && r == FilledRoster(r1, l1, t)
    ensures Admits(r0, l0, b0, r, l, b, t, w)
  {
  }

  /** ArrivalStep once the arrival has been admitted from r0 to r1 and `newplayer` has appended p. */
  lemma ArrivalStepFrom(r0: seq<Player>, l0: Lines, b0: seq<nat>, r1: seq<Player>,
                        r: seq<Player>, l: Lines, b: seq<nat>, t: real, w: nat, p: Player)
    requires Admits(r0, l0, b0, r1, l, b, t, w) && |r1| == |r0| && r == r1 + [p]
    ensures ArrivalStep(r0, l0, b0, r, l, b, t, w, true, p)
  {
    assert r[..|r0|] == r1;
  }

  /**
   * One tick of `run`'s loop on the players (lines 490-512): if the server
   * is busy and t is past its next service date, the player in service
   * completes; then the arrival check runs on what that left.
   */
  ghost predicate TickStep(r0: seq<Player>, l0: Lines, c0: seq<nat>, b0: seq<nat>, nd0: real,
                           r: seq<Player>, l: Lines, c: seq<nat>, b: seq<nat>, t: real, w: nat, arrives: bool, p: Player)
  {
    var due := l0.server != [] && nd0 < t;
    var ok := c == c0 + (if due then [l0.server[0]] else []) &&
      ArrivalStep(if due then CompletedRoster(r0, l0, t) else r0, if due then AfterCompletion(l0) else l0, b0,
                  r, l, b, t, w, arrives, p);
    ok
  }

  /**
   * A completion takes the player in service out of the queue and the
   * server (twice for the first player, who is in both) and leaves the
   * server at most one player.
   */
  lemma CompletionConserves(l: Lines)
    requires |l.server| == 1
    ensures var r, done := AfterCompletion(l), l.server[0];
      multiset(l.queue + l.server) ==
        multiset(r.queue + r.server) + multiset{done} + (if l.queue != [] && l.queue[0] == done then multiset{done} else multiset{})
    ensures |AfterCompletion(l).server| <= 1
  {
    var done := l.server[0];
    if l.queue != [] {
      assert l.queue == [l.queue[0]] + l.queue[1..];
    }
  }

  /**
   * Admitting a player adds it to the occupants exactly when it does not
   * balk; filling the server only moves a player from the queue to the
   * server, and the server is left idle only when nobody is waiting.
   */
  lemma ArrivalConserves(l: Lines, w: nat, balks: bool)
    ensures var r := Filled(Admitted(l, w, balks));
      multiset(r.queue + r.server) == multiset(l.queue + l.server) + (if balks then multiset{} else multiset{w})
    ensures var r := Filled(Admitted(l, w, balks));
      r.server == [] <==> l.server == [] && l.queue == [] && balks
  {
    var a := Admitted(l, w, balks);
    if a.server == [] && a.queue != [] {
      assert a.queue == [a.queue[0]] + a.queue[1..];
    }
  }

  class Sim {
    const T: real
    const lmbda: real
    const mu: real
    const costOfBalking: Balking
    const naorThreshold: nat
    const draws: nat -> Draw
    const queue: Queue
    const server: Server
    /** Every player created so far, in creation order. */
    var roster: seq<Player>
    /** `self.players`: the created player that has not arrived yet, if any. */
    var players: seq<nat>
    var completed: seq<nat>
    var balked: seq<nat>
    var queueLengthDict: map<int, Tally>
    var systemStateDict: map<int, Tally>

    /** The k-th player `newplayer` creates. */
    function Drawn(k: nat): (p: Player)
      ensures p.kind == KindFor(costOfBalking, naorThreshold, draws(k).u)
      ensures p.interArrivalTime == draws(k).interArrivalTime && p.serviceTime == draws(k).serviceTime
      ensures !p.served && !p.balked
    {
      Create(KindFor(costOfBalking, naorThreshold, draws(k).u), draws(k).interArrivalTime, draws(k).serviceTime)
    }

    /** The queue and the server hold players of the roster, whose class and samples come from their draws. */
    ghost predicate Valid()
      reads this`roster, queue`players, server`players
    {
      0.0 < mu && Within(queue.players, |roster|) && Within(server.players, |roster|) && FromDraws()
    }

    /** Every player's class and samples come from its draw. */
    ghost predicate FromDraws()
      reads this`roster
    {
      forall k :: 0 <= k < |roster| ==>
        roster[k].kind == Drawn(k).kind &&
        roster[k].interArrivalTime == Drawn(k).interArrivalTime &&
        roster[k].serviceTime == Drawn(k).serviceTime
    }

    /** The state right after `__init__`. */
    ghost predicate Initial()
      reads this, queue, server
    {
      roster == [] && players == [] && completed == [] && balked == [] &&
      queueLengthDict == map[] && systemStateDict == map[] &&
      queue.players == [] && server.players == []
    }

    /**
     * `__init__`: the Naor threshold is always computed, with False standing
     * for a cost of 0. The search needs lambda != mu and a non-negative cost.
     */
    constructor (T: real, lmbda: real, mu: real, costOfBalking: Balking, draws: nat -> Draw)
      requires 0.0 <= lmbda && 0.0 < mu && lmbda != mu
      requires ThresholdCost(costOfBalking) >= 0.0
      ensures this.T == T && this.lmbda == lmbda && this.mu == mu
      ensures this.costOfBalking == costOfBalking && this.draws == draws
      ensures Naor.Rho(lmbda, mu) != 1.0
      ensures Naor.Brackets(Naor.Rho(lmbda, mu), Naor.Center(mu, ThresholdCost(costOfBalking)), naorThreshold)
      ensures forall m :: 0 <= m < naorThreshold ==>
        !Naor.Brackets(Naor.Rho(lmbda, mu), Naor.Center(mu, ThresholdCost(costOfBalking)), m)
      ensures Valid() && Initial() && fresh(queue) && fresh(server)
    {
      var c := ThresholdCost(costOfBalking);
      assert Naor.Center(mu, c) >= 0.0 by {
        assert mu * c >= 0.0 * c;
      }
      var n := Naor.NaorThreshold(lmbda, mu, c);
      this.T := T;
      this.lmbda := lmbda;
      this.mu := mu;
      this.costOfBalking := costOfBalking;
      this.draws := draws;
      naorThreshold := n;
      queue := new Queue();
      server := new Server();
      roster := [];
      players := [];
      completed := [];
      balked := [];
      queueLengthDict := map[];
      systemStateDict := map[];
    }

    /** `newplayer`: creates the next player only when none is waiting to arrive. */
    method NewPlayer()
      requires Valid()
      modifies this`roster, this`players
      ensures Valid()
      ensures old(players) == [] ==> roster == old(roster) + [Drawn(|old(roster)|)] && players == [|old(roster)|]
      ensures old(players) != [] ==> roster == old(roster) && players == old(players)
    {
      if |players| == 0 {
        players := players + [|roster|];
        roster := roster + [Drawn(|roster|)];
      }
    }

    /**
     * `arrive(t)`: the player looks at len(queue) + len(server) and either
     * joins the tail of the queue or balks; exactly one of the two happens.
     */
    method Arrive(i: nat, t: real)
      requires Valid() && i < |roster|
      modifies this`roster, queue
      ensures Valid()
      ensures var joins := Joins(old(roster[i]).kind, mu, |old(queue.players)| + |server.players|);
        (old(roster[i]).kind.Plain? ==> joins) &&
        roster == old(roster)[i := Arrived(old(roster[i]), t, joins)] &&
        queue.players == (if joins then old(queue.players) + [i] else old(queue.players))
    {
      var joins := Joins(roster[i].kind, mu, queue.Len() + server.Len());
      if joins {
        queue.Join(i);
      }
      roster := roster[i := Arrived(roster[i], t, joins)];
    }

    /**
     * `startservice(t)`: does nothing for a served or balked player;
     * otherwise the player's service ends at t plus its service time and it
     * enters the server, whose next service date becomes the earliest one
     * among its occupants.
     */
    method StartService(i: nat, t: real)
      requires Valid() && i < |roster|
      modifies this`roster, server
      ensures Valid()
      ensures var p := old(roster[i]);
        if !p.served && !p.balked then
          roster == old(roster)[i := Started(p, t)] &&
          server.players == SortByDate(old(server.players) + [i], ServiceDates(roster)) &&
          (old(server.players) == [] ==> server.players == [i]) &&
          server.nextServiceDate == roster[server.players[0]].serviceDate
        else
          roster == old(roster) && server.players == old(server.players) &&
          server.nextServiceDate == old(server.nextServiceDate)
    {
      if !roster[i].served && !roster[i].balked {
        roster := roster[i := Started(roster[i], t)];
        assert FromDraws();
        var dates := ServiceDates(roster);
        assert Dated(server.players, dates);
        server.Start(i, dates);
        assert queue.players == old(queue.players) && Within(server.players, |roster|);
        assert server.nextServiceDate == roster[server.players[0]].serviceDate;
      }
    }

    /** `endservice()`: drops the server's first occupant and marks the player served. */
    method EndService(i: nat)
      requires Valid() && i < |roster|
      modifies this`roster, server`players
      ensures Valid()
      ensures roster == old(roster)[i := Ended(old(roster[i]))]
      ensures server.players == Tail(old(server.players))
    {
      server.players := Tail(server.players);
      roster := roster[i := Ended(roster[i])];
    }

    /** `collectdata(t)`: records the queue length and the system state at tick t. */
    method CollectData(t: int)
      requires Valid()
      modifies this`queueLengthDict, this`systemStateDict
      ensures queueLengthDict == old(queueLengthDict)[t := QueueTally(costOfBalking, roster, queue.players)]
      ensures systemStateDict == old(systemStateDict)[t := SystemTally(costOfBalking, roster, queue.players, server.players)]
    {
      queueLengthDict := queueLengthDict[t := QueueTally(costOfBalking, roster, queue.players)];
      systemStateDict := systemStateDict[t := SystemTally(costOfBalking, roster, queue.players, server.players)];
    }

    /** The queue and the server as they stand. */
    ghost function Occupants(): Lines
      reads queue`players, server`players
    {
      Lines(queue.players, server.players)
    }

    /**
     * The invariants on players at tick t, when players 0..last have arrived,
     * and every arrived player accounted for; bound to `ok` as in StateOk.
     */
    ghost predicate PlayersOk(t: real, last: nat)
      reads this`roster, this`completed, this`balked, queue`players, server`players, server`nextServiceDate
    {
      var ok := StateOk(roster, queue.players, server.players, completed, balked, server.nextServiceDate, t, last) &&
        Accounted(roster, queue.players, server.players, completed, balked, last);
      ok
    }

    /** The recorded ticks are 1..t and every recorded pair is well tallied. */
    ghost predicate RecordedOk(t: int)
      reads this`queueLengthDict, this`systemStateDict
    {
      Recorded(costOfBalking, queueLengthDict, systemStateDict, t)
    }

    /** The state at the top of `run`'s loop, at tick t, player `last` being the latest to arrive. */
    ghost predicate Running(t: int, last: nat)
      reads this`roster, this`players, this`completed, this`balked, this`queueLengthDict, this`systemStateDict
      reads queue`players, server`players, server`nextServiceDate
    {
      Valid() && 0 <= t && |roster| == last + 2 && players == [last + 1] &&
      PlayersOk(t as real, last) && PendingOk(roster, last, t as real) && RecordedOk(t)
    }

    /**
     * The first check of a tick: once t has passed the next service date the
     * player in service completes, and the head of the queue (if any) is
     * popped and started.
     */
    method CompleteService(t: int, last: nat)
      requires Valid() && |roster| == last + 2 && players == [last + 1]
      requires PlayersOk(t as real, last)
      modifies this`roster, this`players, this`completed, queue, server
      ensures Valid() && |roster| == last + 2 && players == [last + 1]
      ensures PlayersOk(t as real, last) && balked == old(balked)
      ensures SameArrivals(old(roster), roster) && roster[last + 1] == old(roster[last + 1])
      ensures var due := old(server.players != [] && server.nextServiceDate < t as real);
        completed == old(completed) + (if due then [old(server.players[0])] else []) &&
        Occupants() == (if due then AfterCompletion(old(Occupants())) else old(Occupants())) &&
        roster == (if due then CompletedRoster(old(roster), old(Occupants()), t as real) else old(roster))
      ensures old(server.players) != [] && old(server.nextServiceDate) < t as real ==> roster[old(server.players[0])].served
    {
      if !server.Free() && t as real > server.nextServiceDate {
        Complete(t as real);
        CompleteKeeps(old(roster), old(queue.players), old(server.players), old(completed), old(balked),
                      old(server.nextServiceDate), roster, queue.players, server.players, completed, balked,
                      server.nextServiceDate, t as real, last);
      }
    }

    /**
     * `endservice` of the player in service, who joins `completed`; then the
     * head of the queue, if any, is popped and asked to start. The head is
     * that same player only for the first player of the run, which is then
     * served already and does not start again.
     */
    method Complete(t: real)
      requires Valid() && |server.players| == 1 && players != []
      requires queue.players != [] && queue.players[0] != server.players[0] ==>
        !roster[queue.players[0]].served && !roster[queue.players[0]].balked
      modifies this`roster, this`players, this`completed, queue, server
      ensures Valid() && players == old(players) && |roster| == old(|roster|)
      ensures completed == old(completed + [server.players[0]]) && roster[old(server.players[0])].served
      ensures var done, q0 := old(server.players[0]), old(queue.players);
        var ended := old(roster[done := Ended(roster[done])]);
        (|q0| == 0 && queue.players == q0 && server.players == [] && roster == ended) ||
        (|q0| > 0 && q0[0] == done && queue.players == q0[1..] && server.players == [] && roster == ended) ||
        (|q0| > 0 && q0[0] != done && queue.players == q0[1..] && server.players == [q0[0]] &&
         roster == ended[q0[0] := Started(old(roster[q0[0]]), t)] && server.nextServiceDate == roster[q0[0]].serviceDate)
      ensures Occupants() == AfterCompletion(old(Occupants())) && roster == CompletedRoster(old(roster), old(Occupants()), t)
    {
      var done := server.players[0];
      completed := completed + [done];
      EndService(done);
      if queue.Len() > 0 {
        var next := queue.Pop(0);
        assert queue.players == old(queue.players)[1..];
        if next != done {
          assert roster[next] == old(roster)[next];
        }
        StartService(next, t);
        NewPlayer();
      }
    }

    /** The waiting player arrives at t, then service starts if the server is free. */
    method AdmitAndServe(prev: int, t: int, last: nat)
      requires t == prev + 1 && Valid() && |roster| == last + 2 && players == [last + 1]
      requires PlayersOk(t as real, last)
      requires ArrivalsOk(roster, last, prev as real) && PendingOk(roster, last, prev as real)
      requires roster[last].arrivalDate + roster[last + 1].interArrivalTime < t as real
      modifies this`roster, this`players, this`balked, queue, server
      ensures Valid() && PlayersOk(t as real, last + 1) && |roster| == last + 2 && players == []
      ensures roster[last + 1].arrivalDate == t as real
      ensures Admits(old(roster), old(Occupants()), old(balked), roster, Occupants(), balked, t as real, last + 1)
    {
      Admit(prev, t, last);
      ghost var r1, l1 := roster, Occupants();
      StartIfFree(t as real, last + 1);
      AdmitsFrom(old(roster), old(Occupants()), old(balked), r1, l1, roster, Occupants(), balked, t as real, last + 1);
    }

    /**
     * The waiting player `last + 1` is popped from `players`, arrives at t
     * and joins the queue or balks; a balked player is recorded as such.
     */
    method Admit(prev: int, t: int, last: nat)
      requires t == prev + 1 && Valid() && |roster| == last + 2 && players == [last + 1]
      requires PlayersOk(t as real, last)
      requires ArrivalsOk(roster, last, prev as real) && PendingOk(roster, last, prev as real)
      requires roster[last].arrivalDate + roster[last + 1].interArrivalTime < t as real
      modifies this`roster, this`players, this`balked, queue
      ensures Valid() && PlayersOk(t as real, last + 1) && |roster| == last + 2 && players == []
      ensures roster[last + 1].arrivalDate == t as real
      ensures queue.players == [] ==> roster[last + 1].balked
      ensures balked == old(balked) + (if roster[last + 1].balked then [last + 1] else [])
      ensures queue.players == old(queue.players) + (if roster[last + 1].balked then [] else [last + 1])
      ensures server.players == old(server.players)
      ensures roster == old(roster)[last + 1 := Arrived(old(roster[last + 1]), t as real, !roster[last + 1].balked)]
    {
      var arriving := players[|players| - 1];
      players := players[..|players| - 1];
      ArriveNext(prev, t, arriving);
    }

    /** Player w, the one after the latest arrival, arrives at t; if it balked it is recorded as such. */
    method ArriveNext(prev: int, t: int, w: nat)
      requires t == prev + 1 && Valid() && |roster| == w + 1 && 1 <= w
      requires PlayersOk(t as real, w - 1)
      requires ArrivalsOk(roster, w - 1, prev as real) && PendingOk(roster, w - 1, prev as real)
      requires roster[w - 1].arrivalDate + roster[w].interArrivalTime < t as real
      modifies this`roster, this`balked, queue
      ensures Valid() && PlayersOk(t as real, w) && |roster| == w + 1
      ensures roster[w].arrivalDate == t as real
      ensures queue.players == [] ==> roster[w].balked
      ensures balked == old(balked) + (if roster[w].balked then [w] else [])
      ensures queue.players == old(queue.players) + (if roster[w].balked then [] else [w])
      ensures server.players == old(server.players)
      ensures roster == old(roster)[w := Arrived(old(roster[w]), t as real, !roster[w].balked)]
    {
      ghost var joins := Joins(roster[w].kind, mu, |queue.players| + |server.players|);
      ArriveRecorded(w, t as real);
      assert IsTick(t as real);
      ArriveKeeps(old(roster), old(queue.players), server.players, completed, old(balked),
                  server.nextServiceDate, roster, queue.players, balked, prev as real, t as real, w - 1, joins);
    }

    /** `nextplayer.arrive(t)`, then `if nextplayer.balked: self.balked.append(nextplayer)`, for a player yet to arrive. */
    method ArriveRecorded(w: nat, t: real)
      requires Valid() && w < |roster| && !roster[w].served && !roster[w].balked
      modifies this`roster, this`balked, queue
      ensures Valid()
      ensures var joins := Joins(old(roster[w].kind), mu, old(|queue.players| + |server.players|));
        (old(roster[w].kind.Plain?) ==> joins) &&
        roster == old(roster)[w := Arrived(old(roster[w]), t, joins)] && roster[w].balked == !joins &&
        queue.players == (if joins then old(queue.players) + [w] else old(queue.players)) &&
        balked == (if joins then old(balked) else old(balked) + [w])
      ensures balked == old(balked) + (if roster[w].balked then [w] else [])
      ensures queue.players == old(queue.players) + (if roster[w].balked then [] else [w])
    {
      Arrive(w, t);
      if roster[w].balked {
        balked := balked + [w];
      }
    }

    /**
     * `if self.server.free()`: with an empty queue the newcomer i, who then
     * balked, is asked to start (a no-op); otherwise the head of the queue
     * starts service at t.
     */
    method StartIfFree(t: real, i: nat)
      requires Valid() && PlayersOk(t, i) && |roster| == i + 1
      requires queue.players == [] ==> roster[i].balked
      modifies this`roster, queue, server
      ensures Valid() && PlayersOk(t, i) && SameArrivals(old(roster), roster)
      ensures roster[i].balked == old(roster[i].balked)
      ensures Occupants() == Filled(old(Occupants())) && roster == FilledRoster(old(roster), old(Occupants()), t)
    {
      if server.Free() {
        if queue.Len() == 0 {
          StartService(i, t);
        } else {
          StartHead(t, i);
        }
      }
    }

    /** The head of the queue is popped and starts service at t in the free server. */
    method StartHead(t: real, last: nat)
      requires Valid() && PlayersOk(t, last) && server.players == [] && queue.players != []
      modifies this`roster, queue, server
      ensures Valid() && PlayersOk(t, last) && SameArrivals(old(roster), roster)
      ensures server.players == [old(queue.players[0])] && queue.players == old(queue.players[1..])
      ensures roster == old(roster[queue.players[0] := Started(roster[queue.players[0]], t)])
      ensures completed == old(completed) && balked == old(balked)
    {
      var head := queue.Pop(0);
      assert queue.players == old(queue.players)[1..];
      StartService(head, t);
      StartHeadKeeps(old(roster), old(queue.players), old(server.players), old(completed), old(balked), old(server.nextServiceDate),
                     roster, queue.players, server.players, completed, balked, server.nextServiceDate, t, last);
    }

    /**
     * `run`: the first player arrives at 0 and starts service at once (it
     * stays at the head of the queue as well); then t goes up by one per
     * tick until t >= T, and each tick completes service, admits an arrival,
     * creates the next player and records the tick. Returns the final t and
     * the latest player to arrive.
     */
    method Run() returns (t: int, nextplayer: nat)
      requires Valid() && Initial()
      modifies this, queue, server
      ensures t == Horizon(T) && Valid() && |roster| == nextplayer + 2
      ensures PlayersOk(t as real, nextplayer) && RecordedOk(t)
      ensures forall k :: 0 <= k <= nextplayer ==> (roster[k].served <==> k in completed)
    {
      t, nextplayer := Begin();
      while t as real < T
        invariant Running(t, nextplayer) && t <= Horizon(T)
        decreases Horizon(T) - t
      {
        t, nextplayer := Tick(t, nextplayer);
      }
    }

    /** The part of `run` before the loop: the first player arrives at 0 and starts service. */
    method Begin() returns (t: int, first: nat)
      requires Valid() && Initial()
      modifies this`roster, this`players, queue, server
      ensures t == 0 && first == 0 && Running(t, first)
      ensures roster[0].balked <==> !Joins(roster[0].kind, mu, 0)
      ensures queue.players == server.players == (if roster[0].balked then [] else [0])
      ensures completed == [] && balked == []
    {
      t := 0;
      NewPlayer();
      first := players[|players| - 1];
      players := players[..|players| - 1];
      Arrive(first, t as real);
      StartService(first, t as real);
      NewPlayer();
      FirstArrivalOk(roster, queue.players, server.players, completed, balked, server.nextServiceDate, t as real, first);
    }

    /** One pass of `run`'s loop body, from tick `prev` to tick t = prev + 1. */
    method Tick(prev: int, last: nat) returns (t: int, next: nat)
      requires Running(prev, last)
      modifies this`roster, this`players, this`completed, this`balked, this`queueLengthDict, this`systemStateDict
      modifies queue, server
      ensures t == prev + 1 && Running(t, next)
      ensures next == last + 1 <==> old(roster[last].arrivalDate + roster[last + 1].interArrivalTime) < t as real
      ensures TickStep(old(roster), old(Occupants()), old(completed), old(balked), old(server.nextServiceDate),
                       roster, Occupants(), completed, balked, t as real, last + 1, next == last + 1, Drawn(last + 2))
      ensures queueLengthDict == old(queueLengthDict)[t := QueueTally(costOfBalking, roster, queue.players)]
      ensures systemStateDict == old(systemStateDict)[t := SystemTally(costOfBalking, roster, queue.players, server.players)]
    {
      t, next := Advance(prev, last);
      ghost var r, l, c, b := roster, Occupants(), completed, balked;
      Record(prev, t);
      assert roster == r && Occupants() == l && completed == c && balked == b;
    }

    /** `collectdata(t)` at the end of a tick, which extends the recorded ticks 1..prev to 1..t. */
    method Record(prev: int, t: int)
      requires Valid() && |server.players| <= 1 && t == prev + 1 && 0 <= prev && RecordedOk(prev)
      modifies this`queueLengthDict, this`systemStateDict
      ensures RecordedOk(t)
      ensures queueLengthDict == old(queueLengthDict)[t := QueueTally(costOfBalking, roster, queue.players)]
      ensures systemStateDict == old(systemStateDict)[t := SystemTally(costOfBalking, roster, queue.players, server.players)]
    {
      TallyMeaning(costOfBalking, roster, queue.players, server.players);
      RecordStep(costOfBalking, queueLengthDict, systemStateDict, prev, t,
                 QueueTally(costOfBalking, roster, queue.players), SystemTally(costOfBalking, roster, queue.players, server.players));
      CollectData(t);
    }

    /** The players' part of a tick: completing a service, admitting an arrival, creating the next player. */
    method Advance(prev: int, last: nat) returns (t: int, next: nat)
      requires 0 <= prev && Valid() && |roster| == last + 2 && players == [last + 1]
      requires PlayersOk(prev as real, last) && PendingOk(roster, last, prev as real)
      modifies this`roster, this`players, this`completed, this`balked, queue, server
      ensures t == prev + 1 && Valid() && |roster| == next + 2 && players == [next + 1]
      ensures PlayersOk(t as real, next) && PendingOk(roster, next, t as real)
      ensures next == last + 1 <==> old(roster[last].arrivalDate + roster[last + 1].interArrivalTime) < t as real
      ensures TickStep(old(roster), old(Occupants()), old(completed), old(balked), old(server.nextServiceDate),
                       roster, Occupants(), completed, balked, t as real, last + 1, next == last + 1, Drawn(last + 2))
    {
      t := prev + 1;
      StateLater(roster, queue.players, server.players, completed, balked, server.nextServiceDate,
                 prev as real, t as real, last);
      CompleteService(t, last);
      ArrivalsTransfer(old(roster), roster, last, prev as real);
      PendingTransfer(old(roster), roster, last, prev as real);
      next := ArriveStep(prev, t, last);
    }

    /**
     * The second check of a tick, the previous tick being `prev`: the
     * waiting player arrives once t is past the previous arrival plus its
     * inter-arrival time, and then, if the server is free, service starts;
     * then `newplayer` creates the next player if that one has arrived.
     */
    method ArriveStep(prev: int, t: int, last: nat) returns (next: nat)
      requires t == prev + 1 && Valid() && |roster| == last + 2 && players == [last + 1]
      requires PlayersOk(t as real, last)
      requires ArrivalsOk(roster, last, prev as real) && PendingOk(roster, last, prev as real)
      modifies this`roster, this`players, this`balked, queue, server
      ensures Valid() && |roster| == next + 2 && players == [next + 1]
      ensures PlayersOk(t as real, next) && PendingOk(roster, next, t as real)
      ensures next == last + 1 <==> old(roster[last].arrivalDate + roster[last + 1].interArrivalTime) < t as real
      ensures completed == old(completed)
      ensures ArrivalStep(old(roster), old(Occupants()), old(balked), roster, Occupants(), balked,
                          t as real, last + 1, next == last + 1, Drawn(last + 2))
    {
      next := last;
      var waiting := players[|players| - 1];
      if t as real > roster[waiting].interArrivalTime + roster[next].arrivalDate {
        next := waiting;
        AdmitAndServe(prev, t, last);
        ghost var r1 := roster;
        CreateNext(t as real, next);
        ArrivalStepFrom(old(roster), old(Occupants()), old(balked), r1, roster, Occupants(), balked, t as real, next, Drawn(last + 2));
      } else {
        NewPlayer();
      }
    }

    /** `newplayer` right after player w has arrived at t: the next player is created and waits to arrive. */
    method CreateNext(t: real, w: nat)
      requires Valid() && |roster| == w + 1 && players == [] && PlayersOk(t, w) && roster[w].arrivalDate == t
      modifies this`roster, this`players
      ensures Valid() && roster == old(roster) + [Drawn(w + 1)] && players == [w + 1]
      ensures PlayersOk(t, w) && PendingOk(roster, w, t)
    {
      StateExtend(roster, Drawn(w + 1), queue.players, server.players, completed, balked, server.nextServiceDate, t, w);
      PendingFresh(roster, Drawn(w + 1), w, t);
      NewPlayer();
    }
  }
}
