/**
 * The `Queue` and `Server` objects of graphicalMM1.py. Both hold players by
 * id: the simulation keeps every player in one table, so that the same
 * player can sit in the queue and in the server at once, as the first
 * player of a run does.
 */
module Queueing {

  /** Every id of s has a date. */
  predicate Dated(s: seq<nat>, dates: seq<real>)
  {
    forall i :: 0 <= i < |s| ==> s[i] < |dates|
  }

  /** Ids ordered by their dates. */
  ghost predicate OrderedBy(s: seq<nat>, dates: seq<real>)
    requires Dated(s, dates)
  {
    forall i, j :: 0 <= i < j < |s| ==> dates[s[i]] <= dates[s[j]]
  }

  /** Every id of s has a date no earlier than d. */
  ghost predicate NotBefore(s: seq<nat>, dates: seq<real>, d: real)
    requires Dated(s, dates)
  {
    forall i :: 0 <= i < |s| ==> d <= dates[s[i]]
  }

  /** Puts x after every element whose date is not later than its own. */
  function Insert(x: nat, s: seq<nat>, dates: seq<real>): (r: seq<nat>)
    requires x < |dates| && Dated(s, dates)
    ensures multiset(r) == multiset(s) + multiset{x}
    ensures Dated(r, dates) && |r| == |s| + 1
    decreases |s|
  {
    if s == [] then [x]
    else if dates[x] < dates[s[0]] then [x] + s
    else
      assert s == [s[0]] + s[1..];
      [s[0]] + Insert(x, s[1..], dates)
  }

  lemma {:induction false} InsertNotBefore(x: nat, s: seq<nat>, dates: seq<real>, d: real)
    requires x < |dates| && Dated(s, dates)
    requires NotBefore(s, dates, d) && d <= dates[x]
    ensures NotBefore(Insert(x, s, dates), dates, d)
    decreases |s|
  {
    if s != [] && dates[s[0]] <= dates[x] {
      InsertNotBefore(x, s[1..], dates, d);
    }
  }

  /** Inserting into an ordered list keeps it ordered. */
  lemma {:induction false} InsertOrdered(x: nat, s: seq<nat>, dates: seq<real>)
    requires x < |dates| && Dated(s, dates) && OrderedBy(s, dates)
    ensures OrderedBy(Insert(x, s, dates), dates)
    decreases |s|
  {
    if s != [] && dates[s[0]] <= dates[x] {
      InsertOrdered(x, s[1..], dates);
      InsertNotBefore(x, s[1..], dates, dates[s[0]]);
    }
  }

  /**
   * Python's stable `sorted(players, key = lambda p: p.servicedate)`, as an
   * insertion sort: each element goes after the earlier ones with a date no
   * later than its own. The contract states order and permutation, not
   * stability: the server never holds more than one player during a run, so
   * equal dates never need to be told apart.
   */
  function SortByDate(s: seq<nat>, dates: seq<real>): (r: seq<nat>)
    requires Dated(s, dates)
    ensures multiset(r) == multiset(s)
    ensures Dated(r, dates) && OrderedBy(r, dates) && |r| == |s|
    decreases |s|
  {
    if s == [] then []
    else
      assert s == s[..|s| - 1] + [s[|s| - 1]];
      var sorted := SortByDate(s[..|s| - 1], dates);
      InsertOrdered(s[|s| - 1], sorted, dates);
      Insert(s[|s| - 1], sorted, dates)
  }

  /** A single id is already sorted. */
  lemma SortOne(x: nat, dates: seq<real>)
    requires x < |dates|
    ensures SortByDate([x], dates) == [x]
  {
    assert [x][..0] == [];
  }

  /** The head of a list ordered by date has the least date of the list. */
  lemma HeadIsEarliest(s: seq<nat>, dates: seq<real>)
    requires |s| > 0 && Dated(s, dates) && OrderedBy(s, dates)
    ensures forall k :: 0 <= k < |s| ==> dates[s[0]] <= dates[s[k]]
  {
  }

  /** A waiting line; `join` appends at the tail and `pop` takes one out. */
  class Queue {
    var players: seq<nat>

    constructor ()
      ensures players == []
    {
      players := [];
    }

    /** `__len__`. */
    function Len(): (n: nat)
      reads this
      ensures n == |players|
    {
      |players|
    }

    method Join(id: nat)
      modifies this
      ensures players == old(players) + [id]
    {
      players := players + [id];
    }

    /**
     * `pop(index)`: removes and returns the entry at index; the others keep
     * their order. Python raises IndexError for an index out of range.
     */
    method Pop(index: nat) returns (id: nat)
      requires index < |players|
      modifies this
      ensures id == old(players)[index]
      ensures players == old(players)[..index] + old(players)[index + 1..]
      ensures multiset(players) + multiset{id} == multiset(old(players))
    {
      id := players[index];
      assert players == players[..index] + [id] + players[index + 1..];
      players := players[..index] + players[index + 1..];
    }
  }

  /** The single server; its occupants are kept sorted by service end date. */
  class Server {
    var players: seq<nat>
    var nextServiceDate: real

    constructor ()
      ensures players == [] && nextServiceDate == 0.0
    {
      players := [];
      nextServiceDate := 0.0;
    }

    function Len(): (n: nat)
      reads this
      ensures n == |players|
    {
      |players|
    }

    /** `free`: the server has nobody in it. */
    function Free(): (r: bool)
      reads this
      ensures r <==> |players| == 0
    {
      |players| == 0
    }

    /**
     * `start`: adds the player, re-sorts the occupants by service date and
     * records the earliest one as the next service date. `dates` holds every
     * player's service date by id.
     */
    method Start(id: nat, dates: seq<real>)
      requires id < |dates| && Dated(players, dates)
      modifies this
      ensures players == SortByDate(old(players) + [id], dates)
      ensures multiset(players) == multiset(old(players)) + multiset{id}
      ensures |players| == |old(players)| + 1 && Dated(players, dates)
      ensures nextServiceDate == dates[players[0]]
      ensures forall k :: 0 <= k < |players| ==> nextServiceDate <= dates[players[k]]
      ensures old(players) == [] ==> players == [id]
    {
      var all := players + [id];
      if players == [] {
        assert all == [id];
        SortOne(id, dates);
      }
      players := SortByDate(all, dates);
      HeadIsEarliest(players, dates);
      nextServiceDate := dates[players[0]];
    }
  }
}
