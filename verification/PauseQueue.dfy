/** The queue of pause states that pile up while a listing is in progress. */
module PauseQueue {
  import opened Containers

  datatype PauseState = PauseState(id: Id, paused: bool)

  /** Position of the first entry for the ID, or the length of the queue. */
  function IndexOf(q: seq<PauseState>, id: Id): (k: nat)
    ensures k <= |q|
    ensures k < |q| ==> q[k].id == id
    ensures forall i | 0 <= i < k :: q[i].id != id
  {
    if q == [] then 0
    else if q[0].id == id then 0
    else 1 + IndexOf(q[1..], id)
  }

  function Added(q: seq<PauseState>, id: Id, paused: bool): seq<PauseState> {
    var k := IndexOf(q, id);
    if k < |q| then q[k := PauseState(id, paused)] else q + [PauseState(id, paused)]
  }

  /** Swap-removal: the last entry takes the place of the removed one. */
  function Removed(q: seq<PauseState>, id: Id): seq<PauseState> {
    var k := IndexOf(q, id);
    if k < |q| then q[k := q[|q| - 1]][..|q| - 1] else q
  }

  /** The meaning of a queue: what is left after playing its entries back in order. */
  function Pending(q: seq<PauseState>): map<Id, bool> {
    if q == [] then map[]
    else Pending(q[..|q| - 1])[q[|q| - 1].id := q[|q| - 1].paused]
  }

  ghost predicate Distinct(q: seq<PauseState>) {
    forall i, j | 0 <= i < j < |q| :: q[i].id != q[j].id
  }

  ghost predicate Has(q: seq<PauseState>, id: Id) {
    exists i :: 0 <= i < |q| && q[i].id == id
  }

  lemma {:induction false} PendingKeys(q: seq<PauseState>, id: Id)
    ensures id in Pending(q) <==> Has(q, id)
  {
    if q != [] {
      var front := q[..|q| - 1];
      PendingKeys(front, id);
      assert q[|q| - 1].id == id || (Has(q, id) <==> Has(front, id)) by {
        if i :| 0 <= i < |front| && front[i].id == id { assert q[i].id == id; }
        if i :| 0 <= i < |q| && q[i].id == id && i < |q| - 1 { assert front[i].id == id; }
      }
    }
  }

  lemma {:induction false} PendingAt(q: seq<PauseState>, i: nat)
    requires Distinct(q) && i < |q|
    ensures q[i].id in Pending(q) && Pending(q)[q[i].id] == q[i].paused
  {
    if i < |q| - 1 {
      PendingAt(q[..|q| - 1], i);
    }
  }

  lemma PendingOf(q: seq<PauseState>, x: Id) returns (i: nat)
    requires Distinct(q) && Has(q, x)
    ensures i < |q| && q[i].id == x && x in Pending(q) && Pending(q)[x] == q[i].paused
  {
    i :| i < |q| && q[i].id == x;
    PendingAt(q, i);
  }

  /** Its keys and its entries determine the meaning of a queue without duplicates. */
  lemma SamePending(q: seq<PauseState>, m: map<Id, bool>)
    requires Distinct(q)
    requires forall x {:trigger x in m} :: x in m ==> Has(q, x)
    requires forall i | 0 <= i < |q| :: q[i].id in m && m[q[i].id] == q[i].paused
    ensures Pending(q) == m
  {
    hide Pending, Distinct, Has;
    forall x {:trigger x in m} | x in m ensures x in Pending(q) && Pending(q)[x] == m[x] {
      var i := PendingOf(q, x);
    }
    forall x {:trigger x in m} | x in Pending(q) ensures x in m {
      PendingKeys(q, x);
      var i := PendingOf(q, x);
    }
    assert Pending(q).Keys == m.Keys;
  }

  lemma AddedMeaning(q: seq<PauseState>, id: Id, paused: bool)
    requires Distinct(q)
    ensures Distinct(Added(q, id, paused))
    ensures Pending(Added(q, id, paused)) == Pending(q)[id := paused]
  {
    var r := Added(q, id, paused);
    var m := Pending(q)[id := paused];
    if IndexOf(q, id) < |q| {
      forall x {:trigger x in m} | x in m ensures Has(r, x) {
        if x == id { assert r[IndexOf(q, id)].id == x; }
        PendingKeys(q, x);
        if i :| 0 <= i < |q| && q[i].id == x { assert r[i].id == x; }
      }
      forall i | 0 <= i < |r| ensures r[i].id in m && m[r[i].id] == r[i].paused {
        PendingAt(q, i);
      }
      SamePending(r, m);
    } else {
      assert r[..|r| - 1] == q;
    }
  }

  lemma RemovedMeaning(q: seq<PauseState>, id: Id)
    requires Distinct(q)
    ensures Distinct(Removed(q, id))
    ensures Pending(Removed(q, id)) == Pending(q) - {id}
  {
    var r := Removed(q, id);
    var k := IndexOf(q, id);
    var m := Pending(q) - {id};
    forall x {:trigger x in m} | x in m ensures Has(r, x) {
      PendingKeys(q, x);
      var i :| 0 <= i < |q| && q[i].id == x;
      assert r[if i < |r| then i else k].id == x;
    }
    forall i | 0 <= i < |r| ensures r[i].id in m && m[r[i].id] == r[i].paused {
      PendingAt(q, if i == k then |q| - 1 else i);
    }
    SamePending(r, m);
  }

  lemma AddedHas(q: seq<PauseState>, id: Id, paused: bool, x: Id)
    requires Distinct(q)
    ensures Has(Added(q, id, paused), x) <==> x == id || Has(q, x)
  {
    AddedMeaning(q, id, paused);
    PendingKeys(q, x);
    PendingKeys(Added(q, id, paused), x);
  }

  lemma RemovedHas(q: seq<PauseState>, id: Id, x: Id)
    requires Distinct(q)
    ensures Has(Removed(q, id), x) <==> x != id && Has(q, x)
  {
    RemovedMeaning(q, id);
    PendingKeys(q, x);
    PendingKeys(Removed(q, id), x);
  }

  /** The order in which swap-removal leaves the entries does not matter. */
  lemma OrderIrrelevant(q: seq<PauseState>, r: seq<PauseState>)
    requires Distinct(q) && Distinct(r) && multiset(q) == multiset(r)
    ensures Pending(q) == Pending(r)
  {
    var m := Pending(q);
    forall x {:trigger x in m} | x in m ensures Has(r, x) {
      PendingKeys(q, x);
      var i :| 0 <= i < |q| && q[i].id == x;
      assert q[i] in multiset(r);
    }
    forall j | 0 <= j < |r| ensures r[j].id in m && m[r[j].id] == r[j].paused {
      assert r[j] in multiset(q);
      var i :| 0 <= i < |q| && q[i] == r[j];
      PendingAt(q, i);
    }
    SamePending(r, m);
  }

  // What the event gate sees of pauses and deaths during one listing window.
  datatype GateOp = PauseOp(id: Id, paused: bool) | DeathOp(id: Id)

  function QueueAfter(ops: seq<GateOp>): seq<PauseState> {
    if ops == [] then []
    else
      var q := QueueAfter(ops[..|ops| - 1]);
      match ops[|ops| - 1]
      case PauseOp(id, paused) => Added(q, id, paused)
      case DeathOp(id) => Removed(q, id)
  }

  /** The last pause state seen for the ID since its last death, if any. */
  function LastSinceDeath(ops: seq<GateOp>, id: Id): Option<bool> {
    if ops == [] then None
    else
      var op := ops[|ops| - 1];
      if op.id != id then LastSinceDeath(ops[..|ops| - 1], id)
      else if op.PauseOp? then Some(op.paused)
      else None
  }

  /** Compaction preserves meaning: the compacted queue holds, per ID, exactly the
      last pause state after the last death, whatever happened in the window. */
  lemma {:induction false} CompactionKeepsMeaning(ops: seq<GateOp>, id: Id)
    ensures Distinct(QueueAfter(ops))
    ensures LastSinceDeath(ops, id) ==
            if id in Pending(QueueAfter(ops)) then Some(Pending(QueueAfter(ops))[id]) else None
  {
    if ops != [] {
      var front := ops[..|ops| - 1];
      var q := QueueAfter(front);
      CompactionKeepsMeaning(front, id);
      match ops[|ops| - 1]
      case PauseOp(x, paused) => AddedMeaning(q, x, paused);
      case DeathOp(x) => RemovedMeaning(q, x);
    }
  }

  /** The list of pending pause states, updated in place. */
  class PendingPauseStates {
    var states: seq<PauseState>

    constructor ()
      ensures states == []
    {
      states := [];
    }

    method Add(id: Id, paused: bool)
      modifies this
      ensures states == Added(old(states), id, paused)
      ensures Distinct(old(states)) ==> Distinct(states) && Pending(states) == Pending(old(states))[id := paused]
    {
      if Distinct(states) { AddedMeaning(states, id, paused); }
      var idx := 0;
      while idx < |states|
        invariant idx <= |states| && states == old(states)
        invariant forall i | 0 <= i < idx :: states[i].id != id
      {
        if states[idx].id == id {
          states := states[idx := states[idx].(paused := paused)];
          return;
        }
        idx := idx + 1;
      }
      states := states + [PauseState(id, paused)];
    }

    method Remove(id: Id)
      modifies this
      ensures states == Removed(old(states), id)
      ensures Distinct(old(states)) ==> Distinct(states) && Pending(states) == Pending(old(states)) - {id}
    {
      if Distinct(states) { RemovedMeaning(states, id); }
      var idx := 0;
      while idx < |states|
        invariant idx <= |states| && states == old(states)
        invariant forall i | 0 <= i < idx :: states[i].id != id
      {
        if states[idx].id == id {
          var last := |states| - 1;
          states := states[idx := states[last]];
          states := states[..last];
          return;
        }
        idx := idx + 1;
      }
    }
  }
}
