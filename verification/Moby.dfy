/** Listing the alive containers of a Docker engine that changes between the list call
    and each of the inspections that follow it. */
module Moby {
  import opened Containers

  // What inspecting a container returns, as far as it is looked at.
  datatype Inspection = Inspection(id: Id, slashedName: string, hasState: bool, pid: int, paused: bool, project: string)

  type Docker = map<Id, Inspection>

  datatype InspectReply = Found(details: Inspection) | NotFound | Severe

  datatype InspectResult = Alive(c: Details) | Processless | Missing | Failed

  /** The engine at an instant: everything under its own ID, names with their slash. */
  ghost predicate Regular(d: Docker) {
    forall id | id in d :: d[id].id == id && |d[id].slashedName| > 0
  }

  predicate HasProcess(d: Docker, id: Id) {
    id in d && d[id].hasState && d[id].pid != 0
  }

  function Describe(i: Inspection): Details
    requires |i.slashedName| > 0
  {
    Details(i.id, i.slashedName[1..], i.project, i.pid, i.paused)
  }

  method Inspect(reply: InspectReply) returns (r: InspectResult)
    requires reply.Found? ==> |reply.details.slashedName| > 0
    ensures r == match reply
                 case Severe => Failed
                 case NotFound => Missing
                 case Found(i) => if i.hasState && i.pid != 0 then Alive(Describe(i)) else Processless
  {
    if reply.Severe? {
      return Failed;
    }
    if reply.NotFound? {
      return Missing;
    }
    var details := reply.details;
    if !details.hasState || details.pid == 0 {
      return Processless;
    }
    var name := details.slashedName[1..];
    return Alive(Details(details.id, name, details.project, details.pid, details.paused));
  }

  /** A call of List as the engine sees it: the list call at one instant, then one
      inspection per listed container, each at its own later instant. */
  ghost predicate Window(world: nat -> Docker, start: nat, items: seq<Id>, at: seq<nat>, replies: seq<InspectReply>) {
    && |at| == |replies| == |items|
    && (forall t: nat :: Regular(world(t)))
    // the list call misses no container that has a process, and lists none twice
    && (forall id | id in world(start) && world(start)[id].hasState && world(start)[id].pid != 0 :: id in items)
    && (forall i, j | 0 <= i < j < |items| :: items[i] != items[j])
    // the inspections follow in order, and tell the truth if they get through
    && (forall i | 0 <= i < |at| :: start <= at[i])
    && (forall i, j | 0 <= i < j < |at| :: at[i] <= at[j])
    && (forall i | 0 <= i < |replies| && replies[i].NotFound? :: items[i] !in world(at[i]))
    && (forall i | 0 <= i < |replies| && replies[i].Found? ::
          items[i] in world(at[i]) && world(at[i])[items[i]] == replies[i].details)
  }

  /** Between the list call and the last inspection, the container has a process at all
      instants. */
  ghost predicate AliveThroughout(world: nat -> Docker, start: nat, at: seq<nat>, id: Id) {
    var end := if at == [] || at[|at| - 1] < start then start else at[|at| - 1];
    forall t: nat | start <= t <= end :: id in world(t) && world(t)[id].hasState && world(t)[id].pid != 0
  }

  /** The container had a process at the instant it was inspected, and is described as
      it was then. */
  ghost predicate Witnessed(world: nat -> Docker, items: seq<Id>, at: seq<nat>, c: Details, i: nat)
    requires forall t: nat :: Regular(world(t))
  {
    && i < |items| == |at| && c.id == items[i] && Regular(world(at[i]))
    && HasProcess(world(at[i]), c.id) && c == Describe(world(at[i])[c.id])
  }

  ghost predicate AtSomeInstant(world: nat -> Docker, items: seq<Id>, at: seq<nat>, c: Details)
    requires forall t: nat :: Regular(world(t))
  {
    exists i: nat :: Witnessed(world, items, at, c, i)
  }

  /** The containers come from these items, in this order. */
  ghost predicate Gathered(world: nat -> Docker, items: seq<Id>, at: seq<nat>, alives: seq<Details>, from: seq<nat>)
    requires forall t: nat :: Regular(world(t))
  {
    && |from| == |alives|
    && (forall n | 0 <= n < |alives| :: Witnessed(world, items, at, alives[n], from[n]))
    && (forall n, m | 0 <= n < m < |alives| :: from[n] < from[m])
  }

  /** `from` tells which item each container came from, and leaves out none that had a
      process when inspected. */
  lemma Concluded(world: nat -> Docker, start: nat, items: seq<Id>, at: seq<nat>, alives: seq<Details>, from: seq<nat>)
    requires (forall t: nat :: Regular(world(t))) && |at| == |items| && |from| == |alives|
    requires forall id | HasProcess(world(start), id) :: id in items
    requires forall i, j | 0 <= i < j < |items| :: items[i] != items[j]
    requires forall i | 0 <= i < |at| :: start <= at[i] <= at[|at| - 1]
    requires forall n | 0 <= n < |alives| :: from[n] < |items| && Witnessed(world, items, at, alives[n], from[n])
    requires forall n, m | 0 <= n < m < |alives| :: from[n] < from[m]
    requires forall i | 0 <= i < |items| && HasProcess(world(at[i]), items[i]) :: i in from
    ensures forall n | 0 <= n < |alives| :: AtSomeInstant(world, items, at, alives[n])
    ensures forall n, m | 0 <= n < m < |alives| :: alives[n].id != alives[m].id
    ensures forall id | AliveThroughout(world, start, at, id) :: exists n :: 0 <= n < |alives| && alives[n].id == id
  {
    forall n | 0 <= n < |alives| ensures AtSomeInstant(world, items, at, alives[n]) {
      assert Witnessed(world, items, at, alives[n], from[n]);
    }
    forall n, m | 0 <= n < m < |alives| ensures alives[n].id != alives[m].id {
      assert items[from[n]] != items[from[m]];
    }
    forall id | AliveThroughout(world, start, at, id) ensures exists n :: 0 <= n < |alives| && alives[n].id == id {
      assert HasProcess(world(start), id);
      var i :| 0 <= i < |items| && items[i] == id;
      assert HasProcess(world(at[i]), items[i]);
      var n :| 0 <= n < |from| && from[n] == i;
      assert alives[n].id == id;
    }
  }

  /** Field by field: who was witnessed was alive, and was like that. */
  lemma WitnessedReads(world: nat -> Docker, items: seq<Id>, at: seq<nat>, alives: seq<Details>, from: seq<nat>)
    requires (forall t: nat :: Regular(world(t))) && Gathered(world, items, at, alives, from)
    ensures forall n | 0 <= n < |alives| ::
              from[n] < |at| && alives[n].id in world(at[from[n]]) &&
              var c, d := alives[n], world(at[from[n]])[alives[n].id];
              && d.hasState && d.pid != 0 && d.slashedName != "" && d.slashedName == [d.slashedName[0]] + c.name
              && c == Details(d.id, c.name, d.project, d.pid, d.paused)
  {
    forall n | 0 <= n < |alives| ensures Witnessed(world, items, at, alives[n], from[n]) {
    }
  }

  lemma WindowParts(world: nat -> Docker, start: nat, items: seq<Id>, at: seq<nat>, replies: seq<InspectReply>)
    requires Window(world, start, items, at, replies)
    ensures |at| == |replies| == |items| && forall t: nat :: Regular(world(t))
    ensures forall id | HasProcess(world(start), id) :: id in items
    ensures forall i, j | 0 <= i < j < |items| :: items[i] != items[j]
    ensures forall i | 0 <= i < |at| :: start <= at[i] <= at[|at| - 1]
    ensures forall i | 0 <= i < |replies| && replies[i].Found? :: |replies[i].details.slashedName| > 0
  {
    forall i | 0 <= i < |replies| && replies[i].Found? ensures |replies[i].details.slashedName| > 0 {
      assert Regular(world(at[i]));
    }
  }

  /** One inspection is a witness for the container, or against it. */
  lemma InspectedThen(world: nat -> Docker, start: nat, items: seq<Id>, at: seq<nat>, replies: seq<InspectReply>,
                      k: nat)
    requires Window(world, start, items, at, replies) && k < |items| && |items| == |at| == |replies|
    requires forall t: nat :: Regular(world(t))
    requires replies[k].Found? ==> |replies[k].details.slashedName| > 0
    ensures replies[k].Found? && replies[k].details.hasState && replies[k].details.pid != 0 ==>
              Witnessed(world, items, at, Describe(replies[k].details), k)
    ensures HasProcess(world(at[k]), items[k]) && !replies[k].Severe? ==>
              replies[k].Found? && replies[k].details.hasState && replies[k].details.pid != 0
  {
    assert Regular(world(at[k]));
  }

  /** List fails if and only if the list call or some inspection fails severely. Else it
      returns only containers that had a process at some instant of the call, described
      as of that instant, each once, and all that had one throughout. */
  method List(ghost world: nat -> Docker, ghost start: nat, listed: Option<seq<Id>>,
              ghost at: seq<nat>, replies: seq<InspectReply>)
    returns (r: Option<seq<Details>>, ghost from: seq<nat>)
    requires listed.Some? ==> Window(world, start, listed.value, at, replies)
    ensures r.None? <==> listed.None? || exists i :: 0 <= i < |replies| && replies[i].Severe?
    ensures r.Some? ==> Gathered(world, listed.value, at, r.value, from)
    ensures r.Some? ==> forall n | 0 <= n < |r.value| :: AtSomeInstant(world, listed.value, at, r.value[n])
    // field by field: alive at that instant, and as it was then
    ensures r.Some? ==> forall n | 0 <= n < |r.value| ::
              from[n] < |at| && r.value[n].id in world(at[from[n]]) &&
              var c, d := r.value[n], world(at[from[n]])[r.value[n].id];
              && d.hasState && d.pid != 0 && d.slashedName != "" && d.slashedName == [d.slashedName[0]] + c.name
              && c == Details(d.id, c.name, d.project, d.pid, d.paused)
    ensures r.Some? ==> forall n, m | 0 <= n < m < |r.value| :: r.value[n].id != r.value[m].id
    ensures r.Some? ==> forall id | AliveThroughout(world, start, at, id) ::
              exists n :: 0 <= n < |r.value| && r.value[n].id == id
  {
    hide Window, Witnessed, HasProcess, Describe, AliveThroughout, AtSomeInstant, Regular;
    from := [];
    if listed.None? {
      return None, [];
    }
    var items := listed.value;
    WindowParts(world, start, items, at, replies);
    var alives: seq<Details> := [];
    for k := 0 to |items|
      invariant forall i | 0 <= i < k :: !replies[i].Severe?
      invariant |from| == |alives|
      invariant forall n | 0 <= n < |alives| :: from[n] < k && Witnessed(world, items, at, alives[n], from[n])
      invariant forall n, m | 0 <= n < m < |alives| :: from[n] < from[m]
      invariant forall i | 0 <= i < k && HasProcess(world(at[i]), items[i]) :: i in from
    {
      InspectedThen(world, start, items, at, replies, k);
      var result := Inspect(replies[k]);
      if result.Failed? {
        return None, [];
      }
      if result.Processless? || result.Missing? {
        continue;
      }
      alives := alives + [result.c];
      from := from + [k];
    }
    Concluded(world, start, items, at, alives, from);
    WitnessedReads(world, items, at, alives, from);
    return Some(alives), from;
  }
}
