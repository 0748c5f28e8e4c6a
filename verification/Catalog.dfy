/** A portfolio as a value: project names mapped to the containers of each project in
    slice order; and the flat collection of containers that this stands for. */
module Catalog {
  import opened Containers

  type Projects = map<string, seq<Details>>

  const EMPTY: Projects := map["" := []]

  predicate Matches(d: Details, nameorid: string) {
    d.name == nameorid || d.id == nameorid
  }

  /** Project, name and ID identify a container. */
  predicate SameKey(d: Details, e: Details) {
    d.project == e.project && d.name == e.name && d.id == e.id
  }

  // ---- One project ----

  function Find(s: seq<Details>, nameorid: string): (k: nat)
    ensures k <= |s|
    ensures k < |s| ==> Matches(s[k], nameorid)
    ensures forall i | 0 <= i < k :: !Matches(s[i], nameorid)
  {
    if s == [] || Matches(s[0], nameorid) then 0 else 1 + Find(s[1..], nameorid)
  }

  /** The first container that answers to the name or ID. */
  function Answer(s: seq<Details>, nameorid: string): Option<Details> {
    var k := Find(s, nameorid);
    if k < |s| then Some(s[k]) else None
  }

  predicate Holds(s: seq<Details>, c: Details) {
    exists i :: 0 <= i < |s| && s[i].name == c.name && s[i].id == c.id
  }

  function SwapRemoved<T>(s: seq<T>, i: nat): seq<T>
    requires i < |s|
  {
    s[i := s[|s| - 1]][..|s| - 1]
  }

  function Joined(s: seq<Details>, c: Details): seq<Details> {
    if Holds(s, c) then s else s + [c]
  }

  function Left(s: seq<Details>, nameorid: string): seq<Details> {
    var k := Find(s, nameorid);
    if k < |s| then SwapRemoved(s, k) else s
  }

  function Repaused(s: seq<Details>, nameorid: string, paused: bool): seq<Details> {
    var k := Find(s, nameorid);
    if k < |s| then s[k := s[k].(paused := paused)] else s
  }

  lemma SwapRemovedContent<T>(s: seq<T>, i: nat)
    requires i < |s|
    ensures multiset(SwapRemoved(s, i)) == multiset(s) - multiset{s[i]}
  {
    var last := |s| - 1;
    assert s == s[..last] + [s[last]];
    if i < last {
      assert s[i := s[last]][..last] == s[..last][i := s[last]];
    } else {
      assert s[i := s[last]][..last] == s[..last];
    }
  }

  // ---- All projects ----

  function Project(m: Projects, name: string): seq<Details> {
    if name in m then m[name] else []
  }

  function Added(m: Projects, c: Details): Projects {
    m[c.project := Joined(Project(m, c.project), c)]
  }

  function Removed(m: Projects, nameorid: string, project: string): Projects {
    if project !in m then m
    else
      var s := Left(m[project], nameorid);
      if project != "" && s == [] then m - {project} else m[project := s]
  }

  function Paused(m: Projects, project: string, nameorid: string, paused: bool): Projects {
    if project !in m then m else m[project := Repaused(m[project], nameorid, paused)]
  }

  /** The container that a removal or a pause in this project applies to. */
  function Target(m: Projects, project: string, nameorid: string): Option<Details> {
    Answer(Project(m, project), nameorid)
  }

  ghost predicate Distinct(s: seq<Details>) {
    forall i, j | 0 <= i < j < |s| :: !(s[i].name == s[j].name && s[i].id == s[j].id)
  }

  /** The unnamed project always exists, a named one only with containers in it; every
      container is under its own project, and none is there twice. */
  ghost predicate Valid(m: Projects) {
    && "" in m
    && (forall n | n in m :: n != "" ==> m[n] != [])
    && (forall n, i | n in m && 0 <= i < |m[n]| :: m[n][i].project == n)
    && (forall n | n in m :: Distinct(m[n]))
  }

  lemma AddedValid(m: Projects, c: Details)
    requires Valid(m)
    ensures Valid(Added(m, c))
  {
  }

  lemma RemovedValid(m: Projects, nameorid: string, project: string)
    requires Valid(m)
    ensures Valid(Removed(m, nameorid, project))
  {
  }

  lemma PausedValid(m: Projects, project: string, nameorid: string, paused: bool)
    requires Valid(m)
    ensures Valid(Paused(m, project, nameorid, paused))
  {
  }

  // ---- The flat collection ----

  ghost function Flat(m: Projects): multiset<Details>
    decreases |m|
  {
    if m == map[] then multiset{}
    else
      var n :| n in m;
      multiset(m[n]) + Flat(m - {n})
  }

  lemma {:induction false} FlatSplit(m: Projects, n: string)
    requires n in m
    ensures Flat(m) == multiset(m[n]) + Flat(m - {n})
    decreases |m|
  {
    var k :| k in m && Flat(m) == multiset(m[k]) + Flat(m - {k});
    if k != n {
      FlatSplit(m - {k}, n);
      FlatSplit(m - {n}, k);
      assert m - {k} - {n} == m - {n} - {k};
    }
  }

  /** The containers of one project, and all others, before and after an update. */
  lemma FlatUpdated(m: Projects, n: string, s: seq<Details>) returns (others: multiset<Details>)
    ensures Flat(m) == multiset(Project(m, n)) + others
    ensures Flat(m[n := s]) == multiset(s) + others
    ensures s == [] ==> Flat(m - {n}) == others
  {
    hide Flat;
    others := Flat(m - {n});
    FlatSplit(m[n := s], n);
    assert m[n := s] - {n} == m - {n};
    if n in m {
      FlatSplit(m, n);
    } else {
      assert m - {n} == m;
      assert multiset(Project(m, n)) == multiset{};
    }
  }

  lemma {:induction false} InFlat(m: Projects, d: Details)
    ensures d in Flat(m) <==> exists n :: n in m && d in m[n]
    decreases |m|
  {
    if m != map[] {
      var n :| n in m && Flat(m) == multiset(m[n]) + Flat(m - {n});
      InFlat(m - {n}, d);
      if k :| k in m && d in m[k] { assert k == n || (k in m - {n} && d in (m - {n})[k]); }
    }
  }

  lemma InFlatOf(m: Projects, d: Details)
    requires Valid(m)
    ensures d in Flat(m) <==> d in Project(m, d.project)
  {
    InFlat(m, d);
    if n :| n in m && d in m[n] {
      var i :| 0 <= i < |m[n]| && m[n][i] == d;
      assert n == d.project;
    }
  }

  lemma HoldsFlat(m: Projects, c: Details)
    requires Valid(m)
    ensures Holds(Project(m, c.project), c) <==> exists d :: d in Flat(m) && SameKey(d, c)
  {
    hide Flat, Distinct;
    var s := Project(m, c.project);
    if i :| 0 <= i < |s| && s[i].name == c.name && s[i].id == c.id {
      InFlatOf(m, s[i]);
      assert s[i].project == c.project;
      assert s[i] in Flat(m) && SameKey(s[i], c);
    }
    if d :| d in Flat(m) && SameKey(d, c) {
      InFlatOf(m, d);
      var i :| 0 <= i < |s| && s[i] == d;
    }
  }

  /** Flat reference of Add: nothing happens if project, name and ID are taken. */
  lemma AddedFlat(m: Projects, c: Details)
    requires Valid(m)
    ensures Flat(Added(m, c)) ==
            if exists d :: d in Flat(m) && SameKey(d, c) then Flat(m) else Flat(m) + multiset{c}
  {
    hide Flat, Distinct, Holds;
    HoldsFlat(m, c);
    var others := FlatUpdated(m, c.project, Joined(Project(m, c.project), c));
  }

  /** What a removal or pause is applied to: some container of the project that answers
      to the name or ID, if there is one at all. */
  lemma TargetFlat(m: Projects, project: string, nameorid: string)
    requires Valid(m)
    ensures match Target(m, project, nameorid)
            case Some(d) => d in Flat(m) && d.project == project && Matches(d, nameorid)
            case None => forall d | d in Flat(m) :: d.project == project ==> !Matches(d, nameorid)
  {
    var s := Project(m, project);
    if Target(m, project, nameorid).Some? {
      InFlatOf(m, s[Find(s, nameorid)]);
    } else {
      forall d | d in Flat(m) && d.project == project ensures !Matches(d, nameorid) {
        InFlatOf(m, d);
        var i :| 0 <= i < |s| && s[i] == d;
      }
    }
  }

  lemma TakeOne<T>(these: multiset<T>, others: multiset<T>, x: T)
    requires x in these
    ensures (these - multiset{x}) + others == these + others - multiset{x}
  {
  }

  lemma RemovedSplit(m: Projects, nameorid: string, project: string) returns (others: multiset<Details>)
    requires project in m
    ensures Flat(m) == multiset(m[project]) + others
    ensures Flat(Removed(m, nameorid, project)) == multiset(Left(m[project], nameorid)) + others
  {
    hide Flat, Find;
    var s := Left(m[project], nameorid);
    others := FlatUpdated(m, project, s);
    assert s == [] ==> multiset(s) == multiset{};
  }

  /** Flat reference of Remove: exactly the target goes. */
  lemma RemovedFlat(m: Projects, nameorid: string, project: string)
    ensures Flat(Removed(m, nameorid, project)) ==
            match Target(m, project, nameorid) {
              case Some(d) => Flat(m) - multiset{d}
              case None => Flat(m)
            }
  {
    hide Flat, Removed;
    if project in m {
      var s := m[project];
      var k := Find(s, nameorid);
      var others := RemovedSplit(m, nameorid, project);
      if k < |s| {
        SwapRemovedContent(s, k);
        TakeOne(multiset(s), others, s[k]);
      }
    } else {
      assert Removed(m, nameorid, project) == m by { NotThere(m, nameorid, project); }
    }
  }

  lemma NotThere(m: Projects, nameorid: string, project: string)
    requires project !in m
    ensures Removed(m, nameorid, project) == m
  {
  }

  /** Flat reference of SetPaused: exactly the target changes, and only its pause state. */
  lemma PausedFlat(m: Projects, project: string, nameorid: string, paused: bool)
    ensures Flat(Paused(m, project, nameorid, paused)) ==
            match Target(m, project, nameorid) {
              case Some(d) => Flat(m) - multiset{d} + multiset{d.(paused := paused)}
              case None => Flat(m)
            }
  {
    hide Flat;
    if project in m {
      var s := m[project];
      var k := Find(s, nameorid);
      if k < |s| {
        var d := s[k].(paused := paused);
        var others := FlatUpdated(m, project, s[k := d]);
        assert multiset(s[k := d]) == multiset(s) - multiset{s[k]} + multiset{d};
        TakeOne(multiset(s), others, s[k]);
      } else {
        assert m[project := s] == m;
      }
    }
  }

  /** The flat collection holds nothing twice. */
  lemma FlatIsKeyed(m: Projects, d: Details, e: Details)
    requires Valid(m) && d in Flat(m) && e in Flat(m) && SameKey(d, e)
    ensures d == e && Flat(m)[d] == 1
  {
    hide Flat;
    InFlatOf(m, d);
    InFlatOf(m, e);
    var n := d.project;
    var s := m[n];
    var i :| 0 <= i < |s| && s[i] == d;
    var j :| 0 <= j < |s| && s[j] == e;
    assert i == j;
    FlatSplit(m, n);
    OnlyOnce(s, i);
    NotElsewhere(m, d);
  }

  lemma NotElsewhere(m: Projects, d: Details)
    requires Valid(m)
    ensures d !in Flat(m - {d.project})
  {
    hide Flat;
    InFlat(m - {d.project}, d);
    forall k | k in m - {d.project} ensures d !in (m - {d.project})[k] {
      assert forall l | 0 <= l < |m[k]| :: m[k][l].project == k;
    }
  }

  lemma OnlyOnce(s: seq<Details>, i: nat)
    requires Distinct(s) && i < |s|
    ensures multiset(s)[s[i]] == 1
  {
    assert s == s[..i] + [s[i]] + s[i + 1..];
    assert s[i] !in s[..i];
    assert s[i] !in s[i + 1..];
  }

  // ---- Adding what a listing has found ----

  /** One after the other, the dead skipped. */
  function AddedAll(m: Projects, dead: seq<Id>, alives: seq<Details>): Projects {
    if alives == [] then m
    else
      var m', last := AddedAll(m, dead, alives[..|alives| - 1]), alives[|alives| - 1];
      if last.id in dead then m' else Added(m', last)
  }

  lemma AddsLast(m: Projects, dead: seq<Id>, alives: seq<Details>)
    requires alives != []
    ensures var m', last := AddedAll(m, dead, alives[..|alives| - 1]), alives[|alives| - 1];
            AddedAll(m, dead, alives) == if last.id in dead then m' else Added(m', last)
  {
  }

  ghost predicate Taken(f: multiset<Details>, c: Details) {
    exists d :: d in f && SameKey(d, c)
  }

  /** Neither dead nor there yet, and the first one of its project, name and ID. */
  ghost predicate IsNew(m: Projects, dead: seq<Id>, alives: seq<Details>, i: nat)
    requires i < |alives|
  {
    && alives[i].id !in dead && !Taken(Flat(m), alives[i])
    && forall j | 0 <= j < i :: alives[j].id in dead || !SameKey(alives[j], alives[i])
  }

  ghost function Newcomers(m: Projects, dead: seq<Id>, alives: seq<Details>): seq<Details> {
    if alives == [] then []
    else
      Newcomers(m, dead, alives[..|alives| - 1]) +
      if IsNew(m, dead, alives, |alives| - 1) then [alives[|alives| - 1]] else []
  }

  lemma {:induction false} NewcomersAre(m: Projects, dead: seq<Id>, alives: seq<Details>)
    ensures forall c | c in Newcomers(m, dead, alives) :: c.id !in dead && c in alives
    ensures forall i | 0 <= i < |alives| && IsNew(m, dead, alives, i) :: alives[i] in Newcomers(m, dead, alives)
  {
    hide Flat, Taken;
    if alives != [] {
      var front := alives[..|alives| - 1];
      NewcomersAre(m, dead, front);
      assert forall c | c in front :: c in alives;
      forall i | 0 <= i < |front| && IsNew(m, dead, alives, i) ensures alives[i] in Newcomers(m, dead, front) {
        assert IsNew(m, dead, front, i);
      }
    }
  }

  lemma {:induction false} FirstOfKey(dead: seq<Id>, alives: seq<Details>, c: Details, k: nat) returns (i: nat)
    requires k < |alives| && alives[k].id !in dead && SameKey(alives[k], c)
    ensures i <= k && alives[i].id !in dead && SameKey(alives[i], c)
    ensures forall j | 0 <= j < i :: alives[j].id in dead || !SameKey(alives[j], c)
  {
    if j :| 0 <= j < k && alives[j].id !in dead && SameKey(alives[j], c) {
      i := FirstOfKey(dead, alives, c, j);
    } else {
      i := k;
    }
  }

  /** What has been added so far takes a key exactly if a listed container that is not dead
      has it. */
  lemma TakenByNewcomer(m: Projects, dead: seq<Id>, alives: seq<Details>, c: Details)
    requires !Taken(Flat(m), c)
    ensures Taken(Flat(m) + multiset(Newcomers(m, dead, alives)), c) <==>
            exists k :: 0 <= k < |alives| && alives[k].id !in dead && SameKey(alives[k], c)
  {
    hide Flat;
    NewcomersAre(m, dead, alives);
    var f := Flat(m) + multiset(Newcomers(m, dead, alives));
    if d :| d in f && SameKey(d, c) {
      assert d in Newcomers(m, dead, alives);
      var k :| 0 <= k < |alives| && alives[k] == d;
    }
    if k :| 0 <= k < |alives| && alives[k].id !in dead && SameKey(alives[k], c) {
      var i := FirstOfKey(dead, alives, c, k);
      assert IsNew(m, dead, alives, i);
      assert alives[i] in f;
    }
  }

  /** In closed form: the old content, plus every listed container that is neither dead nor
      there yet, by project, name and ID, and is the first such in the list. */
  lemma {:induction false} AddedAllFlat(m: Projects, dead: seq<Id>, alives: seq<Details>)
    requires Valid(m)
    ensures Valid(AddedAll(m, dead, alives))
    ensures Flat(AddedAll(m, dead, alives)) == Flat(m) + multiset(Newcomers(m, dead, alives))
  {
    hide Flat, Valid, Added, Taken, SameKey;
    if alives != [] {
      var front, last := alives[..|alives| - 1], alives[|alives| - 1];
      AddedAllFlat(m, dead, front);
      if last.id !in dead {
        AddedValid(AddedAll(m, dead, front), last);
        AddedTaken(AddedAll(m, dead, front), last);
        if Taken(Flat(m), last) {
          StillTaken(Flat(m), multiset(Newcomers(m, dead, front)), last);
        } else {
          TakenByNewcomer(m, dead, front, last);
          LastIsNew(m, dead, alives);
        }
      }
    }
  }

  lemma AddedTaken(m: Projects, c: Details)
    requires Valid(m)
    ensures Flat(Added(m, c)) == if Taken(Flat(m), c) then Flat(m) else Flat(m) + multiset{c}
  {
    hide Flat, Valid, Added;
    AddedFlat(m, c);
  }

  lemma StillTaken(f: multiset<Details>, g: multiset<Details>, c: Details)
    requires Taken(f, c)
    ensures Taken(f + g, c)
  {
    var d :| d in f && SameKey(d, c);
    assert d in f + g;
  }

  lemma LastIsNew(m: Projects, dead: seq<Id>, alives: seq<Details>)
    requires alives != [] && alives[|alives| - 1].id !in dead && !Taken(Flat(m), alives[|alives| - 1])
    ensures var front, last := alives[..|alives| - 1], alives[|alives| - 1];
            IsNew(m, dead, alives, |alives| - 1) <==>
            !exists k :: 0 <= k < |front| && front[k].id !in dead && SameKey(front[k], last)
  {
    hide Flat, Taken, SameKey;
    var front, last := alives[..|alives| - 1], alives[|alives| - 1];
    if j :| 0 <= j < |alives| - 1 && alives[j].id !in dead && SameKey(alives[j], last) {
      assert front[j] == alives[j];
    }
  }

  // ---- Any sequence of operations ----

  datatype Op =
    | Add(c: Details)
    | Remove(nameorid: string, project: string)
    | SetPaused(project: string, nameorid: string, paused: bool)
    | LookUp(project: string, nameorid: string)
    | ListAll(project: string)

  // What an operation answers: whether it has added, the container it is about, a list, or
  // that there is no such project to ask.
  datatype Reply = Said(added: bool) | Given(c: Option<Details>) | Listed(cs: seq<Details>) | NoProject

  function Performed(m: Projects, op: Op): Projects {
    match op
    case Add(c) => Added(m, c)
    case Remove(nameorid, project) => Removed(m, nameorid, project)
    case SetPaused(project, nameorid, paused) => Paused(m, project, nameorid, paused)
    case LookUp(_, _) => m
    case ListAll(_) => m
  }

  function Answered(m: Projects, op: Op): Reply {
    match op
    case Add(c) => Said(!Holds(Project(m, c.project), c))
    case Remove(nameorid, project) => Given(Target(m, project, nameorid))
    case SetPaused(project, nameorid, paused) =>
      (match Target(m, project, nameorid)
       case Some(c) => Given(Some(c.(paused := paused)))
       case None => Given(None))
    case LookUp(project, nameorid) => if project in m then Given(Target(m, project, nameorid)) else NoProject
    case ListAll(project) => if project in m then Listed(m[project]) else NoProject
  }

  /** What an answer says about the number of containers. */
  function Gain(op: Op, reply: Reply): int {
    if op.Add? && reply == Said(true) then 1
    else if op.Remove? && reply.Given? && reply.c.Some? then -1
    else 0
  }

  function After(m: Projects, ops: seq<Op>): Projects {
    if ops == [] then m else Performed(After(m, ops[..|ops| - 1]), ops[|ops| - 1])
  }

  /** The number of additions that returned true, less the number of removals that returned
      a container. */
  function Gains(m: Projects, ops: seq<Op>): int {
    if ops == [] then 0
    else
      var front, op := ops[..|ops| - 1], ops[|ops| - 1];
      Gains(m, front) + Gain(op, Answered(After(m, front), op))
  }

  lemma PerformedValid(m: Projects, op: Op)
    requires Valid(m)
    ensures Valid(Performed(m, op))
  {
    match op
    case Add(c) => AddedValid(m, c);
    case Remove(nameorid, project) => RemovedValid(m, nameorid, project);
    case SetPaused(project, nameorid, paused) => PausedValid(m, project, nameorid, paused);
    case LookUp(_, _) =>
    case ListAll(_) =>
  }

  // ---- What each operation does and answers, in terms of the flat collection ----

  /** Add says whether it has added the container, and adds it unless one of the same
      project, name and ID is there. */
  lemma AddAnswers(m: Projects, c: Details)
    requires Valid(m)
    ensures var there := exists d :: d in Flat(m) && d.project == c.project && d.name == c.name && d.id == c.id;
            && Answered(m, Add(c)) == Said(!there)
            && Flat(Performed(m, Add(c))) == if there then Flat(m) else Flat(m) + multiset{c}
  {
    hide Flat, Valid, Holds, Added;
    HoldsFlat(m, c);
    AddedFlat(m, c);
    var there := exists d :: d in Flat(m) && d.project == c.project && d.name == c.name && d.id == c.id;
    assert there <==> exists d :: d in Flat(m) && SameKey(d, c) by {
      if d :| d in Flat(m) && d.project == c.project && d.name == c.name && d.id == c.id { assert SameKey(d, c); }
    }
  }

  /** Remove hands out the container that it has taken out, which is one of that project
      with that name or ID, and no container only if there is none. */
  lemma RemoveAnswers(m: Projects, nameorid: string, project: string)
    requires Valid(m)
    ensures var r, after := Answered(m, Remove(nameorid, project)), Flat(Performed(m, Remove(nameorid, project)));
            && r.Given?
            && (r.c.Some? ==>
                  var d := r.c.value;
                  && d in Flat(m) && d.project == project && (d.name == nameorid || d.id == nameorid)
                  && after == Flat(m) - multiset{d})
            && (r.c.None? ==>
                  && (forall d | d in Flat(m) && d.project == project :: d.name != nameorid && d.id != nameorid)
                  && after == Flat(m))
  {
    hide Flat, Valid, Target, Removed;
    TargetFlat(m, project, nameorid);
    RemovedFlat(m, nameorid, project);
  }

  /** SetPaused hands out the container as it is afterwards, and changes no other one. */
  lemma PauseAnswers(m: Projects, project: string, nameorid: string, paused: bool)
    requires Valid(m)
    ensures var op := SetPaused(project, nameorid, paused);
            var r, after := Answered(m, op), Flat(Performed(m, op));
            && r.Given?
            && (r.c.Some? ==>
                  var d := r.c.value;
                  && d.project == project && (d.name == nameorid || d.id == nameorid) && d.paused == paused
                  && exists was :: was in Flat(m) && was == d.(paused := was.paused)
                                   && after == Flat(m) - multiset{was} + multiset{d})
            && (r.c.None? ==>
                  && (forall d | d in Flat(m) && d.project == project :: d.name != nameorid && d.id != nameorid)
                  && after == Flat(m))
  {
    hide Flat, Valid, Target, Paused;
    TargetFlat(m, project, nameorid);
    PausedFlat(m, project, nameorid, paused);
    match Target(m, project, nameorid) {
      case Some(was) => assert was in Flat(m) && was == was.(paused := paused).(paused := was.paused);
      case None =>
    }
  }

  /** A project is there exactly if it is the unnamed one or has containers. */
  lemma ProjectIffInFlat(m: Projects, project: string)
    requires Valid(m)
    ensures project in m <==> project == "" || exists d :: d in Flat(m) && d.project == project
  {
    hide Flat, Distinct;
    if project in m && project != "" { InFlatOf(m, m[project][0]); }
    if d :| d in Flat(m) && d.project == project { InFlatOf(m, d); }
  }

  /** Looking up a container in a project finds one of that project with that name or ID, and
      none only if there is none; there is no such project exactly if it has a name but no
      containers. */
  lemma LookUpAnswers(m: Projects, project: string, nameorid: string)
    requires Valid(m)
    ensures Performed(m, LookUp(project, nameorid)) == m
    ensures var r := Answered(m, LookUp(project, nameorid));
            if project != "" && !exists d :: d in Flat(m) && d.project == project
            then r == NoProject
            else
              && r.Given?
              && (r.c.Some? ==>
                    var d := r.c.value;
                    d in Flat(m) && d.project == project && (d.name == nameorid || d.id == nameorid))
              && (r.c.None? ==>
                    forall d | d in Flat(m) && d.project == project :: d.name != nameorid && d.id != nameorid)
  {
    hide Flat, Valid, Target;
    TargetFlat(m, project, nameorid);
    ProjectIffInFlat(m, project);
  }

  /** Listing a project gives exactly its containers, each once. */
  lemma ListAnswers(m: Projects, project: string)
    requires Valid(m)
    ensures Performed(m, ListAll(project)) == m
    ensures var r := Answered(m, ListAll(project));
            if project != "" && !exists d :: d in Flat(m) && d.project == project
            then r == NoProject
            else
              && r.Listed?
              && (forall d :: d in r.cs <==> d in Flat(m) && d.project == project)
              && (forall i, j | 0 <= i < j < |r.cs| :: r.cs[i] != r.cs[j])
  {
    hide Flat;
    ProjectIffInFlat(m, project);
    if project in m {
      forall d ensures d in m[project] <==> d in Flat(m) && d.project == project {
        InFlatOf(m, d);
        if i :| 0 <= i < |m[project]| && m[project][i] == d { assert d.project == project; }
      }
    }
  }

  lemma PerformedTotal(m: Projects, op: Op)
    requires Valid(m)
    ensures |Flat(Performed(m, op))| == |Flat(m)| + Gain(op, Answered(m, op))
  {
    hide Valid, Flat, Performed, Answered;
    match op
    case Add(c) => AddAnswers(m, c);
    case Remove(nameorid, project) => RemoveAnswers(m, nameorid, project);
    case SetPaused(project, nameorid, paused) => PauseAnswers(m, project, nameorid, paused);
    case LookUp(project, nameorid) => LookUpAnswers(m, project, nameorid);
    case ListAll(project) => ListAnswers(m, project);
  }

  lemma EmptyFlat()
    ensures Valid(EMPTY) && Flat(EMPTY) == multiset{}
  {
    FlatSplit(EMPTY, "");
    assert EMPTY - {""} == map[];
  }

  /** Over any run of operations: the portfolio stays well-formed, and as many containers
      are in it as there were, and were really added, and not removed again. */
  lemma {:induction false} Conservation(m: Projects, ops: seq<Op>)
    requires Valid(m)
    ensures Valid(After(m, ops))
    ensures |Flat(After(m, ops))| == |Flat(m)| + Gains(m, ops)
  {
    hide Valid, Flat, Performed, Answered, Gain;
    if ops != [] {
      Conservation(m, ops[..|ops| - 1]);
      PerformedValid(After(m, ops[..|ops| - 1]), ops[|ops| - 1]);
      PerformedTotal(After(m, ops[..|ops| - 1]), ops[|ops| - 1]);
    }
  }
}
