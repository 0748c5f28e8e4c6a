/** Containerd namespaces and IDs, folded into one displayable ID and back. */
module DisplayId {
  import opened Containers

  const DEFAULT := "default"
  const DELIMITER := '/'

  function Display(namespace: string, id: string): string {
    if namespace == DEFAULT then id else namespace + [DELIMITER] + id
  }

  /** Position of the first delimiter, or the length of the string. */
  function Cut(s: string): (k: nat)
    ensures k <= |s|
    ensures k < |s| ==> s[k] == DELIMITER
    ensures forall i | 0 <= i < k :: s[i] != DELIMITER
  {
    if s == "" || s[0] == DELIMITER then 0 else 1 + Cut(s[1..])
  }

  function Decode(display: string): (string, string) {
    var k := Cut(display);
    if k == |display| then (DEFAULT, display) else (display[..k], display[k + 1..])
  }

  /** What users see: IDs as they are in the default namespace, and behind a slash elsewhere. */
  lemma DisplayReads(namespace: string, id: string)
    ensures Display(namespace, id) == if namespace == "default" then id else namespace + "/" + id
  {
    assert namespace + [DELIMITER] + id == namespace + "/" + id;
  }

  /** What users type: the first slash, if there is any, ends the namespace. */
  lemma DecodeReads(display: string)
    ensures var (namespace, id) := Decode(display);
            if '/' in display then '/' !in namespace && display == namespace + "/" + id
            else namespace == "default" && id == display
  {
    var k := Cut(display);
    if k < |display| {
      assert display == display[..k] + "/" + display[k + 1..];
    }
  }

  /** The pairs that survive being displayed. */
  predicate Displayable(namespace: string, id: string) {
    DELIMITER !in if namespace == DEFAULT then id else namespace
  }

  /** Decoding undoes displaying for exactly these pairs. */
  lemma DecodeAfterDisplay(namespace: string, id: string)
    ensures Decode(Display(namespace, id)) == (namespace, id) <==> Displayable(namespace, id)
  {
    var d := Display(namespace, id);
    var k := Cut(d);
    if namespace == DEFAULT {
      if DELIMITER in id {
        assert k < |d|;
        assert |d[k + 1..]| < |id|;
      }
    } else {
      assert d[|namespace|] == DELIMITER;
      if DELIMITER in namespace {
        var i :| 0 <= i < |namespace| && namespace[i] == DELIMITER;
        assert d[i] == DELIMITER;
        assert |d[..k]| < |namespace|;
      } else {
        assert forall i | 0 <= i < |namespace| :: d[i] == namespace[i];
        assert d[..k] == namespace && d[k + 1..] == id;
      }
    }
  }

  /** Displaying undoes decoding except where the default namespace is spelled out. */
  lemma DisplayAfterDecode(d: string)
    ensures var (namespace, id) := Decode(d);
            Display(namespace, id) == d <==> !(DEFAULT + [DELIMITER] <= d)
  {
    var k := Cut(d);
    if DEFAULT + [DELIMITER] <= d {
      assert d[|DEFAULT|] == DELIMITER;
      assert forall i | 0 <= i < |DEFAULT| :: d[i] == DEFAULT[i];
      assert d[..k] == DEFAULT;
    } else if k < |d| {
      assert d == d[..k] + [DELIMITER] + d[k + 1..];
      assert d[..k] != DEFAULT;
    }
  }

  lemma DisplayIsInjective(n1: string, i1: string, n2: string, i2: string)
    requires Displayable(n1, i1) && Displayable(n2, i2) && Display(n1, i1) == Display(n2, i2)
    ensures n1 == n2 && i1 == i2
  {
    DecodeAfterDisplay(n1, i1);
    DecodeAfterDisplay(n2, i2);
  }

  // ---- Containers made from tasks ----

  datatype Status = Unknown | Created | Running | Stopped | Pausing | Paused

  datatype Task = Task(id: string, pid: int, status: Status)

  /** Only tasks with a live process make containers; nerdctl may supply a name. */
  function NewContainer(namespace: string, nerdctlName: Option<string>, project: string, task: Task): Option<Details> {
    if task.status !in {Running, Pausing, Paused} then None
    else
      var id := Display(namespace, task.id);
      var name := if nerdctlName.Some? then Display(namespace, nerdctlName.value) else id;
      Some(Details(id, name, project, task.pid, task.status != Running))
  }

  // What containerd knows about one container: the labels that matter, and its task.
  datatype Entry = Entry(nerdctlName: Option<string>, project: string, task: Task)

  // By namespace and ID.
  type World = map<(string, string), Entry>

  ghost predicate Regular(w: World) {
    forall key | key in w :: w[key].task.id == key.1
  }

  /** What a listing makes of one entry. */
  function AsListed(w: World, namespace: string, id: string): Option<Details>
    requires (namespace, id) in w
  {
    var entry := w[(namespace, id)];
    NewContainer(namespace, entry.nerdctlName, entry.project, entry.task)
  }

  /** Inspection decodes the ID it is given, then looks up container and task. */
  function Inspect(w: World, nameorid: string): Option<Details> {
    var (namespace, id) := Decode(nameorid);
    if (namespace, id) in w then AsListed(w, namespace, id) else None
  }

  /** Whoever is listed runs, or is paused or about to be; and is listed as it is. */
  lemma ListedAsItIs(w: World, namespace: string, id: string)
    requires Regular(w) && (namespace, id) in w
    ensures var Entry(nerdctlName, project, task) := w[(namespace, id)];
            var r := AsListed(w, namespace, id);
            && (r.Some? <==> task.status == Running || task.status == Pausing || task.status == Paused)
            && (r.Some? ==>
                  var c := r.value;
                  && (c.paused <==> task.status == Pausing || task.status == Paused)
                  && c.pid == task.pid && c.project == project
                  && (c.id == if namespace == "default" then id else namespace + "/" + id)
                  && var name := if nerdctlName.Some? then nerdctlName.value else id;
                     c.name == if namespace == "default" then name else namespace + "/" + name)
  {
    var entry := w[(namespace, id)];
    DisplayReads(namespace, id);
    if entry.nerdctlName.Some? { DisplayReads(namespace, entry.nerdctlName.value); }
  }

  /** Inspecting finds nothing that is not listed: what a string finds is what a listing
      makes of the container that the string means, and nothing if there is no such one. */
  lemma InspectFindsOnlyListed(w: World, nameorid: string) returns (namespace: string, id: string)
    ensures if '/' in nameorid then '/' !in namespace && nameorid == namespace + "/" + id
            else namespace == "default" && id == nameorid
    ensures Inspect(w, nameorid) == if (namespace, id) in w then AsListed(w, namespace, id) else None
  {
    DecodeReads(nameorid);
    var (n, i) := Decode(nameorid);
    namespace, id := n, i;
  }

  ghost predicate Inspectable(namespace: string, id: string) {
    forall w: World | Regular(w) && (namespace, id) in w ::
      match AsListed(w, namespace, id)
      case Some(c) => Inspect(w, c.id) == Some(c)
      case None => Inspect(w, Display(namespace, id)) == None
  }

  /** Whatever else there is, inspecting a listed container by its ID leads to the very same
      container, exactly if its namespace and ID are displayable. */
  lemma InspectFindsListed(namespace: string, id: string)
    ensures Inspectable(namespace, id) <==> Displayable(namespace, id)
  {
    DecodeAfterDisplay(namespace, id);
    if !Displayable(namespace, id) {
      var key := (namespace, id);
      var w: World := map[key := Entry(None, "", Task(id, 1, Running))];
      assert Regular(w) && key in w;
      assert AsListed(w, namespace, id).value.id == Display(namespace, id);
      assert Inspect(w, Display(namespace, id)) == None;
    }
  }

  // ---- Names and IDs ----

  /** In full, a string in the default namespace spells out a pair of another namespace. */
  predicate SpellsOut(namespace: string, s: string, other: string, t: string) {
    namespace == DEFAULT && other != DEFAULT && s == other + [DELIMITER] + t
  }

  /** One namespace ends, within its delimiters, where the other one goes on. */
  ghost predicate RunsOn(namespace: string, s: string, other: string, t: string) {
    namespace != DEFAULT && other != DEFAULT && exists rest :: RunsOnBy(namespace, s, other, t, rest)
  }

  predicate RunsOnBy(namespace: string, s: string, other: string, t: string, rest: string) {
    namespace == other + [DELIMITER] + rest && t == rest + [DELIMITER] + s
  }

  lemma SameSplit(a: string, s: string, b: string, t: string)
    requires a + [DELIMITER] + s == b + [DELIMITER] + t && |a| <= |b|
    ensures (a == b && s == t) || exists rest :: RunsOnBy(b, t, a, s, rest)
  {
    var d := a + [DELIMITER] + s;
    assert d[..|a|] == a && d[..|b|] == b && d[|a| + 1..] == s && d[|b| + 1..] == t;
    if |a| < |b| {
      var rest := b[|a| + 1..];
      assert d[|a|] == DELIMITER;
      assert b == a + [DELIMITER] + rest;
      assert s == rest + [DELIMITER] + t;
      assert RunsOnBy(b, t, a, s, rest);
    } else {
      assert a == b;
    }
  }

  /** Exactly which pairs are displayed alike. */
  lemma DisplayedAlike(n1: string, s1: string, n2: string, s2: string)
    ensures Display(n1, s1) == Display(n2, s2) <==>
            (n1 == n2 && s1 == s2) || SpellsOut(n1, s1, n2, s2) || SpellsOut(n2, s2, n1, s1)
            || RunsOn(n1, s1, n2, s2) || RunsOn(n2, s2, n1, s1)
  {
    if n1 != DEFAULT && n2 != DEFAULT && Display(n1, s1) == Display(n2, s2) {
      if |n1| <= |n2| { SameSplit(n1, s1, n2, s2); } else { SameSplit(n2, s2, n1, s1); }
    }
    if RunsOn(n1, s1, n2, s2) {
      var rest :| RunsOnBy(n1, s1, n2, s2, rest);
      assert n1 + [DELIMITER] + s1 == n2 + [DELIMITER] + s2;
    }
    if RunsOn(n2, s2, n1, s1) {
      var rest :| RunsOnBy(n2, s2, n1, s1, rest);
      assert n1 + [DELIMITER] + s1 == n2 + [DELIMITER] + s2;
    }
  }

  /** A nerdctl name is mistaken for another container's ID, exactly if it is the ID of a
      task in the same namespace; or, from the default namespace, if it spells out another
      namespace and its task, or is spelled out by the ID of a task there; or if namespaces
      have delimiters of their own. */
  lemma NameIsNoOthersId(namespace: string, name: string, task: Task, otherNamespace: string, other: Task)
    requires task.status in {Running, Pausing, Paused} && other.status in {Running, Pausing, Paused}
    ensures NewContainer(namespace, Some(name), "", task).value.name
         == NewContainer(otherNamespace, None, "", other).value.id
       <==> || (namespace == otherNamespace && name == other.id)
            || SpellsOut(namespace, name, otherNamespace, other.id)
            || SpellsOut(otherNamespace, other.id, namespace, name)
            || RunsOn(namespace, name, otherNamespace, other.id) || RunsOn(otherNamespace, other.id, namespace, name)
  {
    DisplayedAlike(namespace, name, otherNamespace, other.id);
  }
}
