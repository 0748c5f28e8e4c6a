/** The All matcher: ticks off its matchers greedily, one per value it is shown. */
module AllMatcher {

  datatype Outcome = Yes | No | Fails

  type Matcher<!V> = V -> Outcome

  datatype Verdict = Complete | Incomplete | Error

  /** Position of the first matcher that accepts the value or fails on it. */
  function Decider<V>(ms: seq<Matcher<V>>, v: V): (k: nat)
    ensures k <= |ms|
    ensures k < |ms| ==> ms[k](v) != No
    ensures forall i | 0 <= i < k :: ms[i](v) == No
  {
    if ms == [] || ms[0](v) != No then 0 else 1 + Decider(ms[1..], v)
  }

  function Without<T>(s: seq<T>, k: nat): seq<T>
    requires k < |s|
  {
    s[..k] + s[k + 1..]
  }

  /** What one call answers, and the matchers that remain. */
  function Step<V>(ms: seq<Matcher<V>>, v: V): (Verdict, seq<Matcher<V>>) {
    var k := Decider(ms, v);
    if k == |ms| || ms[k](v) == Fails then (Error, ms)
    else
      var rest := Without(ms, k);
      (if |rest| > 0 then Incomplete else Complete, rest)
  }

  class All<V(!new)> {
    var remaining: seq<Matcher<V>>

    constructor (matchers: seq<Matcher<V>>)
      ensures remaining == matchers
    {
      remaining := matchers;
    }

    method Match(actual: V) returns (verdict: Verdict)
      modifies this
      ensures (verdict, remaining) == Step(old(remaining), actual)
      ensures verdict == Error ==> remaining == old(remaining)
      ensures verdict != Error ==>
                exists k :: 0 <= k < |old(remaining)| && old(remaining)[k](actual) == Yes
                            && remaining == old(remaining)[..k] + old(remaining)[k + 1..]
      ensures verdict == Complete ==> remaining == []
    {
      for idx := 0 to |remaining|
        invariant remaining == old(remaining)
        invariant forall i | 0 <= i < idx :: remaining[i](actual) == No
      {
        var outcome := remaining[idx](actual);
        if outcome == Fails {
          return Error;
        }
        if outcome == No {
          continue;
        }
        remaining := remaining[..idx] + remaining[idx + 1..];
        if |remaining| > 0 {
          return Incomplete;
        }
        return Complete;
      }
      return Error;
    }
  }

  // ---- Runs ----

  /** Being shown these values, one after the other, without an error. */
  predicate NoError<V>(ms: seq<Matcher<V>>, vs: seq<V>) {
    vs == [] || (Step(ms, vs[0]).0 != Error && NoError(Step(ms, vs[0]).1, vs[1..]))
  }

  /** A run succeeds if it goes through without an error and ends in completeness. */
  predicate Succeeds<V>(ms: seq<Matcher<V>>, vs: seq<V>) {
    vs != [] &&
    if |vs| == 1 then Step(ms, vs[0]).0 == Complete
    else Step(ms, vs[0]).0 == Incomplete && Succeeds(Step(ms, vs[0]).1, vs[1..])
  }

  /** Value i goes with matcher p[i], every matcher with one value. */
  ghost predicate Pairs<V>(ms: seq<Matcher<V>>, vs: seq<V>, p: seq<nat>) {
    && |p| == |vs| == |ms|
    && (forall i | 0 <= i < |p| :: p[i] < |ms| && ms[p[i]](vs[i]) == Yes)
    && (forall i, j | 0 <= i < j < |p| :: p[i] != p[j])
  }

  // Making room for, and closing the gap left by, value 0 and matcher k.

  function OpenUp(p: seq<nat>, k: nat): (r: seq<nat>)
    ensures |r| == |p| + 1 && r[0] == k
    ensures forall i | 0 <= i < |p| :: r[i + 1] == if p[i] < k then p[i] else p[i] + 1
  {
    [k] + seq(|p|, i requires 0 <= i < |p| => if p[i] < k then p[i] else p[i] + 1)
  }

  function CloseUp(p: seq<nat>, k: nat): (r: seq<nat>)
    requires p != []
    ensures |r| == |p| - 1
    ensures forall i | 0 <= i < |r| :: r[i] == if p[i + 1] <= k then p[i + 1] else p[i + 1] - 1
  {
    seq(|p| - 1, i requires 0 <= i < |p| - 1 => if p[i + 1] <= k then p[i + 1] else p[i + 1] - 1)
  }

  lemma PairFirst<V>(ms: seq<Matcher<V>>, vs: seq<V>, k: nat, p: seq<nat>)
    requires vs != [] && k < |ms| && ms[k](vs[0]) == Yes && Pairs(Without(ms, k), vs[1..], p)
    ensures Pairs(ms, vs, OpenUp(p, k))
  {
    var r := OpenUp(p, k);
    forall i | 0 <= i < |r| ensures r[i] < |ms| && ms[r[i]](vs[i]) == Yes {
      if i > 0 { assert Without(ms, k)[p[i - 1]](vs[1..][i - 1]) == Yes; }
    }
    forall i, j | 0 <= i < j < |r| ensures r[i] != r[j] {
      assert r[j] == if p[j - 1] < k then p[j - 1] else p[j - 1] + 1;
      if i > 0 { assert r[i] == if p[i - 1] < k then p[i - 1] else p[i - 1] + 1; }
    }
  }

  /** A run that succeeds has as many values as there are matchers, so completeness comes
      exactly at the last one, and it pairs them off one to one. */
  lemma {:induction false} SuccessPairsOff<V>(ms: seq<Matcher<V>>, vs: seq<V>) returns (p: seq<nat>)
    requires Succeeds(ms, vs)
    ensures |vs| == |ms| && Pairs(ms, vs, p)
    decreases |vs|
  {
    var k := Decider(ms, vs[0]);
    if |vs| == 1 {
      p := [];
    } else {
      p := SuccessPairsOff(Without(ms, k), vs[1..]);
    }
    PairFirst(ms, vs, k, p);
    p := OpenUp(p, k);
  }

  /** Without an error the answer is completeness exactly when the last matcher goes. */
  lemma {:induction false} CompleteExactlyAtTheEnd<V>(ms: seq<Matcher<V>>, vs: seq<V>)
    requires vs != [] && NoError(ms, vs)
    ensures |vs| <= |ms| && (Succeeds(ms, vs) <==> |vs| == |ms|)
    decreases |vs|
  {
    if |vs| > 1 {
      CompleteExactlyAtTheEnd(Step(ms, vs[0]).1, vs[1..]);
    }
  }

  // ---- Runs that go on after errors ----

  /** The matchers that remain after these values, some of which may have ended in errors. */
  function Remaining<V>(ms: seq<Matcher<V>>, vs: seq<V>): seq<Matcher<V>>
    decreases |vs|
  {
    if vs == [] then ms else Remaining(Step(ms, vs[0]).1, vs[1..])
  }

  /** The same values without those that ended in errors. */
  function Ticking<V>(ms: seq<Matcher<V>>, vs: seq<V>): seq<V>
    decreases |vs|
  {
    if vs == [] then []
    else (if Step(ms, vs[0]).0 == Error then [] else [vs[0]]) + Ticking(Step(ms, vs[0]).1, vs[1..])
  }

  /** Errors leave no trace: what remains is what remains after the other values, one matcher
      less for each of those. */
  lemma {:induction false} ErrorsLeaveNoTrace<V>(ms: seq<Matcher<V>>, vs: seq<V>)
    ensures NoError(ms, Ticking(ms, vs)) && Remaining(ms, vs) == Remaining(ms, Ticking(ms, vs))
    ensures |Remaining(ms, vs)| + |Ticking(ms, vs)| == |ms|
    decreases |vs|
  {
    if vs != [] {
      var rest := Ticking(Step(ms, vs[0]).1, vs[1..]);
      ErrorsLeaveNoTrace(Step(ms, vs[0]).1, vs[1..]);
      if Step(ms, vs[0]).0 == Error {
        assert [] + rest == rest;
      } else {
        assert ([vs[0]] + rest)[0] == vs[0] && ([vs[0]] + rest)[1..] == rest;
      }
    }
  }

  lemma {:induction false} OneMore<V>(ms: seq<Matcher<V>>, us: seq<V>, v: V)
    requires NoError(ms, us)
    ensures Succeeds(ms, us + [v]) <==> Step(Remaining(ms, us), v).0 == Complete
    decreases |us|
  {
    if us == [] {
      assert us + [v] == [v];
    } else {
      var rest := Step(ms, us[0]).1;
      assert (us + [v])[0] == us[0] && (us + [v])[1..] == us[1..] + [v];
      OneMore(rest, us[1..], v);
      if Step(ms, us[0]).0 == Complete { NothingRemains(rest, us[1..], v); }
    }
  }

  lemma NothingRemains<V>(ms: seq<Matcher<V>>, us: seq<V>, v: V)
    requires ms == [] && NoError(ms, us)
    ensures us == [] && Step(Remaining(ms, us), v).0 == Error
  {
  }

  /** After any values, errors among them, the next one completes the set if and only if it
      completes a run of the values without the erring ones, which then pair off one to one
      with the matchers. */
  lemma CompletesAfterErrors<V>(ms: seq<Matcher<V>>, vs: seq<V>, v: V) returns (p: seq<nat>)
    ensures Step(Remaining(ms, vs), v).0 == Complete <==> Succeeds(ms, Ticking(ms, vs) + [v])
    ensures Step(Remaining(ms, vs), v).0 == Complete ==> Pairs(ms, Ticking(ms, vs) + [v], p)
  {
    ErrorsLeaveNoTrace(ms, vs);
    OneMore(ms, Ticking(ms, vs), v);
    p := [];
    if Succeeds(ms, Ticking(ms, vs) + [v]) { p := SuccessPairsOff(ms, Ticking(ms, vs) + [v]); }
  }

  /** Where two matchers overlap, the later one accepts all that the earlier one accepts. */
  ghost predicate Ordered<V(!new)>(ms: seq<Matcher<V>>) {
    forall i, j, v, w | 0 <= i < j < |ms| && ms[i](v) == Yes && ms[j](v) == Yes ::
      ms[i](w) == Yes ==> ms[j](w) == Yes
  }

  /** No matcher fails on a value that a later one accepts. */
  ghost predicate Unblocked<V(!new)>(ms: seq<Matcher<V>>) {
    forall i, j, v | 0 <= i < j < |ms| && ms[j](v) == Yes :: ms[i](v) != Fails
  }

  /** The first value goes to another matcher, and the value that was meant for that one
      to the matcher that this one was meant for. */
  function Traded(p: seq<nat>, k: nat): (r: seq<nat>)
    requires p != []
    ensures |r| == |p| && r[0] == k
    ensures forall i | 0 < i < |p| :: r[i] == if p[i] == k then p[0] else p[i]
  {
    [k] + seq(|p| - 1, i requires 0 <= i < |p| - 1 => if p[i + 1] == k then p[0] else p[i + 1])
  }

  lemma SameTaste<V(!new)>(ms: seq<Matcher<V>>, i: nat, j: nat, v: V, w: V)
    requires Ordered(ms) && i <= j < |ms| && ms[i](v) == Yes && ms[j](v) == Yes && ms[i](w) == Yes
    ensures ms[j](w) == Yes
  {
  }

  lemma Trade<V(!new)>(ms: seq<Matcher<V>>, vs: seq<V>, k: nat, p: seq<nat>)
    requires Ordered(ms) && Pairs(ms, vs, p) && vs != [] && k <= p[0] && ms[k](vs[0]) == Yes
    ensures Pairs(ms, vs, Traded(p, k))
  {
    hide Ordered;
    var r := Traded(p, k);
    assert ms[p[0]](vs[0]) == Yes;
    forall i | 0 <= i < |r| ensures r[i] < |ms| && ms[r[i]](vs[i]) == Yes {
      assert ms[p[i]](vs[i]) == Yes;
      if i > 0 && p[i] == k { SameTaste(ms, k, p[0], vs[0], vs[i]); }
    }
  }

  /** Taking the first value and the matcher it goes with out of a pairing. */
  lemma TakeOut<V>(ms: seq<Matcher<V>>, vs: seq<V>, k: nat, p: seq<nat>)
    requires vs != [] && Pairs(ms, vs, p) && p[0] == k
    ensures k < |ms| && Pairs(Without(ms, k), vs[1..], CloseUp(p, k))
  {
    var r := CloseUp(p, k);
    forall i | 0 <= i < |r| ensures r[i] < |ms| - 1 && Without(ms, k)[r[i]](vs[1..][i]) == Yes {
      assert p[0] != p[i + 1] && ms[p[i + 1]](vs[i + 1]) == Yes;
    }
    forall i, j | 0 <= i < j < |r| ensures r[i] != r[j] {
      assert p[i + 1] != p[j + 1] && p[0] != p[i + 1] && p[0] != p[j + 1];
    }
  }

  lemma WithoutKeeps<V(!new)>(ms: seq<Matcher<V>>, k: nat)
    requires Ordered(ms) && Unblocked(ms) && k < |ms|
    ensures Ordered(Without(ms, k)) && Unblocked(Without(ms, k))
  {
    var rest := Without(ms, k);
    assert forall i | 0 <= i < |rest| :: rest[i] == ms[if i < k then i else i + 1];
  }

  lemma SomeoneAccepts<V(!new)>(ms: seq<Matcher<V>>, vs: seq<V>, p: seq<nat>)
    requires Unblocked(ms) && vs != [] && Pairs(ms, vs, p)
    ensures |p| == |vs| == |ms| && Decider(ms, vs[0]) <= p[0] < |ms| && ms[Decider(ms, vs[0])](vs[0]) == Yes
  {
    assert ms[p[0]](vs[0]) == Yes;
  }

  /** For matchers that are ordered so, and of which none fails on what a later one accepts,
      greed is no loss. */
  lemma {:induction false} GreedIsGoodEnough<V(!new)>(ms: seq<Matcher<V>>, vs: seq<V>, p: seq<nat>)
    requires Ordered(ms) && Unblocked(ms) && vs != [] && Pairs(ms, vs, p)
    ensures Succeeds(ms, vs)
    decreases |vs|
  {
    hide Ordered, Unblocked, Pairs, Decider;
    var k := Decider(ms, vs[0]);
    SomeoneAccepts(ms, vs, p);
    WithoutKeeps(ms, k);
    Trade(ms, vs, k, p);
    TakeOut(ms, vs, k, Traded(p, k));
    if |vs| > 1 {
      GreedIsGoodEnough(Without(ms, k), vs[1..], CloseUp(Traded(p, k), k));
    }
  }

  /** Matchers that are pairwise equivalent or disjoint are in order, whatever their order. */
  lemma SeparateIsOrdered<V(!new)>(ms: seq<Matcher<V>>)
    requires forall i, j | 0 <= i < j < |ms| ::
               (forall v :: ms[i](v) == Yes <==> ms[j](v) == Yes) || (forall v :: !(ms[i](v) == Yes && ms[j](v) == Yes))
    ensures Ordered(ms)
  {
  }

  /** For such matchers a run succeeds if and only if values and matchers can be paired
      off at all. */
  lemma SucceedsIffPairable<V(!new)>(ms: seq<Matcher<V>>, vs: seq<V>)
    requires Ordered(ms) && Unblocked(ms) && vs != []
    ensures Succeeds(ms, vs) <==> exists p :: Pairs(ms, vs, p)
  {
    if Succeeds(ms, vs) {
      var p := SuccessPairsOff(ms, vs);
    }
    if p :| Pairs(ms, vs, p) {
      GreedIsGoodEnough(ms, vs, p);
    }
  }

  // ---- Matchers in any other order do lose ----

  lemma Shift<T>(s: seq<T>, k: nat, i: nat)
    requires k < |s| && i < |s| && i != k
    ensures |Without(s, k)| == |s| - 1
    ensures Without(s, k)[if i < k then i else i - 1] == s[i]
  {
  }

  lemma WithoutTwo<T>(s: seq<T>, i: nat, j: nat)
    requires i < j < |s|
    ensures Without(Without(s, i), j - 1) == Without(Without(s, j), i)
  {
  }

  function Count<V>(ms: seq<Matcher<V>>, v: V): nat {
    if ms == [] then 0 else Count(ms[1..], v) + if ms[0](v) == Yes then 1 else 0
  }

  lemma {:induction false} CountWithout<V>(ms: seq<Matcher<V>>, v: V, k: nat)
    requires k < |ms|
    ensures Count(Without(ms, k), v) == Count(ms, v) - if ms[k](v) == Yes then 1 else 0
  {
    if k == 0 {
      assert Without(ms, 0) == ms[1..];
    } else {
      assert Without(ms, k)[1..] == Without(ms[1..], k - 1);
      CountWithout(ms[1..], v, k - 1);
    }
  }

  function Times<V>(v: V, n: nat): (r: seq<V>)
    ensures |r| == n
  {
    if n == 0 then [] else [v] + Times(v, n - 1)
  }

  /** Showing a value more often than there are matchers accepting it ends in an error. */
  lemma {:induction false} TooMany<V(!new)>(ms: seq<Matcher<V>>, v: V, n: nat, rest: seq<V>)
    requires n > Count(ms, v)
    ensures !Succeeds(ms, Times(v, n) + rest)
    decreases n
  {
    var vs := Times(v, n) + rest;
    var k := Decider(ms, v);
    assert vs[0] == v && vs[1..] == Times(v, n - 1) + rest;
    if k < |ms| && ms[k](v) == Yes {
      CountWithout(ms, v, k);
      TooMany(Without(ms, k), v, n - 1, rest);
    }
  }

  ghost predicate AcceptsSome<V(!new)>(m: Matcher<V>) {
    exists v :: m(v) == Yes
  }

  ghost predicate EachAcceptsSome<V(!new)>(ms: seq<Matcher<V>>) {
    forall i | 0 <= i < |ms| :: AcceptsSome(ms[i])
  }

  lemma EachAcceptsWithout<V(!new)>(ms: seq<Matcher<V>>, k: nat)
    requires EachAcceptsSome(ms) && k < |ms|
    ensures EachAcceptsSome(Without(ms, k))
  {
    var rest := Without(ms, k);
    assert forall i | 0 <= i < |rest| :: rest[i] == ms[if i < k then i else i + 1];
  }

  lemma Shown<V(!new)>(ms: seq<Matcher<V>>, k: nat, x: V, tail: seq<V>, p: seq<nat>)
    requires k < |ms| && ms[k](x) == Yes && Pairs(Without(ms, k), tail, p)
    ensures Pairs(ms, [x] + tail, OpenUp(p, k))
  {
    hide Pairs;
    assert ([x] + tail)[1..] == tail;
    PairFirst(ms, [x] + tail, k, p);
  }

  lemma NoneLeft<V(!new)>(ms: seq<Matcher<V>>, w: V)
    requires ms != [] && forall i | 0 <= i < |ms| :: ms[i](w) != Yes
    ensures Count(ms, w) == Count(Without(ms, 0), w) == 0
  {
    NoTaker(ms, w);
    CountWithout(ms, w, 0);
  }

  /** There are values for all the matchers, a given one for as many as will have it. */
  lemma {:induction false} FillUp<V(!new)>(ms: seq<Matcher<V>>, w: V) returns (rest: seq<V>, p: seq<nat>)
    requires EachAcceptsSome(ms)
    ensures Pairs(ms, Times(w, Count(ms, w)) + rest, p)
    decreases |ms|
  {
    hide Pairs, Count;
    if ms == [] {
      rest, p := [], [];
      NothingToFill(ms, w);
    } else if k :| 0 <= k < |ms| && ms[k](w) == Yes {
      rest, p := FillRest(ms, w, k);
      CountWithout(ms, w, k);
      Shown(ms, k, w, Times(w, Count(ms, w) - 1) + rest, p);
      assert Times(w, Count(ms, w)) + rest == [w] + (Times(w, Count(ms, w) - 1) + rest);
      p := OpenUp(p, k);
    } else {
      rest, p := FillRest(ms, w, 0);
      NoneLeft(ms, w);
      assert AcceptsSome(ms[0]);
      var x :| ms[0](x) == Yes;
      assert Times(w, 0) + rest == rest;
      Shown(ms, 0, x, rest, p);
      rest, p := [x] + rest, OpenUp(p, 0);
      assert Times(w, 0) + rest == rest;
    }
  }

  lemma NothingToFill<V(!new)>(ms: seq<Matcher<V>>, w: V)
    requires ms == []
    ensures Pairs(ms, Times(w, Count(ms, w)) + [], [])
  {
  }

  lemma {:induction false} FillRest<V(!new)>(ms: seq<Matcher<V>>, w: V, k: nat) returns (rest: seq<V>, p: seq<nat>)
    requires EachAcceptsSome(ms) && k < |ms|
    ensures Pairs(Without(ms, k), Times(w, Count(Without(ms, k), w)) + rest, p)
    decreases |ms|, 0
  {
    hide Pairs, Count, EachAcceptsSome;
    EachAcceptsWithout(ms, k);
    assert |Without(ms, k)| < |ms|;
    rest, p := FillUp(Without(ms, k), w);
  }

  lemma {:induction false} NoTaker<V>(ms: seq<Matcher<V>>, w: V)
    requires forall i | 0 <= i < |ms| :: ms[i](w) != Yes
    ensures Count(ms, w) == 0
  {
    if ms != [] { NoTaker(ms[1..], w); }
  }

  /** Values that could be paired off, but not greedily. */
  ghost predicate Loses<V(!new)>(ms: seq<Matcher<V>>, vs: seq<V>, p: seq<nat>) {
    vs != [] && Pairs(ms, vs, p) && !Succeeds(ms, vs)
  }

  /** All but the two contenders are given their values, `w` first of all. */
  lemma OthersFilled<V(!new)>(ms: seq<Matcher<V>>, i: nat, j: nat, w: V) returns (rest: seq<V>, p: seq<nat>)
    requires EachAcceptsSome(ms) && i < j < |ms|
    ensures |Without(ms, j)| == |ms| - 1
    ensures var others := Without(Without(ms, j), i); Pairs(others, Times(w, Count(others, w)) + rest, p)
  {
    hide Pairs, EachAcceptsSome;
    EachAcceptsWithout(ms, j);
    rest, p := FillRest(Without(ms, j), w, i);
  }

  lemma OneTooMany<V(!new)>(ms: seq<Matcher<V>>, i: nat, j: nat, w: V, rest: seq<V>)
    requires i < j < |ms| && ms[j](w) != Yes
    ensures !Succeeds(Without(ms, i), [w] + (Times(w, Count(Without(Without(ms, j), i), w)) + rest))
  {
    hide Succeeds;
    WithoutTwo(ms, i, j);
    Shift(ms, i, j);
    var n := Count(Without(Without(ms, j), i), w);
    CountWithout(Without(ms, i), w, j - 1);
    assert [w] + (Times(w, n) + rest) == Times(w, n + 1) + rest;
    TooMany(Without(ms, i), w, n + 1, rest);
  }

  /** The first matcher to accept `v` takes it, although only a later one can do without. */
  lemma GreedyLoss<V(!new)>(ms: seq<Matcher<V>>, i: nat, j: nat, v: V, w: V) returns (vs: seq<V>, p: seq<nat>)
    requires EachAcceptsSome(ms)
    requires i < j < |ms| && ms[i](v) == Yes && ms[j](v) == Yes && ms[i](w) == Yes && ms[j](w) != Yes
    requires Decider(ms, v) == i
    ensures Loses(ms, vs, p)
  {
    hide Pairs, Succeeds, EachAcceptsSome, Count, Times;
    var rest, q := OthersFilled(ms, i, j, w);
    var tail := Times(w, Count(Without(Without(ms, j), i), w)) + rest;
    Shift(ms, j, i);
    Shown(Without(ms, j), i, w, tail, q);
    Shown(ms, j, v, [w] + tail, OpenUp(q, i));
    vs, p := [v] + ([w] + tail), OpenUp(OpenUp(q, i), j);
    OneTooMany(ms, i, j, w, rest);
    assert vs[1..] == [w] + tail;
    LossLater(ms, vs);
  }

  lemma LossLater<V(!new)>(ms: seq<Matcher<V>>, vs: seq<V>)
    requires |vs| > 1 && Decider(ms, vs[0]) < |ms| && ms[Decider(ms, vs[0])](vs[0]) == Yes
    requires !Succeeds(Without(ms, Decider(ms, vs[0])), vs[1..])
    ensures !Succeeds(ms, vs)
  {
  }

  lemma LossLifts<V(!new)>(ms: seq<Matcher<V>>, v: V, vs: seq<V>, p: seq<nat>) returns (us: seq<V>, q: seq<nat>)
    requires Decider(ms, v) < |ms| && ms[Decider(ms, v)](v) == Yes && Loses(Without(ms, Decider(ms, v)), vs, p)
    ensures Loses(ms, us, q)
  {
    hide Pairs, Succeeds;
    var e := Decider(ms, v);
    Shown(ms, e, v, vs, p);
    us, q := [v] + vs, OpenUp(p, e);
    assert us[1..] == vs;
    LossLater(ms, us);
  }

  /** A matcher that fails on the first value ends the run, whoever the value is meant for. */
  lemma FailsAtOnce<V(!new)>(ms: seq<Matcher<V>>, j: nat, v: V) returns (vs: seq<V>, p: seq<nat>)
    requires EachAcceptsSome(ms) && j < |ms| && ms[j](v) == Yes
    requires Decider(ms, v) < |ms| && ms[Decider(ms, v)](v) == Fails
    ensures Loses(ms, vs, p)
  {
    hide Pairs, EachAcceptsSome, Count, Times;
    var rest, q := FillRest(ms, v, j);
    var tail := Times(v, Count(Without(ms, j), v)) + rest;
    Shown(ms, j, v, tail, q);
    vs, p := [v] + tail, OpenUp(q, j);
    assert Step(ms, vs[0]).0 == Error;
  }

  /** Earlier matchers that accept `v` are given it first, until only such are left. */
  lemma {:induction false} AnyDisorderLoses<V(!new)>(ms: seq<Matcher<V>>, i: nat, j: nat, v: V, w: V)
    returns (vs: seq<V>, p: seq<nat>)
    requires EachAcceptsSome(ms)
    requires i < j < |ms| && ms[i](v) == Yes && ms[j](v) == Yes && ms[i](w) == Yes && ms[j](w) != Yes
    ensures Loses(ms, vs, p)
    decreases |ms|
  {
    hide Pairs, Succeeds, EachAcceptsSome, Loses;
    var e := Decider(ms, v);
    if ms[e](v) == Fails {
      vs, p := FailsAtOnce(ms, i, v);
    } else if e == i {
      vs, p := GreedyLoss(ms, i, j, v, w);
    } else {
      EachAcceptsWithout(ms, e);
      Shift(ms, e, i);
      Shift(ms, e, j);
      vs, p := AnyDisorderLoses(Without(ms, e), i - 1, j - 1, v, w);
      vs, p := LossLifts(ms, v, vs, p);
    }
  }

  /** So does any matcher that fails on a value which a later one accepts. */
  lemma {:induction false} AnyBlockingLoses<V(!new)>(ms: seq<Matcher<V>>, i: nat, j: nat, v: V)
    returns (vs: seq<V>, p: seq<nat>)
    requires EachAcceptsSome(ms) && i < j < |ms| && ms[j](v) == Yes && ms[i](v) == Fails
    ensures Loses(ms, vs, p)
    decreases |ms|
  {
    hide Pairs, Succeeds, EachAcceptsSome, Loses;
    var e := Decider(ms, v);
    if ms[e](v) == Fails {
      vs, p := FailsAtOnce(ms, j, v);
    } else {
      EachAcceptsWithout(ms, e);
      Shift(ms, e, i);
      Shift(ms, e, j);
      vs, p := AnyBlockingLoses(Without(ms, e), i - 1, j - 1, v);
      vs, p := LossLifts(ms, v, vs, p);
    }
  }

  /** Whatever can be paired off at all, greed pairs off, in any order of the values. */
  ghost predicate Lossless<V(!new)>(ms: seq<Matcher<V>>) {
    forall vs | vs != [] :: Succeeds(ms, vs) <==> exists p :: Pairs(ms, vs, p)
  }

  /** Greed never loses if and only if wherever two matchers overlap, the later one accepts
      all that the earlier one accepts, and none fails on what a later one accepts; unless
      nothing can be paired off anyway, because some matcher accepts nothing at all. */
  lemma LosslessIffOrdered<V(!new)>(ms: seq<Matcher<V>>)
    ensures Lossless(ms) <==> (Ordered(ms) && Unblocked(ms)) || !EachAcceptsSome(ms)
  {
    if !EachAcceptsSome(ms) {
      forall vs | vs != [] ensures Succeeds(ms, vs) <==> exists p :: Pairs(ms, vs, p) {
        NothingToPair(ms, vs);
      }
    } else if Ordered(ms) && Unblocked(ms) {
      forall vs | vs != [] ensures Succeeds(ms, vs) <==> exists p :: Pairs(ms, vs, p) {
        SucceedsIffPairable(ms, vs);
      }
    } else {
      var vs, p;
      if !Ordered(ms) {
        var i, j, v, w :|
          0 <= i < j < |ms| && ms[i](v) == Yes && ms[j](v) == Yes && ms[i](w) == Yes && ms[j](w) != Yes;
        vs, p := AnyDisorderLoses(ms, i, j, v, w);
      } else {
        var i, j, v :| 0 <= i < j < |ms| && ms[j](v) == Yes && ms[i](v) == Fails;
        vs, p := AnyBlockingLoses(ms, i, j, v);
      }
      assert Pairs(ms, vs, p) && !Succeeds(ms, vs);
    }
  }

  /** Being equivalent or disjoint is not enough: here the first of two disjoint matchers
      fails on the value that the second one would have accepted. */
  lemma DisjointLoses(first: Matcher<int>, second: Matcher<int>)
    requires forall v :: first(v) == if v == 0 then Fails else Yes
    requires forall v :: second(v) == if v == 0 then Yes else No
    ensures Loses([first, second], [0, 1], [1, 0]) && Ordered([first, second])
  {
    var ms := [first, second];
    assert Decider(ms, 0) == 0;
    assert Step(ms, 0).0 == Error;
  }

  lemma {:induction false} NoPairing<V(!new)>(ms: seq<Matcher<V>>, vs: seq<V>, p: seq<nat>, k: nat)
    requires k < |ms| && !AcceptsSome(ms[k])
    ensures !Pairs(ms, vs, p)
    decreases |vs|
  {
    if Pairs(ms, vs, p) {
      assert ms[p[0]](vs[0]) == Yes;
      TakeOut(ms, vs, p[0], p);
      Shift(ms, p[0], k);
      NoPairing(Without(ms, p[0]), vs[1..], CloseUp(p, p[0]), if k < p[0] then k else k - 1);
    }
  }

  lemma NothingToPair<V(!new)>(ms: seq<Matcher<V>>, vs: seq<V>)
    requires !EachAcceptsSome(ms)
    ensures !Succeeds(ms, vs) && !exists p :: Pairs(ms, vs, p)
  {
    hide Pairs, Succeeds, AcceptsSome;
    var k :| 0 <= k < |ms| && !AcceptsSome(ms[k]);
    forall p ensures !Pairs(ms, vs, p) {
      NoPairing(ms, vs, p, k);
    }
    if Succeeds(ms, vs) {
      var p := SuccessPairsOff(ms, vs);
    }
  }
}
