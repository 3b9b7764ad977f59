/**
  Replacing text: strings.ReplaceAll and the single pass of strings.Replacer,
  and exactly when the two give the same.
*/
module Replacing {
  import opened Prelude

  /** An old text and what takes its place. */
  datatype Swap = Swap(was: string, now: string)

  function FirstMatch(s: string, swaps: seq<Swap>): (r: Option<Swap>)
    ensures r.Some? ==> r.value in swaps && r.value.was <= s
    ensures r.None? ==> forall w :: w in swaps ==> !(w.was <= s)
  {
    if swaps == [] then None
    else if swaps[0].was <= s then Some(swaps[0])
    else FirstMatch(s, swaps[1..])
  }

  predicate Proper(swaps: seq<Swap>) {
    forall w :: w in swaps ==> w.was != "" && '"' !in w.was && '"' !in w.now
  }

  /** strings.Replacer: one pass from the left; text put in is not looked at again. */
  function Replaced(s: string, swaps: seq<Swap>): string
    requires Proper(swaps)
    decreases |s|
  {
    if s == "" then ""
    else match FirstMatch(s, swaps)
      case None => [s[0]] + Replaced(s[1..], swaps)
      case Some(w) => w.now + Replaced(s[|w.was|..], swaps)
  }

  /** strings.ReplaceAll is the same with a single pair. */
  function ReplaceAll(s: string, was: string, now: string): string
    requires was != "" && '"' !in was && '"' !in now
  {
    Replaced(s, [Swap(was, now)])
  }

  /** No old text begins inside the first n characters. */
  predicate NoneBegins(s: string, n: nat, swaps: seq<Swap>)
    requires n <= |s|
  {
    forall i, w :: 0 <= i < n && w in swaps ==> !(w.was <= s[i..])
  }

  lemma NoneBeginsFurtherOn(s: string, n: nat, swaps: seq<Swap>)
    requires 0 < n <= |s| && NoneBegins(s, n, swaps)
    ensures NoneBegins(s[1..], n - 1, swaps)
  {
    forall i, w | 0 <= i < n - 1 && w in swaps ensures !(w.was <= s[1..][i..]) { assert s[1..][i..] == s[i + 1..]; }
  }

  lemma MatchIs(w: Swap, b: string, swaps: seq<Swap>)
    requires w in swaps && (forall v :: v in swaps && v != w ==> !(v.was <= w.was + b))
    ensures FirstMatch(w.was + b, swaps) == Some(w)
  {
  }

  lemma ReplacedHead(w: Swap, b: string, swaps: seq<Swap>)
    requires Proper(swaps) && w in swaps && (forall v :: v in swaps && v != w ==> !(v.was <= w.was + b))
    ensures Replaced(w.was + b, swaps) == w.now + Replaced(b, swaps)
  {
    MatchIs(w, b, swaps);
    assert (w.was + b)[|w.was|..] == b;
  }

  lemma SkippedHead(s: string, swaps: seq<Swap>)
    requires Proper(swaps) && s != "" && NoneBegins(s, 1, swaps)
    ensures Replaced(s, swaps) == [s[0]] + Replaced(s[1..], swaps)
  {
    assert s[0..] == s;
  }

  /** The first old text from the left gives way to the new one; nothing before it changes, the rest is replaced on its own. */
  lemma {:induction false} FirstIsReplaced(a: string, w: Swap, b: string, swaps: seq<Swap>)
    requires Proper(swaps) && w in swaps && (forall v :: v in swaps && v != w ==> !(v.was <= w.was + b))
    requires NoneBegins(a + w.was + b, |a|, swaps)
    ensures Replaced(a + w.was + b, swaps) == a + w.now + Replaced(b, swaps)
  {
    if a == "" {
      assert a + w.was + b == w.was + b && a + w.now == w.now;
      ReplacedHead(w, b, swaps);
    } else {
      var c, t := a[0], a[1..] + w.was + b;
      assert a == [c] + a[1..];
      Regroup(c, a[1..], w.was, b);
      NoneBeginsFurtherOn([c] + t, |a|, swaps);
      FirstIsReplaced(a[1..], w, b, swaps);
      SkippedHead([c] + t, swaps);
      Regroup(c, a[1..], w.now, Replaced(b, swaps));
    }
  }

  lemma Regroup(c: char, x: string, y: string, z: string)
    ensures [c] + x + y + z == [c] + (x + y + z) && ([c] + (x + y + z))[1..] == x + y + z
  {
  }

  // ----- separators cut the text ------------------------------------------------------

  /** No text to be replaced holds c. */
  predicate Separates(c: char, swaps: seq<Swap>) {
    forall w :: w in swaps ==> c !in w.was
  }

  lemma InPrefix(s: string, w: string, i: nat)
    requires i < |s|
    ensures w <= s && i < |w| ==> s[i] in w
  {
    assert w <= s && i < |w| ==> w[i] == s[i];
  }

  lemma PrefixStopsAt(a: string, c: char, b: string, w: string)
    requires c !in w
    ensures w <= a + [c] + b <==> w <= a
  {
    var s := a + [c] + b;
    assert s[|a|] == c;
    InPrefix(s, w, |a|);
    assert |w| <= |a| ==> (w <= s <==> w <= a);
  }

  lemma {:induction false} MatchStopsAt(a: string, c: char, b: string, swaps: seq<Swap>)
    requires Separates(c, swaps)
    ensures FirstMatch(a + [c] + b, swaps) == FirstMatch(a, swaps)
  {
    if swaps != [] {
      PrefixStopsAt(a, c, b, swaps[0].was);
      MatchStopsAt(a, c, b, swaps[1..]);
    }
  }

  /** No replacement reaches across a separator. */
  lemma {:induction false} ReplacedAt(a: string, c: char, b: string, swaps: seq<Swap>)
    requires Proper(swaps) && Separates(c, swaps)
    ensures Replaced(a + [c] + b, swaps) == Replaced(a, swaps) + [c] + Replaced(b, swaps)
    decreases |a|
  {
    if a == "" {
      SeparatorStays(c, b, swaps);
    } else {
      var s, m := a + [c] + b, FirstMatch(a, swaps);
      MatchStopsAt(a, c, b, swaps);
      var k := if m.Some? then |m.value.was| else 1;
      assert s[k..] == a[k..] + [c] + b && s[0] == a[0];
      ReplacedAt(a[k..], c, b, swaps);
      var front := if m.Some? then m.value.now else [a[0]];
      assert Replaced(s, swaps) == front + Replaced(s[k..], swaps);
      assert Replaced(a, swaps) == front + Replaced(a[k..], swaps);
    }
  }

  lemma SeparatorStays(c: char, b: string, swaps: seq<Swap>)
    requires Proper(swaps) && Separates(c, swaps)
    ensures Replaced("" + [c] + b, swaps) == Replaced("", swaps) + [c] + Replaced(b, swaps)
  {
    MatchStopsAt("", c, b, swaps);
    forall w | w in swaps ensures !(w.was <= "") {}
    assert ("" + [c] + b)[1..] == b;
  }

  lemma ReplacedAtQuote(a: string, b: string, swaps: seq<Swap>)
    requires Proper(swaps)
    ensures Replaced(a + "\"" + b, swaps) == Replaced(a, swaps) + "\"" + Replaced(b, swaps)
  {
    ReplacedAt(a, '"', b, swaps);
  }

  /** Some text to be put in holds c. */
  predicate Brings(c: char, swaps: seq<Swap>) {
    exists w :: w in swaps && c in w.now
  }

  lemma {:induction false} NothingNew(s: string, c: char, swaps: seq<Swap>)
    requires Proper(swaps) && !Brings(c, swaps) && c !in s
    ensures c !in Replaced(s, swaps)
    decreases |s|
  {
    if s != "" {
      match FirstMatch(s, swaps)
      case None => NothingNew(s[1..], c, swaps);
      case Some(w) => NothingNew(s[|w.was|..], c, swaps);
    }
  }

  lemma NoNewQuotes(s: string, swaps: seq<Swap>)
    requires Proper(swaps) && '"' !in s
    ensures '"' !in Replaced(s, swaps)
  {
    NothingNew(s, '"', swaps);
  }

  // ----- where a text occurs -------------------------------------------------------------

  /** t occurs nowhere in s. */
  predicate Absent(t: string, s: string) {
    forall i :: 0 <= i <= |s| ==> !(t <= s[i..])
  }

  lemma {:induction false} Untouched(s: string, swaps: seq<Swap>)
    requires Proper(swaps) && forall w :: w in swaps ==> Absent(w.was, s)
    ensures Replaced(s, swaps) == s
    decreases |s|
  {
    if s != "" {
      assert s[0..] == s;
      forall w | w in swaps ensures Absent(w.was, s[1..]) {
        forall i | 0 <= i <= |s[1..]| ensures !(w.was <= s[1..][i..]) { assert s[1..][i..] == s[1 + i..]; }
      }
      Untouched(s[1..], swaps);
    }
  }

  lemma WholeSwap(w: Swap, swaps: seq<Swap>)
    requires Proper(swaps) && w in swaps && FirstMatch(w.was, swaps) == Some(w)
    ensures Replaced(w.was, swaps) == w.now
  {
    assert w.was[|w.was|..] == "";
    assert Replaced("", swaps) == "";
  }

  lemma AbsentTail(t: string, s: string, k: nat)
    requires k <= |s| && (forall i :: 0 <= i < k ==> !(t <= s[i..]))
    ensures Absent(t, s) <==> Absent(t, s[k..])
  {
    forall i | k <= i <= |s| ensures s[k..][i - k..] == s[i..] {}
    if Absent(t, s[k..]) {
      forall i | 0 <= i <= |s| ensures !(t <= s[i..]) {
        if k <= i { assert !(t <= s[k..][i - k..]); }
      }
    }
    if Absent(t, s) {
      forall i | 0 <= i <= |s[k..]| ensures !(t <= s[k..][i..]) { assert s[k..][i..] == s[k + i..]; }
    }
  }

  // ----- one pair ---------------------------------------------------------------------------

  predicate ProperPair(was: string, now: string) {
    was != "" && '"' !in was && '"' !in now
  }

  lemma ReplaceAllStep(s: string, was: string, now: string)
    requires ProperPair(was, now) && s != ""
    ensures ReplaceAll(s, was, now) ==
              if was <= s then now + ReplaceAll(s[|was|..], was, now) else [s[0]] + ReplaceAll(s[1..], was, now)
  {
    assert FirstMatch(s, [Swap(was, now)]) == if was <= s then Some(Swap(was, now)) else None;
  }

  /** Replacing by something longer never shortens, by something shorter never lengthens. */
  lemma {:induction false} ReplaceAllLength(s: string, was: string, now: string)
    requires ProperPair(was, now)
    ensures |was| <= |now| ==> |s| <= |ReplaceAll(s, was, now)|
    ensures |now| <= |was| ==> |ReplaceAll(s, was, now)| <= |s|
    decreases |s|
  {
    if s != "" {
      ReplaceAllStep(s, was, now);
      ReplaceAllLength(if was <= s then s[|was|..] else s[1..], was, now);
    }
  }

  /** ReplaceAll changes a text exactly if the old text occurs and the new one differs. */
  lemma {:induction false} ReplaceAllKeepsIff(s: string, was: string, now: string)
    requires ProperPair(was, now)
    ensures ReplaceAll(s, was, now) == s <==> now == was || Absent(was, s)
    decreases |s|
  {
    if s != "" {
      ReplaceAllStep(s, was, now);
      assert s[0..] == s;
      if was <= s {
        var rest := s[|was|..];
        assert s == was + rest;
        ReplaceAllKeepsIff(rest, was, now);
        ReplaceAllLength(rest, was, now);
        FrontsDiffer(now, ReplaceAll(rest, was, now), was, rest);
      } else {
        ReplaceAllKeepsIff(s[1..], was, now);
        AbsentTail(was, s, 1);
        assert s == [s[0]] + s[1..];
        FrontsDiffer([s[0]], ReplaceAll(s[1..], was, now), [s[0]], s[1..]);
      }
    }
  }

  /** Two texts with fronts of equal length, or with the longer front before the longer rest. */
  lemma FrontsDiffer(a: string, x: string, b: string, y: string)
    requires (|b| <= |a| && |y| <= |x|) || (|a| <= |b| && |x| <= |y|) || |a| == |b|
    ensures a + x == b + y <==> a == b && x == y
  {
    if a + x == b + y {
      assert |a| + |x| == |b| + |y|;
      assert a == (a + x)[..|a|] && b == (b + y)[..|b|] && x == (a + x)[|a|..] && y == (b + y)[|b|..];
    }
  }

  // ----- one pair more ------------------------------------------------------------------------

  /** q never begins inside p. */
  ghost predicate Clear(p: string, q: string) {
    forall s: string, i: nat :: p <= s && 0 < i < |p| && i <= |s| ==> !(q <= s[i..])
  }

  /** Neither begins where the other stands. */
  ghost predicate Disjoint(p: string, q: string) {
    Clear(p, q) && Clear(q, p) && !(p <= q) && !(q <= p)
  }

  function Pair(p: string, u: string, q: string, c: string): seq<Swap> {
    [Swap(p, u), Swap(q, c)]
  }

  lemma PairStep(s: string, p: string, u: string, q: string, c: string)
    requires ProperPair(p, u) && ProperPair(q, c) && s != ""
    ensures Replaced(s, Pair(p, u, q, c)) ==
              if p <= s then u + Replaced(s[|p|..], Pair(p, u, q, c))
              else if q <= s then c + Replaced(s[|q|..], Pair(p, u, q, c))
              else [s[0]] + Replaced(s[1..], Pair(p, u, q, c))
  {
    assert Pair(p, u, q, c)[1..] == [Swap(q, c)];
    assert FirstMatch(s, Pair(p, u, q, c)) ==
           if p <= s then Some(Swap(p, u)) else if q <= s then Some(Swap(q, c)) else None;
  }

  /** What does not begin in the first k places leaves them alone. */
  lemma {:induction false} ReplaceAllSkips(s: string, was: string, now: string, k: nat)
    requires ProperPair(was, now) && k <= |s| && forall i :: 0 <= i < k ==> !(was <= s[i..])
    ensures ReplaceAll(s, was, now) == s[..k] + ReplaceAll(s[k..], was, now)
    decreases k
  {
    if k > 0 {
      assert s[0..] == s;
      ReplaceAllStep(s, was, now);
      forall i | 0 <= i < k - 1 ensures !(was <= s[1..][i..]) { assert s[1..][i..] == s[i + 1..]; }
      ReplaceAllSkips(s[1..], was, now, k - 1);
      assert s[1..][k - 1..] == s[k..] && [s[0]] + s[1..][..k - 1] == s[..k];
    }
  }

  lemma ClearSkips(p: string, q: string, s: string)
    requires p <= s && Clear(p, q) && !(q <= s)
    ensures forall i :: 0 <= i < |p| ==> !(q <= s[i..])
  {
    assert s[0..] == s;
  }

  /** The second pair makes the text longer or shorter with its new text. */
  lemma {:induction false} PairLength(s: string, p: string, u: string, q: string, c: string)
    requires ProperPair(p, u) && ProperPair(q, c) && Disjoint(p, q)
    ensures |q| <= |c| ==> |ReplaceAll(s, p, u)| <= |Replaced(s, Pair(p, u, q, c))|
    ensures |c| <= |q| ==> |Replaced(s, Pair(p, u, q, c))| <= |ReplaceAll(s, p, u)|
    decreases |s|
  {
    if s != "" {
      PairStep(s, p, u, q, c);
      ReplaceAllStep(s, p, u);
      if p <= s {
        PairLength(s[|p|..], p, u, q, c);
      } else if q <= s {
        PairLength(s[|q|..], p, u, q, c);
        ClearSkips(q, p, s);
        ReplaceAllSkips(s, p, u, |q|);
      } else {
        PairLength(s[1..], p, u, q, c);
      }
    }
  }

  ghost predicate AgreeIff(s: string, p: string, u: string, q: string, c: string)
    requires ProperPair(p, u) && ProperPair(q, c)
  {
    Replaced(s, Pair(p, u, q, c)) == ReplaceAll(s, p, u) <==> c == q || Absent(q, s)
  }

  lemma AgreeAtFirst(s: string, p: string, u: string, q: string, c: string)
    requires ProperPair(p, u) && ProperPair(q, c) && Disjoint(p, q)
    requires s != "" && p <= s && AgreeIff(s[|p|..], p, u, q, c)
    ensures AgreeIff(s, p, u, q, c)
  {
    var rest := s[|p|..];
    PairStep(s, p, u, q, c);
    ReplaceAllStep(s, p, u);
    NotBoth(p, q, s);
    ClearSkips(p, q, s);
    AbsentTail(q, s, |p|);
    FrontsDiffer(u, Replaced(rest, Pair(p, u, q, c)), u, ReplaceAll(rest, p, u));
  }

  lemma AgreeAtSecond(s: string, p: string, u: string, q: string, c: string)
    requires ProperPair(p, u) && ProperPair(q, c) && Disjoint(p, q)
    requires s != "" && q <= s && AgreeIff(s[|q|..], p, u, q, c)
    ensures AgreeIff(s, p, u, q, c)
  {
    var rest := s[|q|..];
    NotBoth(q, p, s);
    PairStep(s, p, u, q, c);
    PairLength(rest, p, u, q, c);
    ClearSkips(q, p, s);
    ReplaceAllSkips(s, p, u, |q|);
    assert s[..|q|] == q && s[0..] == s;
    FrontsDiffer(c, Replaced(rest, Pair(p, u, q, c)), q, ReplaceAll(rest, p, u));
  }

  lemma AgreeFurtherOn(s: string, p: string, u: string, q: string, c: string)
    requires ProperPair(p, u) && ProperPair(q, c)
    requires s != "" && !(p <= s) && !(q <= s) && AgreeIff(s[1..], p, u, q, c)
    ensures AgreeIff(s, p, u, q, c)
  {
    PairStep(s, p, u, q, c);
    ReplaceAllStep(s, p, u);
    assert s[0..] == s;
    AbsentTail(q, s, 1);
    FrontsDiffer([s[0]], Replaced(s[1..], Pair(p, u, q, c)), [s[0]], ReplaceAll(s[1..], p, u));
  }

  /**
    The single pass with a second pair agrees with ReplaceAll of the first alone
    exactly if the second changes nothing, or its old text does not occur.
  */
  lemma {:induction false} PairAgreesIff(s: string, p: string, u: string, q: string, c: string)
    requires ProperPair(p, u) && ProperPair(q, c) && Disjoint(p, q)
    ensures Replaced(s, Pair(p, u, q, c)) == ReplaceAll(s, p, u) <==> c == q || Absent(q, s)
    decreases |s|
  {
    if s != "" {
      if p <= s {
        PairAgreesIff(s[|p|..], p, u, q, c);
        AgreeAtFirst(s, p, u, q, c);
      } else if q <= s {
        PairAgreesIff(s[|q|..], p, u, q, c);
        AgreeAtSecond(s, p, u, q, c);
      } else {
        PairAgreesIff(s[1..], p, u, q, c);
        AgreeFurtherOn(s, p, u, q, c);
      }
    }
  }

  lemma NotBoth(p: string, q: string, s: string)
    requires p <= s && !(p <= q) && !(q <= p)
    ensures !(q <= s)
  {
    assert q <= s && |p| <= |q| ==> p <= q;
    assert q <= s && |q| <= |p| ==> q <= p;
  }
}
