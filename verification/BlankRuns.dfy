/** collapseBlankRuns, and lines of text. */
module BlankRuns {
  import opened Text

  // ----- the loop and its closed form ------------------------------------------

  /**
    One pass over s with k newlines (at most 2) already standing in front of it:
    of every run of newlines only the first two survive.
  */
  function Squeeze(s: string, k: nat): string {
    if s == "" then ""
    else if s[0] != '\n' then [s[0]] + Squeeze(s[1..], 0)
    else if k < 2 then ['\n'] + Squeeze(s[1..], k + 1)
    else Squeeze(s[1..], k)
  }

  /** How many newlines (at most 2) stand at the end of s, with k in front of it. */
  function Trail(s: string, k: nat): nat {
    if s == "" then k
    else if s[0] != '\n' then Trail(s[1..], 0)
    else Trail(s[1..], if k < 2 then k + 1 else k)
  }

  predicate TripleAtFront(s: string) {
    |s| >= 3 && s[0] == '\n' && s[1] == '\n' && s[2] == '\n'
  }

  /** strings.Contains(s, "\n\n\n") */
  predicate HasTriple(s: string) {
    s != "" && (TripleAtFront(s) || HasTriple(s[1..]))
  }

  /** strings.ReplaceAll(s, "\n\n\n", "\n\n"): left to right, matches do not overlap. */
  function ReplaceTriples(s: string): (r: string)
    ensures |r| <= |s| && (HasTriple(s) ==> |r| < |s|)
  {
    if s == "" then ""
    else if TripleAtFront(s) then "\n\n" + ReplaceTriples(s[3..])
    else [s[0]] + ReplaceTriples(s[1..])
  }

  function Newlines(k: nat): (r: string)
    ensures |r| == k && forall i :: 0 <= i < k ==> r[i] == '\n'
  {
    seq(k, _ => '\n')
  }

  lemma {:induction false} SqueezeConcat(x: string, y: string, k: nat)
    ensures Squeeze(x + y, k) == Squeeze(x, k) + Squeeze(y, Trail(x, k))
    ensures Trail(x + y, k) == Trail(y, Trail(x, k))
  {
    if x == "" {
      assert x + y == y;
    } else {
      assert (x + y)[1..] == x[1..] + y;
      SqueezeConcat(x[1..], y, if x[0] != '\n' then 0 else if k < 2 then k + 1 else k);
    }
  }

  lemma {:induction false} SqueezeNewlines(n: nat, k: nat)
    requires k <= 2
    ensures Squeeze(Newlines(n), k) == Newlines(if n + k < 2 then n else 2 - k)
    ensures Trail(Newlines(n), k) == if n + k < 2 then n + k else 2
  {
    if n != 0 {
      assert Newlines(n)[1..] == Newlines(n - 1);
      SqueezeNewlines(n - 1, if k < 2 then k + 1 else k);
    }
  }

  lemma {:induction false} ReplaceKeepsSqueeze(s: string, k: nat)
    requires k <= 2
    ensures Squeeze(ReplaceTriples(s), k) == Squeeze(s, k)
    decreases |s|
  {
    if TripleAtFront(s) {
      var t, r := s[3..], ReplaceTriples(s[3..]);
      ReplaceKeepsSqueeze(t, 2);
      assert s == Newlines(3) + t && ReplaceTriples(s) == Newlines(2) + r;
      SqueezeNewlines(3, k);
      SqueezeNewlines(2, k);
      SqueezeConcat(Newlines(3), t, k);
      SqueezeConcat(Newlines(2), r, k);
    } else if s != "" {
      ReplaceKeepsSqueeze(s[1..], if s[0] != '\n' then 0 else if k < 2 then k + 1 else k);
      assert ReplaceTriples(s)[1..] == ReplaceTriples(s[1..]);
    }
  }

  lemma {:induction false} NothingToSqueeze(s: string, k: nat)
    requires k <= 2 && !HasTriple(Newlines(k) + s)
    ensures Squeeze(s, k) == s
  {
    if s != "" {
      assert k == 2 && s[0] == '\n' ==> TripleAtFront(Newlines(k) + s);
      if s[0] == '\n' {
        assert Newlines(k) + s == Newlines(k + 1) + s[1..];
        NothingToSqueeze(s[1..], k + 1);
      } else {
        TripleFurtherOn(Newlines(k), s);
        assert s[1..] == Newlines(0) + s[1..];
        NothingToSqueeze(s[1..], 0);
      }
    }
  }

  lemma {:induction false} TripleFurtherOn(a: string, s: string)
    requires s != ""
    ensures HasTriple(s[1..]) ==> HasTriple(a + s)
  {
    if a == "" {
      assert a + s == s;
    } else {
      assert (a + s)[1..] == a[1..] + s;
      TripleFurtherOn(a[1..], s);
    }
  }

  /** The loop terminates, and is the one-pass closed form. */
  method CollapseBlankRuns(text: string) returns (out: string)
    ensures out == Squeeze(text, 0)
  {
    out := text;
    while HasTriple(out)
      invariant Squeeze(out, 0) == Squeeze(text, 0)
      decreases |out|
    {
      ReplaceKeepsSqueeze(out, 0);
      out := ReplaceTriples(out);
    }
    assert out == Newlines(0) + out;
    NothingToSqueeze(out, 0);
  }

  lemma {:induction false} SqueezeTwice(s: string, j: nat, k: nat)
    requires j <= k <= 2
    ensures Squeeze(Squeeze(s, j), k) == Squeeze(s, k)
    ensures Trail(Squeeze(s, j), k) == Trail(s, k)
  {
    if s != "" {
      if s[0] != '\n' {
        SqueezeTwice(s[1..], 0, 0);
        assert Squeeze(s, j)[1..] == Squeeze(s[1..], 0);
      } else if j < 2 {
        SqueezeTwice(s[1..], j + 1, if k < 2 then k + 1 else k);
        assert Squeeze(s, j)[1..] == Squeeze(s[1..], j + 1);
      } else {
        SqueezeTwice(s[1..], j, k);
      }
    }
  }

  /** A maximal run of k newlines becomes min(k, 2) newlines, wherever it stands. */
  lemma MaximalRunBecomesAtMostTwo(x: string, k: nat, y: string)
    requires (x == "" || x[|x| - 1] != '\n') && (y == "" || y[0] != '\n')
    ensures Squeeze(x + Newlines(k) + y, 0)
         == Squeeze(x, 0) + Newlines(if k < 2 then k else 2) + Squeeze(y, 0)
  {
    SqueezeConcat(x + Newlines(k), y, 0);
    SqueezeConcat(x, Newlines(k), 0);
    if x != "" {
      assert x == x[..|x| - 1] + [x[|x| - 1]];
      SqueezeConcat(x[..|x| - 1], [x[|x| - 1]], 0);
    }
    SqueezeNewlines(k, 0);
  }

  /** Collapsing a part first makes no difference to collapsing the whole; in particular it is idempotent. */
  lemma CollapseIsACongruence(x: string, y: string, z: string)
    ensures Squeeze(x + Squeeze(y, 0) + z, 0) == Squeeze(x + y + z, 0)
    ensures Squeeze(Squeeze(y, 0), 0) == Squeeze(y, 0)
  {
    var k := Trail(x, 0);
    TrailBound(x, 0);
    SqueezeTwice(y, 0, 0);
    SqueezeTwice(y, 0, k);
    SqueezeConcat(x + Squeeze(y, 0), z, 0);
    SqueezeConcat(x, Squeeze(y, 0), 0);
    SqueezeConcat(x + y, z, 0);
    SqueezeConcat(x, y, 0);
  }

  lemma TrailBound(s: string, k: nat)
    requires k <= 2
    ensures Trail(s, k) <= 2
  {
  }

  // ----- lines --------------------------------------------------------------------

  predicate OneLine(l: string) {
    '\n' !in l
  }

  predicate Lines(ls: seq<string>) {
    forall l :: l in ls ==> OneLine(l)
  }

  /** strings.Split(text, "\n") */
  function Split(text: string): (ls: seq<string>)
    ensures ls != []
  {
    SplitOn(text, '\n')
  }

  /** strings.Join(ls, "\n") */
  function Join(ls: seq<string>): string {
    JoinWith(ls, '\n')
  }

  lemma SplitIsLines(text: string)
    ensures Lines(Split(text)) && Join(Split(text)) == text
  {
    JoinSplits(text, '\n');
  }

  lemma SplitJoin(ls: seq<string>)
    requires ls != [] && Lines(ls)
    ensures Split(Join(ls)) == ls
  {
    forall part | part in ls ensures '\n' !in part { assert OneLine(part); }
    SplitJoins(ls, '\n');
  }

  // ----- collapsing, line by line --------------------------------------------------

  /** Squeeze on newline-terminated lines: an empty line is one more newline. */
  function SqueezeLines(ls: seq<string>, k: nat): (r: seq<string>)
    ensures forall l :: l in r ==> l in ls
  {
    if ls == [] then []
    else if ls[0] != "" then [ls[0]] + SqueezeLines(ls[1..], 1)
    else if k < 2 then [""] + SqueezeLines(ls[1..], k + 1)
    else SqueezeLines(ls[1..], k)
  }

  function TrailLines(ls: seq<string>, k: nat): nat {
    if ls == [] then k
    else TrailLines(ls[1..], if ls[0] != "" then 1 else if k < 2 then k + 1 else k)
  }

  lemma {:induction false} SqueezeLinesConcat(x: seq<string>, y: seq<string>, k: nat)
    ensures SqueezeLines(x + y, k) == SqueezeLines(x, k) + SqueezeLines(y, TrailLines(x, k))
    ensures TrailLines(x + y, k) == TrailLines(y, TrailLines(x, k))
  {
    if x == [] {
      assert x + y == y;
    } else {
      assert (x + y)[1..] == x[1..] + y;
      SqueezeLinesConcat(x[1..], y, if x[0] != "" then 1 else if k < 2 then k + 1 else k);
    }
  }

  lemma {:induction false} SqueezeLinesTwice(ls: seq<string>, j: nat, k: nat)
    requires j <= k <= 2
    ensures SqueezeLines(SqueezeLines(ls, j), k) == SqueezeLines(ls, k)
    ensures TrailLines(SqueezeLines(ls, j), k) == TrailLines(ls, k)
  {
    if ls != [] {
      if ls[0] != "" {
        SqueezeLinesTwice(ls[1..], 1, 1);
        assert SqueezeLines(ls, j)[1..] == SqueezeLines(ls[1..], 1);
      } else if j < 2 {
        SqueezeLinesTwice(ls[1..], j + 1, if k < 2 then k + 1 else k);
        assert SqueezeLines(ls, j)[1..] == SqueezeLines(ls[1..], j + 1);
      } else {
        SqueezeLinesTwice(ls[1..], j, k);
      }
    }
  }

  lemma {:induction false} TrailLinesBound(ls: seq<string>, k: nat)
    requires k <= 2
    ensures TrailLines(ls, k) <= 2 && (ls != [] || 1 <= k ==> 1 <= TrailLines(ls, k))
  {
    if ls != [] { TrailLinesBound(ls[1..], if ls[0] != "" then 1 else if k < 2 then k + 1 else k); }
  }

  lemma {:induction false} SqueezeOneLine(l: string, k: nat)
    requires OneLine(l)
    ensures Squeeze(l, k) == l && Trail(l, k) == if l == "" then k else 0
  {
    if l != "" {
      assert OneLine(l[1..]);
      SqueezeOneLine(l[1..], 0);
    }
  }

  lemma JoinFirst(l: string, ls: seq<string>)
    requires ls != []
    ensures Join([l] + ls) == l + "\n" + Join(ls)
  {
    assert ([l] + ls)[1..] == ls;
  }

  lemma SqueezeFirstLine(l: string, t: string, k: nat)
    requires OneLine(l) && k <= 2
    ensures Squeeze(l + "\n" + t, k) ==
              if l != "" then l + "\n" + Squeeze(t, 1)
              else if k < 2 then "\n" + Squeeze(t, k + 1) else Squeeze(t, k)
  {
    SqueezeConcat(l + "\n", t, k);
    SqueezeConcat(l, "\n", k);
    SqueezeOneLine(l, k);
  }

  /** Collapsing a text is collapsing its terminated lines; the unterminated last line is left alone. */
  lemma {:induction false} CollapseByLines(ls: seq<string>, last: string, k: nat)
    requires Lines(ls) && OneLine(last) && k <= 2
    ensures Squeeze(Join(ls + [last]), k) == Join(SqueezeLines(ls, k) + [last])
  {
    if ls == [] {
      SqueezeOneLine(last, k);
      assert ls + [last] == [last] && SqueezeLines(ls, k) + [last] == [last];
    } else {
      var l, rest := ls[0], ls[1..] + [last];
      assert ls + [last] == [l] + rest;
      JoinFirst(l, rest);
      SqueezeFirstLine(l, Join(rest), k);
      var k' := if l != "" then 1 else if k < 2 then k + 1 else k;
      CollapseByLines(ls[1..], last, k');
      var kept := SqueezeLines(ls[1..], k') + [last];
      if l != "" || k < 2 {
        assert SqueezeLines(ls, k) + [last] == [l] + kept;
        JoinFirst(l, kept);
      }
    }
  }
}
