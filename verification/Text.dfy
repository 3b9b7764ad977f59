/** Strings as Go sees them: order and sorting, trimming, lower-casing, decimal numbers. */
module Text {
  import opened Prelude

  // ----- order --------------------------------------------------------------

  /** a <= b; the order of UTF-8 bytes is the order of code points. */
  predicate Le(a: string, b: string) {
    a == "" || (b != "" && (a[0] < b[0] || (a[0] == b[0] && Le(a[1..], b[1..]))))
  }

  lemma {:induction false} LeTotal(a: string, b: string)
    ensures Le(a, b) || Le(b, a)
    ensures Le(a, b) && Le(b, a) ==> a == b
  {
    if a != "" && b != "" {
      LeTotal(a[1..], b[1..]);
      assert a == [a[0]] + a[1..] && b == [b[0]] + b[1..];
    }
  }

  lemma {:induction false} LeTrans(a: string, b: string, c: string)
    requires Le(a, b) && Le(b, c)
    ensures Le(a, c)
  {
    if a != "" && a[0] == b[0] == c[0] { LeTrans(a[1..], b[1..], c[1..]); }
  }

  /** a stands before b, or is b, exactly if it is a beginning of b or smaller where the two first differ. */
  lemma {:induction false} LeIff(a: string, b: string)
    ensures Le(a, b) <==>
              a <= b || exists i: nat :: i < |a| && i < |b| && a[..i] == b[..i] && a[i] < b[i]
  {
    if a != "" && b != "" {
      assert a == [a[0]] + a[1..] && b == [b[0]] + b[1..];
      if a[0] == b[0] {
        LeIff(a[1..], b[1..]);
        if i: nat :| i < |a| && i < |b| && a[..i] == b[..i] && a[i] < b[i] {
          assert i > 0 && a[1..][..i - 1] == a[..i][1..] && b[1..][..i - 1] == b[..i][1..];
        }
        if i: nat :| i < |a| - 1 && i < |b| - 1 && a[1..][..i] == b[1..][..i] && a[1..][i] < b[1..][i] {
          assert a[..i + 1] == [a[0]] + a[1..][..i] && b[..i + 1] == [b[0]] + b[1..][..i];
          assert a[i + 1] < b[i + 1];
        }
      } else if a[0] < b[0] {
        assert a[..0] == b[..0] && a[0] < b[0];
      } else {
        forall i: nat | 0 < i < |a| && i < |b| ensures a[..i] != b[..i] {
          assert a[..i][0] == a[0] && b[..i][0] == b[0];
        }
      }
    }
  }

  predicate Sorted(s: seq<string>) {
    forall i, j :: 0 <= i < j < |s| ==> Le(s[i], s[j])
  }

  predicate Distinct<T(==)>(s: seq<T>) {
    forall i, j :: 0 <= i < j < |s| ==> s[i] != s[j]
  }

  function Insert(x: string, s: seq<string>): seq<string> {
    if s == [] then [x] else if Le(x, s[0]) then [x] + s else [s[0]] + Insert(x, s[1..])
  }

  /** sort.Strings: the sorted permutation, of which there is one. */
  function Sort(s: seq<string>): seq<string> {
    if s == [] then [] else Insert(s[0], Sort(s[1..]))
  }

  lemma {:induction false} InsertSorts(x: string, s: seq<string>)
    requires Sorted(s)
    ensures Sorted(Insert(x, s)) && multiset(Insert(x, s)) == multiset(s) + multiset{x}
  {
    if s != [] {
      LeTotal(x, s[0]);
      assert s == [s[0]] + s[1..];
      if Le(x, s[0]) {
        forall y | y in s ensures Le(x, y) { if y != s[0] { LeTrans(x, s[0], y); } }
        SortedCons(x, s);
      } else {
        var t := Insert(x, s[1..]);
        InsertSorts(x, s[1..]);
        forall y | y in t ensures Le(s[0], y) {
          assert y in multiset(t);
          assert y == x || y in s[1..];
        }
        SortedCons(s[0], t);
      }
    }
  }

  lemma SortedCons(x: string, s: seq<string>)
    requires Sorted(s) && forall y :: y in s ==> Le(x, y)
    ensures Sorted([x] + s)
  {
  }

  lemma {:induction false} SortSorts(s: seq<string>)
    ensures Sorted(Sort(s)) && multiset(Sort(s)) == multiset(s)
  {
    if s != [] {
      SortSorts(s[1..]);
      InsertSorts(s[0], Sort(s[1..]));
      assert s == [s[0]] + s[1..];
    }
  }

  /** Two sorted sequences with the same elements are the same sequence. */
  lemma {:induction false} SortedIsUnique(a: seq<string>, b: seq<string>)
    requires Sorted(a) && Sorted(b) && multiset(a) == multiset(b)
    ensures a == b
  {
    assert |multiset(a)| == |multiset(b)|;
    if a != [] {
      LeastFirst(a, b);
      LeastFirst(b, a);
      LeTotal(a[0], b[0]);
      TailCounts(a);
      TailCounts(b);
      SortedIsUnique(a[1..], b[1..]);
      assert a == [a[0]] + a[1..] && b == [b[0]] + b[1..];
    }
  }

  lemma TailCounts<T>(s: seq<T>)
    requires s != []
    ensures multiset(s[1..]) == multiset(s) - multiset{s[0]}
  {
    assert s == [s[0]] + s[1..];
  }

  lemma LeastFirst(a: seq<string>, b: seq<string>)
    requires a != [] && b != [] && Sorted(a) && multiset(a) == multiset(b)
    ensures Le(a[0], b[0])
  {
    assert b[0] in multiset(a);
    var j :| 0 <= j < |a| && a[j] == b[0];
    LeTotal(a[0], a[j]);
  }

  lemma SortMembers(s: seq<string>)
    ensures forall x :: x in Sort(s) <==> x in s
    ensures |Sort(s)| == |s|
  {
    SortSorts(s);
    assert |multiset(Sort(s))| == |multiset(s)|;
    forall x ensures x in Sort(s) <==> x in s {
      assert x in multiset(Sort(s)) <==> x in multiset(s);
    }
  }

  lemma SortKeepsDistinct(s: seq<string>)
    requires Distinct(s)
    ensures Distinct(Sort(s))
  {
    SortSorts(s);
    DistinctCounts(s);
    CountsDistinct(Sort(s));
  }

  lemma {:induction false} DistinctCounts<T>(s: seq<T>)
    requires Distinct(s)
    ensures forall x :: multiset(s)[x] <= 1
  {
    if s != [] {
      DistinctCounts(s[1..]);
      assert s == [s[0]] + s[1..];
      assert s[0] !in s[1..];
    }
  }

  lemma TwiceCounts<T>(s: seq<T>, i: nat, j: nat)
    requires i < j < |s| && s[i] == s[j]
    ensures multiset(s)[s[i]] >= 2
  {
    assert s == s[..i] + [s[i]] + s[i + 1..j] + [s[j]] + s[j + 1..];
  }

  lemma CountsDistinct<T>(s: seq<T>)
    requires forall x :: multiset(s)[x] <= 1
    ensures Distinct(s)
  {
    forall i, j | 0 <= i < j < |s| ensures s[i] != s[j] {
      if s[i] == s[j] { TwiceCounts(s, i, j); }
    }
  }

  /** The elements of a set in order; whichever way the set is walked, there is one such sequence. */
  ghost function InOrder(keys: set<string>): seq<string> {
    if keys == {} then [] else var k :| k in keys; Insert(k, InOrder(keys - {k}))
  }

  lemma {:induction false} InOrderSorts(keys: set<string>)
    ensures Sorted(InOrder(keys)) && multiset(InOrder(keys)) == multiset(keys)
    ensures forall k :: k in InOrder(keys) <==> k in keys
  {
    if keys != {} {
      var k :| k in keys && InOrder(keys) == Insert(k, InOrder(keys - {k}));
      InOrderSorts(keys - {k});
      InsertSorts(k, InOrder(keys - {k}));
      assert multiset(keys) == multiset(keys - {k}) + multiset{k};
    }
    forall k ensures k in InOrder(keys) <==> k in keys {
      assert k in multiset(InOrder(keys)) <==> k in multiset(keys);
    }
  }

  lemma InOrderMembers(keys: set<string>)
    ensures forall k :: k in InOrder(keys) <==> k in keys
  {
    InOrderSorts(keys);
  }

  lemma InOrderIsDistinct(keys: set<string>)
    ensures Distinct(InOrder(keys))
  {
    InOrderSorts(keys);
    CountsDistinct(InOrder(keys));
  }

  /** Sorting any listing of a set gives that sequence. */
  lemma SortIsInOrder(names: seq<string>, keys: set<string>)
    requires Distinct(names) && forall k :: k in names <==> k in keys
    ensures Sort(names) == InOrder(keys)
  {
    DistinctCounts(names);
    SortSorts(names);
    InOrderSorts(keys);
    forall k ensures multiset(names)[k] == multiset(keys)[k] { assert k in multiset(names) <==> k in multiset(keys); }
    assert multiset(names) == multiset(keys);
    SortedIsUnique(Sort(names), InOrder(keys));
  }

  // ----- trimming and case -----------------------------------------------------

  /** unicode.IsSpace */
  predicate IsSpace(c: char) {
    var n := c as int;
    || 0x09 <= n <= 0x0D || n == 0x20 || n == 0x85 || n == 0xA0 || n == 0x1680 || 0x2000 <= n <= 0x200A
    || n == 0x2028 || n == 0x2029 || n == 0x202F || n == 0x205F || n == 0x3000
  }

  predicate IsNewline(c: char) {
    c == '\n'
  }

  function TrimLeft(s: string, cut: char -> bool): string {
    if s != "" && cut(s[0]) then TrimLeft(s[1..], cut) else s
  }

  function TrimRight(s: string, cut: char -> bool): string {
    if s != "" && cut(s[|s| - 1]) then TrimRight(s[..|s| - 1], cut) else s
  }

  lemma {:induction false} TrimLeftIsSuffix(s: string, cut: char -> bool)
    ensures var r := TrimLeft(s, cut); |r| <= |s| && r == s[|s| - |r|..] && (r != "" ==> !cut(r[0]))
  {
    if s != "" { TrimLeftIsSuffix(s[1..], cut); }
  }

  /** What TrimRight takes off is exactly the tail of characters to cut. */
  lemma {:induction false} TrimRightIsPrefix(s: string, cut: char -> bool)
    ensures var r := TrimRight(s, cut);
            r <= s && (r != "" ==> !cut(r[|r| - 1])) && forall i :: |r| <= i < |s| ==> cut(s[i])
  {
    if s != "" { TrimRightIsPrefix(s[..|s| - 1], cut); }
  }

  lemma {:induction false} TrimRightConcat(a: string, b: string, cut: char -> bool)
    ensures TrimRight(a + b, cut) == if TrimRight(b, cut) == "" then TrimRight(a, cut) else a + TrimRight(b, cut)
  {
    if b == "" {
      assert a + b == a;
    } else if cut(b[|b| - 1]) {
      assert (a + b)[..|a + b| - 1] == a + b[..|b| - 1];
      TrimRightConcat(a, b[..|b| - 1], cut);
    }
  }

  /** strings.TrimSpace for cut = IsSpace, strings.Trim otherwise. */
  function Trim(s: string, cut: char -> bool): string {
    TrimRight(TrimLeft(s, cut), cut)
  }

  predicate Trimmed(s: string, cut: char -> bool) {
    s == "" || (!cut(s[0]) && !cut(s[|s| - 1]))
  }

  /** Trimming is exactly what makes a string begin and end with a character that stays. */
  lemma TrimTrims(s: string, cut: char -> bool)
    ensures Trimmed(Trim(s, cut), cut)
    ensures Trim(s, cut) == s <==> Trimmed(s, cut)
    ensures forall c :: c in Trim(s, cut) ==> c in s
  {
    TrimLeftIsSuffix(s, cut);
    TrimRightIsPrefix(TrimLeft(s, cut), cut);
  }

  predicate All(s: string, p: char -> bool) {
    forall c :: c in s ==> p(c)
  }

  /** Padding comes off again. */
  lemma {:induction false} TrimUnpads(left: string, s: string, right: string, cut: char -> bool)
    requires All(left, cut) && All(right, cut) && Trimmed(s, cut)
    ensures Trim(left + s + right, cut) == s
    decreases |left| + |right|
  {
    var padded := left + s + right;
    if left != "" {
      assert padded[0] == left[0] && left[0] in left && padded[1..] == left[1..] + s + right;
      TrimUnpads(left[1..], s, right, cut);
    } else if s == "" {
      if right != "" {
        assert padded[0] == right[0] && right[0] in right && padded[1..] == "" + "" + right[1..];
        TrimUnpads("", "", right[1..], cut);
      }
    } else {
      assert padded[0] == s[0] && TrimLeft(padded, cut) == padded && padded == s + right;
      TrimRightUnpads(s, right, cut);
    }
  }

  lemma {:induction false} TrimRightUnpads(s: string, right: string, cut: char -> bool)
    requires All(right, cut) && (s == "" || !cut(s[|s| - 1]))
    ensures TrimRight(s + right, cut) == s
  {
    var n := |right| - 1;
    if right != "" {
      assert (s + right)[|s| + n] == right[n] && right[n] in right && (s + right)[..|s| + n] == s + right[..n];
      TrimRightUnpads(s, right[..n], cut);
    } else {
      assert s + right == s;
    }
  }

  function TrimSpace(s: string): string {
    Trim(s, IsSpace)
  }

  /**
    unicode.ToLower where it lands in ASCII: A-Z, and the two letters outside
    ASCII whose lower case is an ASCII letter. Other letters keep their case.
  */
  function LowerChar(c: char): char {
    if 0x41 <= c as int <= 0x5A then (c as int + 0x20) as char
    else if c as int == 0x212A then 'k'
    else if c as int == 0x0130 then 'i'
    else c
  }

  function Lower(s: string): string {
    seq(|s|, i requires 0 <= i < |s| => LowerChar(s[i]))
  }

  /** sanitizeName */
  function Sanitize(s: string): string {
    Lower(TrimSpace(s))
  }

  predicate Upper(c: char) {
    'A' <= c <= 'Z'
  }

  /** b is a, or the ASCII letter a in lower case. */
  predicate SameButCase(a: char, b: char) {
    a == b || (Upper(a) && b as int == a as int + 32)
  }

  /** What sanitizeName leaves: no surrounding blanks, no capital, and otherwise the text it was given. */
  lemma SanitizeIs(s: string)
    ensures var r, t := Sanitize(s), TrimSpace(s);
            && Trimmed(r, IsSpace) && (forall c :: c in r ==> !Upper(c))
            && |r| == |t| && forall i :: 0 <= i < |t| && (t[i] as int) < 128 ==> SameButCase(t[i], r[i])
  {
    var t := TrimSpace(s);
    TrimTrims(s, IsSpace);
    LowerStaysTrimmed(t);
  }

  /** x is the word w in some capitals and with some blanks around it. */
  ghost predicate Spells(x: string, w: string) {
    exists left, m, right :: Padded(x, left, m, right) && SameWord(m, w)
  }

  predicate Padded(x: string, left: string, m: string, right: string) {
    x == left + m + right && All(left, IsSpace) && All(right, IsSpace)
  }

  predicate SameWord(m: string, w: string) {
    |m| == |w| && forall i :: 0 <= i < |w| ==> SameButCase(m[i], w[i])
  }

  /** Every such spelling of a word that sanitizeName leaves alone becomes that word. */
  lemma SpellingIsSanitized(x: string, w: string)
    requires Spells(x, w) && Sanitize(w) == w
    ensures Sanitize(x) == w
  {
    var left, m, right :| Padded(x, left, m, right) && SameWord(m, w);
    SanitizeIs(w);
    forall i | 0 <= i < |w| ensures LowerChar(m[i]) == w[i] && (IsSpace(m[i]) <==> IsSpace(w[i])) {
      assert w[i] in w;
      LowerCharKeeps(m[i]);
      assert LowerChar(w[i]) == w[i] by { LoweredStays(w); }
    }
    TrimUnpads(left, m, right, IsSpace);
    assert Lower(m) == w;
  }

  lemma LoweredStays(w: string)
    requires Sanitize(w) == w
    ensures forall i :: 0 <= i < |w| ==> LowerChar(w[i]) == w[i]
  {
    var t := TrimSpace(w);
    forall i | 0 <= i < |w| ensures LowerChar(w[i]) == w[i] {
      assert w[i] == LowerChar(t[i]);
      LowerCharKeeps(t[i]);
    }
  }

  lemma SanitizeTwice(s: string)
    ensures Sanitize(Sanitize(s)) == Sanitize(s)
  {
    var t := TrimSpace(s);
    TrimTrims(s, IsSpace);
    LowerStaysTrimmed(t);
    LowerTwice(t);
    TrimTrims(Lower(t), IsSpace);
  }

  lemma LowerStaysTrimmed(t: string)
    requires Trimmed(t, IsSpace)
    ensures Trimmed(Lower(t), IsSpace)
  {
    if t != "" {
      LowerCharKeeps(t[0]);
      LowerCharKeeps(t[|t| - 1]);
    }
  }

  lemma LowerTwice(t: string)
    ensures Lower(Lower(t)) == Lower(t)
  {
    forall i | 0 <= i < |t| ensures LowerChar(LowerChar(t[i])) == LowerChar(t[i]) { LowerCharKeeps(t[i]); }
  }

  lemma LowerCharKeeps(c: char)
    ensures IsSpace(LowerChar(c)) <==> IsSpace(c)
    ensures LowerChar(LowerChar(c)) == LowerChar(c)
  {
  }

  // ----- decimal numbers -----------------------------------------------------------

  predicate Digit(c: char) {
    0x30 <= c as int <= 0x39
  }

  function Itoa(n: nat): (r: string)
    ensures r != "" && forall c :: c in r ==> Digit(c)
  {
    var last := [(n % 10 + 0x30) as char];
    if n < 10 then last else Itoa(n / 10) + last
  }

  function ValueOf(s: string): (n: nat)
    requires forall c :: c in s ==> Digit(c)
  {
    if s == "" then 0
    else
      var last := s[|s| - 1];
      assert last in s && Digit(last);
      ValueOf(s[..|s| - 1]) * 10 + (last as int - 0x30)
  }

  lemma {:induction false} ItoaValue(n: nat)
    ensures ValueOf(Itoa(n)) == n
  {
    var s := Itoa(n);
    if n >= 10 {
      ItoaValue(n / 10);
      assert s[..|s| - 1] == Itoa(n / 10);
    }
  }

  const MIN_INT := -0x8000_0000_0000_0000
  const MAX_INT := 0x7FFF_FFFF_FFFF_FFFF

  /** strconv.Atoi on a 64-bit int; None is an error. */
  function Atoi(s: string): (r: Option<int>)
    ensures r.Some? ==> MIN_INT <= r.value <= MAX_INT
  {
    var signed := s != "" && (s[0] == '+' || s[0] == '-');
    var digits := if signed then s[1..] else s;
    if digits == "" || exists c :: c in digits && !Digit(c) then None
    else
      var n: int := if signed && s[0] == '-' then 0 - ValueOf(digits) else ValueOf(digits);
      if MIN_INT <= n <= MAX_INT then Some(n) else None
  }

  lemma AtoiItoa(n: nat)
    requires n <= MAX_INT
    ensures Atoi(Itoa(n)) == Some(n)
  {
    ItoaValue(n);
    assert Itoa(n)[0] in Itoa(n);
  }

  /** strings.IndexByte */
  function IndexOf(s: string, c: char): (i: Option<nat>)
    ensures i.Some? ==> i.value < |s| && s[i.value] == c && c !in s[..i.value]
    ensures i.None? ==> c !in s
  {
    if s == "" then None
    else if s[0] == c then Some(0)
    else match IndexOf(s[1..], c) case None => None case Some(i) => Some(i + 1)
  }

  /** The part before the first c, or all of it. */
  function Before(s: string, c: char): (r: string)
    ensures r <= s && c !in r
  {
    match IndexOf(s, c) case None => s case Some(i) => s[..i]
  }

  lemma BeforeAppend(a: string, c: char, b: string)
    requires c !in a
    ensures Before(a + [c] + b, c) == a && Before(a, c) == a
  {
    IndexOfAppend(a, c, b);
    assert (a + [c] + b)[..|a|] == a;
  }

  lemma {:induction false} IndexOfAppend(a: string, c: char, b: string)
    requires c !in a
    ensures IndexOf(a + [c] + b, c) == Some(|a|)
  {
    if a != "" {
      assert (a + [c] + b)[1..] == a[1..] + [c] + b;
      IndexOfAppend(a[1..], c, b);
    }
  }

  // ----- splitting ---------------------------------------------------------------------

  /** strings.Split at a one-character separator. */
  function SplitOn(s: string, c: char): (r: seq<string>)
    ensures r != []
    decreases |s|
  {
    match IndexOf(s, c) case None => [s] case Some(i) => [s[..i]] + SplitOn(s[i + 1..], c)
  }

  /** strings.Join with a one-character separator. */
  function JoinWith(parts: seq<string>, c: char): string {
    if parts == [] then "" else if |parts| == 1 then parts[0] else parts[0] + [c] + JoinWith(parts[1..], c)
  }

  lemma {:induction false} JoinSplits(s: string, c: char)
    ensures JoinWith(SplitOn(s, c), c) == s
    ensures forall part :: part in SplitOn(s, c) ==> c !in part
    decreases |s|
  {
    match IndexOf(s, c)
    case None => assert SplitOn(s, c) == [s];
    case Some(i) =>
      JoinSplits(s[i + 1..], c);
      assert SplitOn(s, c)[1..] == SplitOn(s[i + 1..], c);
      assert s == s[..i] + [c] + s[i + 1..];
  }

  lemma {:induction false} SplitJoins(parts: seq<string>, c: char)
    requires parts != [] && forall part :: part in parts ==> c !in part
    ensures SplitOn(JoinWith(parts, c), c) == parts
  {
    if |parts| == 1 {
      assert parts[0] in parts;
      assert IndexOf(parts[0], c) == None;
    } else {
      IndexOfAppend(parts[0], c, JoinWith(parts[1..], c));
      SplitJoins(parts[1..], c);
      var s := JoinWith(parts, c);
      assert s[..|parts[0]|] == parts[0] && s[|parts[0]| + 1..] == JoinWith(parts[1..], c);
    }
  }

  lemma SplitFirst(a: string, c: char, b: string)
    requires c !in a
    ensures SplitOn(a + [c] + b, c) == [a] + SplitOn(b, c)
  {
    var s := a + [c] + b;
    IndexOfAppend(a, c, b);
    assert s[..|a|] == a && s[|a| + 1..] == b;
  }

  lemma Associate<T>(x: seq<T>, y: seq<T>, z: seq<T>)
    ensures x + (y + z) == x + y + z
  {
  }

  lemma {:induction false} SplitAt(a: string, c: char, b: string)
    ensures SplitOn(a + [c] + b, c) == SplitOn(a, c) + SplitOn(b, c)
    decreases |a|
  {
    if c !in a {
      SplitFirst(a, c, b);
    } else {
      var i := IndexOf(a, c).value;
      var first, rest := a[..i], a[i + 1..];
      var tail := rest + [c] + b;
      assert a == first + [c] + rest;
      assert a + [c] + b == first + [c] + tail;
      calc {
        SplitOn(a + [c] + b, c);
        SplitOn(first + [c] + tail, c);
        { SplitFirst(first, c, tail); }
        [first] + SplitOn(tail, c);
        { SplitAt(rest, c, b); }
        [first] + (SplitOn(rest, c) + SplitOn(b, c));
        { Associate([first], SplitOn(rest, c), SplitOn(b, c)); }
        [first] + SplitOn(rest, c) + SplitOn(b, c);
        { SplitFirst(first, c, rest); }
        SplitOn(a, c) + SplitOn(b, c);
      }
    }
  }
}
