/**
  Importing a docker-compose file: a loop over the service map that drafts a
  spec, keeps the drafted names distinct, and accounts for every service.
*/
module Compose {
  import opened Prelude
  import opened Text
  import opened Traits
  import opened Specs

  // ----- kebab ------------------------------------------------------------------

  predicate IsHyphen(c: char) {
    c == '-'
  }

  /** nonKebab.ReplaceAllString(s, "-"): every maximal run outside a-z0-9 becomes one hyphen. */
  function Hyphenate(s: string, inRun: bool): string {
    if s == "" then ""
    else if Alnum(s[0]) then [s[0]] + Hyphenate(s[1..], false)
    else (if inRun then "" else "-") + Hyphenate(s[1..], true)
  }

  /** kebab; it reports a change when the result differs from the trimmed input. */
  function Kebab(s: string): string {
    Trim(Hyphenate(Lower(TrimSpace(s)), false), IsHyphen)
  }

  predicate KebabChar(c: char) {
    Alnum(c) || IsHyphen(c)
  }

  predicate NoDoubleHyphen(s: string) {
    forall i :: 0 < i < |s| ==> !(IsHyphen(s[i - 1]) && IsHyphen(s[i]))
  }

  predicate Hyphenated(s: string, inRun: bool) {
    (forall c :: c in s ==> KebabChar(c)) && NoDoubleHyphen(s) && (inRun && s != "" ==> !IsHyphen(s[0]))
  }

  lemma {:induction false} HyphenateIs(s: string, inRun: bool)
    ensures Hyphenated(Hyphenate(s, inRun), inRun)
    ensures Hyphenated(s, inRun) ==> Hyphenate(s, inRun) == s
  {
    if s != "" {
      HyphenateIs(s[1..], !Alnum(s[0]));
      assert s == [s[0]] + s[1..];
      if Hyphenated(s, inRun) {
        assert s[0] in s && KebabChar(s[0]);
        assert |s| > 1 && IsHyphen(s[0]) ==> !IsHyphen(s[1]);
        TailHyphenated(s, inRun);
      }
    }
  }

  lemma TailHyphenated(s: string, inRun: bool)
    requires s != "" && Hyphenated(s, inRun)
    ensures Hyphenated(s[1..], !Alnum(s[0]))
  {
    assert s[0] in s && KebabChar(s[0]);
    assert |s| > 1 ==> !(IsHyphen(s[0]) && IsHyphen(s[1]));
    forall i | 0 < i < |s[1..]| ensures !(IsHyphen(s[1..][i - 1]) && IsHyphen(s[1..][i])) {
      assert !(IsHyphen(s[i]) && IsHyphen(s[i + 1]));
    }
  }

  lemma TrimIsSlice(s: string, cut: char -> bool) returns (i: nat)
    ensures i + |Trim(s, cut)| <= |s| && Trim(s, cut) == s[i..i + |Trim(s, cut)|]
  {
    TrimLeftIsSuffix(s, cut);
    TrimRightIsPrefix(TrimLeft(s, cut), cut);
    i := |s| - |TrimLeft(s, cut)|;
  }

  /** What kebab makes of a name: nothing at all, or a valid chart name without double hyphens. */
  lemma KebabIsName(s: string)
    ensures Kebab(s) != "" ==> ValidName(Kebab(s)) && NoDoubleHyphen(Kebab(s))
  {
    var h := Hyphenate(Lower(TrimSpace(s)), false);
    HyphenateIs(Lower(TrimSpace(s)), false);
    TrimTrims(h, IsHyphen);
    var k := Kebab(s);
    if k != "" {
      assert k[0] in k && k[|k| - 1] in k;
      var i := TrimIsSlice(h, IsHyphen);
      forall j | 0 < j < |k| ensures !(IsHyphen(k[j - 1]) && IsHyphen(k[j])) {
        assert !(IsHyphen(h[i + j - 1]) && IsHyphen(h[i + j]));
      }
    }
  }

  /** kebab changes a name exactly if it is not already a chart name without double hyphens. */
  lemma KebabKeepsNames(s: string)
    ensures var t := TrimSpace(s);
            Kebab(s) == t <==> t == "" || (ValidName(t) && NoDoubleHyphen(t))
  {
    var t := TrimSpace(s);
    KebabIsName(s);
    if t == "" {
      assert Lower(t) == "" && Hyphenate("", false) == "";
    } else if ValidName(t) && NoDoubleHyphen(t) {
      LowerKeepsName(t);
      HyphenateIs(t, false);
      TrimTrims(t, IsHyphen);
    }
  }

  lemma LowerKeepsName(s: string)
    requires ValidName(s)
    ensures Lower(s) == s
  {
    forall i | 0 <= i < |s| ensures LowerChar(s[i]) == s[i] { assert s[i] in s; }
  }

  /** Every character outside a-z0-9 as a hyphen. */
  function Masked(s: string): string {
    seq(|s|, i requires 0 <= i < |s| => if Alnum(s[i]) then s[i] else '-')
  }

  function NonEmpty(parts: seq<string>): (r: seq<string>)
    ensures forall part :: part in r ==> part in parts && part != ""
  {
    if parts == [] then [] else (if parts[0] == "" then [] else [parts[0]]) + NonEmpty(parts[1..])
  }

  /** The runs of a-z0-9. */
  function WordsOf(s: string): seq<string> {
    NonEmpty(SplitOn(Masked(s), '-'))
  }

  lemma {:induction false} MaskedHyphenates(s: string, inRun: bool)
    ensures Hyphenate(s, inRun) == Hyphenate(Masked(s), inRun)
  {
    if s != "" {
      assert Masked(s)[1..] == Masked(s[1..]);
      MaskedHyphenates(s[1..], !Alnum(s[0]));
    }
  }

  lemma {:induction false} WordFirst(a: string, rest: string, inRun: bool)
    requires a != "" && forall c :: c in a ==> Alnum(c)
    ensures Hyphenate(a + rest, inRun) == a + Hyphenate(rest, false)
  {
    assert a[0] in a && (a + rest)[1..] == a[1..] + rest;
    if |a| > 1 {
      WordFirst(a[1..], rest, false);
    } else {
      assert a[1..] + rest == rest;
    }
  }

  lemma JoinOfSome(parts: seq<string>)
    requires forall part :: part in parts ==> part != ""
    ensures JoinWith(parts, '-') == "" <==> parts == []
  {
    if parts != [] { assert parts[0] in parts; }
  }

  /** Past a leading hyphen, what is hyphenated and trimmed at its end is the words with hyphens between. */
  lemma {:induction false} HyphenatedWords(m: string)
    requires forall c :: c in m ==> KebabChar(c)
    ensures TrimRight(Hyphenate(m, true), IsHyphen) == JoinWith(NonEmpty(SplitOn(m, '-')), '-')
    decreases |m|
  {
    if '-' !in m {
      OneWord(m);
    } else {
      var i := IndexOf(m, '-').value;
      var a, rest := m[..i], m[i + 1..];
      assert m == a + ['-'] + rest;
      HyphenatedWords(rest);
      SplitFirst(a, '-', rest);
      NonEmptyCons(a, SplitOn(rest, '-'));
      forall c | c in a ensures Alnum(c) { assert c in m && KebabChar(c); }
      AfterWord(a, rest);
      if a != "" { WordThenWords(a, Hyphenate(rest, true), NonEmpty(SplitOn(rest, '-'))); }
    }
  }

  lemma NonEmptyCons(a: string, parts: seq<string>)
    ensures NonEmpty([a] + parts) == if a == "" then NonEmpty(parts) else [a] + NonEmpty(parts)
  {
    assert ([a] + parts)[1..] == parts;
  }

  lemma AfterWord(a: string, rest: string)
    requires forall c :: c in a ==> Alnum(c)
    ensures Hyphenate(a + ['-'] + rest, true) ==
              if a == "" then Hyphenate(rest, true) else a + ("-" + Hyphenate(rest, true))
  {
    assert (['-'] + rest)[1..] == rest;
    if a == "" {
      assert a + ['-'] + rest == ['-'] + rest;
    } else {
      assert a + ['-'] + rest == a + (['-'] + rest);
      WordFirst(a, ['-'] + rest, true);
      assert Hyphenate(['-'] + rest, false) == "-" + Hyphenate(rest, true);
    }
  }

  lemma OneWord(m: string)
    requires '-' !in m && forall c :: c in m ==> KebabChar(c)
    ensures TrimRight(Hyphenate(m, true), IsHyphen) == JoinWith(NonEmpty(SplitOn(m, '-')), '-')
  {
    assert SplitOn(m, '-') == [m];
    if m != "" {
      forall c | c in m ensures Alnum(c) { assert KebabChar(c); }
      WordFirst(m, "", true);
      assert m + "" == m && m[|m| - 1] in m;
      assert NonEmpty([m]) == [m];
    }
  }

  lemma WordThenWords(a: string, tail: string, words: seq<string>)
    requires a != "" && (forall c :: c in a ==> Alnum(c)) && (forall w :: w in words ==> w != "")
    requires TrimRight(tail, IsHyphen) == JoinWith(words, '-')
    ensures TrimRight(a + ("-" + tail), IsHyphen) == JoinWith([a] + words, '-')
  {
    assert a[|a| - 1] in a;
    TrimRightConcat(a + "-", tail, IsHyphen);
    assert a + ("-" + tail) == a + "-" + tail;
    JoinOfSome(words);
    if words == [] {
      TrimRightConcat(a, "-", IsHyphen);
      assert TrimRight("-", IsHyphen) == "" by { assert "-"[..0] == ""; }
    } else {
      assert ([a] + words)[1..] == words;
    }
  }

  /** kebab of any text: its runs of a-z0-9 after lower-casing, with single hyphens between. */
  lemma KebabJoinsWords(s: string)
    ensures Kebab(s) == JoinWith(WordsOf(Lower(TrimSpace(s))), '-')
  {
    var t := Lower(TrimSpace(s));
    var m := Masked(t);
    MaskedHyphenates(t, false);
    HyphenatedWords(m);
    HyphenateIs(m, false);
    HyphenateIs(m, true);
    assert TrimLeft(Hyphenate(m, false), IsHyphen) == Hyphenate(m, true) by {
      if m != "" {
        HyphenateIs(m[1..], true);
        if !Alnum(m[0]) { assert Hyphenate(m, false)[1..] == Hyphenate(m[1..], true); }
      }
    }
  }

  // ----- images -----------------------------------------------------------------

  /** The part after the last c, or all of it. */
  function AfterLast(s: string, c: char): (r: string)
    ensures c !in r
    decreases |s|
  {
    match IndexOf(s, c) case None => s case Some(i) => AfterLast(s[i + 1..], c)
  }

  function ImageBase(image: string): string {
    Lower(Before(AfterLast(Before(TrimSpace(image), '@'), '/'), ':'))
  }

  function InfraKey(base: string): Option<string> {
    if base == "postgres" || base == "postgresql" || base == "postgis" then Some("postgresql")
    else if base == "mysql" || base == "mariadb" then Some("mysql")
    else if base == "redis" then Some("redis")
    else if base == "valkey" then Some("valkey")
    else if base == "kafka" || base == "cp-kafka" then Some("kafka")
    else if base == "rabbitmq" then Some("rabbitmq")
    else if base == "mongo" || base == "mongodb" then Some("mongodb")
    else if base == "elasticsearch" then Some("elasticsearch")
    else None
  }

  /** Which images are recognized, by what they become; a dependency key is itself such an image. */
  lemma InfraImages(base: string, key: string)
    ensures InfraKey(base) == Some(key) <==>
              || (key in {"redis", "valkey", "rabbitmq", "elasticsearch"} && base == key)
              || (key == "postgresql" && base in {"postgres", key, "postgis"})
              || (key == "mysql" && base in {key, "mariadb"})
              || (key == "kafka" && base in {key, "cp-kafka"})
              || (key == "mongodb" && base in {"mongo", key})
    ensures InfraKey(base) == Some(key) ==> InfraKey(key) == Some(key)
  {
  }

  lemma {:induction false} AfterLastAppend(path: string, c: char, last: string)
    requires c !in last && (path == "" || path[|path| - 1] == c)
    ensures AfterLast(path + last, c) == last
    decreases |path|
  {
    var s := path + last;
    if path == "" {
      assert s == last;
    } else {
      assert s[|path| - 1] == c && c in s;
      var i := IndexOf(s, c).value;
      assert i < |path|;
      assert s[i + 1..] == path[i + 1..] + last;
      AfterLastAppend(path[i + 1..], c, last);
    }
  }

  function Tagged(name: string, tag: Option<string>): string {
    name + if tag.Some? then ":" + tag.value else ""
  }

  function Printed(path: string, name: string, tag: Option<string>, digest: Option<string>): string {
    path + Tagged(name, tag) + if digest.Some? then "@" + digest.value else ""
  }

  /** Of host:port/path/name:tag@digest only the name counts, lower-cased. */
  lemma ImageBaseOfPrinted(path: string, name: string, tag: Option<string>, digest: Option<string>)
    requires '@' !in path && (path == "" || path[|path| - 1] == '/')
    requires '@' !in name && '/' !in name && ':' !in name
    requires tag.Some? ==> '@' !in tag.value && '/' !in tag.value
    requires Trimmed(Printed(path, name, tag, digest), IsSpace)
    ensures ImageBase(Printed(path, name, tag, digest)) == Lower(name)
  {
    var all, tagged := Printed(path, name, tag, digest), Tagged(name, tag);
    TrimTrims(all, IsSpace);
    assert all == path + tagged + (if digest.Some? then "@" + digest.value else "");
    StripDigest(path + tagged, digest);
    AfterLastAppend(path, '/', tagged);
    StripTag(name, tag);
  }

  lemma StripTag(name: string, tag: Option<string>)
    requires ':' !in name
    ensures Before(Tagged(name, tag), ':') == name
  {
    if tag.Some? {
      BeforeAppend(name, ':', tag.value);
      assert Tagged(name, tag) == name + [':'] + tag.value;
    } else {
      BeforeAppend(name, ':', "");
      assert Tagged(name, tag) == name;
    }
  }

  lemma StripDigest(s: string, digest: Option<string>)
    requires '@' !in s
    ensures Before(s + (if digest.Some? then "@" + digest.value else ""), '@') == s
  {
    if digest.Some? {
      BeforeAppend(s, '@', digest.value);
      assert s + ("@" + digest.value) == s + ['@'] + digest.value;
    } else {
      BeforeAppend(s, '@', "");
      assert s + "" == s;
    }
  }

  // ----- ports ---------------------------------------------------------------------

  datatype Deploy = Deploy(mode: string, replicas: Option<int>)

  /** The parts of a compose service that ToSpec reads; extras: env, volumes, secrets or networks. */
  datatype Service = Service(
    build: bool, image: string, ports: seq<nat>, expose: seq<string>, deploy: Option<Deploy>, extras: bool)

  /** portNumber: 0 if the text is not a Go int. */
  function PortNumber(s: string): int {
    match Atoi(TrimSpace(Before(s, '/'))) case None => 0 case Some(n) => n
  }

  /** "3000", "3000/tcp". */
  lemma PortNumberOfPrinted(n: nat, protocol: string)
    requires n <= MAX_INT
    ensures PortNumber(Itoa(n)) == n && PortNumber(Itoa(n) + "/" + protocol) == n
  {
    var t := Itoa(n);
    assert '/' !in t;
    BeforeAppend(t, '/', protocol);
    assert t + "/" + protocol == t + ['/'] + protocol;
    assert t[0] in t && t[|t| - 1] in t;
    TrimTrims(t, IsSpace);
    AtoiItoa(n);
  }

  function PositivePorts(ps: seq<int>): seq<int> {
    if ps == [] then [] else (if ps[0] > 0 then [ps[0]] else []) + PositivePorts(ps[1..])
  }

  function ExposedNumbers(es: seq<string>): seq<int> {
    seq(|es|, i requires 0 <= i < |es| => PortNumber(es[i]))
  }

  /** Every container port of a service, published ones first. */
  function PortsOf(svc: Service): seq<int> {
    PositivePorts(svc.ports) + PositivePorts(ExposedNumbers(svc.expose))
  }

  function PortOf(svc: Service): int {
    if PortsOf(svc) == [] then 0 else PortsOf(svc)[0]
  }

  lemma {:induction false} PositiveSnoc(ps: seq<int>, p: int)
    ensures PositivePorts(ps + [p]) == PositivePorts(ps) + if p > 0 then [p] else []
  {
    if ps == [] {
      assert ps + [p] == [p];
    } else {
      assert (ps + [p])[1..] == ps[1..] + [p];
      PositiveSnoc(ps[1..], p);
    }
  }

  lemma {:induction false} PositivesArePositive(ps: seq<int>)
    ensures forall p :: p in PositivePorts(ps) ==> p > 0
  {
    if ps != [] { PositivesArePositive(ps[1..]); }
  }

  predicate FirstPositive(ps: seq<int>, i: nat) {
    i < |ps| && ps[i] > 0 && forall j :: 0 <= j < i ==> ps[j] <= 0
  }

  lemma {:induction false} FirstOfPositives(ps: seq<int>, i: nat)
    requires FirstPositive(ps, i)
    ensures PositivePorts(ps) != [] && PositivePorts(ps)[0] == ps[i]
  {
    if i > 0 {
      assert ps[0] <= 0;
      FirstOfPositives(ps[1..], i - 1);
    }
  }

  lemma {:induction false} NoPositives(ps: seq<int>)
    requires forall i :: 0 <= i < |ps| ==> ps[i] <= 0
    ensures PositivePorts(ps) == []
  {
    if ps != [] {
      assert ps[0] <= 0;
      NoPositives(ps[1..]);
    }
  }

  /** The first published port, if any is positive, else the first exposed one, else none. */
  lemma PortIsFirst(svc: Service, i: nat)
    ensures FirstPositive(svc.ports, i) ==> PortOf(svc) == svc.ports[i]
    ensures (forall j :: 0 <= j < |svc.ports| ==> svc.ports[j] == 0) ==>
              && (FirstPositive(ExposedNumbers(svc.expose), i) ==> PortOf(svc) == PortNumber(svc.expose[i]))
              && ((forall j :: 0 <= j < |svc.expose| ==> PortNumber(svc.expose[j]) <= 0) ==> PortOf(svc) == 0)
  {
    if FirstPositive(svc.ports, i) { FirstOfPositives(svc.ports, i); }
    if forall j :: 0 <= j < |svc.ports| ==> svc.ports[j] == 0 {
      NoPositives(svc.ports);
      if FirstPositive(ExposedNumbers(svc.expose), i) { FirstOfPositives(ExposedNumbers(svc.expose), i); }
      if forall j :: 0 <= j < |svc.expose| ==> PortNumber(svc.expose[j]) <= 0 { NoPositives(ExposedNumbers(svc.expose)); }
    }
  }

  method FirstPort(svc: Service) returns (port: int, multiple: bool)
    ensures port == PortOf(svc) && multiple == (|PortsOf(svc)| > 1) && port >= 0
  {
    var ports: seq<int> := [];
    for i := 0 to |svc.ports|
      invariant ports == PositivePorts(svc.ports[..i])
    {
      PositiveSnoc(svc.ports[..i], svc.ports[i]);
      assert svc.ports[..i + 1] == svc.ports[..i] + [svc.ports[i]];
      if svc.ports[i] > 0 { ports := ports + [svc.ports[i]]; }
    }
    assert svc.ports[..|svc.ports|] == svc.ports;
    ghost var exposed := ExposedNumbers(svc.expose);
    for i := 0 to |svc.expose|
      invariant ports == PositivePorts(svc.ports) + PositivePorts(exposed[..i])
    {
      PositiveSnoc(exposed[..i], exposed[i]);
      assert exposed[..i + 1] == exposed[..i] + [exposed[i]];
      var n := PortNumber(svc.expose[i]);
      if n > 0 { ports := ports + [n]; }
    }
    assert exposed[..|svc.expose|] == exposed;
    PortIsPositive(svc);
    if ports == [] { return 0, false; }
    return ports[0], |ports| > 1;
  }

  lemma PortIsPositive(svc: Service)
    ensures PortsOf(svc) != [] ==> PortOf(svc) > 0
  {
    PositivesArePositive(svc.ports);
    PositivesArePositive(ExposedNumbers(svc.expose));
    assert PortsOf(svc) != [] ==> PortOf(svc) in PortsOf(svc);
  }

  // ----- distinct names ---------------------------------------------------------------

  function Suffixed(name: string, n: nat): string {
    name + "-" + Itoa(n)
  }

  lemma SuffixInjective(name: string, m: nat, n: nat)
    requires Suffixed(name, m) == Suffixed(name, n)
    ensures m == n
  {
    assert Suffixed(name, m)[|name| + 1..] == Itoa(m) && Suffixed(name, n)[|name| + 1..] == Itoa(n);
    ItoaValue(m);
    ItoaValue(n);
  }

  /** The first suffix from i on that is free; each one that is not uses up a taken name. */
  function SuffixFrom(name: string, taken: set<string>, i: nat): (n: nat)
    ensures i <= n <= i + |taken|
    decreases |taken|
  {
    if Suffixed(name, i) in taken then SuffixFrom(name, taken - {Suffixed(name, i)}, i + 1) else i
  }

  lemma {:induction false} SuffixFromIsFirst(name: string, taken: set<string>, i: nat)
    ensures var n := SuffixFrom(name, taken, i);
            Suffixed(name, n) !in taken && forall j :: i <= j < n ==> Suffixed(name, j) in taken
    decreases |taken|
  {
    var s := Suffixed(name, i);
    if s in taken {
      SuffixFromIsFirst(name, taken - {s}, i + 1);
      var n := SuffixFrom(name, taken, i);
      if Suffixed(name, n) == s { SuffixInjective(name, n, i); }
    }
  }

  function UniqueSuffix(name: string, seen: set<string>): nat {
    SuffixFrom(name, seen - {name}, 2)
  }

  function UniqueName(name: string, seen: set<string>): string {
    if name in seen then Suffixed(name, UniqueSuffix(name, seen)) else name
  }

  lemma SuffixIsLonger(name: string, n: nat)
    ensures Suffixed(name, n) != name
  {
    assert |Suffixed(name, n)| > |name|;
  }

  /** The de-duplication loop: it ends, after at most one round more than there are names. */
  method Dedupe(name: string, seen: set<string>) returns (deduped: string)
    ensures deduped == UniqueName(name, seen) && deduped !in seen
  {
    deduped := name;
    var i := 2;
    ghost var k := UniqueSuffix(name, seen);
    SuffixFromIsFirst(name, seen - {name}, 2);
    SuffixIsLonger(name, k);
    while deduped in seen
      invariant 2 <= i <= k + 1
      invariant deduped == if i == 2 then name else Suffixed(name, i - 1)
      invariant i > 2 ==> name in seen
      decreases k + 1 - i
    {
      assert i == 2 || i - 1 != k;
      deduped := Suffixed(name, i);
      i := i + 1;
    }
  }

  /** The new name is free, and numbered at most one above the number of names in use. */
  lemma UniqueNameIsFree(name: string, seen: set<string>)
    ensures UniqueName(name, seen) !in seen
    ensures name in seen ==> 2 <= UniqueSuffix(name, seen) <= |seen| + 1
  {
    SuffixFromIsFirst(name, seen - {name}, 2);
    SuffixIsLonger(name, UniqueSuffix(name, seen));
  }

  lemma SuffixedIsName(name: string, n: nat)
    requires ValidName(name)
    ensures ValidName(Suffixed(name, n))
  {
    var s := Suffixed(name, n);
    assert s[|s| - 1] == Itoa(n)[|Itoa(n)| - 1];
    assert Itoa(n)[|Itoa(n)| - 1] in Itoa(n);
    forall c | c in s ensures Alnum(c) || c == '-' { assert c in name || c in "-" || c in Itoa(n); }
  }

  lemma UniqueNameIsName(name: string, seen: set<string>)
    requires ValidName(name)
    ensures ValidName(UniqueName(name, seen))
  {
    if name in seen { SuffixedIsName(name, UniqueSuffix(name, seen)); }
  }
}
