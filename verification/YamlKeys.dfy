/**
  The keys a YAML text opens at the left margin: a line read up to the colon that
  ends an implicit key, and which keys are plain scalars, as section 7.3.3 of the
  YAML standard has them.
*/
module YamlKeys {
  import opened Prelude
  import opened Text

  /** An implicit key ends within so many characters. */
  const MAX_KEY := 1024

  predicate IsBlank(c: char) {
    c == ' ' || c == '\t'
  }

  /** Printable, and not a line break. */
  predicate InLine(c: char) {
    c == '\t' || ' ' <= c <= '~'
    || ('\U{A0}' <= c && c !in {'\U{2028}', '\U{2029}', '\U{FEFF}', '\U{FFFE}', '\U{FFFF}'})
  }

  /** A plain scalar may begin like this: not with an indicator, and with - ? : only if no blank follows. */
  predicate StartsPlain(k: string)
    requires k != ""
  {
    !IsBlank(k[0]) && k[0] !in ",[]{}#&*!|>'\"%@`" && (k[0] in "-?:" && |k| > 1 ==> !IsBlank(k[1]))
  }

  /** The line would begin or end a document. */
  predicate IsDocumentMarker(k: string) {
    |k| > 3 && (k[..3] == "---" || k[..3] == "...") && IsBlank(k[3])
  }

  /** A key that, followed by a colon, YAML reads as the one-line plain scalar it is. */
  predicate PlainKey(k: string) {
    && k != "" && |k| <= MAX_KEY && StartsPlain(k) && !IsDocumentMarker(k) && !IsBlank(k[|k| - 1])
    && (forall i :: 0 <= i < |k| ==> InLine(k[i]))
    && (forall i :: 0 <= i < |k| - 1 && k[i] == ':' ==> !IsBlank(k[i + 1]))
    && (forall i :: 0 <= i < |k| - 1 && IsBlank(k[i]) ==> k[i + 1] != '#')
  }

  /** Where the colon stands that ends an implicit key: the first with a blank or nothing behind it. */
  function KeyEnd(line: string): (i: Option<nat>)
    ensures i.Some? ==> i.value < |line| && line[i.value] == ':'
  {
    if line == "" then None
    else if line[0] == ':' && (|line| == 1 || IsBlank(line[1])) then Some(0)
    else match KeyEnd(line[1..]) case None => None case Some(i) => Some(i + 1)
  }

  /** The plain key a line opens at the left margin, if any. */
  function TopKey(line: string): seq<string> {
    match KeyEnd(line)
    case None => []
    case Some(i) => var k := TrimRight(line[..i], IsBlank); if i <= MAX_KEY && PlainKey(k) then [k] else []
  }

  lemma {:induction false} KeyEndBehind(k: string, tail: string)
    requires tail == "" || IsBlank(tail[0])
    requires forall i :: 0 <= i < |k| - 1 && k[i] == ':' ==> !IsBlank(k[i + 1])
    ensures KeyEnd(k + ":" + tail) == Some(|k|)
  {
    var line := k + ":" + tail;
    if k != "" {
      assert line[0] == k[0] && line[1] == if |k| > 1 then k[1] else ':';
      assert line[1..] == k[1..] + ":" + tail;
      forall i | 0 <= i < |k[1..]| - 1 && k[1..][i] == ':' ensures !IsBlank(k[1..][i + 1]) {
        assert k[1..][i] == k[i + 1] && k[1..][i + 1] == k[i + 2];
      }
      KeyEndBehind(k[1..], tail);
    }
  }

  /** A plain key and a colon, and then nothing or a blank, open that key. */
  lemma OpensKey(k: string, tail: string)
    requires PlainKey(k) && (tail == "" || IsBlank(tail[0]))
    ensures TopKey(k + ":" + tail) == [k]
  {
    KeyEndBehind(k, tail);
    assert (k + ":" + tail)[..|k|] == k;
    assert TrimRight(k, IsBlank) == k;
  }

  /** Comments and indented lines open nothing. */
  lemma MarginDecides(line: string)
    requires line == "" || line[0] == '#' || IsBlank(line[0])
    ensures TopKey(line) == []
  {
    var end := KeyEnd(line);
    if end.Some? {
      var k := TrimRight(line[..end.value], IsBlank);
      TrimRightIsPrefix(line[..end.value], IsBlank);
      assert k != "" ==> k[0] == line[0];
    }
  }

  /** Letters only. */
  predicate Word(k: string) {
    k != "" && |k| <= MAX_KEY && forall i :: 0 <= i < |k| ==> 'a' <= k[i] <= 'z' || 'A' <= k[i] <= 'Z'
  }

  lemma WordIsPlain(k: string)
    requires Word(k)
    ensures PlainKey(k)
  {
    assert 'a' <= k[0] <= 'z' || 'A' <= k[0] <= 'Z';
    assert 'a' <= k[|k| - 1] <= 'z' || 'A' <= k[|k| - 1] <= 'Z';
  }

  function LineKeys(lines: seq<string>): seq<string> {
    if lines == [] then [] else TopKey(lines[0]) + LineKeys(lines[1..])
  }

  function TopKeys(text: string): seq<string> {
    LineKeys(SplitOn(text, '\n'))
  }

  lemma {:induction false} LineKeysConcat(a: seq<string>, b: seq<string>)
    ensures LineKeys(a + b) == LineKeys(a) + LineKeys(b)
  {
    if a == [] {
      assert a + b == b;
    } else {
      assert (a + b)[1..] == a[1..] + b;
      LineKeysConcat(a[1..], b);
    }
  }

  /** Two texts with a newline between have the keys of both. */
  lemma KeysAcrossNewline(a: string, b: string)
    ensures TopKeys(a + "\n" + b) == TopKeys(a) + TopKeys(b)
  {
    SplitAt(a, '\n', b);
    LineKeysConcat(SplitOn(a, '\n'), SplitOn(b, '\n'));
  }

  lemma {:induction false} TrimKeepsKeys(text: string)
    ensures TopKeys(TrimRight(text, IsNewline)) == TopKeys(text)
  {
    if text != "" && IsNewline(text[|text| - 1]) {
      var rest := text[..|text| - 1];
      TrimKeepsKeys(rest);
      assert text == rest + "\n" + "";
      KeysAcrossNewline(rest, "");
      assert SplitOn("", '\n') == [""];
    }
  }

  /** Whatever the text, the keys it opens are plain ones. */
  lemma {:induction false} LineKeysArePlain(lines: seq<string>)
    ensures forall k :: k in LineKeys(lines) ==> PlainKey(k)
  {
    if lines != [] { LineKeysArePlain(lines[1..]); }
  }
}
