/**
  The chart object BuildChart mutates: template and extra files rewritten in
  place, and values.yaml held twice, as source text (what is saved) and parsed
  (what renders).
*/
module ChartObject {
  import opened Prelude
  import opened Text
  import opened Replacing
  import opened ValuesText

  const VALUES_FILE := "values.yaml"

  /** Parsed values by top-level key; the YAML parser is a parameter. */
  type Values = map<string, string>
  type Parser = string -> Option<Values>

  class File {
    const name: string
    var data: string

    constructor (name: string, data: string)
      ensures this.name == name && this.data == data
    {
      this.name, this.data := name, data;
    }
  }

  /** The text of the first file of that name, "" if there is none. */
  function TextOf(fs: seq<File>, name: string): string
    reads fs
  {
    if fs == [] then "" else if fs[0].name == name then fs[0].data else TextOf(fs[1..], name)
  }

  lemma {:induction false} TextOfIs(fs: seq<File>, name: string, text: string)
    requires forall f :: f in fs && f.name == name ==> f.data == text
    requires exists f :: f in fs && f.name == name
    ensures TextOf(fs, name) == text
  {
    var f :| f in fs && f.name == name;
    if fs[0].name == name {
      assert fs[0] in fs;
    } else {
      assert f in fs[1..];
      TextOfIs(fs[1..], name, text);
    }
  }

  /** Rewrite each file's data, as both renamers do for templates and for files. */
  method RewriteFiles(fs: seq<File>, swaps: seq<Swap>)
    requires Distinct(fs) && Proper(swaps)
    modifies fs
    ensures forall f :: f in fs ==> f.data == Replaced(old(f.data), swaps)
  {
    for i := 0 to |fs|
      invariant forall j :: 0 <= j < i ==> fs[j].data == Replaced(old(fs[j].data), swaps)
      invariant forall j :: i <= j < |fs| ==> fs[j].data == old(fs[j].data)
    {
      fs[i].data := Replaced(fs[i].data, swaps);
    }
  }

  /** Put text into every file of that name. */
  method Overwrite(fs: seq<File>, name: string, text: string) returns (found: bool)
    requires Distinct(fs)
    modifies fs
    ensures found <==> exists f :: f in fs && f.name == name
    ensures forall f :: f in fs ==> f.data == if f.name == name then text else old(f.data)
  {
    found := false;
    for i := 0 to |fs|
      invariant found <==> exists j :: 0 <= j < i && fs[j].name == name
      invariant forall j :: 0 <= j < i ==> fs[j].data == if fs[j].name == name then text else old(fs[j].data)
      invariant forall j :: i <= j < |fs| ==> fs[j].data == old(fs[j].data)
    {
      if fs[i].name == name {
        fs[i].data := text;
        found := true;
      }
    }
  }

  class Chart {
    var name: string
    var templates: seq<File>
    var files: seq<File>
    var raw: seq<File>
    var values: Values

    constructor (name: string, templates: seq<File>, files: seq<File>, raw: seq<File>, values: Values)
      ensures this.name == name && this.templates == templates && this.files == files
      ensures this.raw == raw && this.values == values
    {
      this.name, this.templates, this.files, this.raw, this.values := name, templates, files, raw, values;
    }

    /** No file object stands in two places. */
    ghost predicate Valid()
      reads this
    {
      Distinct(templates) && Distinct(files) && Distinct(raw)
      && (forall f :: f in raw ==> f !in templates && f !in files) && (forall f :: f in files ==> f !in templates)
    }

    function RawValues(): string
      reads this`raw, raw
    {
      TextOf(raw, VALUES_FILE)
    }

    /** What is saved parses to what renders. */
    ghost predicate Coherent(parse: Parser)
      reads this`raw, this`values, raw
    {
      parse(RawValues()) == Some(values)
    }

    /** setValues: both copies change, or, if the text does not parse, neither does. */
    method SetValues(parse: Parser, text: string) returns (ok: bool)
      requires Valid()
      modifies this`raw, this`values, raw
      ensures Valid() && ok == parse(text).Some? && name == old(name)
      ensures ok ==> Coherent(parse) && RawValues() == text
      ensures !ok ==> unchanged(this) && unchanged(raw)
      ensures forall i :: 0 <= i < |raw| ==> raw[i] in old(raw) || fresh(raw[i])
      ensures forall f :: f in old(raw) && f.name != VALUES_FILE ==> f in raw && f.data == old(f.data)
    {
      var vals := parse(text);
      if vals.None? { return false; }
      var found := Overwrite(raw, VALUES_FILE, text);
      if !found {
        var f := new File(VALUES_FILE, text);
        raw := raw + [f];
        assert f in raw;
      }
      values := vals.value;
      TextOfIs(raw, VALUES_FILE, text);
      return true;
    }

    /** appendValues */
    method AppendValues(parse: Parser, block: string) returns (ok: bool)
      requires Valid() && Coherent(parse)
      modifies this`raw, this`values, raw
      ensures Valid() && Coherent(parse) && name == old(name)
      ensures ok == parse(Appended(old(RawValues()), block)).Some?
      ensures RawValues() == if ok then Appended(old(RawValues()), block) else old(RawValues())
      ensures forall i :: 0 <= i < |raw| ==> raw[i] in old(raw) || fresh(raw[i])
    {
      var cur := TrimRight(RawValues(), IsNewline);
      ok := SetValues(parse, cur + "\n\n" + TrimRight(block, IsNewline) + "\n");
    }

    /** renameChart: metadata, templates and files; the values text is left for setValues to replace. */
    method RenameChart(parse: Parser, newName: string)
      requires Valid() && Coherent(parse)
      requires name != "" && '"' !in name && '"' !in newName
      modifies this`name, templates, files
      ensures name == newName && Valid() && Coherent(parse) && RawValues() == old(RawValues())
      ensures forall f :: f in templates + files ==> f.data == ReplaceAll(old(f.data), old(name), newName)
    {
      var was := name;
      name := newName;
      RewriteFiles(templates, [Swap(was, newName)]);
      RewriteFiles(files, [Swap(was, newName)]);
      RawIsApart();
    }

    twostate lemma RawIsApart()
      requires raw == old(raw) && forall f :: f in raw ==> f.data == old(f.data)
      ensures RawValues() == old(RawValues())
    {
      SameText(raw);
    }

    static twostate lemma SameText(fs: seq<File>)
      requires forall f :: f in fs ==> f.data == old(f.data)
      ensures TextOf(fs, VALUES_FILE) == old(TextOf(fs, VALUES_FILE))
    {
      if fs != [] { SameText(fs[1..]); }
    }

    /** replacePlaceholders: the values text follows if the result still parses, and is left alone if not. */
    method ReplacePlaceholders(parse: Parser, swaps: seq<Swap>)
      requires Valid() && Coherent(parse) && Proper(swaps)
      modifies this`raw, this`values, templates, files, raw
      ensures Valid() && Coherent(parse)
      ensures templates == old(templates) && files == old(files) && name == old(name)
      ensures forall f :: f in templates ==> f.data == Replaced(old(f.data), swaps)
      ensures forall f :: f in files ==> f.data == Replaced(old(f.data), swaps)
      ensures var text := old(RawValues());
              RawValues() == if parse(Replaced(text, swaps)).Some? then Replaced(text, swaps) else text
      ensures forall i :: 0 <= i < |raw| ==> raw[i] in old(raw) || fresh(raw[i])
    {
      RewriteFiles(templates, swaps);
      RewriteFiles(files, swaps);
      RawIsApart();
      var txt := RawValues();
      if txt != "" {
        var replaced := Replaced(txt, swaps);
        if replaced != txt {
          var ok := SetValues(parse, replaced);
        }
      }
    }
  }
}
