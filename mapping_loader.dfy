/** The MCP alias tables (`MappingLoader`): two maps from Searge names to
    readable names, read from `fields.csv` and `methods.csv`. A file is the
    sequence of its lines; a file that cannot be opened is `None`. Each line
    after the header is a record `searge,name,...`; blank lines and records
    without two fields are skipped, every whitespace character is removed from
    both fields, records with an empty field are dropped, and a later record
    overwrites an earlier one with the same key. */
module Mappings {
  import opened Options

  /** The characters `isspace` accepts in the "C" locale. */
  predicate IsSpace(c: char) {
    c == ' ' || c == '\t' || c == '\n' || c == '\U{000B}' || c == '\U{000C}' || c == '\r'
  }

  predicate NoSpaces(s: string) {
    forall i :: 0 <= i < |s| ==> !IsSpace(s[i])
  }

  /** `s.erase(remove_if(s.begin(), s.end(), ::isspace), s.end())`. */
  function RemoveSpaces(s: string): (r: string)
    ensures NoSpaces(r)
    ensures |r| <= |s|
    ensures |s| == 1 ==> r == (if IsSpace(s[0]) then [] else s)
  {
    if s == [] then []
    else (if IsSpace(s[0]) then [] else [s[0]]) + RemoveSpaces(s[1..])
  }

  /** Removal works character by character, so it splits over concatenation. */
  lemma {:induction false} RemoveSpacesAppend(a: string, b: string)
    ensures RemoveSpaces(a + b) == RemoveSpaces(a) + RemoveSpaces(b)
    decreases |a|
  {
    if a != [] {
      var head := if IsSpace(a[0]) then [] else [a[0]];
      assert (a + b)[0] == a[0];
      assert (a + b)[1..] == a[1..] + b;
      assert RemoveSpaces(a + b) == head + RemoveSpaces(a[1..] + b);
      RemoveSpacesAppend(a[1..], b);
      assert RemoveSpaces(a) == head + RemoveSpaces(a[1..]);
    } else {
      assert a + b == b;
    }
  }

  /** A string without whitespace is left as it is, so removal is idempotent. */
  lemma {:induction false} RemoveSpacesKeepsClean(s: string)
    requires NoSpaces(s)
    ensures RemoveSpaces(s) == s
    decreases |s|
  {
    if s != [] {
      RemoveSpacesKeepsClean(s[1..]);
    }
  }

  /** An illustration of `RemoveSpacesAppend`: whitespace inside a field is
      removed too, not only at its ends. */
  lemma RemoveSpacesInside()
    ensures RemoveSpaces("a b\t") == "ab"
  {
  }

  /** The position of the first comma, or the length when there is none. */
  function FirstComma(s: string): (k: nat)
    ensures k <= |s| && ',' !in s[..k]
    ensures k < |s| ==> s[k] == ','
  {
    if s == [] then 0
    else if s[0] == ',' then 0
    else
      var k := FirstComma(s[1..]);
      assert s[..k + 1] == [s[0]] + s[1..][..k];
      k + 1
  }

  /** The first comma of `a + "," + b` is the one after `a`, when `a` has none. */
  lemma {:induction false} FirstCommaAfter(a: string, b: string)
    requires ',' !in a
    ensures FirstComma(a + [','] + b) == |a|
    decreases |a|
  {
    if a != [] {
      assert (a + [','] + b)[1..] == a[1..] + [','] + b;
      FirstCommaAfter(a[1..], b);
    }
  }

  /** `getline(ss, searge, ',') && getline(ss, name, ',')` on one line: the
      text before the first comma and the text after it up to the next comma.
      The first read fails on nothing; the second fails when the first comma
      is missing or ends the line, since nothing is then left to read. */
  function SplitRecord(line: string): (r: Option<(string, string)>)
    ensures r.Some? ==> ',' !in r.value.0 && ',' !in r.value.1
    ensures r.None? <==> FirstComma(line) + 1 >= |line|
  {
    var k := FirstComma(line);
    if k + 1 >= |line| then None
    else
      var rest := line[k + 1..];
      var j := FirstComma(rest);
      Some((line[..k], rest[..j]))
  }

  /** Only the first two fields are read: whatever follows the second one is
      ignored. */
  lemma SplitRecordFirstTwo(key: string, name: string, tail: string)
    requires ',' !in key && ',' !in name
    requires name + tail != []
    requires tail == [] || tail[0] == ','
    ensures SplitRecord(key + [','] + name + tail) == Some((key, name))
  {
    var line := key + [','] + name + tail;
    assert line == key + [','] + (name + tail);
    FirstCommaAfter(key, name + tail);
    var rest := line[|key| + 1..];
    assert rest == name + tail;
    if tail == [] {
      assert rest == name;
      FirstCommaNone(name);
    } else {
      assert rest == name + [','] + tail[1..];
      FirstCommaAfter(name, tail[1..]);
    }
    assert rest[..|name|] == name;
    assert line[..|key|] == key;
  }

  lemma {:induction false} FirstCommaNone(s: string)
    requires ',' !in s
    ensures FirstComma(s) == |s|
    decreases |s|
  {
    if s != [] {
      FirstCommaNone(s[1..]);
    }
  }

  /** A record as stored: both fields with whitespace removed, and nothing
      when either is then empty. */
  function ParseLine(line: string): (r: Option<(string, string)>)
    ensures r.Some? ==> r.value.0 != [] && r.value.1 != [] && NoSpaces(r.value.0) && NoSpaces(r.value.1)
  {
    match SplitRecord(line)
    case None => None
    case Some((searge, name)) =>
      var searge' := RemoveSpaces(searge);
      var name' := RemoveSpaces(name);
      if searge' == [] || name' == [] then None else Some((searge', name'))
  }

  /** Which record a line gives: for a comma-free key, the two fields of
      `key,name` with whitespace removed (anything after a second comma in
      `name` is not read). */
  lemma ParseLineRecord(key: string, name: string)
    requires ',' !in key && ',' !in name
    requires RemoveSpaces(key) != [] && RemoveSpaces(name) != []
    ensures ParseLine(key + [','] + name) == Some((RemoveSpaces(key), RemoveSpaces(name)))
  {
    assert key + [','] + name == key + [','] + name + [];
    SplitRecordFirstTwo(key, name, []);
  }

  /** One line after the header. */
  function ApplyLine(m: map<string, string>, line: string): map<string, string> {
    if line == [] then m
    else
      match ParseLine(line)
      case None => m
      case Some((searge, name)) => m[searge := name]
  }

  /** The lines after the header, applied in order. */
  function LoadLines(m: map<string, string>, lines: seq<string>): map<string, string>
    decreases |lines|
  {
    if lines == [] then m
    else ApplyLine(LoadLines(m, lines[..|lines| - 1]), lines[|lines| - 1])
  }

  /** A whole file: its first line is the header and is always discarded. */
  function LoadFile(m: map<string, string>, lines: seq<string>): map<string, string> {
    if lines == [] then m else LoadLines(m, lines[1..])
  }

  /** A stored key or value: non-empty and free of whitespace. */
  predicate Clean(s: string) {
    s != [] && NoSpaces(s)
  }

  predicate CleanMap(m: map<string, string>) {
    forall k :: k in m ==> Clean(k) && Clean(m[k])
  }

  /** Loading keeps every stored key and value clean. */
  lemma {:induction false} LoadLinesClean(m: map<string, string>, lines: seq<string>)
    requires CleanMap(m)
    ensures CleanMap(LoadLines(m, lines))
    decreases |lines|
  {
    if lines != [] {
      LoadLinesClean(m, lines[..|lines| - 1]);
    }
  }

  /** `line` is a stored record with key `k`. */
  predicate RecordFor(line: string, k: string) {
    line != [] && ParseLine(line).Some? && ParseLine(line).value.0 == k
  }

  /** Each line adds at most one key and none is ever removed. */
  lemma {:induction false} LoadLinesCount(m: map<string, string>, lines: seq<string>)
    ensures |m| <= |LoadLines(m, lines)| <= |m| + |lines|
    decreases |lines|
  {
    if lines != [] {
      var front := lines[..|lines| - 1];
      LoadLinesCount(m, front);
      var before := LoadLines(m, front);
      var line := lines[|lines| - 1];
      if line != [] && ParseLine(line).Some? {
        var (k, v) := ParseLine(line).value;
        assert LoadLines(m, lines) == before[k := v];
        if k in before {
          assert before[k := v].Keys == before.Keys;
        } else {
          assert before[k := v].Keys == before.Keys + {k};
        }
      }
    }
  }

  /** A key is present after loading exactly when it was present before or
      some line is a record with that key. */
  lemma {:induction false} LoadLinesKeys(m: map<string, string>, lines: seq<string>, k: string)
    ensures k in LoadLines(m, lines) <==>
      k in m || exists i :: 0 <= i < |lines| && RecordFor(lines[i], k)
    decreases |lines|
  {
    if lines != [] {
      var n := |lines| - 1;
      var front := lines[..n];
      LoadLinesKeys(m, front, k);
      assert LoadLines(m, lines) == ApplyLine(LoadLines(m, front), lines[n]);
      if exists i :: 0 <= i < n && RecordFor(front[i], k) {
        var i :| 0 <= i < n && RecordFor(front[i], k);
        assert lines[i] == front[i];
      }
      if exists i :: 0 <= i < |lines| && RecordFor(lines[i], k) {
        var i :| 0 <= i < |lines| && RecordFor(lines[i], k);
        if i < n {
          assert front[i] == lines[i];
        }
      }
    }
  }

  /** The value of a key is the one from the last record with that key. */
  lemma {:induction false} LoadLinesLastWins(m: map<string, string>, lines: seq<string>, i: nat, k: string, v: string)
    requires i < |lines| && lines[i] != [] && ParseLine(lines[i]) == Some((k, v))
    requires forall j :: i < j < |lines| && lines[j] != [] && ParseLine(lines[j]).Some? ==> ParseLine(lines[j]).value.0 != k
    ensures k in LoadLines(m, lines) && LoadLines(m, lines)[k] == v
    decreases |lines|
  {
    var n := |lines| - 1;
    var front := lines[..n];
    if i < n {
      assert front[i] == lines[i];
      assert forall j :: i < j < |front| ==> front[j] == lines[j];
      LoadLinesLastWins(m, front, i, k, v);
    }
  }

  /** A key that no line records keeps the value it had before loading. */
  lemma {:induction false} LoadLinesUntouched(m: map<string, string>, lines: seq<string>, k: string)
    requires k in m
    requires forall i :: 0 <= i < |lines| ==> !RecordFor(lines[i], k)
    ensures k in LoadLines(m, lines) && LoadLines(m, lines)[k] == m[k]
    decreases |lines|
  {
    if lines != [] {
      var n := |lines| - 1;
      var front := lines[..n];
      assert forall i :: 0 <= i < |front| ==> front[i] == lines[i];
      LoadLinesUntouched(m, front, k);
      assert !RecordFor(lines[n], k);
    }
  }

  /** A blank line changes nothing wherever it occurs. */
  lemma {:induction false} LoadLinesSkipsBlank(m: map<string, string>, before: seq<string>, after: seq<string>)
    ensures LoadLines(m, before + [""] + after) == LoadLines(m, before + after)
    decreases |after|
  {
    if after == [] {
      assert (before + [""] + after)[..|before|] == before;
      assert before + after == before;
    } else {
      var n := |after| - 1;
      var x := before + [""] + after;
      var y := before + after;
      assert x[..|x| - 1] == before + [""] + after[..n];
      assert y[..|y| - 1] == before + after[..n];
      LoadLinesSkipsBlank(m, before, after[..n]);
    }
  }

  /** An illustration of `LoadFile`: the header is discarded even when it is
      itself a valid record. */
  lemma HeaderDiscarded()
    ensures LoadFile(map[], ["a,b", "c,d"]) == map["c" := "d"]
  {
    var lines := ["a,b", "c,d"];
    assert lines[1..] == ["c,d"];
    assert ["c,d"][..0] == [];
    SplitRecordFirstTwo("c", "d", "");
    RemoveSpacesKeepsClean("c");
    RemoveSpacesKeepsClean("d");
  }

  /** The loop of `loadFieldMappings` / `loadMethodMappings` over the lines of
      an opened file, inserting into `m`. */
  method ReadMappings(lines: seq<string>, m: map<string, string>) returns (result: map<string, string>)
    ensures result == LoadFile(m, lines)
  {
    result := m;
    var firstLine := true;
    var i := 0;
    while i < |lines|
      invariant 0 <= i <= |lines|
      invariant firstLine <==> i == 0
      invariant result == if i == 0 then m else LoadLines(m, lines[1..i])
    {
      var line := lines[i];
      if firstLine {
        firstLine := false;
        i := i + 1;
        assert lines[1..i] == [];
        continue;
      }
      assert lines[1..i + 1][..i - 1] == lines[1..i];
      assert LoadLines(m, lines[1..i + 1]) == ApplyLine(result, line);
      if line == [] {
        i := i + 1;
        continue;
      }
      var record := SplitRecord(line);
      if record.Some? {
        var searge := RemoveSpaces(record.value.0);
        var name := RemoveSpaces(record.value.1);
        if searge != [] && name != [] {
          result := result[searge := name];
        }
      }
      i := i + 1;
    }
    if |lines| > 0 {
      assert lines[1..|lines|] == lines[1..];
    }
  }

  /** The directory `initialize` reads from. */
  function BaseDir(mappingsDir: string): string {
    if mappingsDir == [] then "src/mappings" else mappingsDir
  }

  function FieldsPath(mappingsDir: string): string {
    BaseDir(mappingsDir) + "/fields.csv"
  }

  function MethodsPath(mappingsDir: string): string {
    BaseDir(mappingsDir) + "/methods.csv"
  }

  /** Opening a file: its lines when it exists. */
  function Open(files: map<string, seq<string>>, path: string): Option<seq<string>> {
    if path in files then Some(files[path]) else None
  }

  /** A table loaded from a file that may be missing: a missing file leaves
      the table as it was. */
  function LoadOptional(m: map<string, string>, file: Option<seq<string>>): map<string, string> {
    if file.None? then m else LoadFile(m, file.value)
  }

  class MappingLoader {
    var fieldMappings: map<string, string>
    var methodMappings: map<string, string>
    var initialized: bool

    /** Every stored key and value is non-empty and free of whitespace. */
    ghost predicate Valid()
      reads this
    {
      CleanMap(fieldMappings) && CleanMap(methodMappings)
    }

    constructor ()
      ensures Valid() && fieldMappings == map[] && methodMappings == map[] && !initialized
    {
      fieldMappings := map[];
      methodMappings := map[];
      initialized := false;
    }

    /** `initialize`: once initialized nothing changes; otherwise both tables
        are loaded from `<dir>/fields.csv` and `<dir>/methods.csv` (with
        `src/mappings` for an empty directory), a missing file is tolerated,
        and the result is always true. */
    method Initialize(mappingsDir: string, files: map<string, seq<string>>) returns (ok: bool)
      requires Valid()
      modifies this
      ensures Valid() && ok && initialized
      ensures old(initialized) ==> fieldMappings == old(fieldMappings) && methodMappings == old(methodMappings)
      ensures !old(initialized) ==>
        && fieldMappings == LoadOptional(old(fieldMappings), Open(files, FieldsPath(mappingsDir)))
        && methodMappings == LoadOptional(old(methodMappings), Open(files, MethodsPath(mappingsDir)))
    {
      if initialized {
        return true;
      }
      var baseDir := mappingsDir;
      if baseDir == [] {
        baseDir := "src/mappings";
      }
      var fieldsPath := baseDir + "/fields.csv";
      var methodsPath := baseDir + "/methods.csv";
      var _ := LoadFieldMappings(Open(files, fieldsPath));
      var _ := LoadMethodMappings(Open(files, methodsPath));
      initialized := true;
      return true;
    }

    /** `loadFieldMappings`: false when the file cannot be opened; the method
        table is never touched. */
    method LoadFieldMappings(file: Option<seq<string>>) returns (ok: bool)
      requires Valid()
      modifies this`fieldMappings
      ensures Valid()
      ensures ok <==> file.Some?
      ensures fieldMappings == LoadOptional(old(fieldMappings), file)
    {
      if file.None? {
        return false;
      }
      fieldMappings := ReadMappings(file.value, fieldMappings);
      LoadLinesClean(old(fieldMappings), if file.value == [] then [] else file.value[1..]);
      return true;
    }

    /** `loadMethodMappings`: the same parser, into the method table; the
        field table is never touched. */
    method LoadMethodMappings(file: Option<seq<string>>) returns (ok: bool)
      requires Valid()
      modifies this`methodMappings
      ensures Valid()
      ensures ok <==> file.Some?
      ensures methodMappings == LoadOptional(old(methodMappings), file)
    {
      if file.None? {
        return false;
      }
      methodMappings := ReadMappings(file.value, methodMappings);
      LoadLinesClean(old(methodMappings), if file.value == [] then [] else file.value[1..]);
      return true;
    }

    /** `getFieldName`: the stored name, or `""` for an unknown key. */
    function GetFieldName(seargeName: string): (r: string)
      reads this
      ensures seargeName in fieldMappings ==> r == fieldMappings[seargeName]
      ensures seargeName !in fieldMappings ==> r == ""
    {
      if seargeName in fieldMappings then fieldMappings[seargeName] else ""
    }

    function GetMethodName(seargeName: string): (r: string)
      reads this
      ensures seargeName in methodMappings ==> r == methodMappings[seargeName]
      ensures seargeName !in methodMappings ==> r == ""
    {
      if seargeName in methodMappings then methodMappings[seargeName] else ""
    }

    /** `hasFieldMapping`; since stored names are never empty, it agrees with
        a non-empty `getFieldName`. */
    function HasFieldMapping(seargeName: string): (r: bool)
      reads this
      ensures r <==> seargeName in fieldMappings
      ensures Valid() ==> (r <==> GetFieldName(seargeName) != "")
    {
      seargeName in fieldMappings
    }

    function HasMethodMapping(seargeName: string): (r: bool)
      reads this
      ensures r <==> seargeName in methodMappings
      ensures Valid() ==> (r <==> GetMethodName(seargeName) != "")
    {
      seargeName in methodMappings
    }

    function GetFieldMappingCount(): (n: nat)
      reads this
      ensures n == |fieldMappings|
    {
      |fieldMappings|
    }

    function GetMethodMappingCount(): (n: nat)
      reads this
      ensures n == |methodMappings|
    {
      |methodMappings|
    }
  }
}
