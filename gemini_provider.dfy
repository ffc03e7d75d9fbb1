/** The pure parts of the Gemini adapter (src/ai/gemini-provider.ts): the
    textual description of a zod schema that is put into the prompt
    (`describeZodType`, `describeZodSchema`), and the fallback that turns a
    non-JSON answer into an object (`createSimpleStructure`). */
module GeminiProvider {
  import opened Wrappers
  import opened Text
  import opened Sequences

  // ---------------------------------------------------------------------
  // Schemas
  // ---------------------------------------------------------------------

  /** A zod schema: its kind and its optional `.describe(...)` text. */
  datatype Schema = Schema(kind: Kind, description: Option<string>)

  /** The zod classes the adapter distinguishes; every other class (optional,
      union, enum, ...) is `ZOther`. */
  datatype Kind =
    | ZString
    | ZNumber
    | ZBoolean
    | ZArray(element: Schema)
    | ZObject(shape: seq<Field>)
    | ZOther

  /** One entry of an object's shape, in the shape's key order. */
  datatype Field = Field(key: string, schema: Schema)

  function Keys(shape: seq<Field>): seq<string> {
    seq(|shape|, i requires 0 <= i < |shape| => shape[i].key)
  }

  // ---------------------------------------------------------------------
  // describeZodType
  // ---------------------------------------------------------------------

  /** `describeZodType`. */
  function DescribeType(s: Schema): (r: string)
    ensures '\n' !in r
    decreases s
  {
    match s.kind
    case ZString => "\"string\""
    case ZNumber => "number"
    case ZBoolean => "boolean"
    case ZArray(element) => "array of " + DescribeType(element)
    case ZObject(_) => "object"
    case ZOther => "any"
  }

  /** What a type description can tell apart: the six outcomes, arrays
      nesting. */
  datatype TypeTag = TString | TNumber | TBoolean | TArrayOf(element: TypeTag) | TObject | TAny

  /** The tag of a schema: its kind, forgetting object shapes and
      descriptions. */
  function Tag(s: Schema): TypeTag
    decreases s
  {
    match s.kind
    case ZString => TString
    case ZNumber => TNumber
    case ZBoolean => TBoolean
    case ZArray(element) => TArrayOf(Tag(element))
    case ZObject(_) => TObject
    case ZOther => TAny
  }

  const ArrayPrefix := "array of "

  /** Reads a type description back. */
  function ParseType(t: string): Option<TypeTag>
    decreases |t|
  {
    if t == "\"string\"" then Some(TString)
    else if t == "number" then Some(TNumber)
    else if t == "boolean" then Some(TBoolean)
    else if t == "object" then Some(TObject)
    else if t == "any" then Some(TAny)
    else if StartsWith(t, ArrayPrefix) then
      match ParseType(t[|ArrayPrefix|..])
      case Some(e) => Some(TArrayOf(e))
      case None => None
    else None
  }

  /** The description of a schema determines its tag: string, number,
      boolean, object and any are told apart, and `array of` recurses on the
      element. */
  lemma {:induction false} DescribeTypeRoundTrip(s: Schema)
    ensures ParseType(DescribeType(s)) == Some(Tag(s))
    decreases s
  {
    match s.kind
    case ZArray(element) =>
      var t := DescribeType(s);
      DescribeTypeRoundTrip(element);
      assert t[|ArrayPrefix|..] == DescribeType(element);
    case _ =>
  }

  /** Hence two schemas with the same description have the same tag. */
  lemma DescribeTypeDeterminesTag(s1: Schema, s2: Schema)
    requires DescribeType(s1) == DescribeType(s2)
    ensures Tag(s1) == Tag(s2)
  {
    DescribeTypeRoundTrip(s1);
    DescribeTypeRoundTrip(s2);
  }

  // ---------------------------------------------------------------------
  // describeZodSchema
  // ---------------------------------------------------------------------

  /** `schema.description || ''`. */
  function DescriptionText(s: Schema): string {
    s.description.GetOr("")
  }

  /** One field of an object: four spaces, the quoted key, a colon and the
      type. */
  function FieldLine(f: Field): string {
    "    \"" + f.key + "\": " + DescribeType(f.schema)
  }

  function FieldLines(shape: seq<Field>): seq<string> {
    seq(|shape|, i requires 0 <= i < |shape| => FieldLine(shape[i]))
  }

  /** `describeZodSchema`. */
  function DescribeSchema(s: Schema): (r: string)
    ensures !s.kind.ZObject? && !s.kind.ZArray? ==> r == DescribeType(s)
  {
    match s.kind
    case ZObject(shape) =>
      "{\n" + Join(",\n", FieldLines(shape)) + "\n}\n\nDescription: " + DescriptionText(s)
    case ZArray(element) =>
      "[\n    " + DescribeType(element) + "\n]\n\nDescription: " + DescriptionText(s)
    case _ => DescribeType(s)
  }

  /** The lines between the braces of an object description: every field
      line but the last ends in a comma; an empty shape leaves one empty
      line. */
  function BodyLines(shape: seq<Field>): (lines: seq<string>)
    ensures |lines| >= 1
  {
    if |shape| == 0 then [""] else SuffixAllButLast(FieldLines(shape), ",")
  }

  lemma {:induction false} JoinAppend(c: char, a: seq<string>, b: seq<string>)
    requires |a| >= 1 && |b| >= 1
    ensures Join([c], a + b) == Join([c], a) + [c] + Join([c], b)
  {
    if |a| > 1 {
      JoinAppend(c, a[1..], b);
      assert (a + b)[1..] == a[1..] + b;
    } else {
      assert (a + b)[1..] == b;
    }
  }

  /** Joining five lines. */
  lemma Join5(c: char, a: string, b: string, d: string, e: string, f: string)
    ensures Join([c], [a, b, d, e, f]) == a + [c] + b + [c] + d + [c] + e + [c] + f
  {
    assert Join([c], [e, f]) == e + [c] + f by { assert [e, f][1..] == [f]; }
    assert Join([c], [d, e, f]) == d + [c] + Join([c], [e, f]) by { assert [d, e, f][1..] == [e, f]; }
    assert Join([c], [b, d, e, f]) == b + [c] + Join([c], [d, e, f]) by { assert [b, d, e, f][1..] == [d, e, f]; }
    assert Join([c], [a, b, d, e, f]) == a + [c] + Join([c], [b, d, e, f]) by { assert [a, b, d, e, f][1..] == [b, d, e, f]; }
  }

  /** The field list of an object description, joined by ",\n", is its body
      lines joined by line breaks. */
  lemma FieldsAsBodyLines(shape: seq<Field>)
    ensures Join(",\n", FieldLines(shape)) == Join("\n", BodyLines(shape))
  {
    if |shape| > 0 {
      assert ",\n" == "," + ['\n'];
      JoinLongSeparator(FieldLines(shape), ",", '\n');
      assert BodyLines(shape) == SuffixAllButLast(FieldLines(shape), ",");
    }
  }

  /** No body line holds a line break when no key does. */
  lemma BodyLinesSingle(shape: seq<Field>)
    requires forall i :: 0 <= i < |shape| ==> '\n' !in shape[i].key
    ensures forall i :: 0 <= i < |BodyLines(shape)| ==> '\n' !in BodyLines(shape)[i]
  {
    var body := BodyLines(shape);
    forall k | 0 <= k < |body| ensures '\n' !in body[k] {
      if |shape| > 0 {
        var line := FieldLine(shape[k]);
        assert line == "    \"" + shape[k].key + "\": " + DescribeType(shape[k].schema);
        assert body[k] == line || body[k] == line + ",";
      }
    }
  }

  /** Read line by line, an object description is the opening brace, one
      line per field in shape order (a comma after all but the last), the
      closing brace, an empty line and the description line, provided
      neither the keys nor the description contain a line break. */
  lemma DescribeObjectLines(s: Schema)
    requires s.kind.ZObject?
    requires forall i :: 0 <= i < |s.kind.shape| ==> '\n' !in s.kind.shape[i].key
    requires '\n' !in DescriptionText(s)
    ensures Split(DescribeSchema(s), '\n')
      == ["{"] + BodyLines(s.kind.shape) + ["}", "", "Description: " + DescriptionText(s)]
  {
    var shape := s.kind.shape;
    var body := BodyLines(shape);
    var all := ["{"] + body + ["}", "", "Description: " + DescriptionText(s)];
    DescribeObjectAsJoin(s);
    BodyLinesSingle(shape);
    assert forall i :: 0 <= i < |all| ==> '\n' !in all[i] by {
      forall i | 0 <= i < |all| ensures '\n' !in all[i] {
        if 1 <= i < 1 + |body| { assert all[i] == body[i - 1]; }
      }
    }
    SplitJoin(all, '\n');
  }

  /** The template literal of an object description, cut at its line
      breaks. */
  lemma ObjectTemplate(fields: string, desc: string)
    ensures "{\n" + fields + "\n}\n\nDescription: " + desc
      == "{" + "\n" + fields + "\n" + "}" + "\n" + "" + "\n" + ("Description: " + desc)
  {
    assert "{\n" == "{" + "\n";
    assert "\n}\n\nDescription: " == "\n" + "}" + "\n" + "" + "\n" + "Description: ";
  }

  /** The template literal of an array description, cut at its line
      breaks. */
  lemma ArrayTemplate(element: string, desc: string)
    ensures "[\n    " + element + "\n]\n\nDescription: " + desc
      == "[" + "\n" + ("    " + element) + "\n" + "]" + "\n" + "" + "\n" + ("Description: " + desc)
  {
    assert "[\n    " == "[" + "\n" + "    ";
    assert "\n]\n\nDescription: " == "\n" + "]" + "\n" + "" + "\n" + "Description: ";
  }

  lemma DescribeObjectAsJoin(s: Schema)
    requires s.kind.ZObject?
    ensures DescribeSchema(s)
      == Join("\n", ["{"] + BodyLines(s.kind.shape) + ["}", "", "Description: " + DescriptionText(s)])
  {
    var body := BodyLines(s.kind.shape);
    var fields := Join("\n", body);
    var d := "Description: " + DescriptionText(s);
    FieldsAsBodyLines(s.kind.shape);
    Join5('\n', "{", fields, "}", "", d);
    ObjectTemplate(fields, DescriptionText(s));
    JoinAppend('\n', ["{"], body);
    JoinAppend('\n', ["{"] + body, ["}", "", d]);
    JoinAppend('\n', ["{", fields], ["}", "", d]);
    assert Join("\n", ["{", fields]) == "{" + "\n" + fields by {
      assert ["{", fields][1..] == [fields];
    }
    assert ["{", fields] + ["}", "", d] == ["{", fields, "}", "", d];
  }

  /** An array description is the opening bracket, the indented element type,
      the closing bracket, an empty line and the description line. */
  lemma DescribeArrayLines(s: Schema)
    requires s.kind.ZArray?
    requires '\n' !in DescriptionText(s)
    ensures Split(DescribeSchema(s), '\n')
      == ["[", "    " + DescribeType(s.kind.element), "]", "", "Description: " + DescriptionText(s)]
  {
    var t := "    " + DescribeType(s.kind.element);
    var d := "Description: " + DescriptionText(s);
    Join5('\n', "[", t, "]", "", d);
    ArrayTemplate(DescribeType(s.kind.element), DescriptionText(s));
    SplitJoin(["[", t, "]", "", d], '\n');
  }

  // ---------------------------------------------------------------------
  // createSimpleStructure
  // ---------------------------------------------------------------------

  /** The objects the fallback builds: `{items: [...]}` for an array schema,
      otherwise an object of string fields. */
  datatype Structure = Items(items: seq<string>) | Fields(entries: map<string, string>)

  predicate IsBlank(line: string) {
    Trim(line) == ""
  }

  /** `parts.filter(line => line.trim())`, order kept. */
  function FilterNonBlank(parts: seq<string>): (lines: seq<string>)
    ensures |lines| <= |parts|
    ensures forall i :: 0 <= i < |lines| ==> !IsBlank(lines[i]) && lines[i] in parts
    ensures forall p :: p in parts && !IsBlank(p) ==> p in lines
    ensures (forall i :: 0 <= i < |parts| ==> !IsBlank(parts[i])) ==> lines == parts
  {
    if |parts| == 0 then []
    else
      var rest := FilterNonBlank(parts[1..]);
      assert parts == [parts[0]] + parts[1..];
      if IsBlank(parts[0]) then rest else [parts[0]] + rest
  }

  /** The filter works line by line: on two lists of lines it keeps the
      kept lines of the first, then those of the second. */
  lemma {:induction false} FilterNonBlankAppend(a: seq<string>, b: seq<string>)
    ensures FilterNonBlank(a + b) == FilterNonBlank(a) + FilterNonBlank(b)
  {
    if |a| == 0 {
      assert a + b == b;
    } else {
      assert (a + b)[0] == a[0];
      assert (a + b)[1..] == a[1..] + b;
      FilterNonBlankAppend(a[1..], b);
    }
  }

  /** A single line is kept exactly when it is not blank. */
  lemma FilterNonBlankSingle(line: string)
    ensures FilterNonBlank([line]) == if IsBlank(line) then [] else [line]
  {
    assert [line][1..] == [];
  }

  /** `text.split('\n').filter(line => line.trim())`. */
  function NonBlankLines(text: string): (lines: seq<string>)
    ensures forall i :: 0 <= i < |lines| ==> lines[i] != "" && !IsBlank(lines[i]) && '\n' !in lines[i]
    ensures forall l :: l in lines <==> l in Split(text, '\n') && !IsBlank(l)
  {
    var lines := FilterNonBlank(Split(text, '\n'));
    assert IsBlank("");
    lines
  }

  /** The lines of two texts joined by a line break are the lines of the
      first text, then those of the second. */
  lemma NonBlankLinesAppend(a: string, b: string)
    ensures NonBlankLines(a + "\n" + b) == NonBlankLines(a) + NonBlankLines(b)
  {
    assert a + "\n" + b == a + ['\n'] + b;
    SplitAppend(a, b, '\n');
    FilterNonBlankAppend(Split(a, '\n'), Split(b, '\n'));
  }

  /** A text without a line break is its own single line unless it is
      blank. */
  lemma NonBlankLinesSingle(line: string)
    requires '\n' !in line
    ensures NonBlankLines(line) == if IsBlank(line) then [] else [line]
  {
    SplitNoSeparator(line, '\n');
    FilterNonBlankSingle(line);
  }

  /** When the text has no blank line, joining its lines gives it back. */
  lemma NonBlankLinesOfSolidText(text: string)
    requires forall i :: 0 <= i < |Split(text, '\n')| ==> !IsBlank(Split(text, '\n')[i])
    ensures Join("\n", NonBlankLines(text)) == text
  {
    JoinSplit(text, '\n');
  }

  /** The one key a plain object does not store: assigning a string to
      `obj["__proto__"]` calls the inherited `__proto__` setter, which
      ignores a value that is not an object. */
  const ProtoKey := "__proto__"

  /** `obj[key] = value` on a plain object `{}`. */
  function SetField(obj: map<string, string>, key: string, value: string): (r: map<string, string>)
    ensures key == ProtoKey ==> r == obj
    ensures key != ProtoKey ==> r.Keys == obj.Keys + {key} && r[key] == value
    ensures forall k :: k in obj && k != key ==> k in r && r[k] == obj[k]
  {
    if key == ProtoKey then obj else obj[key := value]
  }

  /** `lines[index]` as JavaScript reads it: undefined past the end. */
  function LineAt(lines: seq<string>, index: nat): Option<string> {
    if index < |lines| then Some(lines[index]) else None
  }

  /** `Object.keys(shape).forEach((key, index) => { if (lines[index])
      obj[key] = lines[index]; })`, a left-to-right pass. */
  function AssignByIndex(keys: seq<string>, lines: seq<string>): (obj: map<string, string>)
    decreases |keys|
  {
    if |keys| == 0 then map[]
    else
      var n := |keys| - 1;
      var obj := AssignByIndex(keys[..n], lines);
      match LineAt(lines, n)
      case Some(line) => if line != "" then SetField(obj, keys[n], line) else obj
      case None => obj
  }

  /** With distinct keys and non-empty lines, the i-th key gets the i-th
      line, and exactly the first min(#keys, #lines) keys are present. */
  lemma {:induction false} AssignByIndexSpec(keys: seq<string>, lines: seq<string>)
    requires Distinct(keys)
    requires forall i :: 0 <= i < |lines| ==> lines[i] != ""
    ensures var obj := AssignByIndex(keys, lines);
      && (forall k :: k in obj <==> k != ProtoKey && exists i :: 0 <= i < |keys| && i < |lines| && keys[i] == k)
      && (forall i :: 0 <= i < |keys| && i < |lines| && keys[i] != ProtoKey ==> keys[i] in obj && obj[keys[i]] == lines[i])
  {
    if |keys| > 0 {
      var n := |keys| - 1;
      var init := keys[..n];
      assert Distinct(init) by {
        forall i, j | 0 <= i < j < |init| ensures init[i] != init[j] {
          assert init[i] == keys[i] && init[j] == keys[j];
        }
      }
      AssignByIndexSpec(init, lines);
      forall i | 0 <= i < n ensures keys[i] != keys[n] {
      }
      var prev := AssignByIndex(init, lines);
      var obj := AssignByIndex(keys, lines);
      if n < |lines| {
        assert obj == SetField(prev, keys[n], lines[n]);
      } else {
        assert obj == prev;
      }
      AssignByIndexStep(keys, lines, prev, obj);
    }
  }

  /** The inductive step of `AssignByIndexSpec`: one more key, assigned its
      line when there is one. */
  lemma AssignByIndexStep(keys: seq<string>, lines: seq<string>, prev: map<string, string>, obj: map<string, string>)
    requires |keys| > 0
    requires forall i :: 0 <= i < |keys| - 1 ==> keys[i] != keys[|keys| - 1]
    requires var n := |keys| - 1;
      && (forall k :: k in prev <==> k != ProtoKey && exists i :: 0 <= i < n && i < |lines| && keys[..n][i] == k)
      && (forall i :: 0 <= i < n && i < |lines| && keys[..n][i] != ProtoKey ==> keys[..n][i] in prev && prev[keys[..n][i]] == lines[i])
    requires var n := |keys| - 1; obj == if n < |lines| then SetField(prev, keys[n], lines[n]) else prev
    ensures forall k :: k in obj <==> k != ProtoKey && exists i :: 0 <= i < |keys| && i < |lines| && keys[i] == k
    ensures forall i :: 0 <= i < |keys| && i < |lines| && keys[i] != ProtoKey ==> keys[i] in obj && obj[keys[i]] == lines[i]
  {
    var n := |keys| - 1;
    assert forall i :: 0 <= i < n ==> keys[..n][i] == keys[i];
  }

  /** `const [key, ...values] = line.split(':'); if (key && values.length)
      obj[key.trim()] = values.join(':').trim();` as an optional entry. */
  function ParseKeyValue(line: string): Option<(string, string)> {
    var parts := Split(line, ':');
    var key := parts[0];
    var values := parts[1..];
    if key != "" && |values| > 0 then Some((Trim(key), Trim(Join(":", values)))) else None
  }

  /** The first piece of a split is the text before the first separator,
      and the others are the split of the text after it. */
  lemma {:induction false} SplitAtFirst(s: string, c: char)
    requires c in s
    ensures var i := FirstIndex(s, c);
      Split(s, c) == [s[..i]] + Split(s[i + 1..], c)
  {
    var i := FirstIndex(s, c);
    if i > 0 {
      SplitAtFirst(s[1..], c);
      assert FirstIndex(s[1..], c) == i - 1;
      assert s[1..][..i - 1] == s[1..i];
      assert s[1..][i..] == s[i + 1..];
      assert s[..i] == [s[0]] + s[1..i];
    }
  }

  /** The entry of a line: the text before the first colon, trimmed, and
      everything after it, later colons included, trimmed; no entry when
      the line has no colon or starts with one. */
  lemma ParseKeyValueIff(line: string)
    ensures ':' !in line ==> ParseKeyValue(line) == None
    ensures ':' in line ==>
      var i := FirstIndex(line, ':');
      ParseKeyValue(line) == if i == 0 then None else Some((Trim(line[..i]), Trim(line[i + 1..])))
  {
    if ':' in line {
      var i := FirstIndex(line, ':');
      var rest := line[i + 1..];
      SplitAtFirst(line, ':');
      var parts := Split(line, ':');
      assert parts[0] == line[..i];
      assert parts[1..] == Split(rest, ':');
      JoinSplit(rest, ':');
      assert ":" == [':'];
      assert Join(":", parts[1..]) == rest;
      assert |parts[1..]| >= 1;
      assert (parts[0] != "") == (i != 0);
    } else {
      SplitNoSeparator(line, ':');
    }
  }

  /** The key and the value of an entry are the text before and after the
      first colon with only whitespace dropped from their ends; the key may
      be empty (" :x" assigns to ""). */
  lemma ParseKeyValueTrimmed(line: string)
    requires ':' in line && FirstIndex(line, ':') > 0
    ensures ParseKeyValue(line).Some?
    ensures var i := FirstIndex(line, ':');
      var entry := ParseKeyValue(line).value;
      && TrimmedPiece(line[..i], entry.0)
      && TrimmedPiece(line[i + 1..], entry.1)
  {
    ParseKeyValueIff(line);
    var i := FirstIndex(line, ':');
    TrimIsSlice(line[..i]);
    TrimIsSlice(line[i + 1..]);
  }

  /** `t` is `s` with whitespace dropped from both ends and nothing else. */
  ghost predicate TrimmedPiece(s: string, t: string) {
    && (exists lo, hi ::
          && 0 <= lo <= hi <= |s| && t == s[lo..hi]
          && (forall j :: 0 <= j < lo ==> IsWhitespace(s[j]))
          && (forall j :: hi <= j < |s| ==> IsWhitespace(s[j])))
    && (t == [] || (!IsWhitespace(t[0]) && !IsWhitespace(t[|t| - 1])))
  }

  /** The entry each line yields, in line order. */
  function ParsedLines(lines: seq<string>): seq<Option<(string, string)>> {
    seq(|lines|, i requires 0 <= i < |lines| => ParseKeyValue(lines[i]))
  }

  /** The `forEach` of the key-value branch over the entries: assignments in
      order, a later entry overwriting an earlier one with the same key. */
  function Collect(entries: seq<Option<(string, string)>>): map<string, string>
    decreases |entries|
  {
    if |entries| == 0 then map[]
    else
      var n := |entries| - 1;
      var obj := Collect(entries[..n]);
      match entries[n]
      case Some(kv) => SetField(obj, kv.0, kv.1)
      case None => obj
  }

  function KeyValueEntries(lines: seq<string>): map<string, string> {
    Collect(ParsedLines(lines))
  }

  predicate HasKey(entry: Option<(string, string)>, k: string) {
    entry.Some? && entry.value.0 == k
  }

  /** A key is present exactly when some entry has it. */
  lemma {:induction false} CollectKeys(entries: seq<Option<(string, string)>>)
    ensures forall k :: k in Collect(entries) <==> k != ProtoKey && exists i :: 0 <= i < |entries| && HasKey(entries[i], k)
  {
    if |entries| > 0 {
      var n := |entries| - 1;
      CollectKeys(entries[..n]);
      assert forall i :: 0 <= i < n ==> entries[..n][i] == entries[i];
    }
  }

  /** Its value is that of the last entry with that key. */
  lemma {:induction false} CollectLastWins(entries: seq<Option<(string, string)>>, i: nat)
    requires i < |entries| && entries[i].Some?
    requires forall j :: i < j < |entries| ==> !HasKey(entries[j], entries[i].value.0)
    ensures entries[i].value.0 != ProtoKey ==>
      entries[i].value.0 in Collect(entries) && Collect(entries)[entries[i].value.0] == entries[i].value.1
  {
    var n := |entries| - 1;
    if i < n {
      assert entries[..n][i] == entries[i];
      CollectLastWins(entries[..n], i);
    }
  }

  /** `lines.some(line => line.includes(':'))`. */
  predicate AnyHasColon(lines: seq<string>) {
    exists i :: 0 <= i < |lines| && ':' in lines[i]
  }

  /** `createSimpleStructure(text, schema)`. */
  function CreateSimpleStructure(text: string, s: Schema): (r: Structure)
    ensures s.kind.ZArray? ==> r == Items(NonBlankLines(text))
    ensures !s.kind.ZArray? ==> r.Fields?
  {
    var lines := NonBlankLines(text);
    match s.kind
    case ZArray(_) => Items(lines)
    case ZObject(shape) => Fields(AssignByIndex(Keys(shape), lines))
    case _ =>
      if AnyHasColon(lines) then Fields(KeyValueEntries(lines))
      else Fields(map["text" := Join("\n", lines)])
  }

  /** For an object schema with distinct keys, the i-th key holds the i-th
      non-blank line and exactly the first min(#keys, #lines) keys are
      present. */
  lemma CreateSimpleStructureObject(text: string, s: Schema)
    requires s.kind.ZObject? && Distinct(Keys(s.kind.shape))
    ensures var lines := NonBlankLines(text);
      var keys := Keys(s.kind.shape);
      var obj := CreateSimpleStructure(text, s).entries;
      && (forall k :: k in obj <==> k != ProtoKey && exists i :: 0 <= i < |keys| && i < |lines| && keys[i] == k)
      && (forall i :: 0 <= i < |keys| && i < |lines| && keys[i] != ProtoKey ==> keys[i] in obj && obj[keys[i]] == lines[i])
  {
    var lines, keys := NonBlankLines(text), Keys(s.kind.shape);
    assert CreateSimpleStructure(text, s).entries == AssignByIndex(keys, lines);
    AssignByIndexSpec(keys, lines);
  }

  /** For any other schema, when some line has a colon: a key is present
      exactly when some line's entry has it (none when every colon line
      starts with ':', as ":x" does). */
  lemma CreateSimpleStructureKeyValue(text: string, s: Schema)
    requires !s.kind.ZArray? && !s.kind.ZObject?
    requires AnyHasColon(NonBlankLines(text))
    ensures var entries := ParsedLines(NonBlankLines(text));
      forall k :: k in CreateSimpleStructure(text, s).entries <==>
        k != ProtoKey && exists j :: 0 <= j < |entries| && HasKey(entries[j], k)
  {
    var entries := ParsedLines(NonBlankLines(text));
    assert CreateSimpleStructure(text, s) == Fields(Collect(entries));
    CollectKeys(entries);
  }

  /** For any other schema, when some line has a colon, a key holds the
      value of the last line whose entry has it. */
  lemma CreateSimpleStructureLastValue(text: string, s: Schema, i: nat)
    requires !s.kind.ZArray? && !s.kind.ZObject?
    requires AnyHasColon(NonBlankLines(text))
    requires var entries := ParsedLines(NonBlankLines(text));
      && i < |entries| && entries[i].Some?
      && forall j :: i < j < |entries| ==> !HasKey(entries[j], entries[i].value.0)
    ensures var entries := ParsedLines(NonBlankLines(text));
      var obj := CreateSimpleStructure(text, s).entries;
      entries[i].value.0 != ProtoKey ==> entries[i].value.0 in obj && obj[entries[i].value.0] == entries[i].value.1
  {
    var entries := ParsedLines(NonBlankLines(text));
    assert CreateSimpleStructure(text, s) == Fields(Collect(entries));
    CollectLastWins(entries, i);
  }

  /** The index pass never stores `__proto__`. */
  lemma {:induction false} AssignByIndexNoProto(keys: seq<string>, lines: seq<string>)
    ensures ProtoKey !in AssignByIndex(keys, lines)
    decreases |keys|
  {
    if |keys| > 0 {
      AssignByIndexNoProto(keys[..|keys| - 1], lines);
    }
  }

  /** Whatever the text and the schema, a fallback object has no
      `__proto__` field: a line "__proto__: x" or a shape key `__proto__`
      leaves the object as it was. */
  lemma CreateSimpleStructureNoProto(text: string, s: Schema)
    requires !s.kind.ZArray?
    ensures ProtoKey !in CreateSimpleStructure(text, s).entries
  {
    var lines := NonBlankLines(text);
    match s.kind
    case ZObject(shape) =>
      AssignByIndexNoProto(Keys(shape), lines);
    case _ =>
      CollectKeys(ParsedLines(lines));
  }

  /** For any other schema, when no line has a colon, the result is the
      single field `text` holding the non-blank lines joined by line breaks;
      that is the text itself when it has no blank line. */
  lemma CreateSimpleStructureText(text: string, s: Schema)
    requires !s.kind.ZArray? && !s.kind.ZObject?
    requires forall i :: 0 <= i < |Split(text, '\n')| ==> ':' !in Split(text, '\n')[i]
    ensures CreateSimpleStructure(text, s) == Fields(map["text" := Join("\n", NonBlankLines(text))])
    ensures (forall i :: 0 <= i < |Split(text, '\n')| ==> !IsBlank(Split(text, '\n')[i]))
      ==> CreateSimpleStructure(text, s) == Fields(map["text" := text])
  {
    var lines := NonBlankLines(text);
    forall i | 0 <= i < |lines| ensures ':' !in lines[i] {
      assert lines[i] in Split(text, '\n');
    }
    if forall i :: 0 <= i < |Split(text, '\n')| ==> !IsBlank(Split(text, '\n')[i]) {
      NonBlankLinesOfSolidText(text);
    }
  }
}
