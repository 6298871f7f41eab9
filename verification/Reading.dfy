/** Reading a tool's entry back: what its two lines say of the tool's schemas. */
module Reading {
  import opened Text
  import opened Values
  import opened Downstream
  import opened Rendering

  // ---------------------------------------------------------------------
  // The reader
  // ---------------------------------------------------------------------

  /** One property as an entry shows it. */
  datatype Field = Field(name: string, optional: bool, ty: Option<string>)

  /** How much of `s` comes before the first of `marks`. */
  function Until(s: string, marks: set<char>): (n: nat)
    ensures n <= |s|
  {
    if s == [] || s[0] in marks then 0 else 1 + Until(s[1..], marks)
  }

  /** How much of `s` comes after its last comma. */
  function AfterComma(s: string): (n: nat)
    ensures n <= |s|
  {
    if s == [] || s[|s| - 1] == ',' then 0 else 1 + AfterComma(s[..|s| - 1])
  }

  /** The parts of a list with `, ` between them. */
  function Parts(s: string): seq<string>
    decreases |s|
  {
    var n := AfterComma(s);
    if n == 0 || n == |s| then [s] else Parts(s[..|s| - n - 1]) + [s[|s| - n + 1..]]
  }

  /** A name, a `?` if it is optional, and `: ` before its type if it has one. */
  function ReadField(s: string): Field
  {
    var n := Until(s, {'?', ':'});
    var optional := "?" <= s[n..];
    var rest := if optional then s[n + 1..] else s[n..];
    Field(s[..n], optional, if ": " <= rest then Some(rest[2..]) else None)
  }

  function ReadEach(parts: seq<string>): (fields: seq<Field>)
    ensures |fields| == |parts| && forall i | 0 <= i < |parts| :: fields[i] == ReadField(parts[i])
  {
    seq(|parts|, i requires 0 <= i < |parts| => ReadField(parts[i]))
  }

  /** Fields in braces, or `empty` for none. */
  function ReadFields(s: string, empty: string): Option<seq<Field>>
  {
    if s == empty then Some([])
    else if |s| < 4 || s[..2] != "{ " || s[|s| - 2..] != " }" then None
    else Some(ReadEach(Parts(s[2..|s| - 2])))
  }

  const RESULT := " -> table"

  /** The name called and the arguments it takes. */
  function ReadSignature(line: string): Option<(string, seq<Field>)>
  {
    var n := Until(line, {'{'});
    if |line| < n + |RESULT| || line[|line| - |RESULT|..] != RESULT then None
    else
      match ReadFields(line[n..|line| - |RESULT|], "{}")
      case Some(fields) => Some((line[..n], fields))
      case None => None
  }

  // ---------------------------------------------------------------------
  // What an entry should say
  // ---------------------------------------------------------------------

  predicate Readable(name: string)
  {
    forall c | c in name :: c !in {'?', ':', ',', '{', '\n'}
  }

  /** No name in the tool's entry has a character that ends one. */
  ghost predicate ReadableTool(t: ToolSchema)
  {
    && Readable(QualifiedName(t))
    && (forall name | name in PropertyMap(t.input) :: Readable(name))
    && (t.output.Some? ==> forall name | name in PropertyMap(t.output.value) :: Readable(name))
  }

  /** The fields are the schema's properties in name order; with `marked`, those
      the schema does not require are optional. */
  ghost predicate Lists(fields: seq<Field>, schema: Json, ty: Json -> Option<string>, marked: bool)
  {
    var names := InOrder(PropertyMap(schema).Keys);
    && |fields| == |names|
    && forall i | 0 <= i < |names| ::
         fields[i] == Field(names[i], marked && !IsRequired(schema, names[i]), ty(PropertyMap(schema)[names[i]]))
  }

  /** The words told are the description's own, but for the dots at its end. */
  ghost predicate Retold(told: string, description: string)
  {
    && (told == "" || told[|told| - 1] != '.')
    && exists dots: string :: (forall c | c in dots :: c == '.') && Words(told + dots) == Words(description)
  }

  ghost predicate Noted(note: string, schema: Json)
  {
    match FixedActorNote(schema)
    case None => note == ""
    case Some(missing) => " There is no `" + missing + "` argument: the account this acts as" <= note
  }

  // ---------------------------------------------------------------------
  // Reading back what is written
  // ---------------------------------------------------------------------

  lemma {:induction false} UntilStops(a: string, b: string, marks: set<char>)
    requires forall c | c in a :: c !in marks
    requires b == "" || b[0] in marks
    ensures Until(a + b, marks) == |a|
  {
    if a == [] {
      assert a + b == b;
    } else {
      UntilStops(a[1..], b, marks);
      assert (a + b)[1..] == a[1..] + b;
    }
  }

  lemma {:induction false} NoComma(s: string)
    requires ',' !in s
    ensures AfterComma(s) == |s|
  {
    if s != [] {
      NoComma(s[..|s| - 1]);
    }
  }

  lemma {:induction false} CommaStops(a: string, b: string)
    requires ',' !in b
    ensures AfterComma(a + "," + b) == |b|
  {
    var s := a + "," + b;
    if b == [] {
      assert s == a + ",";
    } else {
      CommaStops(a, b[..|b| - 1]);
      assert s[..|s| - 1] == a + "," + b[..|b| - 1];
    }
  }

  lemma PartsStep(a: string, last: string)
    requires ',' !in last
    ensures Parts(a + ", " + last) == Parts(a) + [last]
  {
    var s, tail := a + ", " + last, " " + last;
    assert s == a + "," + tail;
    CommaStops(a, tail);
    assert s[..|s| - |tail| - 1] == a && s[|s| - |tail| + 1..] == last;
  }

  lemma {:induction false} PartsOfJoin(parts: seq<string>)
    requires parts != [] && forall i | 0 <= i < |parts| :: ',' !in parts[i]
    ensures Parts(Join(parts, ", ")) == parts
  {
    if |parts| == 1 {
      NoComma(parts[0]);
    } else {
      var front, last := parts[..|parts| - 1], parts[|parts| - 1];
      PartsOfJoin(front);
      PartsStep(Join(front, ", "), last);
      assert Join(parts, ", ") == Join(front, ", ") + ", " + last;
      assert parts == front + [last];
    }
  }

  lemma FieldReads(name: string, optional: bool, ty: Option<string>)
    requires Readable(name)
    ensures ReadField(Typed(name + (if optional then "?" else ""), ty)) == Field(name, optional, ty)
  {
    var mark := if optional then "?" else "";
    var tail := if ty.Some? then ": " + ty.value else "";
    var s := Typed(name + mark, ty);
    assert s == name + (mark + tail);
    UntilStops(name, mark + tail, {'?', ':'});
    assert s[..|name|] == name && s[|name|..] == mark + tail;
    assert optional ==> s[|name| + 1..] == tail;
    assert !optional ==> mark + tail == tail;
    assert ty.Some? ==> tail[2..] == ty.value;
  }

  lemma TypesHaveNoComma(schema: Json)
    ensures ArgumentType(schema).Some? ==> ',' !in ArgumentType(schema).value
    ensures ReturnType(schema).Some? ==> ',' !in ReturnType(schema).value
  {
  }

  lemma ArgumentReads(p: Property)
    requires Readable(p.name)
    ensures ',' !in ArgumentField(p) && ReadField(ArgumentField(p)) == Field(p.name, !p.required, ArgumentType(p.schema))
  {
    FieldReads(p.name, !p.required, ArgumentType(p.schema));
    TypesHaveNoComma(p.schema);
  }

  lemma ReturnReads(p: Property)
    requires Readable(p.name)
    ensures ',' !in ReturnField(p) && ReadField(ReturnField(p)) == Field(p.name, false, ReturnType(p.schema))
  {
    FieldReads(p.name, false, ReturnType(p.schema));
    assert p.name + "" == p.name;
    TypesHaveNoComma(p.schema);
  }

  lemma BracesRead(parts: seq<string>, empty: string)
    requires parts != [] && forall part | part in parts :: ',' !in part
    requires empty == "" || empty[0] != '{' || empty == "{}"
    ensures ReadFields("{ " + Join(parts, ", ") + " }", empty) == Some(ReadEach(parts))
  {
    var inner := Join(parts, ", ");
    var s := "{ " + inner + " }";
    assert s[0] == '{' && |s| == |inner| + 4;
    assert s[..2] == "{ " && s[|s| - 2..] == " }" && s[2..|s| - 2] == inner;
    PartsOfJoin(parts);
  }

  lemma ReadableProperties(schema: Json)
    requires forall name | name in PropertyMap(schema) :: Readable(name)
    ensures forall p | p in Properties(schema) :: Readable(p.name)
  {
    var names, props := InOrder(PropertyMap(schema).Keys), Properties(schema);
    forall p | p in props ensures Readable(p.name) {
      var i :| 0 <= i < |props| && props[i] == p;
      assert p.name == names[i] && names[i] in names;
    }
  }

  lemma ArgumentsListed(schema: Json)
    requires forall name | name in PropertyMap(schema) :: Readable(name)
    ensures var parts := Fields(ArgumentField, Properties(schema));
            && (forall part | part in parts :: ',' !in part)
            && Lists(ReadEach(parts), schema, ArgumentType, true)
  {
    ReadableProperties(schema);
    var names, props := InOrder(PropertyMap(schema).Keys), Properties(schema);
    var parts := Fields(ArgumentField, props);
    forall i | 0 <= i < |props|
      ensures ',' !in parts[i]
      ensures ReadField(parts[i])
              == Field(names[i], !IsRequired(schema, names[i]), ArgumentType(PropertyMap(schema)[names[i]]))
    {
      assert props[i] in props && names[i] in names;
      ArgumentReads(props[i]);
    }
  }

  lemma ReturnsListed(schema: Json)
    requires forall name | name in PropertyMap(schema) :: Readable(name)
    ensures var parts := Fields(ReturnField, Properties(schema));
            && (forall part | part in parts :: ',' !in part)
            && Lists(ReadEach(parts), schema, ReturnType, false)
  {
    ReadableProperties(schema);
    var names, props := InOrder(PropertyMap(schema).Keys), Properties(schema);
    var parts := Fields(ReturnField, props);
    forall i | 0 <= i < |props|
      ensures ',' !in parts[i]
      ensures ReadField(parts[i]) == Field(names[i], false, ReturnType(PropertyMap(schema)[names[i]]))
    {
      assert props[i] in props && names[i] in names;
      ReturnReads(props[i]);
    }
  }

  lemma Three(a: string, b: string, c: string)
    ensures var s := a + b + c;
            && s == a + (b + c) && a + b <= s && s[..|a|] == a
            && s[|a|..|s| - |c|] == b && s[|s| - |c|..] == c
  {
  }

  lemma SignatureParts(name: string, braces: string)
    requires Readable(name) && braces != "" && braces[0] == '{' && ReadFields(braces, "{}").Some?
    ensures ReadSignature(name + braces + RESULT) == Some((name, ReadFields(braces, "{}").value))
  {
    Three(name, braces, RESULT);
    assert (braces + RESULT)[0] == '{';
    UntilStops(name, braces + RESULT, {'{'});
  }

  lemma BracesList(schema: Json)
    requires forall name | name in PropertyMap(schema) :: Readable(name)
    ensures var parts := Fields(ArgumentField, Properties(schema));
            var braces := if parts == [] then "{}" else "{ " + Join(parts, ", ") + " }";
            var read := ReadFields(braces, "{}");
            braces[0] == '{' && read.Some? && Lists(read.value, schema, ArgumentType, true)
  {
    var parts := Fields(ArgumentField, Properties(schema));
    ArgumentsListed(schema);
    if parts != [] {
      BracesRead(parts, "{}");
    } else {
      assert ReadEach(parts) == [];
    }
  }

  lemma SignatureReads(t: ToolSchema)
    requires ReadableTool(t)
    ensures var read := ReadSignature(Signature(t));
            read.Some? && read.value.0 == QualifiedName(t) && Lists(read.value.1, t.input, ArgumentType, true)
  {
    var parts := Fields(ArgumentField, Properties(t.input));
    var braces := if parts == [] then "{}" else "{ " + Join(parts, ", ") + " }";
    BracesList(t.input);
    SignatureParts(QualifiedName(t), braces);
    assert Signature(t) == QualifiedName(t) + braces + RESULT;
  }

  lemma ShapeReads(output: Json)
    requires forall name | name in PropertyMap(output) :: Readable(name)
    ensures var read := ReadFields(ReturnShape(Some(output)), "table");
            read.Some? && Lists(read.value, output, ReturnType, false)
  {
    var parts := Fields(ReturnField, Properties(output));
    ReturnsListed(output);
    if parts != [] {
      BracesRead(parts, "table");
    } else {
      assert ReadEach(parts) == [];
    }
  }

  predicate IsWord(word: string)
  {
    word != [] && forall c | c in word :: !IsSpace(c)
  }

  lemma {:induction false} WordsJoined(words: seq<string>)
    requires forall i | 0 <= i < |words| :: IsWord(words[i])
    ensures Words(Join(words, " ")) == words
  {
    if words == [] {
    } else if |words| == 1 {
      WordsWhole(words[0]);
      assert words == [words[0]];
    } else {
      var front, last := words[..|words| - 1], words[|words| - 1];
      WordsJoined(front);
      WordsSplit(Join(front, " "), ' ', last);
      WordsWhole(last);
      assert Join(words, " ") == Join(front, " ") + [' '] + last;
      assert words == front + [last];
    }
  }

  lemma DescriptionRetold(description: string)
    ensures Retold(TrimDots(Join(Words(description), " ")), description)
  {
    var words := Words(description);
    var whole := Join(words, " ");
    var told := TrimDots(whole);
    var dots := whole[|told|..];
    forall i | 0 <= i < |words| ensures IsWord(words[i]) {
      assert words[i] in words;
    }
    WordsJoined(words);
    assert whole == told + dots;
    forall c | c in dots ensures c == '.' {
      var i :| 0 <= i < |dots| && dots[i] == c;
      assert dots[i] == whole[|told| + i];
    }
  }

  lemma NoteTold(schema: Json)
    ensures Noted(Note(schema), schema)
  {
    var note := FixedActorNote(schema);
    if note.Some? {
      Three(" There is no `" + note.value, ARGUMENT, FIXED);
    }
  }

  /** A comment line's text. */
  function CommentOf(told: string, shape: string, note: string): string
  {
    "-- " + (if told == "" then "" else told + ". ") + "Returns " + shape + "." + note
  }

  lemma CommentParts(t: ToolSchema)
    ensures Comment(t) == CommentOf(TrimDots(Join(Words(t.description), " ")), ReturnShape(t.output), Note(t.input))
  {
    var told := TrimDots(Join(Words(t.description), " "));
    assert "-- " + "" == "-- " && "-- " + "Returns " == "-- Returns ";
    assert "-- " + (told + ". ") + "Returns " == "-- " + told + ". Returns ";
  }

  /** An entry can be read back. Its first line retells the description and lists
      what a call returns; its second names the tool and lists its arguments, each
      with its type and marked when the schema does not require it. */
  lemma EntryReads(t: ToolSchema) returns (told: string, shape: string, note: string, line: string)
    requires ReadableTool(t)
    ensures var comment := CommentOf(told, shape, note);
            RenderTool(t) == comment + "\n" + line + "\n" && '\n' !in comment && '\n' !in line
    ensures Retold(told, t.description) && Noted(note, t.input)
    ensures if t.output.None? then shape == "table" else
              var read := ReadFields(shape, "table");
              read.Some? && Lists(read.value, t.output.value, ReturnType, false)
    ensures var read := ReadSignature(line);
            read.Some? && read.value.0 == QualifiedName(t) && Lists(read.value.1, t.input, ArgumentType, true)
  {
    told, shape, note, line := TrimDots(Join(Words(t.description), " ")), ReturnShape(t.output), Note(t.input), Signature(t);
    DescriptionRetold(t.description);
    NoteTold(t.input);
    SignatureReads(t);
    if t.output.Some? {
      ShapeReads(t.output.value);
    }
    CommentBreaks(t);
    SignatureBreaks(t);
    CommentParts(t);
  }

  /** An argument and a returned field of one schema have one type, but for a
      `number`: a decimal is returned as a string, and none is taken. */
  lemma TypesDifferExactly(schema: Json)
    ensures ArgumentType(schema) != ReturnType(schema) <==> Member(schema, "type") == Some(Str("number"))
  {
    assert "integer" != "integer|string(decimal)" by {
      assert |"integer"| == 7;
    }
  }
}
