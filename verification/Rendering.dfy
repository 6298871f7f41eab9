/** One tool's entry in the description: a comment line and a signature line. */
module Rendering {
  import opened Text
  import opened Values
  import opened Downstream

  // ---------------------------------------------------------------------
  // Text
  // ---------------------------------------------------------------------

  /** The characters Unicode calls white space. */
  predicate IsSpace(c: char)
  {
    || '\t' <= c <= '\r' || c == ' ' || c == '\U{85}' || c == '\U{A0}' || c == '\U{1680}'
    || '\U{2000}' <= c <= '\U{200A}' || c == '\U{2028}' || c == '\U{2029}' || c == '\U{202F}'
    || c == '\U{205F}' || c == '\U{3000}'
  }

  function WordLength(s: string): (n: nat)
    ensures n <= |s| && forall i | 0 <= i < n :: !IsSpace(s[i])
  {
    if s == [] || IsSpace(s[0]) then 0 else 1 + WordLength(s[1..])
  }

  /** `split_whitespace` */
  function Words(s: string): (words: seq<string>)
    ensures forall word | word in words :: word != [] && forall c | c in word :: !IsSpace(c)
  {
    if s == [] then []
    else if IsSpace(s[0]) then Words(s[1..])
    else
      var n := WordLength(s);
      [s[..n]] + Words(s[n..])
  }

  /** The text without its white space. */
  function Squeezed(s: string): string
  {
    if s == [] then [] else (if IsSpace(s[0]) then [] else [s[0]]) + Squeezed(s[1..])
  }

  lemma {:induction false} WordLengthStops(s: string, x: string)
    requires WordLength(s) < |s| || (x != [] && IsSpace(x[0]))
    ensures WordLength(s + x) == WordLength(s)
  {
    if s == [] {
      assert s + x == x;
    } else {
      assert (s + x)[1..] == s[1..] + x;
      if !IsSpace(s[0]) {
        WordLengthStops(s[1..], x);
      }
    }
  }

  lemma {:induction false} WholeWordLength(s: string)
    requires forall c | c in s :: !IsSpace(c)
    ensures WordLength(s) == |s| && Squeezed(s) == s
  {
    if s == [] {
    } else {
      WholeWordLength(s[1..]);
    }
  }

  /** A text without white space is one word. */
  lemma WordsWhole(word: string)
    requires word != [] && forall c | c in word :: !IsSpace(c)
    ensures Words(word) == [word]
  {
    WholeWordLength(word);
    assert word[0] in word && word[..|word|] == word && word[|word|..] == [];
  }

  /** White space separates, wherever it stands, and is not part of any word. With
      `WordsWhole` this determines the words of every text. */
  lemma {:induction false} WordsSplit(a: string, c: char, b: string)
    requires IsSpace(c)
    ensures Words(a + [c] + b) == Words(a) + Words(b)
    decreases |a|
  {
    var x := [c] + b;
    assert a + [c] + b == a + x && x[1..] == b;
    if a == [] {
      assert a + x == x;
    } else if IsSpace(a[0]) {
      WordsSplit(a[1..], c, b);
      assert (a + x)[1..] == a[1..] + [c] + b;
    } else {
      var n := WordLength(a);
      WordLengthStops(a, x);
      WordsSplit(a[n..], c, b);
      assert (a + x)[..n] == a[..n] && (a + x)[n..] == a[n..] + [c] + b;
    }
  }

  lemma {:induction false} SqueezedConcat(a: string, b: string)
    ensures Squeezed(a + b) == Squeezed(a) + Squeezed(b)
  {
    if a == [] {
      assert a + b == b;
    } else {
      SqueezedConcat(a[1..], b);
      assert (a + b)[1..] == a[1..] + b && (a + b)[0] == a[0];
      var x, y, z := if IsSpace(a[0]) then [] else [a[0]], Squeezed(a[1..]), Squeezed(b);
      assert Squeezed(a + b) == x + (y + z) == (x + y) + z;
    }
  }

  /** No character but white space is lost, and the order is kept. */
  lemma {:induction false} WordsKeepText(s: string)
    ensures Joined(Words(s)) == Squeezed(s)
  {
    if s == [] {
    } else if IsSpace(s[0]) {
      WordsKeepText(s[1..]);
    } else {
      var n := WordLength(s);
      WordsKeepText(s[n..]);
      WholeWordLength(s[..n]);
      SqueezedConcat(s[..n], s[n..]);
      assert s == s[..n] + s[n..];
      JoinedConcat([s[..n]], Words(s[n..]));
      assert Joined([s[..n]]) == Joined([s[..n]][..0]) + s[..n] == s[..n];
    }
  }

  function Join(parts: seq<string>, separator: string): string
  {
    if parts == [] then ""
    else if |parts| == 1 then parts[0]
    else Join(parts[..|parts| - 1], separator) + separator + parts[|parts| - 1]
  }

  /** `trim_end_matches('.')` */
  function TrimDots(s: string): (r: string)
    ensures r <= s && (r == [] || r[|r| - 1] != '.')
    ensures forall i | |r| <= i < |s| :: s[i] == '.'
  {
    if s == [] || s[|s| - 1] != '.' then s else TrimDots(s[..|s| - 1])
  }

  // ---------------------------------------------------------------------
  // Schemas
  // ---------------------------------------------------------------------

  datatype Property = Property(name: string, schema: Json, required: bool)

  function PropertyName(p: Property): string
  {
    p.name
  }

  function Member(v: Json, k: string): Option<Json>
  {
    if v.Obj? && k in v.members then Some(v.members[k]) else None
  }

  function PropertyMap(schema: Json): map<string, Json>
  {
    match Member(schema, "properties")
    case Some(Obj(members)) => members
    case _ => map[]
  }

  predicate IsRequired(schema: Json, name: string)
  {
    match Member(schema, "required")
    case Some(Arr(items)) => Str(name) in items
    case _ => false
  }

  /** The property a schema has under each name. */
  function PropertyOf(schema: Json): string -> Property
  {
    name => Property(
      name, if name in PropertyMap(schema) then PropertyMap(schema)[name] else Null, IsRequired(schema, name))
  }

  /** The properties of an object schema, in name order. */
  function Properties(schema: Json): seq<Property>
  {
    Mapped(PropertyOf(schema), InOrder(PropertyMap(schema).Keys))
  }

  lemma LessAsymmetric(a: string, b: string)
    requires Less(a, b)
    ensures !Less(b, a)
  {
    if Less(b, a) {
      LessTransitive(a, b, a);
      LessIrreflexive(a);
    }
  }

  /** However a schema's names are listed, sorting puts them in order. */
  lemma SortingNames(listed: seq<string>, names: set<string>)
    requires multiset(listed) == multiset(InOrder(names))
    ensures SortBy(listed, Self) == InOrder(names)
  {
    var sorted := InOrder(names);
    forall i, j | 0 <= i < j < |sorted| ensures !Less(Self(sorted[j]), Self(sorted[i])) {
      LessAsymmetric(sorted[i], sorted[j]);
    }
    SortBySorted(listed, Self);
    SortedByUnique(sorted, SortBy(listed, Self), Self);
  }

  /** The properties are collected in whatever order the schema lists them, then
      sorted by name. */
  method SortedProperties(schema: Json, listed: seq<string>) returns (props: seq<Property>)
    requires multiset(listed) == multiset(InOrder(PropertyMap(schema).Keys))
    ensures props == Properties(schema)
  {
    props := [];
    for i := 0 to |listed|
      invariant |props| == i && forall k | 0 <= k < i :: props[k] == PropertyOf(schema)(listed[k])
    {
      props := props + [PropertyOf(schema)(listed[i])];
    }
    assert props == Mapped(PropertyOf(schema), listed);
    SortMapped(PropertyOf(schema), PropertyName, listed);
    SortingNames(listed, PropertyMap(schema).Keys);
    props := SortBy(props, PropertyName);
  }

  // ---------------------------------------------------------------------
  // The note on a fixed actor
  // ---------------------------------------------------------------------

  /** Argument names that say where something goes, each with the name that would
      say where it comes from. */
  const DIRECTED_PAIRS: seq<(string, string)> := [
    ("to", "from"), ("to_address", "from_address"), ("recipient", "sender"), ("destination", "source")]

  /** The schema takes the destination and not its source. */
  predicate OneWay(schema: Json, pair: (string, string))
  {
    pair.0 in PropertyMap(schema) && pair.1 !in PropertyMap(schema)
  }

  function FixedActorNote(schema: Json): Option<string>
  {
    FirstOneWay(schema, DIRECTED_PAIRS)
  }

  function FirstOneWay(schema: Json, pairs: seq<(string, string)>): (r: Option<string>)
    ensures r.None? <==> forall pair | pair in pairs :: !OneWay(schema, pair)
    ensures r.Some? ==> exists i | 0 <= i < |pairs| ::
      r.value == pairs[i].1 && OneWay(schema, pairs[i]) && forall j | 0 <= j < i :: !OneWay(schema, pairs[j])
  {
    if pairs == [] then None
    else if OneWay(schema, pairs[0]) then Some(pairs[0].1)
    else
      var rest := FirstOneWay(schema, pairs[1..]);
      assert pairs == [pairs[0]] + pairs[1..];
      assert rest.Some? ==> exists i | 0 <= i < |pairs| :: rest.value == pairs[i].1 && OneWay(schema, pairs[i])
                                                           && forall j | 0 <= j < i :: !OneWay(schema, pairs[j]) by {
        if rest.Some? {
          var i :| 0 <= i < |pairs[1..]| && rest.value == pairs[1..][i].1 && OneWay(schema, pairs[1..][i])
                   && forall j | 0 <= j < i :: !OneWay(schema, pairs[1..][j]);
          forall j | 0 <= j < i + 1 ensures !OneWay(schema, pairs[j]) {
            assert j > 0 ==> pairs[j] == pairs[1..][j - 1];
          }
          assert pairs[i + 1] == pairs[1..][i];
        }
      }
      rest
  }

  // ---------------------------------------------------------------------
  // The entry
  // ---------------------------------------------------------------------

  function SimpleType(ty: string): Option<string>
  {
    match ty
    case "boolean" => Some("boolean")
    case "string" => Some("string")
    case "array" => Some("{...}")
    case "object" => Some("table")
    case _ => None
  }

  function ArgumentType(schema: Json): Option<string>
  {
    match Member(schema, "type")
    case Some(Str(ty)) => if ty == "integer" || ty == "number" then Some("integer") else SimpleType(ty)
    case _ => None
  }

  function ReturnType(schema: Json): Option<string>
  {
    match Member(schema, "type")
    case Some(Str(ty)) =>
      if ty == "integer" then Some("integer")
      else if ty == "number" then Some("integer|string(decimal)")
      else SimpleType(ty)
    case _ => None
  }

  function Typed(name: string, ty: Option<string>): string
  {
    if ty.Some? then name + ": " + ty.value else name
  }

  function ReturnField(p: Property): string
  {
    Typed(p.name, ReturnType(p.schema))
  }

  function ArgumentField(p: Property): string
  {
    Typed(p.name + (if p.required then "" else "?"), ArgumentType(p.schema))
  }

  function Fields(show: Property -> string, props: seq<Property>): (r: seq<string>)
    ensures |r| == |props| && forall i | 0 <= i < |props| :: r[i] == show(props[i])
  {
    if props == [] then [] else Fields(show, props[..|props| - 1]) + [show(props[|props| - 1])]
  }

  function ReturnShape(output: Option<Json>): string
  {
    if output.None? || Properties(output.value) == [] then "table"
    else "{ " + Join(Fields(ReturnField, Properties(output.value)), ", ") + " }"
  }

  const ARGUMENT := "` argument: the account this acts as"
  const FIXED := " is fixed by the gateway's credential."

  function NoteText(missing: string): string
  {
    " There is no `" + missing + ARGUMENT + FIXED
  }

  function Note(schema: Json): string
  {
    match FixedActorNote(schema)
    case None => ""
    case Some(missing) => NoteText(missing)
  }

  function Comment(t: ToolSchema): string
  {
    var description := TrimDots(Join(Words(t.description), " "));
    (if description == "" then "-- Returns " else "-- " + description + ". Returns ")
    + ReturnShape(t.output) + "." + Note(t.input)
  }

  function Signature(t: ToolSchema): string
  {
    var args := Fields(ArgumentField, Properties(t.input));
    QualifiedName(t) + (if args == [] then "{}" else "{ " + Join(args, ", ") + " }") + " -> table"
  }

  function RenderTool(t: ToolSchema): string
  {
    Comment(t) + "\n" + Signature(t) + "\n"
  }

  // ---------------------------------------------------------------------
  // Two lines
  // ---------------------------------------------------------------------

  /** A joined text has a line break exactly when one of its parts has. */
  lemma {:induction false} JoinBreaks(parts: seq<string>, separator: string)
    requires '\n' !in separator
    ensures '\n' in Join(parts, separator) <==> exists part | part in parts :: '\n' in part
  {
    if |parts| <= 1 {
      assert parts != [] ==> parts == [parts[0]];
    } else {
      var front, last := parts[..|parts| - 1], parts[|parts| - 1];
      JoinBreaks(front, separator);
      assert parts == front + [last];
    }
  }

  lemma WordsUnbroken(s: string)
    ensures '\n' !in TrimDots(Join(Words(s), " "))
  {
    JoinBreaks(Words(s), " ");
    assert forall word | word in Words(s) :: '\n' !in word;
  }

  lemma TypesUnbroken(schema: Json)
    ensures ReturnType(schema).Some? ==> '\n' !in ReturnType(schema).value
    ensures ArgumentType(schema).Some? ==> '\n' !in ArgumentType(schema).value
  {
  }

  /** Some property of the schema has a line break in its name. */
  ghost predicate BreaksIn(schema: Json)
  {
    exists name | name in PropertyMap(schema) :: '\n' in name
  }

  lemma PropertyBreaks(schema: Json)
    ensures (exists p | p in Properties(schema) :: '\n' in p.name) <==> BreaksIn(schema)
  {
    var names, props := InOrder(PropertyMap(schema).Keys), Properties(schema);
    if p :| p in props && '\n' in p.name {
      var i :| 0 <= i < |props| && props[i] == p;
      assert p.name == names[i] && names[i] in names;
    }
    if name :| name in PropertyMap(schema) && '\n' in name {
      assert name in names;
      var i :| 0 <= i < |names| && names[i] == name;
      assert props[i] in props && props[i].name == name;
    }
  }

  /** `show` adds no line break to a property's name. */
  ghost predicate Plainly(show: Property -> string)
  {
    forall p :: '\n' in show(p) <==> '\n' in p.name
  }

  lemma {:induction false} FieldBreaks(show: Property -> string, props: seq<Property>)
    requires Plainly(show)
    ensures (exists field | field in Fields(show, props) :: '\n' in field) <==> exists p | p in props :: '\n' in p.name
  {
    if props == [] {
    } else {
      var front, last := props[..|props| - 1], props[|props| - 1];
      FieldBreaks(show, front);
      assert props == front + [last];
    }
  }

  lemma FieldsBreak(show: Property -> string, schema: Json)
    requires Plainly(show)
    ensures '\n' in Join(Fields(show, Properties(schema)), ", ") <==> BreaksIn(schema)
  {
    JoinBreaks(Fields(show, Properties(schema)), ", ");
    FieldBreaks(show, Properties(schema));
    PropertyBreaks(schema);
  }

  lemma FieldsPlain()
    ensures Plainly(ReturnField) && Plainly(ArgumentField)
  {
    forall p: Property ensures '\n' in ReturnField(p) <==> '\n' in p.name {
      TypesUnbroken(p.schema);
    }
    forall p: Property ensures '\n' in ArgumentField(p) <==> '\n' in p.name {
      TypesUnbroken(p.schema);
    }
  }

  lemma ReturnsBreak(output: Option<Json>)
    ensures '\n' in ReturnShape(output) <==> output.Some? && BreaksIn(output.value)
  {
    FieldsPlain();
    if output.Some? {
      FieldsBreak(ReturnField, output.value);
      PropertyBreaks(output.value);
    }
  }

  lemma SourcesUnbroken(i: nat)
    requires i < |DIRECTED_PAIRS|
    ensures '\n' !in DIRECTED_PAIRS[i].1
  {
    assert DIRECTED_PAIRS[i].1 in ["from", "from_address", "sender", "source"];
  }

  lemma NoteTextUnbroken(missing: string)
    requires '\n' !in missing
    ensures '\n' !in NoteText(missing)
  {
    assert '\n' !in " There is no `" && '\n' !in ARGUMENT && '\n' !in FIXED;
    Concat(" There is no `", missing);
    Concat(" There is no `" + missing, ARGUMENT);
    Concat(" There is no `" + missing + ARGUMENT, FIXED);
  }

  lemma NoteUnbroken(schema: Json)
    ensures '\n' !in Note(schema)
  {
    var note := FixedActorNote(schema);
    if note.Some? {
      var i :| 0 <= i < |DIRECTED_PAIRS| && note.value == DIRECTED_PAIRS[i].1;
      SourcesUnbroken(i);
      NoteTextUnbroken(note.value);
    }
  }

  lemma Concat(a: string, b: string)
    ensures '\n' in a + b <==> '\n' in a || '\n' in b
  {
  }

  lemma CommentBreaks(t: ToolSchema)
    ensures '\n' in Comment(t) <==> t.output.Some? && BreaksIn(t.output.value)
  {
    WordsUnbroken(t.description);
    ReturnsBreak(t.output);
    NoteUnbroken(t.input);
    var description := TrimDots(Join(Words(t.description), " "));
    var lead := if description == "" then "-- Returns " else "-- " + description + ". Returns ";
    Concat("-- ", description);
    Concat("-- " + description, ". Returns ");
    assert '\n' !in lead;
    var shape, note := ReturnShape(t.output), Note(t.input);
    Concat(lead, shape);
    Concat(lead + shape, ".");
    Concat(lead + shape + ".", note);
  }

  lemma SignatureBreaks(t: ToolSchema)
    ensures '\n' in Signature(t) <==> '\n' in QualifiedName(t) || BreaksIn(t.input)
  {
    FieldsPlain();
    FieldsBreak(ArgumentField, t.input);
    PropertyBreaks(t.input);
  }

  /** An entry is the two lines it is meant to be if and only if no name in it has
      a line break: a description's own breaks are folded, a property's are not. */
  lemma TwoLinesExactly(t: ToolSchema)
    ensures Newlines(RenderTool(t)) == 2
            <==> '\n' !in QualifiedName(t) && !BreaksIn(t.input) && (t.output.None? || !BreaksIn(t.output.value))
  {
    var a, b := Comment(t), Signature(t);
    CommentBreaks(t);
    SignatureBreaks(t);
    NewlinesConcat(a, "\n");
    NewlinesConcat(a + "\n", b);
    NewlinesConcat(a + "\n" + b, "\n");
    NewlinesZero(a);
    NewlinesZero(b);
  }

  lemma {:induction false} NewlinesZero(s: string)
    ensures Newlines(s) == 0 <==> '\n' !in s
  {
    if s == [] {
    } else {
      NewlinesZero(s[..|s| - 1]);
      assert s == s[..|s| - 1] + [s[|s| - 1]];
    }
  }

  /** A schema that makes an entry of three lines. */
  lemma ThreeLines()
    ensures var schema := Obj(map["properties" := Obj(map["a\nb" := Null])]);
            Newlines(RenderTool(ToolSchema("s", "t", "", schema, None))) != 2
  {
    var schema := Obj(map["properties" := Obj(map["a\nb" := Null])]);
    var t := ToolSchema("s", "t", "", schema, None);
    assert "a\nb" in PropertyMap(schema) && "a\nb"[1] == '\n';
    TwoLinesExactly(t);
  }
}
