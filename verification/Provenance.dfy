/** Provenance tags: reading a downstream's report, and the canonical bytes of
    an accepted one. */
module Provenance {
  import opened Text
  import opened Values
  import opened JsonText

  datatype Tag =
    | Unsigned
    | Signed(signer: string, sig: string)
    | Onchain(chain: string, block: nat, reference: string)
    | Notarized(scheme: string, ref: string)

  const META_KEY := "proveno/provenance"

  type Report = map<string, Json>

  // ---------------------------------------------------------------------
  // Canonical JSON of string and unsigned integer members
  // ---------------------------------------------------------------------

  predicate IsScalar(v: Json)
  {
    v.Str? || AsU64(v).Some?
  }

  function ScalarThen(v: Json, x: string): string
    requires IsScalar(v)
  {
    if v.Str? then QuoteThen(v.s, x) else Digits(v.num.n) + x
  }

  function MemberThen(k: string, v: Json, x: string): string
    requires IsScalar(v)
  {
    QuoteThen(k, ":" + ScalarThen(v, x))
  }

  predicate Scalars(m: Report)
  {
    forall k | k in m :: IsScalar(m[k])
  }

  /** The members after the first, and the closing brace. */
  function Rest(keys: seq<string>, m: Report): (s: string)
    requires Scalars(m) && forall k | k in keys :: k in m
    ensures s != [] && (s[0] == ',' || s[0] == '}') && (s[0] == '}' <==> keys == [])
  {
    if keys == [] then "}" else "," + MemberThen(keys[0], m[keys[0]], Rest(keys[1..], m))
  }

  function Body(keys: seq<string>, m: Report): string
    requires Scalars(m) && forall k | k in keys :: k in m
  {
    if keys == [] then "{}" else "{" + MemberThen(keys[0], m[keys[0]], Rest(keys[1..], m))
  }

  function Canonical(m: Report): string
    requires Scalars(m)
  {
    Body(InOrder(m.Keys), m)
  }

  ghost function Collect(fields: seq<(string, Json)>): Report
  {
    if fields == [] then map[] else Collect(fields[..|fields| - 1])[fields[|fields| - 1].0 := fields[|fields| - 1].1]
  }

  /** Members arrive in the order the downstream wrote them; they are collected
      into an ordered map and written from there. */
  method CanonicalJson(fields: seq<(string, Json)>) returns (text: string)
    requires forall f | f in fields :: IsScalar(f.1)
    ensures Scalars(Collect(fields)) && text == Canonical(Collect(fields))
  {
    var sorted: Report := map[];
    for i := 0 to |fields|
      invariant sorted == Collect(fields[..i]) && Scalars(sorted)
    {
      sorted := sorted[fields[i].0 := fields[i].1];
      assert fields[..i + 1][..i] == fields[..i];
    }
    assert fields[..|fields|] == fields;
    var keys := InOrder(sorted.Keys);
    text := "}";
    var i := |keys|;
    while i > 1
      invariant 0 <= i <= |keys| && (|keys| > 0 ==> 1 <= i)
      invariant text == Rest(keys[i..], sorted)
    {
      i := i - 1;
      assert keys[i..][1..] == keys[i + 1..];
      text := "," + MemberThen(keys[i], sorted[keys[i]], text);
    }
    text := if keys == [] then "{}" else "{" + MemberThen(keys[0], sorted[keys[0]], text);
  }

  ghost predicate DistinctNames(fields: seq<(string, Json)>)
  {
    forall i, j | 0 <= i < j < |fields| :: fields[i].0 != fields[j].0
  }

  lemma {:induction false} CollectAt(fields: seq<(string, Json)>, i: nat)
    requires DistinctNames(fields) && i < |fields|
    ensures fields[i].0 in Collect(fields) && Collect(fields)[fields[i].0] == fields[i].1
  {
    if i == |fields| - 1 {
    } else {
      CollectAt(fields[..|fields| - 1], i);
    }
  }

  lemma {:induction false} CollectFrom(fields: seq<(string, Json)>, k: string)
    requires k in Collect(fields)
    ensures (k, Collect(fields)[k]) in fields
  {
    var n := |fields| - 1;
    if k == fields[n].0 {
    } else {
      CollectFrom(fields[..n], k);
    }
  }

  /** Collecting gives the same report whatever order its members are listed
      in, so the bytes ignore that order. */
  lemma OrderIgnored(fields: seq<(string, Json)>, m: Report)
    requires DistinctNames(fields)
    requires forall k, v :: (k, v) in fields <==> k in m && m[k] == v
    ensures Collect(fields) == m
  {
    forall k | k in Collect(fields) ensures k in m && m[k] == Collect(fields)[k] {
      CollectFrom(fields, k);
    }
    forall k | k in m ensures k in Collect(fields) {
      assert (k, m[k]) in fields;
      var i :| 0 <= i < |fields| && fields[i] == (k, m[k]);
      CollectAt(fields, i);
    }
  }

  // ---------------------------------------------------------------------
  // Reading the bytes back
  // ---------------------------------------------------------------------

  /** A JSON string, or a whole number without a leading zero, and the text after it. */
  function ReadScalar(s: string): (r: Option<(Json, string)>)
    ensures r.Some? ==> |r.value.1| < |s|
  {
    if s != [] && s[0] == '"' then
      match ReadQuoted(s[1..])
      case Some((t, after)) => Some((Str(t), after))
      case None => None
    else
      var n := DigitRun(s);
      if n == 0 || (n > 1 && s[0] == '0') then None else Some((Num(Whole(ReadDigits(s[..n]))), s[n..]))
  }

  /** A quoted name, a colon and a scalar. */
  function ReadMember(s: string): (r: Option<((string, Json), string)>)
    ensures r.Some? ==> |r.value.1| < |s|
  {
    if s == [] || s[0] != '"' then None
    else
      match ReadQuoted(s[1..])
      case None => None
      case Some((k, after)) =>
        if after == [] || after[0] != ':' then None
        else
          match ReadScalar(after[1..])
          case Some((v, rest)) => Some(((k, v), rest))
          case None => None
  }

  /** One or more members with commas between them, and a closing brace that ends
      the text. */
  function ReadMembers(s: string): Option<seq<(string, Json)>>
    decreases |s|
  {
    match ReadMember(s)
    case None => None
    case Some((field, rest)) =>
      if rest == "}" then Some([field])
      else if rest == [] || rest[0] != ',' then None
      else
        match ReadMembers(rest[1..])
        case Some(fields) => Some([field] + fields)
        case None => None
  }

  /** A JSON object of strings and whole numbers (section 4 of RFC 8259), its
      members in the order they are written. */
  function ReadObject(s: string): Option<seq<(string, Json)>>
  {
    if s == "{}" then Some([])
    else if s != [] && s[0] == '{' then ReadMembers(s[1..])
    else None
  }

  lemma {:induction false} DigitsLead(n: nat)
    ensures Digits(n)[0] == '0' ==> |Digits(n)| == 1 && n == 0
  {
    if n >= 10 {
      DigitsLead(n / 10);
    }
  }

  lemma ScalarReads(v: Json, x: string)
    requires IsScalar(v) && StartsWithoutDigit(x)
    ensures ReadScalar(ScalarThen(v, x)) == Some((v, x))
  {
    var s := ScalarThen(v, x);
    if v.Str? {
      assert s[1..] == EscapeThen(v.s, x);
      QuotedReads(v.s, x);
    } else {
      var digits := Digits(v.num.n);
      DigitRunStops(digits, x);
      DigitsLead(v.num.n);
      ReadDigitsInverts(v.num.n);
      assert s[0] == digits[0] && s[..|digits|] == digits && s[|digits|..] == x;
    }
  }

  lemma MemberReads(k: string, v: Json, x: string)
    requires IsScalar(v) && StartsWithoutDigit(x)
    ensures ReadMember(MemberThen(k, v, x)) == Some(((k, v), x))
  {
    var s, after := MemberThen(k, v, x), ":" + ScalarThen(v, x);
    assert s[1..] == EscapeThen(k, after) && after[1..] == ScalarThen(v, x);
    QuotedReads(k, after);
    ScalarReads(v, x);
  }

  function FieldsOf(keys: seq<string>, m: Report): (fields: seq<(string, Json)>)
    requires forall k | k in keys :: k in m
    ensures |fields| == |keys| && forall i | 0 <= i < |keys| :: fields[i] == (keys[i], m[keys[i]])
  {
    seq(|keys|, i requires 0 <= i < |keys| => (keys[i], m[keys[i]]))
  }

  lemma MembersStep(k: string, v: Json, rest: string)
    requires IsScalar(v) && rest != "" && rest[0] == ','
    ensures ReadMembers(MemberThen(k, v, rest))
            == match ReadMembers(rest[1..]) case Some(fields) => Some([(k, v)] + fields) case None => None
  {
    MemberReads(k, v, rest);
    assert rest != "}";
  }

  lemma MembersEnd(k: string, v: Json)
    requires IsScalar(v)
    ensures ReadMembers(MemberThen(k, v, "}")) == Some([(k, v)])
  {
    MemberReads(k, v, "}");
  }

  lemma FieldsSplit(keys: seq<string>, m: Report)
    requires keys != [] && forall k | k in keys :: k in m
    ensures FieldsOf(keys, m) == [(keys[0], m[keys[0]])] + FieldsOf(keys[1..], m)
  {
  }

  lemma {:induction false} RestReads(keys: seq<string>, m: Report)
    requires Scalars(m) && keys != [] && forall k | k in keys :: k in m
    ensures ReadMembers(Rest(keys, m)[1..]) == Some(FieldsOf(keys, m))
  {
    var k, tail := keys[0], keys[1..];
    var rest := Rest(tail, m);
    assert Rest(keys, m)[1..] == MemberThen(k, m[k], rest);
    FieldsSplit(keys, m);
    if tail == [] {
      MembersEnd(k, m[k]);
      assert rest == "}";
      assert FieldsOf(keys, m) == [(k, m[k])];
    } else {
      RestReads(tail, m);
      MembersStep(k, m[k], rest);
    }
  }

  lemma ObjectReads(m: Report)
    requires Scalars(m)
    ensures ReadObject(Canonical(m)) == Some(FieldsOf(InOrder(m.Keys), m))
  {
    var keys := InOrder(m.Keys);
    if keys != [] {
      assert Canonical(m)[1..] == Rest(keys, m)[1..];
      assert Canonical(m)[1] == '"';
      RestReads(keys, m);
    }
  }

  lemma FieldsCollect(keys: seq<string>, m: Report)
    requires StrictlySorted(keys) && forall k :: k in keys <==> k in m
    ensures Collect(FieldsOf(keys, m)) == m
  {
    var fields := FieldsOf(keys, m);
    forall i, j | 0 <= i < j < |fields| ensures fields[i].0 != fields[j].0 {
      LessIrreflexive(keys[i]);
    }
    forall k, v ensures (k, v) in fields <==> k in m && m[k] == v {
      if k in m {
        var i :| 0 <= i < |keys| && keys[i] == k;
        assert fields[i] == (k, m[k]);
      }
    }
    OrderIgnored(fields, m);
  }

  /** The canonical bytes are JSON that says the report and nothing else: the
      reader gives every member back, once each and in name order. */
  lemma CanonicalReads(m: Report)
    requires Scalars(m)
    ensures var read := ReadObject(Canonical(m));
            && read.Some? && Collect(read.value) == m
            && forall i, j | 0 <= i < j < |read.value| :: Less(read.value[i].0, read.value[j].0)
  {
    ObjectReads(m);
    FieldsCollect(InOrder(m.Keys), m);
  }

  /** Equal canonical bytes come from equal reports. */
  lemma CanonicalInjective(m: Report, m': Report)
    requires Scalars(m) && Scalars(m')
    ensures Canonical(m) == Canonical(m') <==> m == m'
  {
    CanonicalReads(m);
    CanonicalReads(m');
  }

  // ---------------------------------------------------------------------
  // Reading a report
  // ---------------------------------------------------------------------

  function TextField(m: Report, k: string): Option<string>
  {
    if k in m && m[k].Str? then Some(m[k].s) else None
  }

  function CountField(m: Report, k: string): Option<nat>
  {
    if k in m then AsU64(m[k]) else None
  }

  /** Deserialising into the tagged enum: the tag selects the fields, each must
      be present and well typed, and further fields are ignored. */
  function Typed(m: Report): Option<Tag>
  {
    match TextField(m, "type")
    case None => None
    case Some(kind) =>
      if kind == "unsigned" then Some(Unsigned)
      else if kind == "signed" then
        match (TextField(m, "by"), TextField(m, "sig"))
        case (Some(signer), Some(sig)) => Some(Signed(signer, sig))
        case _ => None
      else if kind == "onchain" then
        match (TextField(m, "chain"), CountField(m, "block"), TextField(m, "reference"))
        case (Some(chain), Some(block), Some(reference)) => Some(Onchain(chain, block, reference))
        case _ => None
      else if kind == "notarized" then
        match (TextField(m, "scheme"), TextField(m, "reference"))
        case (Some(scheme), Some(reference)) => Some(Notarized(scheme, reference))
        case _ => None
      else None
  }

  /** Serialising the tag again. */
  function ReportOf(tag: Tag): Report
  {
    match tag
    case Unsigned => map["type" := Str("unsigned")]
    case Signed(signer, sig) => map["type" := Str("signed"), "by" := Str(signer), "sig" := Str(sig)]
    case Onchain(chain, block, reference) =>
      map["type" := Str("onchain"), "chain" := Str(chain), "block" := Num(Whole(block)), "reference" := Str(reference)]
    case Notarized(scheme, reference) =>
      map["type" := Str("notarized"), "scheme" := Str(scheme), "reference" := Str(reference)]
  }

  function ReadReport(reported: Json): Result<(Tag, string)>
  {
    if !reported.Obj? then Err("must be an object")
    else
      match Typed(reported.members)
      case None => Err("not a known tag with its fields")
      case Some(tag) =>
        var typed := ReportOf(tag);
        if exists k | k in reported.members :: k !in typed then Err("unknown field")
        else if exists k | k in typed :: typed[k] == Str("") then Err("empty field")
        else if tag.Unsigned? then Ok((tag, ""))
        else TypedKeepsMembers(reported.members, tag); Ok((tag, Canonical(reported.members)))
  }

  /** `meta` is the result's metadata; a result without the reserved key reports
      nothing. */
  function ReadProvenance(meta: Option<map<string, Json>>): Result<(Tag, string)>
  {
    if meta.None? || META_KEY !in meta.value then Ok((Unsigned, "")) else ReadReport(meta.value[META_KEY])
  }

  /** Every string field is non-empty and the block number fits in a u64. */
  predicate WellFormed(tag: Tag)
  {
    match tag
    case Unsigned => true
    case Signed(signer, sig) => signer != "" && sig != ""
    case Onchain(chain, block, reference) => chain != "" && block <= U64_MAX && reference != ""
    case Notarized(scheme, reference) => scheme != "" && reference != ""
  }

  lemma TypedKeepsMembers(m: Report, tag: Tag)
    requires Typed(m) == Some(tag)
    requires forall k | k in m :: k in ReportOf(tag)
    ensures m == ReportOf(tag) && Scalars(m)
  {
    var r := ReportOf(tag);
    forall k | k in r ensures k in m && m[k] == r[k] {
      assert k == "type" || k == "by" || k == "sig" || k == "chain" || k == "block" || k == "reference" || k == "scheme";
    }
  }

  lemma TypedOfReport(tag: Tag)
    requires WellFormed(tag)
    ensures Typed(ReportOf(tag)) == Some(tag) && Scalars(ReportOf(tag))
    ensures forall k | k in ReportOf(tag) :: ReportOf(tag)[k] != Str("")
  {
  }

  /** The bytes recorded for a tag. */
  function Blob(tag: Tag): string
    requires WellFormed(tag)
  {
    if tag.Unsigned? then "" else TypedOfReport(tag); Canonical(ReportOf(tag))
  }

  lemma FieldsNonEmpty(tag: Tag)
    requires forall k | k in ReportOf(tag) :: ReportOf(tag)[k] != Str("")
    requires tag.Onchain? ==> tag.block <= U64_MAX
    ensures WellFormed(tag)
  {
    var r := ReportOf(tag);
    match tag
    case Unsigned =>
    case Signed(_, _) => assert r["by"] != Str("") && r["sig"] != Str("");
    case Onchain(_, _, _) => assert r["chain"] != Str("") && r["reference"] != Str("");
    case Notarized(_, _) => assert r["scheme"] != Str("") && r["reference"] != Str("");
  }

  lemma AcceptedReport(reported: Json)
    requires ReadReport(reported).Ok?
    ensures var (tag, blob) := ReadReport(reported).value;
            WellFormed(tag) && reported == Obj(ReportOf(tag)) && blob == Blob(tag)
  {
    var tag := ReadReport(reported).value.0;
    assert Typed(reported.members) == Some(tag);
    TypedKeepsMembers(reported.members, tag);
    assert tag.Onchain? ==> CountField(reported.members, "block") == Some(tag.block);
    FieldsNonEmpty(tag);
  }

  lemma ReportAccepted(tag: Tag)
    requires WellFormed(tag)
    ensures ReadReport(Obj(ReportOf(tag))) == Ok((tag, Blob(tag)))
  {
    TypedOfReport(tag);
  }

  /** A report is accepted as `tag` exactly when it is that tag's object, with
      no field missing, extra, empty or of another type. */
  lemma ReportExact(reported: Json, tag: Tag, blob: string)
    ensures ReadReport(reported) == Ok((tag, blob))
            <==> WellFormed(tag) && reported == Obj(ReportOf(tag)) && blob == Blob(tag)
  {
    if ReadReport(reported) == Ok((tag, blob)) {
      AcceptedReport(reported);
    }
    if WellFormed(tag) && reported == Obj(ReportOf(tag)) {
      ReportAccepted(tag);
    }
  }

  /** What a result's metadata reports: without the reserved key, nothing; with
      it, one tag, whole and well formed, or it is malformed. */
  ghost predicate Reported(meta: Option<map<string, Json>>, tag: Tag)
  {
    if meta.Some? && META_KEY in meta.value then WellFormed(tag) && meta.value[META_KEY] == Obj(ReportOf(tag))
    else tag.Unsigned?
  }

  /** The tag read is the tag reported, with its own bytes; a malformed report is
      an error and never passes for `Unsigned`. */
  lemma ProvenanceExact(meta: Option<map<string, Json>>, tag: Tag, blob: string)
    ensures ReadProvenance(meta) == Ok((tag, blob)) <==> Reported(meta, tag) && WellFormed(tag) && blob == Blob(tag)
  {
    if meta.Some? && META_KEY in meta.value {
      ReportExact(meta.value[META_KEY], tag, blob);
    }
  }

  /** The three reports that attest, in full. */
  lemma FormsRead(a: string, b: string, n: nat)
    requires a != "" && b != "" && n <= U64_MAX
    ensures Reported(
      Some(map[META_KEY := Obj(map["type" := Str("signed"), "by" := Str(a), "sig" := Str(b)])]), Signed(a, b))
    ensures Reported(
      Some(map[META_KEY := Obj(map["type" := Str("onchain"), "chain" := Str(a), "block" := Num(Whole(n)), "reference" := Str(b)])]),
      Onchain(a, n, b))
    ensures Reported(
      Some(map[META_KEY := Obj(map["type" := Str("notarized"), "scheme" := Str(a), "reference" := Str(b)])]),
      Notarized(a, b))
    ensures Reported(Some(map[META_KEY := Obj(map["type" := Str("unsigned")])]), Unsigned)
  {
  }

  /** Accepted results, report or none: the blob is empty exactly for `Unsigned`
      and is otherwise the tag's own canonical bytes. */
  lemma ReadResult(meta: Option<map<string, Json>>)
    requires ReadProvenance(meta).Ok?
    ensures var (tag, blob) := ReadProvenance(meta).value;
            && WellFormed(tag) && blob == Blob(tag) && (blob == "" <==> tag.Unsigned?)
  {
    if meta.Some? && META_KEY in meta.value {
      AcceptedReport(meta.value[META_KEY]);
    }
  }

  /** Two well-formed tags have equal bytes only if they are equal. */
  lemma BlobsIdentifyTags(a: Tag, b: Tag)
    requires WellFormed(a) && WellFormed(b)
    ensures Blob(a) == Blob(b) <==> a == b
  {
    TypedOfReport(a);
    TypedOfReport(b);
    CanonicalInjective(ReportOf(a), ReportOf(b));
  }
}
