/** JSON values, the VM's integer-only tables, and the mapping between them. */
module Values {
  import opened Text

  const I64_MIN: int := -0x8000_0000_0000_0000
  const I64_MAX: int := 0x7fff_ffff_ffff_ffff
  const U64_MAX: int := 0xffff_ffff_ffff_ffff

  /** A JSON number: whole numbers are kept exactly, anything with a fraction or
      an exponent as the text it prints to. */
  datatype Number = Whole(n: int) | Float(text: string)

  datatype Json =
    | Null
    | Bool(b: bool)
    | Num(num: Number)
    | Str(s: string)
    | Arr(items: seq<Json>)
    | Obj(members: map<string, Json>)

  datatype LuaKey = IntKey(i: int) | StrKey(k: string)

  type LuaTable = map<LuaKey, LuaValue>

  datatype LuaValue =
    | Nil
    | Boolean(b: bool)
    | Integer(i: int)
    | String(s: string)
    | Table(t: LuaTable)

  predicate InI64(n: int)
  {
    I64_MIN <= n <= I64_MAX
  }

  function AsI64(v: Json): Option<int>
  {
    if v.Num? && v.num.Whole? && InI64(v.num.n) then Some(v.num.n) else None
  }

  function AsU64(v: Json): Option<int>
  {
    if v.Num? && v.num.Whole? && 0 <= v.num.n <= U64_MAX then Some(v.num.n) else None
  }

  function NumberText(num: Number): string
  {
    match num
    case Whole(n) => IntText(n)
    case Float(text) => text
  }

  /** Some array, at any depth, has `null` as an element. */
  predicate HasNullElement(v: Json)
  {
    match v
    case Arr(items) => exists i | 0 <= i < |items| :: items[i] == Null || HasNullElement(items[i])
    case Obj(members) => exists k | k in members :: HasNullElement(members[k])
    case _ => false
  }

  function IntKeys(n: nat): (keys: set<LuaKey>)
    ensures forall key :: key in keys <==> key.IntKey? && 1 <= key.i <= n
  {
    set i | 1 <= i <= n :: IntKey(i)
  }

  lemma {:induction false} IntKeyCount(n: nat)
    ensures |IntKeys(n)| == n
  {
    if n == 0 {
      assert IntKeys(n) == {};
    } else {
      IntKeyCount(n - 1);
      assert IntKeys(n) == IntKeys(n - 1) + {IntKey(n)};
    }
  }

  function StrKeys(names: set<string>): (keys: set<LuaKey>)
    ensures forall key :: key in keys <==> key.StrKey? && key.k in names
  {
    set k | k in names :: StrKey(k)
  }

  function Present(members: map<string, Json>): set<string>
  {
    set k | k in members && members[k] != Null
  }

  /** The Lua value of a JSON value that has one. */
  function Lua(v: Json): LuaValue
    requires !HasNullElement(v)
  {
    match v
    case Null => Nil
    case Bool(b) => Boolean(b)
    case Num(num) => if AsI64(v).Some? then Integer(num.n) else String(NumberText(num))
    case Str(s) => String(s)
    case Arr(items) => Table(map key | key in IntKeys(|items|) :: Lua(items[key.i - 1]))
    case Obj(members) => Table(map key | key in StrKeys(Present(members)) :: Lua(members[key.k]))
  }

  /** A number in the i64 range stays one; any other whole number can be read back
      from its text, and one with a fraction or an exponent is as printed. */
  lemma NumbersKept(num: Number)
    ensures num.Whole? && InI64(num.n) ==> Lua(Num(num)) == Integer(num.n)
    ensures num.Whole? && !InI64(num.n) ==>
      Lua(Num(num)).String? && IsIntText(Lua(Num(num)).s) && ReadInt(Lua(Num(num)).s) == num.n
    ensures num.Float? ==> Lua(Num(num)) == String(num.text)
  {
    if num.Whole? {
      IntTextReads(num.n);
    }
  }

  /** A program reads what the response has: scalars as they are, each member that
      is not null under its name, and the items from 1. */
  lemma TableReads(v: Json)
    requires !HasNullElement(v)
    ensures v.Bool? ==> Lua(v) == Boolean(v.b)
    ensures v.Str? ==> Lua(v) == String(v.s)
    ensures v.Obj? ==>
      && Lua(v).Table?
      && (forall key :: key in Lua(v).t <==> key.StrKey? && key.k in v.members && v.members[key.k] != Null)
      && (forall k | k in v.members && v.members[k] != Null :: Lua(v).t[StrKey(k)] == Lua(v.members[k]))
    ensures v.Arr? ==>
      && Lua(v).Table?
      && (forall key :: key in Lua(v).t <==> key.IntKey? && 1 <= key.i <= |v.items|)
      && (forall i | 0 <= i < |v.items| :: Lua(v).t[IntKey(i + 1)] == Lua(v.items[i]))
  {
  }

  function JsonToTable(v: Json): Option<LuaTable>
  {
    if v.Obj? && !HasNullElement(v) then Some(Lua(v).t) else None
  }

  // ---------------------------------------------------------------------
  // The loops
  // ---------------------------------------------------------------------

  /** `t` holds the members that are not null, but for those in `todo`. */
  ghost predicate FilledBut(t: LuaTable, members: map<string, Json>, todo: set<string>)
  {
    && (forall k | k in members && k !in todo :: !HasNullElement(members[k]))
    && (forall key | key in t :: key.StrKey?)
    && (forall k :: StrKey(k) in t <==> k in members && k !in todo && members[k] != Null)
    && forall k | StrKey(k) in t :: t[StrKey(k)] == Lua(members[k])
  }

  lemma AllFilled(t: LuaTable, members: map<string, Json>)
    requires FilledBut(t, members, {})
    ensures !HasNullElement(Obj(members)) && Lua(Obj(members)) == Table(t)
  {
    var u := Lua(Obj(members)).t;
    forall key ensures key in u <==> key in t {
      assert key.StrKey? ==> key == StrKey(key.k);
    }
    forall key | key in t ensures u[key] == t[key] {
      assert key == StrKey(key.k);
    }
    assert u == t;
  }

  /** Members are visited in whatever order the map yields them. */
  method FillFromObject(members: map<string, Json>) returns (r: Result<LuaTable>)
    ensures r.Ok? <==> !HasNullElement(Obj(members))
    ensures r.Ok? ==> Table(r.value) == Lua(Obj(members))
    decreases Obj(members), 0
  {
    var t: LuaTable := map[];
    var todo := members.Keys;
    while todo != {}
      invariant todo <= members.Keys
      invariant FilledBut(t, members, todo)
      decreases todo
    {
      var k :| k in todo;
      todo := todo - {k};
      if members[k] != Null {
        var value := ConvertValue(members[k]);
        if value.Err? {
          return Err(value.error);
        }
        t := t[StrKey(k) := value.value];
      }
    }
    AllFilled(t, members);
    r := Ok(t);
  }

  /** `t` holds the first `n` items. */
  ghost predicate FilledTo(t: LuaTable, items: seq<Json>, n: nat)
    requires n <= |items|
  {
    && t.Keys == IntKeys(n)
    && forall key | key in t ::
         var v := items[key.i - 1]; v != Null && !HasNullElement(v) && Lua(v) == t[key]
  }

  lemma FilledNext(t: LuaTable, items: seq<Json>, n: nat)
    requires n < |items| && FilledTo(t, items, n) && items[n] != Null && !HasNullElement(items[n])
    ensures FilledTo(t[IntKey(n + 1) := Lua(items[n])], items, n + 1)
  {
    assert IntKeys(n + 1) == IntKeys(n) + {IntKey(n + 1)};
  }

  method FillFromArray(items: seq<Json>) returns (r: Result<LuaTable>)
    ensures r.Ok? <==> !HasNullElement(Arr(items))
    ensures r.Ok? ==> Table(r.value) == Lua(Arr(items))
    decreases Arr(items), 0
  {
    var t: LuaTable := map[];
    for n := 0 to |items|
      invariant FilledTo(t, items, n)
    {
      if items[n] == Null {
        return Err("null at array index " + Digits(n + 1) + " cannot be represented in a table");
      }
      var value := ConvertValue(items[n]);
      if value.Err? {
        return Err(value.error);
      }
      FilledNext(t, items, n);
      t := t[IntKey(n + 1) := value.value];
    }
    ArrayLua(items, t);
    r := Ok(t);
  }

  method ConvertValue(v: Json) returns (r: Result<LuaValue>)
    ensures r.Ok? <==> !HasNullElement(v)
    ensures r.Ok? ==> r.value == Lua(v)
    decreases v, 1
  {
    match v
    case Null => r := Ok(Nil);
    case Bool(b) => r := Ok(Boolean(b));
    case Num(num) =>
      var n := AsI64(v);
      r := Ok(if n.Some? then Integer(n.value) else String(NumberText(num)));
    case Str(s) => r := Ok(String(s));
    case Arr(items) =>
      var t := FillFromArray(items);
      r := if t.Ok? then Ok(Table(t.value)) else Err(t.error);
    case Obj(members) =>
      var t := FillFromObject(members);
      r := if t.Ok? then Ok(Table(t.value)) else Err(t.error);
  }

  method ConvertResponse(v: Json) returns (r: Result<LuaTable>)
    ensures r.Ok? <==> v.Obj? && !HasNullElement(v)
    ensures r.Ok? ==> JsonToTable(v) == Some(r.value)
  {
    if v.Obj? {
      r := FillFromObject(v.members);
    } else {
      r := Err("response must be a JSON object");
    }
  }

  // ---------------------------------------------------------------------
  // Going back
  // ---------------------------------------------------------------------

  /** The keys are exactly 1..n for some n > 0. */
  predicate IsArray(t: LuaTable)
  {
    |t| > 0 && t.Keys == IntKeys(|t|)
  }

  function Names(t: LuaTable): set<string>
  {
    set key | key in t && key.StrKey? :: key.k
  }

  /** The tables JSON can describe: every table, at every depth, is an array or
      has string keys only, and no value is nil. */
  predicate Plain(v: LuaValue)
  {
    match v
    case Nil => false
    case Integer(i) => InI64(i)
    case Table(t) =>
      && (IsArray(t) || forall k | k in t :: k.StrKey?)
      && forall k | k in t :: Plain(t[k])
    case _ => true
  }

  /** What the canonical encoding of a plain table parses back to. */
  function PlainJson(v: LuaValue): Json
    requires Plain(v)
    decreases v, 1
  {
    match v
    case Boolean(b) => Bool(b)
    case Integer(i) => Num(Whole(i))
    case String(s) => Str(s)
    case Table(t) =>
      if IsArray(t) then
        Arr(PlainItems(t, |t|))
      else
        Obj(map k | k in Names(t) :: PlainJson(t[StrKey(k)]))
  }

  function PlainItems(t: LuaTable, n: nat): (items: seq<Json>)
    requires forall key | key in IntKeys(n) :: key in t && Plain(t[key])
    ensures |items| == n && forall i | 0 <= i < n :: items[i] == PlainJson(t[IntKey(i + 1)])
    decreases Table(t), 0, n
  {
    if n == 0 then [] else assert IntKey(n) in IntKeys(n); PlainItems(t, n - 1) + [PlainJson(t[IntKey(n)])]
  }

  /** Null members dropped, numbers outside i64 as text, empty arrays as empty
      objects. */
  function Normal(v: Json): Json
    decreases v, 1
  {
    match v
    case Num(num) => if AsI64(v).Some? then v else Str(NumberText(num))
    case Arr(items) =>
      if items == [] then Obj(map[])
      else Arr(NormalItems(items))
    case Obj(members) => Obj(map k | k in Present(members) :: Normal(members[k]))
    case _ => v
  }

  function NormalItems(items: seq<Json>): (normal: seq<Json>)
    ensures |normal| == |items| && forall i | 0 <= i < |items| :: normal[i] == Normal(items[i])
    decreases items, 0
  {
    if items == [] then [] else [Normal(items[0])] + NormalItems(items[1..])
  }

  ghost predicate Returns(v: Json)
    requires !HasNullElement(v)
  {
    Plain(Lua(v)) && PlainJson(Lua(v)) == Normal(v)
  }

  /** An array table is read off by index. */
  lemma ArrayJson(t: LuaTable, w: seq<Json>)
    requires |w| > 0 && t.Keys == IntKeys(|w|)
    requires forall key | key in t :: Plain(t[key]) && PlainJson(t[key]) == w[key.i - 1]
    ensures Plain(Table(t)) && PlainJson(Table(t)) == Arr(w)
  {
    IntKeyCount(|w|);
    assert |t| == |t.Keys| == |w|;
    var j := PlainJson(Table(t));
    forall i | 0 <= i < |w| ensures j.items[i] == w[i] {
      assert IntKey(i + 1) in t;
    }
    assert j.items == w;
  }

  lemma ArrayLua(items: seq<Json>, t: LuaTable)
    requires t.Keys == IntKeys(|items|)
    requires forall key | key in t ::
      var v := items[key.i - 1]; v != Null && !HasNullElement(v) && Lua(v) == t[key]
    ensures !HasNullElement(Arr(items)) && Lua(Arr(items)) == Table(t)
  {
    forall i | 0 <= i < |items| ensures items[i] != Null && !HasNullElement(items[i]) {
      assert IntKey(i + 1) in t;
    }
    assert Lua(Arr(items)).t == t;
  }

  lemma ArrayReturns(items: seq<Json>)
    requires !HasNullElement(Arr(items)) && items != []
    requires forall i | 0 <= i < |items| :: Returns(items[i])
    ensures Returns(Arr(items))
  {
    var t: LuaTable := map key | key in IntKeys(|items|) :: Lua(items[key.i - 1]);
    assert Lua(Arr(items)) == Table(t);
    var w := NormalItems(items);
    forall key | key in t ensures Plain(t[key]) && PlainJson(t[key]) == w[key.i - 1] {
      assert Returns(items[key.i - 1]);
    }
    ArrayJson(t, w);
  }

  lemma ObjectReturns(members: map<string, Json>)
    requires !HasNullElement(Obj(members))
    requires forall k | k in Present(members) :: Returns(members[k])
    ensures Returns(Obj(members))
  {
    var t := Lua(Obj(members)).t;
    assert t.Keys == StrKeys(Present(members));
    forall k | k in t ensures Plain(t[k]) {
      assert Returns(members[k.k]);
    }
    assert IntKey(1) !in t.Keys;
    assert |t| > 0 ==> IntKey(1) in IntKeys(|t|);
    assert !IsArray(t);
    assert Names(t) == Present(members) by {
      forall k | k in Present(members) ensures k in Names(t) {
        assert StrKey(k) in t;
      }
    }
    assert PlainJson(Table(t)).members == Normal(Obj(members)).members;
  }

  /** JSON to table to JSON is the normal form. */
  lemma {:induction false} ThereAndBack(v: Json)
    requires !HasNullElement(v) && v != Null
    ensures Plain(Lua(v)) && PlainJson(Lua(v)) == Normal(v)
  {
    match v
    case Arr(items) =>
      forall i | 0 <= i < |items| ensures Returns(items[i]) {
        ThereAndBack(items[i]);
      }
      if items == [] {
        assert Lua(v).t == map[];
      } else {
        ArrayReturns(items);
      }
    case Obj(members) =>
      forall k | k in Present(members) ensures Returns(members[k]) {
        ThereAndBack(members[k]);
      }
      ObjectReturns(members);
    case _ =>
  }

  ghost predicate Recovered(v: LuaValue)
    requires Plain(v)
  {
    !HasNullElement(PlainJson(v)) && PlainJson(v) != Null && Lua(PlainJson(v)) == v
  }

  lemma ObjectLua(members: map<string, Json>, t: LuaTable)
    requires forall k :: k in members <==> StrKey(k) in t
    requires forall key | key in t :: key.StrKey?
    requires forall k | k in members ::
      members[k] != Null && !HasNullElement(members[k]) && Lua(members[k]) == t[StrKey(k)]
    ensures !HasNullElement(Obj(members)) && Lua(Obj(members)) == Table(t)
  {
    AllFilled(t, members);
  }

  lemma MembersRecovered(t: LuaTable)
    requires Plain(Table(t)) && !IsArray(t)
    requires forall k | k in t :: Recovered(t[k])
    ensures Recovered(Table(t))
  {
    var members := PlainJson(Table(t)).members;
    forall k ensures k in members <==> StrKey(k) in t {
      assert k in Names(t) <==> StrKey(k) in t;
    }
    forall k | k in members
      ensures members[k] != Null && !HasNullElement(members[k]) && Lua(members[k]) == t[StrKey(k)]
    {
      assert Recovered(t[StrKey(k)]);
    }
    ObjectLua(members, t);
  }

  lemma TableRecovered(t: LuaTable)
    requires Plain(Table(t))
    requires forall k | k in t :: Recovered(t[k])
    ensures Recovered(Table(t))
  {
    if IsArray(t) {
      var items := PlainItems(t, |t|);
      forall key | key in t
        ensures var v := items[key.i - 1]; v != Null && !HasNullElement(v) && Lua(v) == t[key]
      {
        assert Recovered(t[key]);
      }
      ArrayLua(items, t);
    } else {
      MembersRecovered(t);
    }
  }

  /** Table to JSON to table is the identity, on every table JSON can describe.
      So the image of `JsonToTable` is exactly the plain string-keyed tables. */
  lemma {:induction false} BackAndThere(v: LuaValue)
    requires Plain(v)
    ensures !HasNullElement(PlainJson(v)) && PlainJson(v) != Null && Lua(PlainJson(v)) == v
  {
    match v
    case Table(t) =>
      forall k | k in t ensures Recovered(t[k]) {
        BackAndThere(t[k]);
      }
      TableRecovered(t);
    case _ =>
  }

  /** The normal form is stable, and nothing the table keeps is lost by it. */
  lemma NormalForm(v: Json)
    requires !HasNullElement(v) && v != Null
    ensures !HasNullElement(Normal(v)) && Normal(v) != Null
    ensures Normal(Normal(v)) == Normal(v)
    ensures Lua(Normal(v)) == Lua(v)
  {
    ThereAndBack(v);
    BackAndThere(Lua(v));
    ThereAndBack(Normal(v));
  }

  /** What the host relies on: every table built from a response is plain, and
      is determined by the JSON it canonicalises to. */
  lemma ResponseTable(v: Json)
    requires JsonToTable(v).Some?
    ensures var t := JsonToTable(v).value; Plain(Table(t)) && PlainJson(Table(t)) == Normal(v)
    ensures JsonToTable(Normal(v)) == JsonToTable(v)
  {
    ThereAndBack(v);
    NormalForm(v);
  }
}
