/** Strings as the gateway uses them: byte order on names, sorted iteration of
    ordered maps and sets, decimal text, and line counting. */
module Text {

  datatype Option<+T> = None | Some(value: T)

  datatype Result<+T> = Ok(value: T) | Err(error: string)

  /** Lexicographic order, as `Ord for str` gives it. */
  predicate Less(a: string, b: string)
  {
    b != [] && (a == [] || a[0] < b[0] || (a[0] == b[0] && Less(a[1..], b[1..])))
  }

  lemma {:induction false} LessTotal(a: string, b: string)
    ensures a == b || Less(a, b) || Less(b, a)
  {
    if a == [] || b == [] || a[0] != b[0] {
    } else {
      LessTotal(a[1..], b[1..]);
      assert a == [a[0]] + a[1..] && b == [b[0]] + b[1..];
    }
  }

  lemma {:induction false} LessIrreflexive(a: string)
    ensures !Less(a, a)
  {
    if a == [] {
    } else {
      LessIrreflexive(a[1..]);
    }
  }

  lemma {:induction false} LessTransitive(a: string, b: string, c: string)
    requires Less(a, b) && Less(b, c)
    ensures Less(a, c)
  {
    if a == [] || a[0] != b[0] || b[0] != c[0] {
    } else {
      LessTransitive(a[1..], b[1..], c[1..]);
    }
  }

  // ---------------------------------------------------------------------
  // Ordered sets and maps
  // ---------------------------------------------------------------------

  ghost predicate StrictlySorted(xs: seq<string>)
  {
    forall i, j | 0 <= i < j < |xs| :: Less(xs[i], xs[j])
  }

  predicate IsLeast(x: string, s: set<string>)
  {
    x in s && forall y | y in s :: y == x || Less(x, y)
  }

  lemma {:induction false} LeastExists(s: set<string>)
    requires s != {}
    ensures exists x :: IsLeast(x, s)
    decreases s
  {
    var y :| y in s;
    if s == {y} {
      assert IsLeast(y, s);
    } else {
      LeastExists(s - {y});
      var x :| IsLeast(x, s - {y});
      LessTotal(x, y);
      if Less(x, y) {
        assert IsLeast(x, s);
      } else {
        forall z | z in s ensures z == y || Less(y, z) {
          if z != y && z != x {
            LessTransitive(y, x, z);
          }
        }
        assert IsLeast(y, s);
      }
    }
  }

  lemma LeastUnique(x: string, y: string, s: set<string>)
    requires IsLeast(x, s) && IsLeast(y, s)
    ensures x == y
  {
    if x != y {
      LessTransitive(x, y, x);
      LessIrreflexive(x);
    }
  }

  function Least(s: set<string>): (x: string)
    requires s != {}
    ensures IsLeast(x, s)
  {
    LeastExists(s);
    assert forall x, y | IsLeast(x, s) && IsLeast(y, s) :: x == y by {
      forall x, y | IsLeast(x, s) && IsLeast(y, s) ensures x == y {
        LeastUnique(x, y, s);
      }
    }
    var x :| IsLeast(x, s);
    x
  }

  /** The order in which a `BTreeMap` or `BTreeSet` visits its keys. */
  function InOrder(s: set<string>): (xs: seq<string>)
    ensures StrictlySorted(xs)
    ensures forall x :: x in xs <==> x in s
    decreases s
  {
    if s == {} then [] else
      var x := Least(s);
      var rest := InOrder(s - {x});
      assert s == {x} + (s - {x});
      [x] + rest
  }

  /** A strictly sorted sequence is determined by its elements. */
  lemma {:induction false} SortedUnique(xs: seq<string>, ys: seq<string>)
    requires StrictlySorted(xs) && StrictlySorted(ys)
    requires forall x :: x in xs <==> x in ys
    ensures xs == ys
  {
    assert xs != [] ==> xs[0] in ys;
    assert ys != [] ==> ys[0] in xs;
    if xs == [] {
    } else {
      if xs[0] != ys[0] {
        LessTransitive(xs[0], ys[0], xs[0]);
        LessIrreflexive(xs[0]);
      }
      var xt, yt := xs[1..], ys[1..];
      forall x ensures x in xt <==> x in yt {
        LessIrreflexive(xs[0]);
        if x in xt { assert x in xs; assert x in ys; }
        if x in yt { assert x in ys; assert x in xs; }
      }
      SortedUnique(xt, yt);
      assert xs == [xs[0]] + xt && ys == [ys[0]] + yt;
    }
  }

  // ---------------------------------------------------------------------
  // Stable sort by a string key
  // ---------------------------------------------------------------------

  ghost predicate SortedBy<T>(xs: seq<T>, key: T -> string)
  {
    forall i, j | 0 <= i < j < |xs| :: !Less(key(xs[j]), key(xs[i]))
  }

  function Insert<T>(x: T, xs: seq<T>, key: T -> string): (r: seq<T>)
    ensures multiset(r) == multiset(xs) + multiset{x}
  {
    if xs == [] || !Less(key(xs[0]), key(x)) then [x] + xs
    else
      assert xs == [xs[0]] + xs[1..];
      [xs[0]] + Insert(x, xs[1..], key)
  }

  /** `sort_by_key`: the source sorts with the standard library, which is
      stable; insertion from the right is too. */
  function SortBy<T>(xs: seq<T>, key: T -> string): (r: seq<T>)
    ensures multiset(r) == multiset(xs)
  {
    if xs == [] then []
    else
      assert xs == [xs[0]] + xs[1..];
      Insert(xs[0], SortBy(xs[1..], key), key)
  }

  lemma {:induction false} InsertSorted<T>(x: T, xs: seq<T>, key: T -> string)
    requires SortedBy(xs, key)
    ensures SortedBy(Insert(x, xs, key), key)
  {
    var r := Insert(x, xs, key);
    if xs == [] {
    } else if !Less(key(xs[0]), key(x)) {
      forall j | 0 <= j < |xs| ensures !Less(key(xs[j]), key(x)) {
        if Less(key(xs[j]), key(x)) {
          LessTotal(key(x), key(xs[0]));
          if key(x) != key(xs[0]) {
            LessTransitive(key(xs[j]), key(x), key(xs[0]));
          }
        }
      }
    } else {
      InsertSorted(x, xs[1..], key);
      var t := Insert(x, xs[1..], key);
      forall j | 0 <= j < |t| ensures !Less(key(t[j]), key(xs[0])) {
        assert t[j] in multiset(t);
        if t[j] == x {
          if Less(key(x), key(xs[0])) {
            LessTransitive(key(x), key(xs[0]), key(x));
            LessIrreflexive(key(x));
          }
        } else {
          assert t[j] in xs[1..];
        }
      }
    }
  }

  lemma {:induction false} SortBySorted<T>(xs: seq<T>, key: T -> string)
    ensures SortedBy(SortBy(xs, key), key)
  {
    if xs == [] {
    } else {
      SortBySorted(xs[1..], key);
      InsertSorted(xs[0], SortBy(xs[1..], key), key);
    }
  }

  function Self(s: string): string
  {
    s
  }

  function Mapped<T>(f: string -> T, names: seq<string>): (r: seq<T>)
    ensures |r| == |names| && forall i | 0 <= i < |names| :: r[i] == f(names[i])
  {
    if names == [] then [] else [f(names[0])] + Mapped(f, names[1..])
  }

  lemma {:induction false} InsertMapped<T>(f: string -> T, key: T -> string, name: string, names: seq<string>)
    requires forall n :: key(f(n)) == n
    ensures Insert(f(name), Mapped(f, names), key) == Mapped(f, Insert(name, names, Self))
  {
    if names == [] || !Less(names[0], name) {
      assert ([name] + names)[1..] == names;
    } else {
      InsertMapped(f, key, name, names[1..]);
      assert Mapped(f, names)[1..] == Mapped(f, names[1..]);
      var r := [names[0]] + Insert(name, names[1..], Self);
      assert r[1..] == Insert(name, names[1..], Self);
    }
  }

  /** Sorting records by name is sorting the names. */
  lemma {:induction false} SortMapped<T>(f: string -> T, key: T -> string, names: seq<string>)
    requires forall n :: key(f(n)) == n
    ensures SortBy(Mapped(f, names), key) == Mapped(f, SortBy(names, Self))
  {
    if names == [] {
    } else {
      SortMapped(f, key, names[1..]);
      assert Mapped(f, names)[1..] == Mapped(f, names[1..]);
      InsertMapped(f, key, names[0], SortBy(names[1..], Self));
    }
  }

  ghost predicate DistinctKeys<T>(xs: seq<T>, key: T -> string)
  {
    forall x, y | x in xs && y in xs && key(x) == key(y) :: x == y
  }

  lemma SameHead<T>(xs: seq<T>, ys: seq<T>, key: T -> string)
    requires SortedBy(xs, key) && SortedBy(ys, key)
    requires xs != [] && ys != [] && xs[0] in ys && ys[0] in xs
    requires DistinctKeys(xs, key)
    ensures xs[0] == ys[0]
  {
    var i :| 0 <= i < |ys| && ys[i] == xs[0];
    var j :| 0 <= j < |xs| && xs[j] == ys[0];
    LessTotal(key(xs[0]), key(ys[0]));
  }

  lemma SortedTail<T>(xs: seq<T>, key: T -> string)
    requires xs != [] && SortedBy(xs, key)
    ensures SortedBy(xs[1..], key)
    ensures DistinctKeys(xs, key) ==> DistinctKeys(xs[1..], key)
    ensures multiset(xs[1..]) == multiset(xs) - multiset{xs[0]}
  {
    assert xs == [xs[0]] + xs[1..];
    assert forall x | x in xs[1..] :: x in xs;
  }

  lemma SameMembers<T>(xs: seq<T>, ys: seq<T>)
    requires multiset(xs) == multiset(ys) && xs != [] && ys != []
    ensures xs[0] in ys && ys[0] in xs
  {
    assert xs[0] in multiset(xs) && ys[0] in multiset(ys);
  }

  /** Two sorted rearrangements of one list are the same list when no two
      different elements share a key. */
  lemma {:induction false} SortedByUnique<T>(xs: seq<T>, ys: seq<T>, key: T -> string)
    requires SortedBy(xs, key) && SortedBy(ys, key)
    requires multiset(xs) == multiset(ys)
    requires DistinctKeys(xs, key)
    ensures xs == ys
  {
    assert |xs| == |multiset(xs)| == |multiset(ys)| == |ys|;
    if xs == [] {
    } else {
      SameMembers(xs, ys);
      SameHead(xs, ys, key);
      SortedTail(xs, key);
      SortedTail(ys, key);
      SortedByUnique(xs[1..], ys[1..], key);
    }
  }

  // ---------------------------------------------------------------------
  // Decimal text
  // ---------------------------------------------------------------------

  predicate IsDigit(c: char)
  {
    '0' <= c <= '9'
  }

  function Digits(n: nat): (s: string)
    ensures s != [] && forall i | 0 <= i < |s| :: IsDigit(s[i])
  {
    if n < 10 then [n as char + '0'] else Digits(n / 10) + [(n % 10) as char + '0']
  }

  function IntText(n: int): (s: string)
  {
    if n < 0 then "-" + Digits(-n) else Digits(n)
  }

  predicate AllDigits(s: string)
  {
    forall i | 0 <= i < |s| :: IsDigit(s[i])
  }

  function ReadDigits(s: string): (n: nat)
    requires AllDigits(s)
  {
    if s == [] then 0
    else
      assert IsDigit(s[|s| - 1]);
      ReadDigits(s[..|s| - 1]) * 10 + (s[|s| - 1] as nat - '0' as nat)
  }

  lemma {:induction false} ReadDigitsInverts(n: nat)
    ensures ReadDigits(Digits(n)) == n
  {
    var s := Digits(n);
    if n < 10 {
      assert s[..|s| - 1] == [];
    } else {
      ReadDigitsInverts(n / 10);
      assert s[..|s| - 1] == Digits(n / 10);
    }
  }

  /** An optional minus sign and one or more digits. */
  predicate IsIntText(s: string)
  {
    if s != [] && s[0] == '-' then |s| > 1 && AllDigits(s[1..]) else s != [] && AllDigits(s)
  }

  function ReadInt(s: string): int
    requires IsIntText(s)
  {
    if s[0] == '-' then -(ReadDigits(s[1..]) as int) else ReadDigits(s) as int
  }

  lemma IntTextReads(n: int)
    ensures IsIntText(IntText(n)) && ReadInt(IntText(n)) == n
  {
    if n < 0 {
      ReadDigitsInverts(-n);
      assert IntText(n)[1..] == Digits(-n);
    } else {
      ReadDigitsInverts(n);
      assert IsDigit(Digits(n)[0]);
    }
  }

  predicate StartsWithoutDigit(s: string)
  {
    s != [] && !IsDigit(s[0])
  }

  function DigitRun(s: string): (n: nat)
    ensures n <= |s| && forall i | 0 <= i < n :: IsDigit(s[i])
  {
    if s == [] || !IsDigit(s[0]) then 0 else 1 + DigitRun(s[1..])
  }

  lemma {:induction false} DigitRunStops(a: string, x: string)
    requires forall i | 0 <= i < |a| :: IsDigit(a[i])
    requires StartsWithoutDigit(x)
    ensures DigitRun(a + x) == |a|
  {
    if a == [] {
      assert a + x == x;
    } else {
      DigitRunStops(a[1..], x);
      assert (a + x)[1..] == a[1..] + x;
    }
  }

  /** Decimal text ends where the digits do, so it can be read off the front of
      a longer text in one way only. */
  lemma DigitsPrefix(m: nat, x: string, n: nat, y: string)
    requires StartsWithoutDigit(x) && StartsWithoutDigit(y)
    requires Digits(m) + x == Digits(n) + y
    ensures m == n && x == y
  {
    var a, b := Digits(m), Digits(n);
    DigitRunStops(a, x);
    DigitRunStops(b, y);
    assert a == (a + x)[..|a|] == (b + y)[..|b|] == b;
    assert x == (a + x)[|a|..] == (b + y)[|b|..] == y;
    ReadDigitsInverts(m);
    ReadDigitsInverts(n);
  }

  // ---------------------------------------------------------------------
  // Store keys
  // ---------------------------------------------------------------------

  predicate KeyChar(c: char)
  {
    IsDigit(c) || 'a' <= c <= 'f' || c == '-'
  }

  /** `[0-9a-f-]+` */
  predicate ValidKey(key: string)
  {
    key != [] && forall i | 0 <= i < |key| :: KeyChar(key[i])
  }

  // ---------------------------------------------------------------------
  // Lines
  // ---------------------------------------------------------------------

  function Newlines(s: string): (n: nat)
    ensures n <= |s|
  {
    if s == [] then 0 else Newlines(s[..|s| - 1]) + if s[|s| - 1] == '\n' then 1 else 0
  }

  lemma {:induction false} NewlinesConcat(a: string, b: string)
    ensures Newlines(a + b) == Newlines(a) + Newlines(b)
  {
    if b == [] {
      assert a + b == a;
    } else {
      NewlinesConcat(a, b[..|b| - 1]);
      assert (a + b)[..|a + b| - 1] == a + b[..|b| - 1];
    }
  }

  /** The concatenation of some texts. */
  function Joined(texts: seq<string>): string
  {
    if texts == [] then "" else Joined(texts[..|texts| - 1]) + texts[|texts| - 1]
  }

  lemma {:induction false} JoinedConcat(a: seq<string>, b: seq<string>)
    ensures Joined(a + b) == Joined(a) + Joined(b)
  {
    if b == [] {
      assert a + b == a;
    } else {
      JoinedConcat(a, b[..|b| - 1]);
      assert (a + b)[..|a + b| - 1] == a + b[..|b| - 1];
    }
  }

  lemma {:induction false} NoNewline(s: string)
    requires '\n' !in s
    ensures Newlines(s) == 0
  {
    if s == [] {
    } else {
      assert forall c | c in s[..|s| - 1] :: c in s;
      NoNewline(s[..|s| - 1]);
    }
  }

  predicate EmptyOrEndsInNewline(s: string)
  {
    s == [] || s[|s| - 1] == '\n'
  }

  // ---------------------------------------------------------------------
  // Common prefixes
  // ---------------------------------------------------------------------

  /** How far two sequences agree. */
  function Common<T(==)>(xs: seq<T>, ys: seq<T>): (n: nat)
    ensures n <= |xs| && n <= |ys| && xs[..n] == ys[..n]
    ensures n < |xs| && n < |ys| ==> xs[n] != ys[n]
  {
    if xs == [] || ys == [] || xs[0] != ys[0] then 0
    else
      var n := Common(xs[1..], ys[1..]);
      assert xs[..n + 1] == [xs[0]] + xs[1..][..n] && ys[..n + 1] == [ys[0]] + ys[1..][..n];
      n + 1
  }

  lemma CommonCons<T>(x: T, xs: seq<T>, ys: seq<T>)
    ensures Common([x] + xs, ys) == if ys == [] || ys[0] != x then 0 else 1 + Common(xs, ys[1..])
  {
    assert ([x] + xs)[1..] == xs;
  }
}
