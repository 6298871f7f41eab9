/** The rules: which principal may call which tool, and how large its integer
    arguments may be. */
module Policy {
  import opened Text
  import opened Values
  import opened JsonText

  type Bounds = map<string, int>

  datatype Rules = Rules(principals: map<string, set<string>>, constraints: map<string, Bounds>)

  datatype Decision = Allow | Deny(reason: string)

  function AllowedTools(rules: Rules, principal: string): set<string>
  {
    if principal in rules.principals then rules.principals[principal] else {}
  }

  function BoundsOf(rules: Rules, tool: string): Bounds
  {
    if tool in rules.constraints then rules.constraints[tool] else map[]
  }

  /** `Value::get`: a member of an object; anything else has none. */
  function Argument(args: Json, name: string): Option<Json>
  {
    if args.Obj? && name in args.members then Some(args.members[name]) else None
  }

  /** Why one bound refuses the arguments, if it does. */
  function Violation(tool: string, args: Json, arg: string, max: int): Option<string>
  {
    match Argument(args, arg)
    case None => Some(tool + ": " + arg + " is required by " + arg + "_max")
    case Some(value) =>
      match (AsI64(value), AsU64(value))
      case (Some(n), _) =>
        if n > max then Some(tool + ": " + arg + " " + Show(value) + " exceeds " + arg + "_max " + IntText(max)) else None
      case (None, Some(_)) => Some(tool + ": " + arg + " " + Show(value) + " exceeds " + arg + "_max " + IntText(max))
      case (None, None) => Some(tool + ": " + arg + " " + Show(value) + " is not an integer")
  }

  /** The first bound, in key order, that refuses the arguments decides. */
  function FirstViolation(keys: seq<string>, bounds: Bounds, tool: string, args: Json): Decision
    requires forall k | k in keys :: k in bounds
  {
    if keys == [] then Allow
    else
      var v := Violation(tool, args, keys[0], bounds[keys[0]]);
      if v.Some? then Deny(v.value) else FirstViolation(keys[1..], bounds, tool, args)
  }

  function Verdict(rules: Rules, principal: string, tool: string, args: Json): Decision
  {
    if principal !in rules.principals then Deny("unknown principal " + principal)
    else if tool !in rules.principals[principal] then
      Deny(tool + " is not allowed for principal " + principal)
    else
      var bounds := BoundsOf(rules, tool);
      FirstViolation(InOrder(bounds.Keys), bounds, tool, args)
  }

  method Check(rules: Rules, principal: string, tool: string, args: Json) returns (d: Decision)
    ensures d == Verdict(rules, principal, tool, args)
  {
    if principal !in rules.principals {
      return Deny("unknown principal " + principal);
    }
    if tool !in rules.principals[principal] {
      return Deny(tool + " is not allowed for principal " + principal);
    }
    var bounds := BoundsOf(rules, tool);
    var keys := InOrder(bounds.Keys);
    var i := 0;
    while i < |keys|
      invariant 0 <= i <= |keys|
      invariant FirstViolation(keys, bounds, tool, args) == FirstViolation(keys[i..], bounds, tool, args)
    {
      var arg, max := keys[i], bounds[keys[i]];
      assert keys[i..][1..] == keys[i + 1..];
      var value := Argument(args, arg);
      if value.None? {
        return Deny(tool + ": " + arg + " is required by " + arg + "_max");
      }
      var n, u := AsI64(value.value), AsU64(value.value);
      if n.None? && u.None? {
        return Deny(tool + ": " + arg + " " + Show(value.value) + " is not an integer");
      }
      var exceeds := if n.Some? then n.value > max else true;
      if exceeds {
        return Deny(tool + ": " + arg + " " + Show(value.value) + " exceeds " + arg + "_max " + IntText(max));
      }
      i := i + 1;
    }
    d := Allow;
  }

  /** The argument is present and is an integer no larger than its bound. */
  ghost predicate Within(args: Json, arg: string, max: int)
  {
    && args.Obj? && arg in args.members
    && exists n :: args.members[arg] == Num(Whole(n)) && InI64(n) && n <= max
  }

  ghost predicate Permits(rules: Rules, principal: string, tool: string, args: Json)
  {
    && tool in AllowedTools(rules, principal)
    && forall arg | arg in BoundsOf(rules, tool) :: Within(args, arg, BoundsOf(rules, tool)[arg])
  }

  /** A bound is an i64, so a whole number above the i64 range exceeds it. */
  lemma ViolationExact(tool: string, args: Json, arg: string, max: int)
    ensures Violation(tool, args, arg, max).None? <==> Within(args, arg, max)
  {
    if Violation(tool, args, arg, max).None? {
      assert args.members[arg] == Num(Whole(args.members[arg].num.n));
    }
  }

  lemma {:induction false} FirstViolationExact(keys: seq<string>, bounds: Bounds, tool: string, args: Json)
    requires forall k | k in keys :: k in bounds
    ensures FirstViolation(keys, bounds, tool, args).Allow?
            <==> forall k | k in keys :: Within(args, k, bounds[k])
  {
    if keys == [] {
    } else {
      ViolationExact(tool, args, keys[0], bounds[keys[0]]);
      FirstViolationExact(keys[1..], bounds, tool, args);
      assert keys == [keys[0]] + keys[1..];
    }
  }

  /** The loop allows a call exactly when the principal may use the tool and
      every constrained argument is a present integer within its bound. */
  lemma VerdictExact(rules: Rules, principal: string, tool: string, args: Json)
    ensures Verdict(rules, principal, tool, args).Allow? <==> Permits(rules, principal, tool, args)
  {
    var bounds := BoundsOf(rules, tool);
    FirstViolationExact(InOrder(bounds.Keys), bounds, tool, args);
  }

  ghost predicate IsInteger(v: Json)
  {
    exists n :: v == Num(Whole(n)) && I64_MIN <= n <= U64_MAX
  }

  /** What a denial says of the argument that caused it. */
  ghost predicate Explains(reason: string, tool: string, args: Json, arg: string, max: int)
  {
    if !args.Obj? || arg !in args.members then reason == tool + ": " + arg + " is required by " + arg + "_max"
    else
      var v := args.members[arg];
      if IsInteger(v) then reason == tool + ": " + arg + " " + Show(v) + " exceeds " + arg + "_max " + IntText(max)
      else reason == tool + ": " + arg + " " + Show(v) + " is not an integer"
  }

  lemma ViolationExplained(tool: string, args: Json, arg: string, max: int)
    requires Violation(tool, args, arg, max).Some?
    ensures Explains(Violation(tool, args, arg, max).value, tool, args, arg, max)
  {
    if args.Obj? && arg in args.members {
      var v := args.members[arg];
      assert v.Num? && v.num.Whole? ==> v == Num(Whole(v.num.n));
    }
  }

  lemma {:induction false} FirstDenial(keys: seq<string>, bounds: Bounds, tool: string, args: Json) returns (i: nat)
    requires (forall k | k in keys :: k in bounds) && FirstViolation(keys, bounds, tool, args).Deny?
    ensures i < |keys| && !Within(args, keys[i], bounds[keys[i]])
    ensures forall j | 0 <= j < i :: Within(args, keys[j], bounds[keys[j]])
    ensures Explains(FirstViolation(keys, bounds, tool, args).reason, tool, args, keys[i], bounds[keys[i]])
  {
    ViolationExact(tool, args, keys[0], bounds[keys[0]]);
    if Violation(tool, args, keys[0], bounds[keys[0]]).Some? {
      ViolationExplained(tool, args, keys[0], bounds[keys[0]]);
      i := 0;
    } else {
      var j := FirstDenial(keys[1..], bounds, tool, args);
      i := j + 1;
      forall j | 0 <= j < i ensures Within(args, keys[j], bounds[keys[j]]) {
        assert j > 0 ==> keys[j] == keys[1..][j - 1];
      }
    }
  }

  /** A denial names its cause: the principal, the tool, or the first argument, in
      name order, that does not meet its bound, and in which way it does not. */
  lemma DenialExplained(rules: Rules, principal: string, tool: string, args: Json) returns (arg: string)
    requires Verdict(rules, principal, tool, args).Deny?
    ensures var reason := Verdict(rules, principal, tool, args).reason;
            var bounds := BoundsOf(rules, tool);
            if principal !in rules.principals then reason == "unknown principal " + principal
            else if tool !in AllowedTools(rules, principal) then
              reason == tool + " is not allowed for principal " + principal
            else
              && arg in bounds && !Within(args, arg, bounds[arg])
              && (forall other | other in bounds && Less(other, arg) :: Within(args, other, bounds[other]))
              && Explains(reason, tool, args, arg, bounds[arg])
  {
    arg := "";
    var bounds := BoundsOf(rules, tool);
    if tool in AllowedTools(rules, principal) {
      var keys := InOrder(bounds.Keys);
      var i := FirstDenial(keys, bounds, tool, args);
      arg := keys[i];
      assert arg in keys;
      forall other | other in bounds && Less(other, arg) ensures Within(args, other, bounds[other]) {
        assert other in keys;
        var j :| 0 <= j < |keys| && keys[j] == other;
        if j >= i {
          LessIrreflexive(arg);
          if j > i {
            LessTransitive(other, arg, other);
            LessIrreflexive(other);
          }
        }
      }
    }
  }

  /** `tight` only removes tools, lowers bounds or adds them. */
  ghost predicate Tightens(tight: Rules, loose: Rules)
  {
    && (forall p :: AllowedTools(tight, p) <= AllowedTools(loose, p))
    && forall tool, arg | arg in BoundsOf(loose, tool) ::
      arg in BoundsOf(tight, tool) && BoundsOf(tight, tool)[arg] <= BoundsOf(loose, tool)[arg]
  }

  /** Tightening the rules never turns a denial into a permission. */
  lemma TighteningOnlyDenies(tight: Rules, loose: Rules, principal: string, tool: string, args: Json)
    requires Tightens(tight, loose)
    ensures Verdict(loose, principal, tool, args).Deny? ==> Verdict(tight, principal, tool, args).Deny?
  {
    VerdictExact(tight, principal, tool, args);
    VerdictExact(loose, principal, tool, args);
    if Permits(tight, principal, tool, args) {
      forall arg | arg in BoundsOf(loose, tool) ensures Within(args, arg, BoundsOf(loose, tool)[arg]) {
        assert Within(args, arg, BoundsOf(tight, tool)[arg]);
      }
      assert Permits(loose, principal, tool, args);
    }
  }

  /** For a tool on the principal's list, only a constraint can deny. */
  lemma ListedDeniedByConstraint(rules: Rules, principal: string, tool: string, args: Json)
    requires tool in AllowedTools(rules, principal)
    ensures Verdict(rules, principal, tool, args).Deny?
            <==> exists arg :: arg in BoundsOf(rules, tool) && !Within(args, arg, BoundsOf(rules, tool)[arg])
  {
    VerdictExact(rules, principal, tool, args);
  }

  // ---------------------------------------------------------------------
  // Reading the rules file
  // ---------------------------------------------------------------------

  datatype RulesFile = RulesFile(allow: map<string, seq<string>>, bounds: map<string, Bounds>)

  const SUFFIX := "_max"

  function StripMax(key: string): Option<string>
  {
    if |key| > |SUFFIX| && key[|key| - |SUFFIX|..] == SUFFIX then Some(key[..|key| - |SUFFIX|]) else None
  }

  lemma StripMaxInverts(key: string, arg: string)
    ensures StripMax(key) == Some(arg) <==> arg != "" && key == arg + SUFFIX
  {
    if StripMax(key) == Some(arg) {
      assert key == key[..|key| - |SUFFIX|] + key[|key| - |SUFFIX|..];
    }
    if key == arg + SUFFIX {
      assert key[|key| - |SUFFIX|..] == SUFFIX && key[..|key| - |SUFFIX|] == arg;
    }
  }

  /** `args` holds the bound for `arg` exactly when the file sets `<arg>_max`,
      for the keys in `seen`. */
  ghost predicate Reads(args: Bounds, bounds: Bounds, seen: set<string>)
    requires seen <= bounds.Keys
  {
    && (forall key | key in seen :: StripMax(key).Some?)
    && (forall arg :: arg in args <==> arg != "" && arg + SUFFIX in seen)
    && (forall arg | arg in args :: args[arg] == bounds[arg + SUFFIX])
  }

  method ParseBounds(bounds: Bounds) returns (r: Result<Bounds>)
    ensures r.Ok? <==> forall key | key in bounds :: StripMax(key).Some?
    ensures r.Ok? ==> Reads(r.value, bounds, bounds.Keys)
  {
    var args: Bounds := map[];
    var todo := bounds.Keys;
    while todo != {}
      invariant todo <= bounds.Keys
      invariant Reads(args, bounds, bounds.Keys - todo)
      decreases todo
    {
      var key :| key in todo;
      var arg := StripMax(key);
      if arg.None? {
        return Err("only <arg>_max bounds are supported");
      }
      StripMaxInverts(key, arg.value);
      args := args[arg.value := bounds[key]];
      todo := todo - {key};
      assert forall a: string :: a + SUFFIX == key ==> a == arg.value by {
        forall a: string | a + SUFFIX == key ensures a == arg.value {
          assert a == (a + SUFFIX)[..|a|];
        }
      }
    }
    r := Ok(args);
  }

  method Parse(file: RulesFile) returns (r: Result<Rules>)
    ensures r.Ok? <==> forall tool, key | tool in file.bounds && key in file.bounds[tool] :: StripMax(key).Some?
    ensures r.Ok? ==>
      && (forall p, tool :: tool in AllowedTools(r.value, p) <==> p in file.allow && tool in file.allow[p])
      && r.value.constraints.Keys == file.bounds.Keys
      && forall tool | tool in file.bounds :: Reads(r.value.constraints[tool], file.bounds[tool], file.bounds[tool].Keys)
  {
    var principals := map p | p in file.allow :: set tool | tool in file.allow[p];
    var constraints: map<string, Bounds> := map[];
    var todo := file.bounds.Keys;
    while todo != {}
      invariant todo <= file.bounds.Keys
      invariant constraints.Keys == file.bounds.Keys - todo
      invariant forall tool | tool in constraints ::
        Reads(constraints[tool], file.bounds[tool], file.bounds[tool].Keys)
      decreases todo
    {
      var tool :| tool in todo;
      var args := ParseBounds(file.bounds[tool]);
      if args.Err? {
        return Err("constraint " + tool + ": " + args.error);
      }
      constraints := constraints[tool := args.value];
      todo := todo - {tool};
    }
    r := Ok(Rules(principals, constraints));
  }
}
