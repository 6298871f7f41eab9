/** Bearer tokens (section 2.1 of RFC 6750): one digest per principal, and a
    lookup that compares against all of them. */
module Tokens {
  import opened Text

  /** A SHA-256 digest, as its bytes. */
  type Digest = d: seq<bv8> | |d| == 32 witness seq(32, _ => 0)

  /** SHA-256, about which nothing is assumed. */
  type Hasher = string -> Digest

  /** The running OR of the XOR of two byte strings. */
  function Differences(a: seq<bv8>, b: seq<bv8>): bv8
    requires |a| == |b|
  {
    if a == [] then 0
    else Differences(a[..|a| - 1], b[..|b| - 1]) | (a[|a| - 1] ^ b[|b| - 1])
  }

  lemma LastByte(d: bv8, x: bv8, y: bv8)
    ensures d | (x ^ y) == 0 <==> d == 0 && x == y
  {
  }

  /** No difference is left exactly when the bytes are equal. */
  lemma {:induction false} DifferencesExact(a: seq<bv8>, b: seq<bv8>)
    requires |a| == |b|
    ensures Differences(a, b) == 0 <==> a == b
  {
    if a == [] {
    } else {
      var n := |a| - 1;
      DifferencesExact(a[..n], b[..n]);
      LastByte(Differences(a[..n], b[..n]), a[n], b[n]);
      assert a == a[..n] + [a[n]] && b == b[..n] + [b[n]];
    }
  }

  method ConstantTimeEq(a: Digest, b: Digest) returns (equal: bool)
    ensures equal <==> a == b
  {
    var diff: bv8 := 0;
    for i := 0 to 32
      invariant diff == Differences(a[..i], b[..i])
    {
      assert a[..i + 1][..i] == a[..i] && b[..i + 1][..i] == b[..i];
      diff := diff | (a[i] ^ b[i]);
    }
    assert a[..32] == a && b[..32] == b;
    DifferencesExact(a, b);
    equal := diff == 0;
  }

  /** A principal's token, or why it cannot be resolved. */
  type Configured = map<string, Result<string>>

  /** Every principal has a token, none is empty, and no two share one. */
  ghost predicate Accepted(hash: Hasher, config: Configured)
  {
    && (forall n | n in config :: config[n].Ok? && config[n].value != "")
    && (forall m, n | m in config && n in config && m != n ::
          config[m].Ok? && config[n].Ok? ==> hash(config[m].value) != hash(config[n].value))
  }

  ghost predicate DigestsOf(hash: Hasher, config: Configured, names: set<string>, digests: map<string, Digest>)
  {
    && digests.Keys == names <= config.Keys
    && (forall n | n in names :: config[n].Ok? && config[n].value != "" && digests[n] == hash(config[n].value))
    && (forall m, n | m in names && n in names && m != n :: digests[m] != digests[n])
  }

  lemma DigestsExtend(hash: Hasher, config: Configured, digests: map<string, Digest>, name: string)
    requires DigestsOf(hash, config, digests.Keys, digests) && name in config && name !in digests
    requires config[name].Ok? && config[name].value != ""
    requires forall n | n in digests :: digests[n] != hash(config[name].value)
    ensures var digests' := digests[name := hash(config[name].value)]; DigestsOf(hash, config, digests'.Keys, digests')
  {
  }

  lemma DigestsAccepted(hash: Hasher, config: Configured, digests: map<string, Digest>)
    requires DigestsOf(hash, config, config.Keys, digests)
    ensures Accepted(hash, config)
  {
    forall m, n | m in config && n in config && m != n ensures hash(config[m].value) != hash(config[n].value) {
      assert digests[m] != digests[n];
    }
  }

  /** What `seen` knows: the principal of every digest so far. */
  ghost predicate Inverse(seen: map<Digest, string>, digests: map<string, Digest>)
  {
    && (forall n | n in digests :: digests[n] in seen)
    && (forall d | d in seen :: seen[d] in digests && digests[seen[d]] == d)
  }

  lemma InverseExtends(seen: map<Digest, string>, digests: map<string, Digest>, name: string, d: Digest)
    requires Inverse(seen, digests) && name !in digests && d !in seen
    ensures Inverse(seen[d := name], digests[name := d])
  {
  }

  lemma SharedRefused(hash: Hasher, config: Configured, m: string, n: string)
    requires m in config && n in config && m != n && config[m].Ok? && config[n].Ok?
    requires hash(config[m].value) == hash(config[n].value)
    ensures !Accepted(hash, config)
  {
  }

  /** Succeeds exactly on an accepted configuration, with every digest. */
  method Resolve(hash: Hasher, config: Configured) returns (r: Result<map<string, Digest>>)
    ensures r.Ok? <==> Accepted(hash, config)
    ensures r.Ok? ==> DigestsOf(hash, config, config.Keys, r.value)
  {
    var digests: map<string, Digest> := map[];
    var seen: map<Digest, string> := map[];
    var names := InOrder(config.Keys);
    for i := 0 to |names|
      invariant DigestsOf(hash, config, digests.Keys, digests) && Inverse(seen, digests)
      invariant forall n :: n in digests <==> n in names[..i]
    {
      var name := names[i];
      assert name in names;
      LessIrreflexive(name);
      var token := config[name];
      if token.Err? {
        return Err("principal " + name + " token");
      }
      if token.value == "" {
        return Err("principal " + name + " token: the token is empty");
      }
      var digest := hash(token.value);
      if digest in seen {
        var other := seen[digest];
        SharedRefused(hash, config, other, name);
        return Err("principals " + other + " and " + name + " share a token");
      }
      InverseExtends(seen, digests, name, digest);
      DigestsExtend(hash, config, digests, name);
      seen := seen[digest := name];
      digests := digests[name := digest];
    }
    assert digests.Keys == config.Keys;
    DigestsAccepted(hash, config, digests);
    r := Ok(digests);
  }

  /** The scan visits every digest even after a hit. As the digests are distinct,
      it finds a name exactly when that principal's is the presented token's. */
  method PrincipalFor(hash: Hasher, digests: map<string, Digest>, token: string) returns (found: Option<string>)
    requires forall m, n | m in digests && n in digests && m != n :: digests[m] != digests[n]
    ensures forall n :: found == Some(n) <==> n in digests && digests[n] == hash(token)
  {
    var presented := hash(token);
    found := None;
    var names := InOrder(digests.Keys);
    for i := 0 to |names|
      invariant found.Some? ==> found.value in digests && digests[found.value] == presented
      invariant forall j | 0 <= j < i :: names[j] in digests && digests[names[j]] == presented ==> found == Some(names[j])
    {
      var name := names[i];
      assert name in names;
      var equal := ConstantTimeEq(presented, digests[name]);
      if equal {
        found := Some(name);
      }
    }
    assert forall n | n in digests :: n in names;
  }

  /** A request is authenticated as `n` exactly when the token configured for `n`
      has the digest of the one it presents. */
  method Authenticate(hash: Hasher, config: Configured, token: string) returns (r: Result<Option<string>>)
    ensures r.Ok? <==> Accepted(hash, config)
    ensures r.Ok? ==> forall n ::
      r.value == Some(n) <==> n in config && config[n].Ok? && hash(config[n].value) == hash(token)
    ensures r.Ok? && NoCollision(hash, config, token) ==>
      forall n :: r.value == Some(n) <==> n in config && config[n] == Ok(token)
  {
    var digests := Resolve(hash, config);
    if digests.Err? {
      return Err(digests.error);
    }
    var found := PrincipalFor(hash, digests.value, token);
    r := Ok(found);
  }

  /** The presented token collides with no configured token but itself. */
  ghost predicate NoCollision(hash: Hasher, config: Configured, token: string)
  {
    forall n | n in config && config[n].Ok? && hash(config[n].value) == hash(token) :: config[n].value == token
  }
}
