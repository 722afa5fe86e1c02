/** Acceptance of a static JSON Web Key Set (section 4 of RFC 7517): which key lists are
    accepted, and that neither their order nor unusable well-formed keys matter. */
module Jwks {

  datatype Json =
    | Null
    | Flag(b: bool)
    | Number(n: real)
    | Str(s: string)
    | Arr(items: seq<Json>)
    | Obj(fields: map<string, Json>)

  datatype Verdict =
    | Accepted
    | NoKeys
    | Malformed
    | MissingMaterial
    | DuplicateKid(kid: string)
    | NoUsableKeys

  const STRING_FIELDS: set<string> := {"kid", "use", "alg", "crv", "x5u"}
  const BASE64_FIELDS: set<string> :=
    {"n", "e", "x", "y", "d", "p", "q", "dp", "dq", "qi", "k", "x5t", "x5t#S256"}

  // ---------- one key ----------

  predicate IsBase64Char(c: char) {
    'A' <= c <= 'Z' || 'a' <= c <= 'z' || '0' <= c <= '9' || c == '_' || c == '-'
  }

  /** Unpadded base64url: a single character left over from groups of four decodes to nothing. */
  predicate IsBase64(s: string) {
    |s| > 0 && |s| % 4 != 1 && forall k | 0 <= k < |s| :: IsBase64Char(s[k])
  }

  predicate Has(key: Json, field: string) {
    key.Obj? && field in key.fields
  }

  predicate HasString(key: Json, field: string, value: string) {
    Has(key, field) && key.fields[field] == Str(value)
  }

  predicate WellFormed(key: Json) {
    && key.Obj?
    && "kty" in key.fields && key.fields["kty"].Str?
    && (forall f | f in STRING_FIELDS && f in key.fields :: key.fields[f].Str?)
    && ("key_ops" in key.fields ==>
          key.fields["key_ops"].Arr? && forall x | x in key.fields["key_ops"].items :: x.Str?)
    && (forall f | f in BASE64_FIELDS && f in key.fields :: key.fields[f].Str? && IsBase64(key.fields[f].s))
  }

  function Algorithm(key: Json): (a: string)
    requires WellFormed(key)
  {
    if HasString(key, "kty", "RSA") then "RS256"
    else if HasString(key, "kty", "EC") && HasString(key, "crv", "P-256") then "ES256"
    else ""
  }

  /** The key is one the runtime would select for checking signatures. */
  predicate Usable(key: Json, algorithms: seq<string>)
    requires WellFormed(key)
  {
    && Has(key, "kid") && key.fields["kid"] != Str("")
    && (Has(key, "use") ==> HasString(key, "use", "sig"))
    && (Has(key, "key_ops") ==> Str("verify") in key.fields["key_ops"].items)
    && Algorithm(key) != "" && Algorithm(key) in algorithms
    && (Has(key, "alg") ==> HasString(key, "alg", Algorithm(key)))
  }

  predicate Complete(key: Json)
    requires WellFormed(key)
  {
    if Algorithm(key) == "RS256" then Has(key, "n") && Has(key, "e") else Has(key, "x") && Has(key, "y")
  }

  function Kid(key: Json): string {
    if Has(key, "kid") && key.fields["kid"].Str? then key.fields["kid"].s else ""
  }

  // ---------- the list ----------

  predicate Selected(key: Json, algorithms: seq<string>) {
    WellFormed(key) && Usable(key, algorithms)
  }

  /** The acceptable lists, without regard to the order in which they are looked through. */
  ghost predicate Acceptable(keys: seq<Json>, algorithms: seq<string>) {
    && (forall k | k in keys :: WellFormed(k))
    && (forall k | k in keys && Selected(k, algorithms) :: Complete(k))
    && (forall i, j | 0 <= i < j < |keys| && Selected(keys[i], algorithms) && Selected(keys[j], algorithms) ::
          Kid(keys[i]) != Kid(keys[j]))
    && (exists k :: k in keys && Selected(k, algorithms))
  }

  /** The identifiers of the usable keys among the first `n`. */
  ghost predicate Collects(ids: set<string>, keys: seq<Json>, n: nat, algorithms: seq<string>)
    requires n <= |keys|
  {
    && (forall i | 0 <= i < n && Selected(keys[i], algorithms) :: Kid(keys[i]) in ids)
    && (forall id | id in ids :: exists i :: 0 <= i < n && Selected(keys[i], algorithms) && Kid(keys[i]) == id)
  }

  /** The verdict on the keys of a list, in order, behind usable keys with these identifiers. */
  function Checked(keys: seq<Json>, algorithms: seq<string>, ids: set<string>): Verdict {
    if keys == [] then (if ids == {} then NoUsableKeys else Accepted)
    else if !WellFormed(keys[0]) then Malformed
    else if !Usable(keys[0], algorithms) then Checked(keys[1..], algorithms, ids)
    else if !Complete(keys[0]) then MissingMaterial
    else if Kid(keys[0]) in ids then DuplicateKid(Kid(keys[0]))
    else Checked(keys[1..], algorithms, ids + {Kid(keys[0])})
  }

  method ValidateStaticJwks(jwks: Json, algorithms: seq<string>) returns (v: Verdict)
    ensures v == NoKeys <==> !(Has(jwks, "keys") && jwks.fields["keys"].Arr? && jwks.fields["keys"].items != [])
    ensures v.Accepted? <==> Has(jwks, "keys") && jwks.fields["keys"].Arr? && Acceptable(jwks.fields["keys"].items, algorithms)
    ensures v != NoKeys ==> Explains(v, jwks.fields["keys"].items, algorithms)
    ensures v != NoKeys ==> v == Checked(jwks.fields["keys"].items, algorithms, {})
  {
    if !jwks.Obj? || "keys" !in jwks.fields || !jwks.fields["keys"].Arr? || jwks.fields["keys"].items == [] {
      return NoKeys;
    }
    v := CheckKeys(jwks.fields["keys"].items, algorithms);
  }

  method CheckKeys(keys: seq<Json>, algorithms: seq<string>) returns (v: Verdict)
    requires keys != []
    ensures v != NoKeys && Explains(v, keys, algorithms)
    ensures v.Accepted? <==> Acceptable(keys, algorithms)
    ensures v == Checked(keys, algorithms, {})
  {
    hide WellFormed, Usable, Complete, Kid;
    var usableIds: set<string> := {};
    for n := 0 to |keys|
      invariant forall i | 0 <= i < n :: WellFormed(keys[i])
      invariant forall i | 0 <= i < n && Selected(keys[i], algorithms) :: Complete(keys[i])
      invariant forall i, j | 0 <= i < j < n && Selected(keys[i], algorithms) && Selected(keys[j], algorithms) ::
                  Kid(keys[i]) != Kid(keys[j])
      invariant Collects(usableIds, keys, n, algorithms)
      invariant Checked(keys[n..], algorithms, usableIds) == Checked(keys, algorithms, {})
    {
      var key := keys[n];
      assert keys[n..][1..] == keys[n + 1..];
      if !WellFormed(key) {
        return Malformed;
      }
      if Usable(key, algorithms) {
        if !Complete(key) {
          return MissingMaterial;
        }
        var kid := Kid(key);
        if kid in usableIds {
          return DuplicateKid(kid);
        }
        usableIds := usableIds + {kid};
      }
    }
    if usableIds == {} {
      return NoUsableKeys;
    }
    return Accepted;
  }

  /** A refusal names something that is wrong with the list. */
  ghost predicate Explains(v: Verdict, keys: seq<Json>, algorithms: seq<string>) {
    match v
    case Accepted => Acceptable(keys, algorithms)
    case NoKeys => keys == []
    case Malformed => exists k :: k in keys && !WellFormed(k)
    case MissingMaterial => exists k :: k in keys && Selected(k, algorithms) && !Complete(k)
    case DuplicateKid(kid) =>
      exists i, j :: 0 <= i < j < |keys| && Selected(keys[i], algorithms) && Selected(keys[j], algorithms)
                     && Kid(keys[i]) == Kid(keys[j]) == kid
    case NoUsableKeys => forall k | k in keys :: !Selected(k, algorithms)
  }

  // ---------- what makes a key count ----------

  /** The alphabet of section 5 of RFC 4648, by character codes. */
  predicate InAlphabet(code: int) {
    65 <= code <= 90 || 97 <= code <= 122 || 48 <= code <= 57 || code == 45 || code == 95
  }

  /** Unpadded base64url: groups of four characters, of which the last may have two or three. */
  predicate Unpadded(value: Json) {
    && value.Str? && value.s != "" && |value.s| % 4 in {0, 2, 3}
    && forall c | c in value.s :: InAlphabet(c as int)
  }

  predicate TextOrAbsent(key: map<string, Json>, field: string) {
    field in key ==> key[field].Str?
  }

  predicate IsOrAbsent(key: map<string, Json>, field: string, text: string) {
    field in key ==> key[field] == Str(text)
  }

  predicate UnpaddedOrAbsent(key: map<string, Json>, field: string) {
    field in key ==> Unpadded(key[field])
  }

  predicate OperationsOrAbsent(key: map<string, Json>) {
    "key_ops" in key ==> key["key_ops"].Arr? && forall x | x in key["key_ops"].items :: x.Str?
  }

  /** Every field that is looked at has the right form, field by field. */
  predicate Typed(key: map<string, Json>) {
    && "kty" in key && key["kty"].Str?
    && TextOrAbsent(key, "kid") && TextOrAbsent(key, "use") && TextOrAbsent(key, "alg")
    && TextOrAbsent(key, "crv") && TextOrAbsent(key, "x5u") && OperationsOrAbsent(key)
    && UnpaddedOrAbsent(key, "n") && UnpaddedOrAbsent(key, "e")
    && UnpaddedOrAbsent(key, "x") && UnpaddedOrAbsent(key, "y")
    && UnpaddedOrAbsent(key, "d") && UnpaddedOrAbsent(key, "p") && UnpaddedOrAbsent(key, "q")
    && UnpaddedOrAbsent(key, "dp") && UnpaddedOrAbsent(key, "dq") && UnpaddedOrAbsent(key, "qi")
    && UnpaddedOrAbsent(key, "k") && UnpaddedOrAbsent(key, "x5t") && UnpaddedOrAbsent(key, "x5t#S256")
  }

  /** Meant for checking signatures, as far as its identifier, use and operations say. */
  predicate ForSigning(key: map<string, Json>) {
    && "kid" in key && key["kid"] != Str("") && IsOrAbsent(key, "use", "sig")
    && ("key_ops" in key ==> key["key_ops"].Arr? && Str("verify") in key["key_ops"].items)
  }

  predicate IsRsa(key: map<string, Json>) { IsOrAbsent(key, "kty", "RSA") && IsOrAbsent(key, "alg", "RS256") }

  predicate IsEc(key: map<string, Json>) {
    && IsOrAbsent(key, "kty", "EC") && "crv" in key && key["crv"] == Str("P-256") && IsOrAbsent(key, "alg", "ES256")
  }

  lemma Base64Agrees(value: Json)
    ensures value.Str? && IsBase64(value.s) <==> Unpadded(value)
  {
    if value.Str? {
      assert forall c | c in value.s :: IsBase64Char(c) <==> InAlphabet(c as int);
    }
  }

  lemma TypedAgrees(key: Json)
    ensures WellFormed(key) <==> key.Obj? && Typed(key.fields)
  {
    hide IsBase64, Unpadded;
    if key.Obj? {
      forall f | f in key.fields
        ensures key.fields[f].Str? && IsBase64(key.fields[f].s) <==> Unpadded(key.fields[f])
      {
        Base64Agrees(key.fields[f]);
      }
    }
  }

  lemma UsableAgrees(key: Json, algorithms: seq<string>)
    requires key.Obj? && Typed(key.fields) && WellFormed(key)
    ensures Usable(key, algorithms)
            <==> ForSigning(key.fields) && ((IsRsa(key.fields) && "RS256" in algorithms)
                                            || (IsEc(key.fields) && "ES256" in algorithms))
    ensures Usable(key, algorithms) ==> Kid(key) == key.fields["kid"].s
    ensures Usable(key, algorithms) ==>
              (Complete(key) <==> if IsRsa(key.fields) then "n" in key.fields && "e" in key.fields
                                  else "x" in key.fields && "y" in key.fields)
  {
    hide Unpadded, IsBase64;
  }

  /** A field of the wrong type, or not unpadded base64url, is fatal wherever the key stands
      behind good ones; so is a key that is no object or has no string `kty`. */
  lemma IllTypedIsMalformed(key: Json, rest: seq<Json>, algorithms: seq<string>, ids: set<string>)
    ensures !key.Obj? || !Typed(key.fields) ==> Checked([key] + rest, algorithms, ids) == Malformed
  {
    TypedAgrees(key);
  }

  /** What a key does to the verdict. It counts for nothing unless it is meant for signing and
      is an RSA key with RS256 allowed or a P-256 key with ES256 allowed. One that counts needs
      its two numbers and an identifier no counted key in front of it has. */
  lemma KeyDecides(key: map<string, Json>, rest: seq<Json>, algorithms: seq<string>, ids: set<string>)
    requires Typed(key)
    ensures var rsa := IsRsa(key) && "RS256" in algorithms;
            var ec := IsEc(key) && "ES256" in algorithms;
            Checked([Obj(key)] + rest, algorithms, ids)
            == if !ForSigning(key) || !(rsa || ec) then Checked(rest, algorithms, ids)
               else if rsa && !("n" in key && "e" in key) then MissingMaterial
               else if ec && !("x" in key && "y" in key) then MissingMaterial
               else if key["kid"].s in ids then DuplicateKid(key["kid"].s)
               else Checked(rest, algorithms, ids + {key["kid"].s})
  {
    TypedAgrees(Obj(key));
    UsableAgrees(Obj(key), algorithms);
    hide WellFormed, Usable, Complete, Kid, Typed, ForSigning;
    assert ([Obj(key)] + rest)[1..] == rest;
  }

  /** One key alone is accepted exactly when it counts and is complete. */
  lemma OneKey(key: map<string, Json>, algorithms: seq<string>)
    requires Typed(key)
    ensures Checked([Obj(key)], algorithms, {}).Accepted?
            <==> && ForSigning(key)
                 && ((IsRsa(key) && "RS256" in algorithms && "n" in key && "e" in key)
                     || (IsEc(key) && "ES256" in algorithms && "x" in key && "y" in key))
  {
    assert [Obj(key)] + [] == [Obj(key)];
    KeyDecides(key, [], algorithms, {});
  }

  // ---------- order and unusable keys do not matter ----------

  /** How often the list holds a usable key with this identifier. */
  function Uses(keys: seq<Json>, algorithms: seq<string>, id: string): nat {
    if keys == [] then 0
    else (if Selected(keys[0], algorithms) && Kid(keys[0]) == id then 1 else 0) + Uses(keys[1..], algorithms, id)
  }

  lemma {:induction false} UsesCounts(keys: seq<Json>, algorithms: seq<string>, id: string)
    ensures Uses(keys, algorithms, id) > 0
            <==> exists i :: 0 <= i < |keys| && Selected(keys[i], algorithms) && Kid(keys[i]) == id
    ensures Uses(keys, algorithms, id) > 1
            <==> exists i, j :: 0 <= i < j < |keys| && Selected(keys[i], algorithms) && Selected(keys[j], algorithms)
                                && Kid(keys[i]) == id && Kid(keys[j]) == id
  {
    if keys != [] {
      UsesCounts(keys[1..], algorithms, id);
      assert forall i | 0 <= i < |keys| - 1 :: keys[1..][i] == keys[i + 1];
      assert forall i | 0 < i < |keys| :: keys[i] == keys[1..][i - 1];
    }
  }

  lemma {:induction false} UsesSplit(a: seq<Json>, b: seq<Json>, algorithms: seq<string>, id: string)
    ensures Uses(a + b, algorithms, id) == Uses(a, algorithms, id) + Uses(b, algorithms, id)
  {
    if a == [] {
      assert a + b == b;
    } else {
      UsesSplit(a[1..], b, algorithms, id);
      assert (a + b)[1..] == a[1..] + b;
    }
  }

  lemma WithoutOne(a: seq<Json>, b: seq<Json>, k: nat)
    requires a != [] && k < |b| && b[k] == a[0] && multiset(a) == multiset(b)
    ensures multiset(a[1..]) == multiset(b[..k] + b[k + 1..])
  {
    assert a == [a[0]] + a[1..];
    assert b == b[..k] + ([b[k]] + b[k + 1..]);
    assert multiset(a) == multiset{a[0]} + multiset(a[1..]);
    assert multiset(b) == multiset(b[..k]) + (multiset{b[k]} + multiset(b[k + 1..]));
    assert multiset(a[1..]) == multiset(a) - multiset{a[0]};
    assert multiset(b[..k] + b[k + 1..]) == multiset(b) - multiset{b[k]};
  }

  lemma UsesOfOne(key: Json, rest: seq<Json>, algorithms: seq<string>, id: string)
    ensures Uses([key] + rest, algorithms, id) == Uses([key], algorithms, id) + Uses(rest, algorithms, id)
  {
    UsesSplit([key], rest, algorithms, id);
  }

  lemma {:induction false} UsesDependOnContents(a: seq<Json>, b: seq<Json>, algorithms: seq<string>, id: string)
    requires multiset(a) == multiset(b)
    ensures Uses(a, algorithms, id) == Uses(b, algorithms, id)
    decreases |a|
  {
    if a == [] {
      assert |b| == |multiset(b)| == 0;
    } else {
      assert a[0] in multiset(a);
      var k :| 0 <= k < |b| && b[k] == a[0];
      hide Uses;
      WithoutOne(a, b, k);
      UsesDependOnContents(a[1..], b[..k] + b[k + 1..], algorithms, id);
      assert a == [a[0]] + a[1..] && b == b[..k] + ([b[k]] + b[k + 1..]);
      UsesOfOne(a[0], a[1..], algorithms, id);
      UsesSplit(b[..k], [b[k]] + b[k + 1..], algorithms, id);
      UsesOfOne(b[k], b[k + 1..], algorithms, id);
      UsesSplit(b[..k], b[k + 1..], algorithms, id);
    }
  }

  /** Acceptance in terms of contents alone. */
  ghost predicate AcceptableContents(keys: seq<Json>, algorithms: seq<string>) {
    && (forall k | k in keys :: WellFormed(k))
    && (forall k | k in keys && Selected(k, algorithms) :: Complete(k))
    && (forall id :: Uses(keys, algorithms, id) <= 1)
    && (exists k :: k in keys && Selected(k, algorithms))
  }

  lemma AcceptableByContents(keys: seq<Json>, algorithms: seq<string>)
    ensures Acceptable(keys, algorithms) <==> AcceptableContents(keys, algorithms)
  {
    forall id ensures Uses(keys, algorithms, id) > 1
        <==> exists i, j :: 0 <= i < j < |keys| && Selected(keys[i], algorithms) && Selected(keys[j], algorithms)
                            && Kid(keys[i]) == id && Kid(keys[j]) == id {
      UsesCounts(keys, algorithms, id);
    }
    if Acceptable(keys, algorithms) {
      assert forall id :: Uses(keys, algorithms, id) <= 1;
    }
    if AcceptableContents(keys, algorithms) {
      forall i, j | 0 <= i < j < |keys| && Selected(keys[i], algorithms) && Selected(keys[j], algorithms)
        ensures Kid(keys[i]) != Kid(keys[j])
      {
        assert Uses(keys, algorithms, Kid(keys[i])) <= 1;
      }
    }
  }

  /** The order of the keys does not matter. */
  lemma OrderDoesNotMatter(a: seq<Json>, b: seq<Json>, algorithms: seq<string>)
    requires multiset(a) == multiset(b)
    ensures Acceptable(a, algorithms) <==> Acceptable(b, algorithms)
  {
    AcceptableByContents(a, algorithms);
    AcceptableByContents(b, algorithms);
    forall id ensures Uses(a, algorithms, id) == Uses(b, algorithms, id) {
      UsesDependOnContents(a, b, algorithms, id);
    }
    assert forall k :: k in a <==> k in multiset(a);
    assert forall k :: k in b <==> k in multiset(b);
  }

  /** A well-formed key that the runtime would not select can be added anywhere. */
  lemma UnusableKeysDoNotMatter(a: seq<Json>, key: Json, b: seq<Json>, algorithms: seq<string>)
    requires WellFormed(key) && !Usable(key, algorithms)
    ensures Acceptable(a + [key] + b, algorithms) <==> Acceptable(a + b, algorithms)
  {
    AcceptableByContents(a + b, algorithms);
    AcceptableByContents(a + [key] + b, algorithms);
    forall id ensures Uses(a + [key] + b, algorithms, id) == Uses(a + b, algorithms, id) {
      UsesSplit(a + [key], b, algorithms, id);
      UsesSplit(a, [key], algorithms, id);
      UsesSplit(a, b, algorithms, id);
    }
    assert forall k :: k in a + [key] + b <==> k in a + b || k == key;
  }
}
