// How a tool that cannot keep its own name is spelled for a provider
// (internal/wire/toolname/name.go), and what that gives the allocation of names.
module ToolSpelling {
  import opened Wrappers
  import opened ToolNames

  const HASH_LENGTH := 16
  const READABLE_LIMIT := 42

  // Sixteen lower-case base-32 characters of a digest of the identity.
  type Digest = string -> string

  predicate Base32(c: char) {
    'a' <= c <= 'z' || '2' <= c <= '7'
  }

  predicate Hash(s: string) {
    |s| == HASH_LENGTH && forall i :: 0 <= i < |s| ==> Base32(s[i])
  }

  function NormalizedChar(c: char): char {
    if SafeChar(c) then c else '_'
  }

  function Normalized(s: string): string {
    if s == "" then "tool" else seq(|s|, i requires 0 <= i < |s| => NormalizedChar(s[i]))
  }

  method Normalize(value: string) returns (out: string)
    ensures out == Normalized(value)
  {
    out := "";
    for i := 0 to |value|
      invariant |out| == i && forall k :: 0 <= k < i ==> out[k] == NormalizedChar(value[k])
    {
      if SafeChar(value[i]) {
        out := out + [value[i]];
      } else {
        out := out + "_";
      }
    }
    if |out| == 0 {
      return "tool";
    }
  }

  // The normalized parts, two underscores apart.
  function Joined(parts: seq<string>): string {
    if parts == [] then ""
    else if |parts| == 1 then Normalized(parts[0])
    else Joined(parts[..|parts| - 1]) + "__" + Normalized(parts[|parts| - 1])
  }

  function Cut(s: string): string {
    if |s| > READABLE_LIMIT then s[..READABLE_LIMIT] else s
  }

  function Spelled(digest: Digest, identity: string, scope: seq<string>, leaf: string): string {
    GENERATED_PREFIX + Cut(Joined(scope + [leaf])) + "__" + digest(identity)
  }

  method Generate(digest: Digest, identity: string, scope: seq<string>, leaf: string) returns (name: string)
    ensures name == Spelled(digest, identity, scope, leaf)
  {
    var parts := scope + [leaf];
    var readable := "";
    for i := 0 to |parts|
      invariant readable == Joined(parts[..i])
    {
      var part := Normalize(parts[i]);
      assert parts[..i + 1][..i] == parts[..i];
      readable := if i == 0 then part else readable + "__" + part;
    }
    assert parts[..|parts|] == parts;
    if |readable| > READABLE_LIMIT {
      readable := readable[..READABLE_LIMIT];
    }
    name := GENERATED_PREFIX + readable + "__" + digest(identity);
  }

  // ---------------------------------------------------------------------- laws

  predicate AllSafe(s: string) {
    forall i :: 0 <= i < |s| ==> SafeChar(s[i])
  }

  // The characters a provider takes: letters, digits, underscore and hyphen.
  lemma SafeCharsAre(c: char)
    ensures SafeChar(c) <==>
            || 48 <= c as int <= 57 || 65 <= c as int <= 90 || 97 <= c as int <= 122
            || c as int == 45 || c as int == 95
  {
  }

  // Normalizing keeps the length and every safe character, and leaves no other.
  lemma NormalizedIsSafe(s: string)
    ensures AllSafe(Normalized(s)) && Normalized(s) != ""
    ensures s != "" ==> |Normalized(s)| == |s|
    ensures forall i :: 0 <= i < |s| ==> Normalized(s)[i] == if SafeChar(s[i]) then s[i] else '_'
    ensures s != "" && AllSafe(s) ==> Normalized(s) == s
  {
  }

  lemma {:induction false} JoinedIsSafe(parts: seq<string>)
    ensures AllSafe(Joined(parts))
    ensures parts != [] ==> Joined(parts) != ""
  {
    if |parts| == 1 {
      NormalizedIsSafe(parts[0]);
    } else if parts != [] {
      JoinedIsSafe(parts[..|parts| - 1]);
      NormalizedIsSafe(parts[|parts| - 1]);
    }
  }

  lemma SafeJoins(a: string, b: string)
    requires AllSafe(a) && AllSafe(b)
    ensures AllSafe(a + b)
  {
  }

  // Every generated name is one a provider takes, at most 63 long, carries the
  // reserved prefix and ends in its digest.
  lemma SpelledIsSafe(digest: Digest, identity: string, scope: seq<string>, leaf: string, name: string)
    requires Hash(digest(identity)) && name == Spelled(digest, identity, scope, leaf)
    ensures Safe(name) && |name| <= 63 && "s__" <= name
    ensures name[|name| - 16..] == digest(identity)
  {
    JoinedIsSafe(scope + [leaf]);
    var readable := Cut(Joined(scope + [leaf]));
    assert AllSafe(readable) && AllSafe("__") && AllSafe(GENERATED_PREFIX) && AllSafe(digest(identity));
    SafeJoins(GENERATED_PREFIX, readable);
    SafeJoins(GENERATED_PREFIX + readable, "__");
    SafeJoins(GENERATED_PREFIX + readable + "__", digest(identity));
  }

  // Different digests make different names, whatever the scopes and leaves.
  lemma DigestsTellApart(digest: Digest, a: string, b: string, x: seq<string>, y: seq<string>, p: string, q: string)
    requires Hash(digest(a)) && Hash(digest(b)) && digest(a) != digest(b)
    ensures Spelled(digest, a, x, p) != Spelled(digest, b, y, q)
  {
    SpelledIsSafe(digest, a, x, p, Spelled(digest, a, x, p));
    SpelledIsSafe(digest, b, y, q, Spelled(digest, b, y, q));
  }

  function Speller(digest: Digest, identity: Key -> string, scope: Key -> seq<string>): Generator {
    (key: Key) => Spelled(digest, identity(key), scope(key), key.name)
  }

  // The allocation fails for no set of keys whose identities the digest tells
  // apart, and every name it gives is one a provider takes.
  lemma AllocationSucceeds(digest: Digest, identity: Key -> string, scope: Key -> seq<string>, keys: set<Key>)
    requires forall k :: k in keys ==> Hash(digest(identity(k)))
    requires forall a, b :: a in keys && b in keys && digest(identity(a)) == digest(identity(b)) ==> a == b
    ensures Injective(keys, Speller(digest, identity, scope))
    ensures forall k :: k in keys ==> Safe(Final(keys, k, Speller(digest, identity, scope)))
  {
    var generated := Speller(digest, identity, scope);
    forall k | k in keys
      ensures GENERATED_PREFIX <= generated(k) && Safe(generated(k))
    {
      SpelledIsSafe(digest, identity(k), scope(k), k.name, generated(k));
    }
    forall a, b | a in keys && b in keys && generated(a) == generated(b)
      ensures a == b
    {
      if digest(identity(a)) != digest(identity(b)) {
        DigestsTellApart(digest, identity(a), identity(b), scope(a), scope(b), a.name, b.name);
      }
    }
    ReservedGeneratorNeverCollides(keys, generated);
    forall k | k in keys
      ensures Safe(Final(keys, k, generated))
    {
      NamesAreLocal(keys, k, generated);
    }
  }

  // A tool keeps its own name exactly when it is the request's own, has a name of
  // one to 63 safe characters outside the reserved prefix, and no other of the
  // request's own tools is called the same.
  lemma KeepsItsNameExactlyWhen(keys: set<Key>, key: Key, generated: Generator)
    requires key in keys && forall k :: k in keys ==> "s__" <= generated(k)
    ensures Final(keys, key, generated) == key.name && !("s__" <= key.name) <==>
            && key.namespace == "request" && 1 <= |key.name| <= 63 && AllSafe(key.name) && !("s__" <= key.name)
            && !(exists other :: other in keys && other != key && other.namespace == "request" && other.name == key.name)
    ensures !("s__" <= Final(keys, key, generated)) ==> Final(keys, key, generated) == key.name
  {
  }
}
