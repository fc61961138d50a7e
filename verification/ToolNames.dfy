// Provider-facing tool names for one attempt (internal/provider/tool_names.go and
// internal/wire/toolname/name.go).
module ToolNames {
  import opened Wrappers

  datatype Kind = Function | Custom | WebSearch | NamespaceKind | Discovery | Mcp

  datatype Key = Key(namespace: string, kind: Kind, name: string)

  datatype Declaration =
    | Callable(key: Key)
    | DiscoveryTool(key: Key, byClient: bool)
    | Namespace(tools: seq<Declaration>)
    | Fixed

  datatype Call = Call(tool: Key, discoveredByClient: bool)

  datatype NameError = Collision

  const REQUEST_NAMESPACE := "request"
  const MAX_LENGTH := 63
  const GENERATED_PREFIX := "s__"

  predicate SafeChar(c: char) {
    'a' <= c <= 'z' || 'A' <= c <= 'Z' || '0' <= c <= '9' || c == '_' || c == '-'
  }

  predicate Safe(name: string) {
    0 < |name| <= MAX_LENGTH && forall i :: 0 <= i < |name| ==> SafeChar(name[i])
  }

  predicate PreservableLiteral(name: string) {
    Safe(name) && !(GENERATED_PREFIX <= name)
  }

  // --------------------------------------------------------- which keys count

  function DeclaredKeys(d: Declaration): set<Key> {
    match d
    case Callable(key) => {key}
    case DiscoveryTool(key, byClient) => if byClient then {key} else {}
    case Namespace(tools) => set t, k | t in tools && k in DeclaredKeys(t) :: k
    case Fixed => {}
  }

  function AllDeclaredKeys(ds: seq<Declaration>): set<Key> {
    set d, k | d in ds && k in DeclaredKeys(d) :: k
  }

  predicate AttemptCallable(call: Call) {
    call.tool.kind == Function || call.tool.kind == Custom || (call.tool.kind == Discovery && call.discoveredByClient)
  }

  function CalledKeys(calls: seq<Call>): set<Key> {
    set c | c in calls && AttemptCallable(c) :: c.tool
  }

  function CallableKeys(ds: seq<Declaration>, calls: seq<Call>): set<Key> {
    AllDeclaredKeys(ds) + CalledKeys(calls)
  }

  predicate Distinct(keys: seq<Key>) {
    forall i, j :: 0 <= i < j < |keys| ==> keys[i] != keys[j]
  }

  function Elements(keys: seq<Key>): set<Key> {
    set k | k in keys
  }

  method AppendUnique(keys: seq<Key>, key: Key) returns (r: seq<Key>)
    requires Distinct(keys)
    ensures Distinct(r) && Elements(r) == Elements(keys) + {key} && keys <= r
  {
    for i := 0 to |keys|
      invariant key !in keys[..i]
    {
      if keys[i] == key {
        return keys;
      }
    }
    r := keys + [key];
  }

  method CollectDeclaration(keys: seq<Key>, declared: set<Key>, d: Declaration) returns (r: seq<Key>, after: set<Key>)
    requires Distinct(keys)
    ensures Distinct(r) && Elements(r) == Elements(keys) + DeclaredKeys(d) && after == declared + DeclaredKeys(d)
    decreases d
  {
    r, after := keys, declared;
    match d
    case Callable(key) =>
      r := AppendUnique(keys, key);
      after := declared + {key};
    case DiscoveryTool(key, byClient) =>
      if byClient {
        r := AppendUnique(keys, key);
        after := declared + {key};
      }
    case Namespace(tools) =>
      for i := 0 to |tools|
        invariant Distinct(r) && Elements(r) == Elements(keys) + AllDeclaredKeys(tools[..i])
        invariant after == declared + AllDeclaredKeys(tools[..i])
      {
        AllDeclaredMore(tools, i);
        r, after := CollectDeclaration(r, after, tools[i]);
      }
      assert tools[..|tools|] == tools;
    case Fixed =>
  }

  lemma AllDeclaredMore(ds: seq<Declaration>, i: nat)
    requires i < |ds|
    ensures AllDeclaredKeys(ds[..i + 1]) == AllDeclaredKeys(ds[..i]) + DeclaredKeys(ds[i])
  {
    assert ds[..i + 1] == ds[..i] + [ds[i]];
    forall k | k in AllDeclaredKeys(ds[..i]) + DeclaredKeys(ds[i]) ensures k in AllDeclaredKeys(ds[..i + 1]) {
      if k in DeclaredKeys(ds[i]) {
        assert ds[i] in ds[..i + 1];
      } else {
        var d :| d in ds[..i] && k in DeclaredKeys(d);
        assert d in ds[..i + 1];
      }
    }
  }

  method CollectKeys(ds: seq<Declaration>, calls: seq<Call>) returns (keys: seq<Key>, declared: set<Key>)
    ensures Distinct(keys) && Elements(keys) == CallableKeys(ds, calls) && declared == AllDeclaredKeys(ds)
  {
    keys, declared := [], {};
    for i := 0 to |ds|
      invariant Distinct(keys) && Elements(keys) == AllDeclaredKeys(ds[..i]) && declared == AllDeclaredKeys(ds[..i])
    {
      AllDeclaredMore(ds, i);
      keys, declared := CollectDeclaration(keys, declared, ds[i]);
    }
    assert ds[..|ds|] == ds;
    for i := 0 to |calls|
      invariant Distinct(keys) && Elements(keys) == AllDeclaredKeys(ds) + CalledKeys(calls[..i])
    {
      assert calls[..i + 1] == calls[..i] + [calls[i]];
      if AttemptCallable(calls[i]) {
        keys := AppendUnique(keys, calls[i].tool);
      }
    }
    assert calls[..|calls|] == calls;
  }

  // ------------------------------------------------------- the names they get

  // How a key that cannot keep its own name is spelled: any function of the key.
  type Generator = Key -> string

  predicate KeepsLiteral(key: Key) {
    key.namespace == REQUEST_NAMESPACE && PreservableLiteral(key.name)
  }

  function Base(key: Key, generated: Generator): string {
    if KeepsLiteral(key) then key.name else generated(key)
  }

  predicate Shared(keys: set<Key>, key: Key, generated: Generator) {
    exists other :: other in keys && other != key && Base(other, generated) == Base(key, generated)
  }

  // The name of a key depends on the set of keys alone.
  function Final(keys: set<Key>, key: Key, generated: Generator): string {
    if Shared(keys, key, generated) then generated(key) else Base(key, generated)
  }

  ghost predicate Injective(keys: set<Key>, generated: Generator) {
    forall a, b :: a in keys && b in keys && Final(keys, a, generated) == Final(keys, b, generated) ==> a == b
  }

  datatype Names = Names(byCanonical: map<Key, string>, byWire: map<string, Key>)

  // The two maps are inverse bijections over exactly these keys.
  ghost predicate Inverse(names: Names, keys: set<Key>) {
    && names.byCanonical.Keys == keys
    && (forall k :: k in names.byCanonical ==> names.byCanonical[k] in names.byWire && names.byWire[names.byCanonical[k]] == k)
    && (forall w :: w in names.byWire ==> names.byWire[w] in names.byCanonical && names.byCanonical[names.byWire[w]] == w)
  }

  function CountBase(keys: seq<Key>, base: string, generated: Generator): nat {
    if keys == [] then 0
    else CountBase(keys[..|keys| - 1], base, generated) + if Base(keys[|keys| - 1], generated) == base then 1 else 0
  }

  lemma {:induction false} CountPositive(keys: seq<Key>, base: string, generated: Generator)
    ensures CountBase(keys, base, generated) > 0 <==> exists k :: k in keys && Base(k, generated) == base
  {
    if keys != [] {
      CountPositive(keys[..|keys| - 1], base, generated);
      var last := keys[|keys| - 1];
      assert keys == keys[..|keys| - 1] + [last];
    }
  }

  // More than one distinct key has a base name exactly when its owner shares it.
  lemma {:induction false} CountShared(keys: seq<Key>, key: Key, generated: Generator)
    requires Distinct(keys) && key in keys
    ensures CountBase(keys, Base(key, generated), generated) > 1 <==> Shared(Elements(keys), key, generated)
  {
    var init, last := keys[..|keys| - 1], keys[|keys| - 1];
    var base := Base(key, generated);
    assert keys == init + [last];
    CountPositive(init, base, generated);
    if last == key {
      assert key !in init;
      assert (exists k :: k in init && Base(k, generated) == base) <==> Shared(Elements(keys), key, generated) by {
        if Shared(Elements(keys), key, generated) {
          var other :| other in Elements(keys) && other != key && Base(other, generated) == base;
          assert other in init;
        }
      }
    } else {
      CountShared(init, key, generated);
      if Shared(Elements(keys), key, generated) && Base(last, generated) != base {
        var other :| other in Elements(keys) && other != key && Base(other, generated) == base;
        assert other in Elements(init);
      }
      if Shared(Elements(init), key, generated) {
        var other :| other in Elements(init) && other != key && Base(other, generated) == base;
        assert other in Elements(keys);
      }
      assert Base(last, generated) == base ==> last in Elements(keys);
    }
  }

  ghost predicate Counted(keys: seq<Key>, bases: map<Key, string>, counts: map<string, nat>, generated: Generator) {
    && bases.Keys == Elements(keys)
    && (forall k :: k in bases ==> bases[k] == Base(k, generated))
    && (forall k :: k in keys ==>
          Base(k, generated) in counts && counts[Base(k, generated)] == CountBase(keys, Base(k, generated), generated))
  }

  method ChooseWire(keys: seq<Key>, key: Key, bases: map<Key, string>, counts: map<string, nat>, generated: Generator)
    returns (wire: string)
    requires Distinct(keys) && key in keys && Counted(keys, bases, counts, generated)
    ensures wire == Final(Elements(keys), key, generated)
  {
    CountShared(keys, key, generated);
    wire := bases[key];
    if counts[wire] > 1 {
      wire := generated(key);
    }
  }

  // How many keys have each base name.
  ghost predicate Tallied(keys: seq<Key>, counts: map<string, nat>, generated: Generator) {
    forall w :: (w in counts <==> CountBase(keys, w, generated) > 0)
                && (w in counts ==> counts[w] == CountBase(keys, w, generated))
  }

  lemma TallyGrows(keys: seq<Key>, key: Key, counts: map<string, nat>, generated: Generator)
    requires Tallied(keys, counts, generated)
    ensures var wire := Base(key, generated);
            Tallied(keys + [key], counts[wire := 1 + if wire in counts then counts[wire] else 0], generated)
  {
    assert (keys + [key])[..|keys|] == keys;
  }

  method CountBases(keys: seq<Key>, generated: Generator) returns (bases: map<Key, string>, counts: map<string, nat>)
    ensures Counted(keys, bases, counts, generated)
  {
    bases, counts := map[], map[];
    for i := 0 to |keys|
      invariant bases.Keys == Elements(keys[..i]) && forall k :: k in bases ==> bases[k] == Base(k, generated)
      invariant Tallied(keys[..i], counts, generated)
    {
      assert keys[..i + 1] == keys[..i] + [keys[i]];
      var wire := Base(keys[i], generated);
      TallyGrows(keys[..i], keys[i], counts, generated);
      bases := bases[keys[i] := wire];
      counts := counts[wire := 1 + if wire in counts then counts[wire] else 0];
    }
    assert keys[..|keys|] == keys;
    forall k | k in keys ensures Base(k, generated) in counts {
      CountPositive(keys, Base(k, generated), generated);
    }
  }

  // The declared keys that do not keep their own name.
  predicate Renamed(key: Key, declared: set<Key>, keys: set<Key>, generated: Generator) {
    key in declared && Final(keys, key, generated) != key.name
  }

  // The renamed keys among those seen, each once.
  ghost predicate Reports(changes: seq<Key>, seen: seq<Key>, declared: set<Key>, keys: set<Key>, generated: Generator) {
    && Distinct(changes)
    && forall k :: k in changes <==> k in seen && Renamed(k, declared, keys, generated)
  }

  lemma ReportsGrow(changes: seq<Key>, seen: seq<Key>, key: Key, declared: set<Key>, keys: set<Key>, generated: Generator)
    requires Reports(changes, seen, declared, keys, generated) && key !in seen
    ensures Reports(if Renamed(key, declared, keys, generated) then changes + [key] else changes,
                    seen + [key], declared, keys, generated)
  {
  }

  // A bijection so far takes one more key whose name is new.
  lemma InverseGrows(names: Names, keys: set<Key>, key: Key, wire: string)
    requires Inverse(names, keys) && key !in keys && wire !in names.byWire
    ensures Inverse(Names(names.byCanonical[key := wire], names.byWire[wire := key]), keys + {key})
  {
  }

  ghost predicate Named(byCanonical: map<Key, string>, keys: set<Key>, generated: Generator) {
    forall k :: k in byCanonical ==> byCanonical[k] == Final(keys, k, generated)
  }

  lemma NamedGrows(byCanonical: map<Key, string>, keys: set<Key>, key: Key, wire: string, generated: Generator)
    requires Named(byCanonical, keys, generated) && wire == Final(keys, key, generated)
    ensures Named(byCanonical[key := wire], keys, generated)
  {
  }

  lemma PrefixGrows(keys: seq<Key>, i: nat)
    requires Distinct(keys) && i < |keys|
    ensures keys[..i + 1] == keys[..i] + [keys[i]] && keys[i] !in keys[..i] && keys[i] in keys
    ensures Elements(keys[..i + 1]) == Elements(keys[..i]) + {keys[i]} && Elements(keys[..i]) <= Elements(keys)
  {
  }

  lemma CollisionRefutes(names: Names, seen: set<Key>, keys: set<Key>, key: Key, generated: Generator)
    requires Inverse(names, seen) && Named(names.byCanonical, keys, generated) && seen <= keys && key in keys
    requires var wire := Final(keys, key, generated); wire in names.byWire && names.byWire[wire] != key
    ensures !Injective(keys, generated)
  {
    assert names.byWire[Final(keys, key, generated)] in seen;
  }

  lemma InverseIsInjective(names: Names, keys: set<Key>, generated: Generator)
    requires Inverse(names, keys) && Named(names.byCanonical, keys, generated)
    ensures Injective(keys, generated)
  {
  }

  // The keys seen so far are named one to one, and the renamed ones reported.
  ghost predicate Allocated(
    names: Names, changes: seq<Key>, seen: seq<Key>, declared: set<Key>, keys: set<Key>, generated: Generator)
  {
    && Inverse(names, Elements(seen)) && Named(names.byCanonical, keys, generated)
    && Reports(changes, seen, declared, keys, generated)
  }

  lemma AllocatedGrows(
    names: Names, changes: seq<Key>, seen: seq<Key>, key: Key, wire: string, declared: set<Key>, keys: set<Key>,
    generated: Generator)
    requires Allocated(names, changes, seen, declared, keys, generated) && key !in seen
    requires wire == Final(keys, key, generated) && wire !in names.byWire
    ensures Allocated(Names(names.byCanonical[key := wire], names.byWire[wire := key]),
                      if key in declared && wire != key.name then changes + [key] else changes,
                      seen + [key], declared, keys, generated)
  {
    InverseGrows(names, Elements(seen), key, wire);
    NamedGrows(names.byCanonical, keys, key, wire, generated);
    ReportsGrow(changes, seen, key, declared, keys, generated);
    assert Elements(seen + [key]) == Elements(seen) + {key};
  }

  method AllocateNames(keys: seq<Key>, declared: set<Key>, generated: Generator)
    returns (r: Result<Names, NameError>, changes: seq<Key>)
    requires Distinct(keys)
    ensures r.Ok? <==> Injective(Elements(keys), generated)
    ensures r.Ok? ==> Inverse(r.value, Elements(keys)) && Named(r.value.byCanonical, Elements(keys), generated)
    ensures r.Ok? ==> Reports(changes, keys, declared, Elements(keys), generated)
  {
    var bases, counts := CountBases(keys, generated);
    ghost var all := Elements(keys);
    var names := Names(map[], map[]);
    changes := [];
    for i := 0 to |keys|
      invariant Allocated(names, changes, keys[..i], declared, all, generated)
    {
      var key := keys[i];
      PrefixGrows(keys, i);
      var wire := ChooseWire(keys, key, bases, counts, generated);
      if wire in names.byWire && names.byWire[wire] != key {
        CollisionRefutes(names, Elements(keys[..i]), all, key, generated);
        return Err(Collision), [];
      }
      AllocatedGrows(names, changes, keys[..i], key, wire, declared, all, generated);
      names := Names(names.byCanonical[key := wire], names.byWire[wire := key]);
      if key in declared && wire != key.name {
        changes := changes + [key];
      }
    }
    assert keys[..|keys|] == keys;
    InverseIsInjective(names, all, generated);
    r := Ok(names);
  }

  // Success depends on the callable keys alone, and then names them one to one.
  method BuildNames(ds: seq<Declaration>, calls: seq<Call>, generated: Generator)
    returns (r: Result<Names, NameError>, changes: seq<Key>)
    ensures r.Ok? <==> Injective(CallableKeys(ds, calls), generated)
    ensures r.Ok? ==> Inverse(r.value, CallableKeys(ds, calls))
    ensures r.Ok? ==> Named(r.value.byCanonical, CallableKeys(ds, calls), generated)
    ensures r.Ok? ==> Distinct(changes)
    ensures r.Ok? ==>
              forall k :: k in changes <==>
                k in AllDeclaredKeys(ds) && k in r.value.byCanonical && r.value.byCanonical[k] != k.name
  {
    var keys, declared := CollectKeys(ds, calls);
    r, changes := AllocateNames(keys, declared, generated);
    assert forall k :: k in keys <==> k in Elements(keys);
  }

  // Looking a key up, and a name.
  function WireName(names: Names, key: Key): Option<string> {
    if key in names.byCanonical then Some(names.byCanonical[key]) else None
  }

  function CanonicalKey(names: Names, wire: string): Option<Key> {
    if wire in names.byWire then Some(names.byWire[wire]) else None
  }

  // ---------------------------------------------------------------------- laws

  // Each lookup undoes the other, and a key has a name exactly when it counts.
  lemma LookupsAreInverse(names: Names, keys: set<Key>, key: Key, wire: string)
    requires Inverse(names, keys)
    ensures WireName(names, key) == Some(wire) <==> CanonicalKey(names, wire) == Some(key)
    ensures WireName(names, key).Some? <==> key in keys
  {
  }

  lemma NamespaceKeys(ds: seq<Declaration>)
    ensures DeclaredKeys(Namespace(ds)) == AllDeclaredKeys(ds)
  {
  }

  // ------------------------------------------------------------ which keys count

  // The declaration at the end of a path of positions, if there is one.
  function Reached(d: Declaration, path: seq<nat>): Option<Declaration>
    decreases |path|
  {
    if path == [] then Some(d)
    else if d.Namespace? && path[0] < |d.tools| then Reached(d.tools[path[0]], path[1..])
    else None
  }

  // A function or custom tool, or a discovery the client makes, of this key.
  predicate Declares(d: Declaration, key: Key) {
    d == Callable(key) || d == DiscoveryTool(key, true)
  }

  // A call of this key to a function, a custom tool, or the client's own discovery.
  predicate Recallable(call: Call, key: Key) {
    call.tool == key && (key.kind in {Function, Custom} || (key.kind == Discovery && call.discoveredByClient))
  }

  lemma {:induction false} DeclaredIsReached(d: Declaration, key: Key) returns (path: seq<nat>)
    requires key in DeclaredKeys(d)
    ensures Reached(d, path).Some? && Declares(Reached(d, path).value, key)
    decreases d
  {
    path := [];
    if d.Namespace? {
      var t :| t in d.tools && key in DeclaredKeys(t);
      var i :| 0 <= i < |d.tools| && d.tools[i] == t;
      var rest := DeclaredIsReached(d.tools[i], key);
      path := [i] + rest;
      assert path[1..] == rest;
    }
  }

  lemma {:induction false} ReachedIsDeclared(d: Declaration, path: seq<nat>, key: Key)
    requires Reached(d, path).Some? && Declares(Reached(d, path).value, key)
    ensures key in DeclaredKeys(d)
    decreases |path|
  {
    if path != [] {
      ReachedIsDeclared(d.tools[path[0]], path[1..], key);
      assert d.tools[path[0]] in d.tools;
    }
  }

  // The keys that are named: those of the callable declarations, however deep in
  // namespaces, and those of earlier calls a client could make again.
  lemma CallableExactlyWhen(ds: seq<Declaration>, calls: seq<Call>, key: Key)
    ensures key in CallableKeys(ds, calls) <==>
            || (exists path: seq<nat> ::
                  Reached(Namespace(ds), path).Some? && Declares(Reached(Namespace(ds), path).value, key))
            || (exists i :: 0 <= i < |calls| && Recallable(calls[i], key))
  {
    NamespaceKeys(ds);
    if key in AllDeclaredKeys(ds) {
      var path := DeclaredIsReached(Namespace(ds), key);
    }
    if path: seq<nat> :| Reached(Namespace(ds), path).Some? && Declares(Reached(Namespace(ds), path).value, key) {
      ReachedIsDeclared(Namespace(ds), path, key);
    }
    if key in CalledKeys(calls) {
      var c :| c in calls && AttemptCallable(c) && c.tool == key;
      var i :| 0 <= i < |calls| && calls[i] == c;
      assert Recallable(calls[i], key);
    }
    if i :| 0 <= i < |calls| && Recallable(calls[i], key) {
      assert calls[i] in calls;
    }
  }

  // Exchanging members i and j of the namespace reached by the path; anything
  // that names no such members is left alone.
  function Exchange(d: Declaration, path: seq<nat>, i: nat, j: nat): Declaration
    decreases |path|
  {
    if !d.Namespace? then d
    else if path == [] then
      if i < |d.tools| && j < |d.tools| then Namespace(d.tools[i := d.tools[j]][j := d.tools[i]]) else d
    else if path[0] < |d.tools| then
      Namespace(d.tools[path[0] := Exchange(d.tools[path[0]], path[1..], i, j)])
    else d
  }

  lemma ReplacedKeys(ds: seq<Declaration>, k: nat, e: Declaration)
    requires k < |ds| && DeclaredKeys(e) == DeclaredKeys(ds[k])
    ensures AllDeclaredKeys(ds[k := e]) == AllDeclaredKeys(ds)
  {
    var es := ds[k := e];
    forall d | d in ds ensures exists x :: x in es && DeclaredKeys(x) == DeclaredKeys(d) {
      var i :| 0 <= i < |ds| && ds[i] == d;
      assert es[i] in es && DeclaredKeys(es[i]) == DeclaredKeys(d);
    }
    forall x | x in es ensures exists d :: d in ds && DeclaredKeys(d) == DeclaredKeys(x) {
      var i :| 0 <= i < |es| && es[i] == x;
      assert ds[i] in ds && DeclaredKeys(ds[i]) == DeclaredKeys(x);
    }
  }

  lemma ExchangedKeys(ds: seq<Declaration>, i: nat, j: nat)
    requires i < |ds| && j < |ds|
    ensures AllDeclaredKeys(ds[i := ds[j]][j := ds[i]]) == AllDeclaredKeys(ds)
  {
    var es := ds[i := ds[j]][j := ds[i]];
    assert es[i] == ds[j] && es[j] == ds[i] && forall k :: 0 <= k < |ds| && k != i && k != j ==> es[k] == ds[k];
    assert forall d :: d in ds <==> d in es;
  }

  lemma {:induction false} ExchangeKeepsKeys(d: Declaration, path: seq<nat>, i: nat, j: nat)
    ensures DeclaredKeys(Exchange(d, path, i, j)) == DeclaredKeys(d)
    decreases |path|
  {
    var e := Exchange(d, path, i, j);
    if d.Namespace? && e != d {
      NamespaceKeys(d.tools);
      NamespaceKeys(e.tools);
      if path == [] {
        ExchangedKeys(d.tools, i, j);
      } else {
        ExchangeKeepsKeys(d.tools[path[0]], path[1..], i, j);
        ReplacedKeys(d.tools, path[0], Exchange(d.tools[path[0]], path[1..], i, j));
      }
    }
  }

  datatype Move = Move(path: seq<nat>, i: nat, j: nat)

  function Reordered(d: Declaration, moves: seq<Move>): Declaration
    decreases |moves|
  {
    if moves == [] then d else Reordered(Exchange(d, moves[0].path, moves[0].i, moves[0].j), moves[1..])
  }

  lemma {:induction false} ReorderedKeys(d: Declaration, moves: seq<Move>)
    ensures DeclaredKeys(Reordered(d, moves)) == DeclaredKeys(d)
    decreases |moves|
  {
    if moves != [] {
      ExchangeKeepsKeys(d, moves[0].path, moves[0].i, moves[0].j);
      ReorderedKeys(Exchange(d, moves[0].path, moves[0].i, moves[0].j), moves[1..]);
    }
  }

  // Declarations reordered in any way and at any depth, and history in any
  // order: the same keys, so the same success, names and maps for every generator.
  lemma AllocationForgetsOrder(
    a: seq<Declaration>, b: seq<Declaration>, moves: seq<Move>, x: seq<Call>, y: seq<Call>, m: Names, n: Names,
    generated: Generator)
    requires Reordered(Namespace(a), moves) == Namespace(b) && forall c :: c in x <==> c in y
    ensures Injective(CallableKeys(a, x), generated) <==> Injective(CallableKeys(b, y), generated)
    ensures && Inverse(m, CallableKeys(a, x)) && Named(m.byCanonical, CallableKeys(a, x), generated)
            && Inverse(n, CallableKeys(b, y)) && Named(n.byCanonical, CallableKeys(b, y), generated)
            ==> m == n
  {
    SameCallableKeys(a, b, moves, x, y);
    if && Inverse(m, CallableKeys(a, x)) && Named(m.byCanonical, CallableKeys(a, x), generated)
       && Inverse(n, CallableKeys(b, y)) && Named(n.byCanonical, CallableKeys(b, y), generated)
    {
      AllocationIsUnique(m, n, CallableKeys(a, x), generated);
    }
  }

  lemma SameCallableKeys(a: seq<Declaration>, b: seq<Declaration>, moves: seq<Move>, x: seq<Call>, y: seq<Call>)
    requires Reordered(Namespace(a), moves) == Namespace(b) && forall c :: c in x <==> c in y
    ensures CallableKeys(a, x) == CallableKeys(b, y)
  {
    ReorderedKeys(Namespace(a), moves);
    NamespaceKeys(a);
    NamespaceKeys(b);
    assert CalledKeys(x) == CalledKeys(y);
  }

  // Two allocations over the same keys are the same in both directions.
  lemma AllocationIsUnique(m: Names, n: Names, keys: set<Key>, generated: Generator)
    requires Inverse(m, keys) && Inverse(n, keys)
    requires Named(m.byCanonical, keys, generated) && Named(n.byCanonical, keys, generated)
    ensures m == n
  {
    assert m.byCanonical == n.byCanonical;
    forall w ensures w in m.byWire <==> w in n.byWire {
      if w in m.byWire {
        assert n.byCanonical[m.byWire[w]] == w;
      }
      if w in n.byWire {
        assert m.byCanonical[n.byWire[w]] == w;
      }
    }
    forall w | w in m.byWire ensures m.byWire[w] == n.byWire[w] {
      assert n.byCanonical[m.byWire[w]] == w;
    }
    assert m.byWire == n.byWire;
  }

  // A generator that tells keys apart and stays in its reserved prefix never
  // makes the allocation fail.
  lemma ReservedGeneratorNeverCollides(keys: set<Key>, generated: Generator)
    requires forall k :: k in keys ==> GENERATED_PREFIX <= generated(k)
    requires forall a, b :: a in keys && b in keys && generated(a) == generated(b) ==> a == b
    ensures Injective(keys, generated)
  {
    forall a, b | a in keys && b in keys && Final(keys, a, generated) == Final(keys, b, generated) ensures a == b {
      assert Base(a, generated) == Base(b, generated) && a != b ==>
          Shared(keys, a, generated) && Shared(keys, b, generated);
    }
  }

  // A key that cannot keep its name is spelled the same whatever else is there;
  // one that can loses it only to another key of that name.
  lemma NamesAreLocal(keys: set<Key>, key: Key, generated: Generator)
    requires key in keys
    ensures !KeepsLiteral(key) ==> Final(keys, key, generated) == generated(key)
    ensures KeepsLiteral(key) && !Shared(keys, key, generated) ==> Final(keys, key, generated) == key.name
    ensures Safe(generated(key)) ==> Safe(Final(keys, key, generated))
  {
  }
}
