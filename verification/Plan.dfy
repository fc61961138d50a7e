// The attempt order of a route (internal/routing/plan.go): inside each tier the
// targets are sorted by ID and shuffled from a seed, and the tiers are joined in
// fallback order.
module Plan {
  import opened Routing

  // ----------------------------------------------------------- order by ID

  predicate Less(a: string, b: string) {
    if b == "" then false
    else if a == "" then true
    else if a[0] != b[0] then a[0] < b[0]
    else Less(a[1..], b[1..])
  }

  lemma {:induction false} LessTotal(a: string, b: string)
    ensures a == b || Less(a, b) || Less(b, a)
    ensures Less(a, b) ==> a != b && !Less(b, a)
    decreases |a|
  {
    if a != "" && b != "" && a[0] == b[0] {
      LessTotal(a[1..], b[1..]);
      assert a[1..] == b[1..] ==> a == [a[0]] + b[1..] == b;
    }
  }

  lemma {:induction false} LessTransitive(a: string, b: string, c: string)
    requires Less(a, b) && Less(b, c)
    ensures Less(a, c)
    decreases |a|
  {
    if a != "" && a[0] == b[0] == c[0] {
      LessTransitive(a[1..], b[1..], c[1..]);
    }
  }

  predicate Ascending(targets: seq<Target>) {
    forall i, j :: 0 <= i < j < |targets| ==> Less(targets[i].id, targets[j].id)
  }

  function Insert(sorted: seq<Target>, t: Target): seq<Target> {
    if sorted == [] then [t]
    else if Less(t.id, sorted[|sorted| - 1].id) then
      Insert(sorted[..|sorted| - 1], t) + [sorted[|sorted| - 1]]
    else sorted + [t]
  }

  function SortById(targets: seq<Target>): seq<Target> {
    if targets == [] then [] else Insert(SortById(targets[..|targets| - 1]), targets[|targets| - 1])
  }

  lemma {:induction false} InsertKeeps(sorted: seq<Target>, t: Target)
    ensures multiset(Insert(sorted, t)) == multiset(sorted) + multiset{t}
  {
    if sorted != [] && Less(t.id, sorted[|sorted| - 1].id) {
      InsertKeeps(sorted[..|sorted| - 1], t);
      assert sorted == sorted[..|sorted| - 1] + [sorted[|sorted| - 1]];
    }
  }

  lemma {:induction false} InsertAscends(sorted: seq<Target>, t: Target)
    requires Ascending(sorted) && forall s :: s in sorted ==> s.id != t.id
    ensures Ascending(Insert(sorted, t))
  {
    if sorted != [] {
      var init, last := sorted[..|sorted| - 1], sorted[|sorted| - 1];
      if Less(t.id, last.id) {
        InsertAscends(init, t);
        InsertKeeps(init, t);
        forall s | s in Insert(init, t) ensures Less(s.id, last.id) {
          assert s in multiset(Insert(init, t));
        }
        AppendAscends(Insert(init, t), last);
      } else {
        LessTotal(t.id, last.id);
        forall s | s in sorted ensures Less(s.id, t.id) {
          if s != last {
            LessTransitive(s.id, last.id, t.id);
          }
        }
        AppendAscends(sorted, t);
      }
    }
  }

  lemma AppendAscends(sorted: seq<Target>, t: Target)
    requires Ascending(sorted) && forall s :: s in sorted ==> Less(s.id, t.id)
    ensures Ascending(sorted + [t])
  {
  }

  lemma {:induction false} SortKeeps(targets: seq<Target>)
    ensures multiset(SortById(targets)) == multiset(targets)
  {
    if targets != [] {
      var init, last := targets[..|targets| - 1], targets[|targets| - 1];
      SortKeeps(init);
      InsertKeeps(SortById(init), last);
      WithLast(targets, init, last);
    }
  }

  lemma WithLast(targets: seq<Target>, init: seq<Target>, last: Target)
    requires targets != [] && init == targets[..|targets| - 1] && last == targets[|targets| - 1]
    ensures multiset(targets) == multiset(init) + multiset{last}
    ensures SortById(targets) == Insert(SortById(init), last)
  {
    assert targets == init + [last];
  }

  lemma {:induction false} SortAscends(targets: seq<Target>)
    requires UniqueIds(targets)
    ensures Ascending(SortById(targets))
  {
    if targets != [] {
      var init, last := targets[..|targets| - 1], targets[|targets| - 1];
      SortAscends(init);
      SortKeeps(init);
      forall s | s in SortById(init) ensures s.id != last.id {
        assert s in multiset(init);
        var i :| 0 <= i < |init| && init[i] == s;
        assert targets[i] == s;
      }
      InsertAscends(SortById(init), last);
    }
  }

  // Two ascending orders of the same targets are the same order.
  lemma {:induction false} AscendingUnique(a: seq<Target>, b: seq<Target>)
    requires Ascending(a) && Ascending(b) && multiset(a) == multiset(b)
    ensures a == b
  {
    if a == [] {
      assert |multiset(b)| == 0;
    } else {
      assert |multiset(a)| == |multiset(b)|;
      FirstIsLeast(a, b);
      FirstIsLeast(b, a);
      LessTotal(a[0].id, b[0].id);
      SameFirst(a, b);
      assert a == [a[0]] + a[1..] && b == [b[0]] + b[1..];
      AscendingUnique(a[1..], b[1..]);
    }
  }

  lemma FirstIsLeast(a: seq<Target>, b: seq<Target>)
    requires Ascending(a) && multiset(a) == multiset(b) && a != [] && b != []
    ensures b[0] == a[0] || Less(a[0].id, b[0].id)
  {
    assert b[0] in multiset(a);
    var i :| 0 <= i < |a| && a[i] == b[0];
  }

  lemma SameFirst(a: seq<Target>, b: seq<Target>)
    requires a != [] && b != [] && a[0] == b[0] && multiset(a) == multiset(b)
    ensures multiset(a[1..]) == multiset(b[1..])
  {
    assert a == [a[0]] + a[1..] && b == [b[0]] + b[1..];
    assert multiset(a[1..]) == multiset(a) - multiset{a[0]};
  }

  // The sorted tier depends on its targets alone, not on their order.
  lemma SortForgetsOrder(a: seq<Target>, b: seq<Target>)
    requires UniqueIds(a) && UniqueIds(b) && multiset(a) == multiset(b)
    ensures SortById(a) == SortById(b)
  {
    SortAscends(a);
    SortAscends(b);
    SortKeeps(a);
    SortKeeps(b);
    AscendingUnique(SortById(a), SortById(b));
  }

  method SortInPlace(a: array<Target>)
    modifies a
    ensures a[..] == SortById(old(a[..]))
  {
    ghost var was := a[..];
    for i := 0 to a.Length
      invariant a[..i] == SortById(was[..i]) && a[i..] == was[i..]
    {
      assert was[..i + 1][..i] == was[..i] && a[i] == was[i];
      SinkInPlace(a, i);
      assert a[i + 1..] == was[i + 1..];
    }
    assert a[..a.Length] == a[..] && was[..a.Length] == was;
  }

  // Moves the element at i down to its place among those before it.
  method SinkInPlace(a: array<Target>, i: nat)
    requires i < a.Length
    modifies a
    ensures a[..i + 1] == Insert(old(a[..i]), old(a[i])) && a[i + 1..] == old(a[i + 1..])
  {
    ghost var sorted, t := a[..i], a[i];
    var j := i;
    assert sorted[..i] == sorted && sorted[i..] == [] && Insert(sorted, t) + [] == Insert(sorted, t);
    while j > 0 && Less(a[j].id, a[j - 1].id)
      invariant j <= i
      invariant a[..i + 1] == Sinking(sorted, t, j) && a[i + 1..] == old(a[i + 1..])
      invariant Insert(sorted, t) == Insert(sorted[..j], t) + sorted[j..]
    {
      ghost var before := a[..i + 1];
      assert before[j] == a[j] && before[j - 1] == a[j - 1];
      SinksOne(sorted, t, j);
      InsertSteps(sorted, j, t);
      a[j], a[j - 1] := a[j - 1], a[j];
      assert a[..i + 1] == before[j := before[j - 1]][j - 1 := before[j]];
      j := j - 1;
    }
    assert j > 0 ==> a[..i + 1][j] == a[j] && a[..i + 1][j - 1] == a[j - 1];
    SinkEnds(sorted, t, j);
  }

  // t on its way down, with j elements still below it.
  function Sinking(sorted: seq<Target>, t: Target, j: nat): (s: seq<Target>)
    requires j <= |sorted|
    ensures |s| == |sorted| + 1 && s[j] == t && (j > 0 ==> s[j - 1] == sorted[j - 1])
  {
    sorted[..j] + [t] + sorted[j..]
  }

  lemma SinksOne(sorted: seq<Target>, t: Target, j: nat)
    requires 0 < j <= |sorted|
    ensures var s := Sinking(sorted, t, j); Sinking(sorted, t, j - 1) == s[j := s[j - 1]][j - 1 := s[j]]
  {
  }

  lemma SinkEnds(sorted: seq<Target>, t: Target, j: nat)
    requires j <= |sorted| && (j > 0 ==> !Less(t.id, sorted[j - 1].id))
    ensures Insert(sorted[..j], t) + sorted[j..] == Sinking(sorted, t, j)
  {
  }

  lemma InsertSteps(sorted: seq<Target>, j: nat, t: Target)
    requires 0 < j <= |sorted| && Less(t.id, sorted[j - 1].id)
    ensures Insert(sorted[..j], t) + sorted[j..] == Insert(sorted[..j - 1], t) + sorted[j - 1..]
  {
    assert sorted[..j][..j - 1] == sorted[..j - 1];
    assert sorted[j - 1..] == [sorted[j - 1]] + sorted[j..];
  }

  // ------------------------------------------------------------------ shuffle

  // The generator's choice for position i of a shuffle of n elements: any
  // function of the seed that stays within 0..i.
  type Draw = (int, nat, nat) -> nat

  function Pick(draw: Draw, seed: int, n: nat, i: nat): (j: nat)
    ensures j <= i
  {
    if draw(seed, n, i) <= i then draw(seed, n, i) else i
  }

  function Swapped(s: seq<Target>, i: nat, j: nat): seq<Target>
    requires i < |s| && j < |s|
  {
    s[i := s[j]][j := s[i]]
  }

  // Positions i down to 1 still to be exchanged.
  function ShuffledFrom(s: seq<Target>, i: nat, draw: Draw, seed: int): seq<Target>
    requires i == 0 || i < |s|
    decreases i
  {
    if i == 0 then s else ShuffledFrom(Swapped(s, i, Pick(draw, seed, |s|, i)), i - 1, draw, seed)
  }

  function Shuffled(s: seq<Target>, draw: Draw, seed: int): seq<Target> {
    if s == [] then [] else ShuffledFrom(s, |s| - 1, draw, seed)
  }

  lemma SwapKeeps(s: seq<Target>, i: nat, j: nat)
    requires i < |s| && j < |s|
    ensures multiset(Swapped(s, i, j)) == multiset(s)
  {
  }

  lemma {:induction false} ShuffleKeepsFrom(s: seq<Target>, i: nat, draw: Draw, seed: int)
    requires i == 0 || i < |s|
    ensures multiset(ShuffledFrom(s, i, draw, seed)) == multiset(s)
    decreases i
  {
    if i > 0 {
      SwapKeeps(s, i, Pick(draw, seed, |s|, i));
      ShuffleKeepsFrom(Swapped(s, i, Pick(draw, seed, |s|, i)), i - 1, draw, seed);
    }
  }

  lemma ShuffleKeeps(s: seq<Target>, draw: Draw, seed: int)
    ensures multiset(Shuffled(s, draw, seed)) == multiset(s)
  {
    if s != [] {
      ShuffleKeepsFrom(s, |s| - 1, draw, seed);
    }
  }

  method ShuffleInPlace(a: array<Target>, draw: Draw, seed: int)
    modifies a
    ensures a[..] == Shuffled(old(a[..]), draw, seed)
  {
    if a.Length == 0 {
      return;
    }
    ghost var was := a[..];
    var i := a.Length - 1;
    while i > 0
      invariant 0 <= i < a.Length
      invariant ShuffledFrom(a[..], i, draw, seed) == Shuffled(was, draw, seed)
    {
      ghost var before := a[..];
      var j := Pick(draw, seed, a.Length, i);
      a[i], a[j] := a[j], a[i];
      assert a[..] == Swapped(before, i, j);
      i := i - 1;
    }
  }

  // ------------------------------------------------------------------ the plan

  // The seed of one tier, from the placement key, the route name and the tier's
  // position.
  type Seed = (string, string, nat) -> int

  function Placed(key: string, route: Route, i: nat, seed: Seed, draw: Draw): seq<Target>
    requires i < |route.tiers|
  {
    Shuffled(SortById(route.tiers[i]), draw, seed(key, route.name, i))
  }

  function Blocks(key: string, route: Route, seed: Seed, draw: Draw): (blocks: seq<seq<Target>>)
    ensures |blocks| == |route.tiers|
  {
    seq(|route.tiers|, i requires 0 <= i < |route.tiers| => Placed(key, route, i, seed, draw))
  }

  method BuildPlan(key: string, route: Route, seed: Seed, draw: Draw) returns (plan: seq<Target>)
    ensures plan == Flat(Blocks(key, route, seed, draw))
  {
    ghost var blocks := Blocks(key, route, seed, draw);
    plan := [];
    for i := 0 to |route.tiers|
      invariant plan == Flat(blocks[..i])
    {
      var tier := route.tiers[i];
      var targets := new Target[|tier|](k requires 0 <= k < |tier| => tier[k]);
      assert targets[..] == tier;
      SortInPlace(targets);
      ShuffleInPlace(targets, draw, seed(key, route.name, i));
      plan := plan + targets[..];
      FlatPrefix(blocks, i);
    }
    assert blocks[..|blocks|] == blocks;
  }

  // Every block of the plan is a permutation of its tier.
  lemma BlockIsPermutation(key: string, route: Route, i: nat, seed: Seed, draw: Draw)
    requires i < |route.tiers|
    ensures multiset(Blocks(key, route, seed, draw)[i]) == multiset(route.tiers[i])
  {
    SortKeeps(route.tiers[i]);
    ShuffleKeeps(SortById(route.tiers[i]), draw, seed(key, route.name, i));
  }

  // ------------------------------------------------- every order can be drawn

  // The generator that draws these.
  function Drawing(picks: seq<nat>): Draw {
    (seed: int, n: nat, i: nat) => if i < |picks| then picks[i] else 0
  }

  // Only the draws for the positions exchanged matter.
  lemma {:induction false} SameDraws(s: seq<Target>, i: nat, a: Draw, b: Draw, seed: int)
    requires i == 0 || i < |s|
    requires forall k :: 1 <= k <= i ==> a(seed, |s|, k) == b(seed, |s|, k)
    ensures ShuffledFrom(s, i, a, seed) == ShuffledFrom(s, i, b, seed)
    decreases i
  {
    if i > 0 {
      SameDraws(Swapped(s, i, Pick(a, seed, |s|, i)), i - 1, a, b, seed);
    }
  }

  lemma SameStart(a: seq<Target>, b: seq<Target>, c: seq<Target>)
    requires multiset(a + c) == multiset(b + c)
    ensures multiset(a) == multiset(b)
  {
    assert multiset(a + c) == multiset(a) + multiset(c) && multiset(b + c) == multiset(b) + multiset(c);
    forall x ensures multiset(a)[x] == multiset(b)[x] {
      assert (multiset(a) + multiset(c))[x] == (multiset(b) + multiset(c))[x];
    }
  }

  lemma FoundBelow(s: seq<Target>, t: seq<Target>, i: nat) returns (j: nat)
    requires |s| == |t| && i < |s| && multiset(s) == multiset(t) && s[i + 1..] == t[i + 1..]
    ensures j <= i && s[j] == t[i]
  {
    assert s == s[..i + 1] + s[i + 1..] && t == t[..i + 1] + t[i + 1..];
    SameStart(s[..i + 1], t[..i + 1], s[i + 1..]);
    assert t[..i + 1][i] == t[i] && t[i] in multiset(t[..i + 1]);
    j :| 0 <= j < |s[..i + 1]| && s[..i + 1][j] == t[i];
  }

  lemma SwapSettles(s: seq<Target>, t: seq<Target>, i: nat, j: nat)
    requires |s| == |t| && 0 < i < |s| && j <= i && s[j] == t[i] && s[i + 1..] == t[i + 1..]
    ensures Swapped(s, i, j)[i..] == t[i..]
  {
    var next := Swapped(s, i, j);
    forall k | i <= k < |s| ensures next[k] == t[k] {
      if k > i {
        assert s[k] == s[i + 1..][k - i - 1] && t[k] == t[i + 1..][k - i - 1];
      }
    }
  }

  lemma {:induction false} DrawsTo(s: seq<Target>, t: seq<Target>, i: nat, seed: int) returns (picks: seq<nat>)
    requires |s| == |t| && i < |s| && multiset(s) == multiset(t) && s[i + 1..] == t[i + 1..]
    ensures |picks| == i + 1 && (forall k :: 0 <= k < |picks| ==> picks[k] <= k)
    ensures ShuffledFrom(s, i, Drawing(picks), seed) == t
    decreases i
  {
    if i == 0 {
      picks := [0];
      OneLeft(s, t);
    } else {
      var j, next := SwapTowards(s, t, i);
      var rest := DrawsTo(next, t, i - 1, seed);
      picks := rest + [j];
      DrawsOne(s, t, i, j, rest, picks, seed);
    }
  }

  lemma OneLeft(s: seq<Target>, t: seq<Target>)
    requires |s| == |t| > 0 && multiset(s) == multiset(t) && s[1..] == t[1..]
    ensures s == t
  {
    var j := FoundBelow(s, t, 0);
    assert s == [s[0]] + s[1..] && t == [t[0]] + t[1..];
  }

  lemma SwapTowards(s: seq<Target>, t: seq<Target>, i: nat) returns (j: nat, next: seq<Target>)
    requires |s| == |t| && 0 < i < |s| && multiset(s) == multiset(t) && s[i + 1..] == t[i + 1..]
    ensures j <= i && next == Swapped(s, i, j)
    ensures |next| == |t| && multiset(next) == multiset(t) && next[i..] == t[i..]
  {
    j := FoundBelow(s, t, i);
    next := Swapped(s, i, j);
    SwapKeeps(s, i, j);
    SwapSettles(s, t, i, j);
  }

  lemma DrawsOne(s: seq<Target>, t: seq<Target>, i: nat, j: nat, rest: seq<nat>, picks: seq<nat>, seed: int)
    requires 0 < i < |s| && j <= i && |rest| == i && picks == rest + [j]
    requires ShuffledFrom(Swapped(s, i, j), i - 1, Drawing(rest), seed) == t
    ensures ShuffledFrom(s, i, Drawing(picks), seed) == t
  {
    SameDraws(Swapped(s, i, j), i - 1, Drawing(rest), Drawing(picks), seed);
    assert Pick(Drawing(picks), seed, |s|, i) == j;
  }

  // No order of a tier is out of reach: for each there is a generator, within its
  // bounds, that places the tier so.
  lemma EveryOrderCanBeDrawn(key: string, route: Route, i: nat, seed: Seed, order: seq<Target>) returns (draw: Draw)
    requires i < |route.tiers| && multiset(order) == multiset(route.tiers[i])
    ensures Blocks(key, route, seed, draw)[i] == order
    ensures forall k: nat :: draw(seed(key, route.name, i), |route.tiers[i]|, k) <= k
  {
    var sorted := SortById(route.tiers[i]);
    SortKeeps(route.tiers[i]);
    SameSize(sorted, order);
    if sorted == [] {
      draw := Drawing([]);
    } else {
      assert sorted[|sorted|..] == order[|sorted|..];
      var picks := DrawsTo(sorted, order, |sorted| - 1, seed(key, route.name, i));
      draw := Drawing(picks);
    }
  }

  lemma SameSize(a: seq<Target>, b: seq<Target>)
    requires multiset(a) == multiset(b)
    ensures |a| == |b|
  {
    assert |multiset(a)| == |a| && |multiset(b)| == |b|;
  }

  lemma {:induction false} FlatKeeps(a: seq<seq<Target>>, b: seq<seq<Target>>)
    requires |a| == |b| && forall i :: 0 <= i < |a| ==> multiset(a[i]) == multiset(b[i])
    ensures multiset(Flat(a)) == multiset(Flat(b))
  {
    if a != [] {
      FlatKeeps(a[1..], b[1..]);
    }
  }

  // The plan attempts exactly the route's targets, tier before tier: as many in
  // each tier's block as the tier holds.
  lemma PlanCoversRoute(key: string, route: Route, seed: Seed, draw: Draw)
    ensures multiset(Flat(Blocks(key, route, seed, draw))) == multiset(TargetsOf(route))
  {
    forall i | 0 <= i < |route.tiers| ensures multiset(Blocks(key, route, seed, draw)[i]) == multiset(route.tiers[i]) {
      BlockIsPermutation(key, route, i, seed, draw);
    }
    FlatKeeps(Blocks(key, route, seed, draw), route.tiers);
  }

  // Reordering targets inside tiers does not change the plan.
  lemma PlanForgetsTierOrder(key: string, a: Route, b: Route, seed: Seed, draw: Draw)
    requires a.name == b.name && |a.tiers| == |b.tiers|
    requires forall i :: 0 <= i < |a.tiers| ==>
               UniqueIds(a.tiers[i]) && UniqueIds(b.tiers[i]) && multiset(a.tiers[i]) == multiset(b.tiers[i])
    ensures Blocks(key, a, seed, draw) == Blocks(key, b, seed, draw)
  {
    forall i | 0 <= i < |a.tiers| ensures Placed(key, a, i, seed, draw) == Placed(key, b, i, seed, draw) {
      SortForgetsOrder(a.tiers[i], b.tiers[i]);
    }
  }
}
