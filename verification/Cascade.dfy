/** Which declaration of a property wins: the numeric ranks against the layer order of sections 6.1
    and 6.4 of CSS Cascading and Inheritance Level 5. */
module Cascade {
  import opened Json
  import L = Layers

  const LAST: int := 1_000_000_000

  /** A declaration for one element: in its style attribute, or in a rule of a layer of its root. */
  datatype Decl =
    | Inline(important: bool, opacity: real)
    | Rule(important: bool, opacity: real, path: seq<nat>, selector: string, order: nat)

  function Negated(path: seq<nat>): (r: seq<int>)
    ensures |r| == |path| && forall i :: 0 <= i < |path| ==> r[i] == -(path[i] as int)
  {
    seq<int>(|path|, i requires 0 <= i < |path| => -(path[i] as int))
  }

  function Plain(path: seq<nat>): (r: seq<int>)
    ensures |r| == |path| && forall i :: 0 <= i < |path| ==> r[i] == path[i]
  {
    seq<int>(|path|, i requires 0 <= i < |path| => path[i])
  }

  /** The unlayered child of a layer comes last normally and first when importance reverses layers. */
  function Rank(d: Decl): seq<int> {
    if d.Inline? then (if d.important then [3] else [1])
    else if d.important then [2] + Negated(d.path) + [-LAST]
    else [0] + Plain(d.path) + [LAST]
  }

  function At(x: seq<int>, i: nat): Option<int> {
    if i < |x| then Some(x[i]) else None
  }

  function OrZero(v: Option<int>): int {
    if v.Some? then v.value else 0
  }

  /** The verdict at the first position where the ranks differ, a missing number counting as zero. */
  function Compared(x: seq<int>, y: seq<int>, i: nat): Option<bool>
    decreases |x| + |y| - i
  {
    if i >= |x| && i >= |y| then None
    else if At(x, i) != At(y, i) then Some(OrZero(At(x, i)) > OrZero(At(y, i)))
    else Compared(x, y, i + 1)
  }

  /** `a` beats `b`; equal ranks fall back to source order within one selector. */
  predicate Beats(a: Decl, b: Decl) {
    var verdict := Compared(Rank(a), Rank(b), 0);
    if verdict.Some? then verdict.value
    else if a.Rule? && b.Rule? && a.selector != "" && a.selector == b.selector then a.order >= b.order
    else true
  }

  // ----- the cascade order, independently

  /** Layer `p` comes after layer `q`: a layer's own declarations follow those of all its sublayers,
      and sublayers follow one another in the order of their first declaration. */
  predicate LayerAfter(p: seq<nat>, q: seq<nat>) {
    if p == q then false
    else if p == [] then true
    else if q == [] then false
    else if p[0] != q[0] then p[0] > q[0]
    else LayerAfter(p[1..], q[1..])
  }

  /** Importance first, then the style attribute, then layers, which importance reverses. */
  predicate Wins(a: Decl, b: Decl) {
    if a.important != b.important then a.important
    else if a.Inline? || b.Inline? then a.Inline? && b.Rule?
    else if a.important then LayerAfter(b.path, a.path)
    else LayerAfter(a.path, b.path)
  }

  /** The two declarations are in the same place of the cascade. */
  predicate Level(a: Decl, b: Decl) {
    a.important == b.important && a.Inline? == b.Inline? && (a.Rule? && b.Rule? ==> a.path == b.path)
  }

  lemma {:induction false} LayerTrichotomy(p: seq<nat>, q: seq<nat>)
    ensures p == q || LayerAfter(p, q) || LayerAfter(q, p)
    ensures !(LayerAfter(p, q) && LayerAfter(q, p))
    decreases |p|
  {
    if p != [] && q != [] && p[0] == q[0] {
      LayerTrichotomy(p[1..], q[1..]);
      assert p == [p[0]] + p[1..] && q == [q[0]] + q[1..];
    }
  }

  lemma {:induction false} LayerTransitive(p: seq<nat>, q: seq<nat>, r: seq<nat>)
    requires LayerAfter(p, q) && LayerAfter(q, r)
    ensures LayerAfter(p, r)
    decreases |p|
  {
    LayerTrichotomy(p, r);
    if p != [] && q != [] && r != [] && p[0] == q[0] == r[0] {
      LayerTransitive(p[1..], q[1..], r[1..]);
    }
  }

  /** The cascade order is a strict total order on the places of the cascade. */
  lemma WinsIsStrictTotal(a: Decl, b: Decl, c: Decl)
    ensures !Wins(a, a)
    ensures Wins(a, b) ==> !Wins(b, a)
    ensures Level(a, b) || Wins(a, b) || Wins(b, a)
    ensures Wins(a, b) && Wins(b, c) ==> Wins(a, c)
  {
    if a.Rule? && b.Rule? {
      LayerTrichotomy(a.path, b.path);
      if c.Rule? && Wins(a, b) && Wins(b, c) && a.important == b.important == c.important {
        if a.important { LayerTransitive(c.path, b.path, a.path); } else { LayerTransitive(a.path, b.path, c.path); }
      }
    }
  }

  // ----- ranks against the cascade order

  /** One of the layers contains the other, and on the way to it a layer has so many earlier siblings
      that its index reaches the number standing for the end of a layer. */
  predicate Overflows(p: seq<nat>, q: seq<nat>) {
    || (|p| < |q| && p <= q && q[|p|] >= LAST)
    || (|q| < |p| && q <= p && p[|q|] >= LAST)
  }

  /** Where two layers first part. */
  function Fork(p: seq<nat>, q: seq<nat>): (k: nat)
    ensures k <= |p| && k <= |q| && p[..k] == q[..k]
    ensures k == |p| || k == |q| || p[k] != q[k]
  {
    if p == [] || q == [] || p[0] != q[0] then 0
    else
      var k := Fork(p[1..], q[1..]);
      assert p[..k + 1] == [p[0]] + p[1..][..k] && q[..k + 1] == [q[0]] + q[1..][..k];
      k + 1
  }

  lemma {:induction false} LayerAfterFork(p: seq<nat>, q: seq<nat>)
    requires p != q
    ensures var k := Fork(p, q);
            LayerAfter(p, q) <==> k == |p| || (k < |q| && p[k] > q[k])
    decreases |p|
  {
    if p != [] && q != [] && p[0] == q[0] {
      assert p == [p[0]] + p[1..] && q == [q[0]] + q[1..];
      LayerAfterFork(p[1..], q[1..]);
    }
  }

  lemma {:induction false} ComparedFrom(x: seq<int>, y: seq<int>, i: nat, k: nat)
    requires i <= k && forall j :: i <= j < k ==> j < |x| && j < |y| && x[j] == y[j]
    ensures Compared(x, y, i) == Compared(x, y, k)
    decreases k - i
  {
    if i < k { ComparedFrom(x, y, i + 1, k); }
  }

  /** The verdict on two rules of different layers, as their indices where they part decide it. */
  predicate ForkVerdict(p: seq<nat>, q: seq<nat>) {
    var k := Fork(p, q);
    if k < |p| && k < |q| then p[k] > q[k]
    else if k < |q| then q[k] < LAST
    else if k < |p| then p[k] > LAST || (p[k] == LAST && (k + 1 == |p| || p[k + 1] > 0))
    else false
  }

  lemma Positions(head: int, middle: seq<int>, end: int, i: nat)
    ensures At([head] + middle + [end], i) ==
            if i == 0 then Some(head) else if i <= |middle| then Some(middle[i - 1]) else if i == |middle| + 1 then Some(end) else None
  {
  }

  /** Two ranks with the same head agree up to the fork of their paths. */
  lemma AgreeToFork(head: int, x: seq<int>, y: seq<int>, end: int, k: nat)
    requires k <= |x| && k <= |y| && forall j :: 0 <= j < k ==> x[j] == y[j]
    ensures Compared([head] + x + [end], [head] + y + [end], 0) == Compared([head] + x + [end], [head] + y + [end], k + 1)
  {
    var xs, ys := [head] + x + [end], [head] + y + [end];
    forall j | 0 <= j < k + 1
      ensures j < |xs| && j < |ys| && xs[j] == ys[j]
    {
      Positions(head, x, end, j);
      Positions(head, y, end, j);
    }
    ComparedFrom(xs, ys, 0, k + 1);
  }

  lemma SameBeforeFork(p: seq<nat>, q: seq<nat>, j: nat)
    requires j < Fork(p, q)
    ensures p[j] == q[j]
  {
  }

  lemma NormalVerdict(p: seq<nat>, q: seq<nat>)
    requires p != q
    ensures Compared([0] + Plain(p) + [LAST], [0] + Plain(q) + [LAST], 0) == Some(ForkVerdict(p, q))
  {
    var k := Fork(p, q);
    forall j | 0 <= j < k ensures p[j] == q[j] { SameBeforeFork(p, q, j); }
    AgreeToFork(0, Plain(p), Plain(q), LAST, k);
    Positions(0, Plain(p), LAST, k + 1);
    Positions(0, Plain(q), LAST, k + 1);
    Positions(0, Plain(p), LAST, k + 2);
    Positions(0, Plain(q), LAST, k + 2);
  }

  lemma ImportantVerdict(p: seq<nat>, q: seq<nat>)
    requires p != q
    ensures Compared([2] + Negated(p) + [-LAST], [2] + Negated(q) + [-LAST], 0) == Some(ForkVerdict(q, p))
  {
    var k := Fork(p, q);
    ForkSymmetric(p, q);
    forall j | 0 <= j < k ensures p[j] == q[j] { SameBeforeFork(p, q, j); }
    AgreeToFork(2, Negated(p), Negated(q), -LAST, k);
    Positions(2, Negated(p), -LAST, k + 1);
    Positions(2, Negated(q), -LAST, k + 1);
    Positions(2, Negated(p), -LAST, k + 2);
    Positions(2, Negated(q), -LAST, k + 2);
  }

  lemma ForkSymmetric(p: seq<nat>, q: seq<nat>)
    ensures Fork(p, q) == Fork(q, p)
    decreases |p|
  {
  }

  /** For two layers of one root, a normal declaration beats another exactly when the other's
      important form beats its own. */
  lemma ImportanceReversesLayers(a: Decl, b: Decl)
    requires a.Rule? && b.Rule? && !a.important && !b.important && a.path != b.path
    ensures Beats(a, b) <==> Beats(b.(important := true), a.(important := true))
  {
    NormalVerdict(a.path, b.path);
    ImportantVerdict(b.path, a.path);
  }

  lemma ForkOfPrefix(p: seq<nat>, q: seq<nat>)
    requires p <= q
    ensures Fork(p, q) == |p|
    decreases |p|
  {
  }

  lemma ForkDecides(p: seq<nat>, q: seq<nat>)
    requires p != q
    ensures ((ForkVerdict(p, q) <==> LayerAfter(p, q)) && (ForkVerdict(q, p) <==> LayerAfter(q, p))) <==> !Overflows(p, q)
  {
    LayerAfterFork(p, q);
    LayerAfterFork(q, p);
    ForkSymmetric(p, q);
    var k := Fork(p, q);
    if p <= q { ForkOfPrefix(p, q); }
    if q <= p { ForkOfPrefix(q, p); }
    assert k == |p| ==> p == q[..k] by { assert p[..|p|] == p; }
    assert k == |q| ==> q == p[..k] by { assert q[..|q|] == q; }
  }

  /** Ranks decide between two different places exactly as the cascade does, unless a layer and one
      of its ancestors overflow: then at least one of the two comparisons goes wrong. */
  lemma RanksFollowTheCascade(a: Decl, b: Decl)
    requires !Level(a, b)
    ensures ((Beats(a, b) <==> Wins(a, b)) && (Beats(b, a) <==> Wins(b, a))) <==>
            !(a.Rule? && b.Rule? && a.important == b.important && Overflows(a.path, b.path))
  {
    if a.Rule? && b.Rule? && a.important == b.important {
      ForkDecides(a.path, b.path);
      if a.important {
        ImportantVerdict(a.path, b.path);
        ImportantVerdict(b.path, a.path);
      } else {
        NormalVerdict(a.path, b.path);
        NormalVerdict(b.path, a.path);
      }
    } else {
      assert Rank(a)[0] != Rank(b)[0];
    }
  }

  lemma {:induction false} ComparedEqual(x: seq<int>, i: nat)
    ensures Compared(x, x, i) == None
    decreases |x| + |x| - i
  {
    if i < |x| { ComparedEqual(x, i + 1); }
  }

  /** The condition is needed: an unlayered rule is beaten by one in the billionth root layer. */
  lemma UnlayeredCanLose(s: string, n: nat)
    ensures var unlayered := Rule(false, 0.0, [], s, n);
            var layered := Rule(false, 1.0, [LAST], s, n);
            Wins(unlayered, layered) && !Beats(unlayered, layered) && Beats(layered, unlayered)
  {
    NormalVerdict([], [LAST]);
    NormalVerdict([LAST], []);
  }

  // ----- the winning rule

  /** Rules of one selector come in source order, as they are gathered. */
  ghost predicate InSourceOrder(rules: seq<Decl>) {
    forall i, j :: 0 <= i < j < |rules| && rules[i].Rule? && rules[j].Rule? && rules[i].selector == rules[j].selector ==>
      rules[i].order <= rules[j].order
  }

  ghost predicate NoneOverflow(rules: seq<Decl>) {
    forall i, j :: 0 <= i < |rules| && 0 <= j < |rules| && rules[i].Rule? && rules[j].Rule? && rules[i].important == rules[j].important ==>
      !Overflows(rules[i].path, rules[j].path)
  }

  /** What reducing the first `n` rules with `Beats` leaves. */
  function Reduced(rules: seq<Decl>, n: nat): (w: nat)
    requires 0 < n <= |rules|
    ensures w < n
  {
    if n == 1 then 0
    else
      var w := Reduced(rules, n - 1);
      if Beats(rules[n - 1], rules[w]) then n - 1 else w
  }

  /** The last of the first `n` rules in the highest place of the cascade. */
  ghost predicate IsTop(rules: seq<Decl>, n: nat, w: nat)
    requires w < n <= |rules|
  {
    && (forall j :: 0 <= j < n ==> !Wins(rules[j], rules[w]))
    && (forall j :: w < j < n ==> Wins(rules[w], rules[j]))
  }

  lemma BeatsIsWinsOrTie(rules: seq<Decl>, i: nat, j: nat)
    requires InSourceOrder(rules) && NoneOverflow(rules) && i < j < |rules|
    ensures Beats(rules[j], rules[i]) <==> Wins(rules[j], rules[i]) || Level(rules[i], rules[j])
  {
    if Level(rules[i], rules[j]) {
      assert Rank(rules[i]) == Rank(rules[j]);
      ComparedEqual(Rank(rules[i]), 0);
      if rules[i].Rule? { LayerTrichotomy(rules[i].path, rules[j].path); }
    } else {
      RanksFollowTheCascade(rules[j], rules[i]);
    }
  }

  lemma LevelWinsTheSame(a: Decl, b: Decl, c: Decl)
    requires Level(a, b)
    ensures Wins(a, c) <==> Wins(b, c)
    ensures Wins(c, a) <==> Wins(c, b)
  {
  }

  /** One more rule: the top changes exactly when the new rule wins or ties. */
  lemma TopOfMore(rules: seq<Decl>, w: nat, i: nat)
    requires w < i < |rules| && IsTop(rules, i, w)
    ensures IsTop(rules, i + 1, if Wins(rules[i], rules[w]) || Level(rules[w], rules[i]) then i else w)
  {
    WinsIsStrictTotal(rules[w], rules[i], rules[w]);
    WinsIsStrictTotal(rules[i], rules[i], rules[i]);
    hide Wins, Level;
    if Wins(rules[i], rules[w]) || Level(rules[w], rules[i]) {
      forall j | 0 <= j < i
        ensures !Wins(rules[j], rules[i])
      {
        if Level(rules[w], rules[i]) { LevelWinsTheSame(rules[w], rules[i], rules[j]); }
        else { WinsIsStrictTotal(rules[j], rules[i], rules[w]); }
      }
    }
  }

  /** Without overflow the reduction finds the top of the cascade. */
  lemma {:induction false} ReducedIsTop(rules: seq<Decl>, n: nat)
    requires 0 < n <= |rules| && InSourceOrder(rules) && NoneOverflow(rules)
    ensures IsTop(rules, n, Reduced(rules, n))
  {
    if n == 1 {
      WinsIsStrictTotal(rules[0], rules[0], rules[0]);
    } else {
      hide Beats, Wins, Level, InSourceOrder, NoneOverflow, IsTop;
      ReducedIsTop(rules, n - 1);
      BeatsIsWinsOrTie(rules, Reduced(rules, n - 1), n - 1);
      TopOfMore(rules, Reduced(rules, n - 1), n - 1);
    }
  }

  /** Whatever the layers: the reduction finds a given rule, such as the top of the cascade, if and only
      if that rule beats what is left of the rules before it and no rule after it beats it. */
  lemma {:induction false} ReducedExactly(rules: seq<Decl>, n: nat, t: nat)
    requires t < n <= |rules|
    ensures Reduced(rules, n) == t <==>
            (t > 0 ==> Beats(rules[t], rules[Reduced(rules, t)])) && forall j :: t < j < n ==> !Beats(rules[j], rules[t])
  {
    hide Beats;
    if t < n - 1 { ReducedExactly(rules, n - 1, t); }
  }

  /** The opacity that applies. */
  method RemainingOpacity(rules: seq<Decl>) returns (opacity: real, ghost winner: nat)
    ensures rules == [] ==> opacity == 1.0
    ensures rules != [] ==> winner == Reduced(rules, |rules|) && opacity == rules[winner].opacity
    ensures rules != [] && InSourceOrder(rules) && NoneOverflow(rules) ==> IsTop(rules, |rules|, winner)
  {
    if rules == [] { return 1.0, 0; }
    hide Beats, IsTop, InSourceOrder, NoneOverflow;
    var w := 0;
    for i := 1 to |rules|
      invariant w < i && w == Reduced(rules, i)
    {
      if Beats(rules[i], rules[w]) { w := i; }
    }
    if InSourceOrder(rules) && NoneOverflow(rules) { ReducedIsTop(rules, |rules|); }
    return rules[w].opacity, w;
  }

  // ----- layers by name

  /** The index at which a position continues below an ancestor is that of the part of the name. */
  lemma IndexOnPath(names: seq<L.Name>, a: L.Name, k: nat)
    requires L.Registered(names) && a in names && k < |a|
    ensures a[..k + 1] in names && L.Path(names, a)[k] == L.Index(names, a[..k + 1])
    ensures (a[..k] == [] || a[..k] in names) && L.Path(names, a)[..k] == L.Path(names, a[..k])
  {
    L.AncestorPath(names, a, k);
    L.AncestorPath(names, a, k + 1);
    assert L.Parent(a[..k + 1]) == a[..k];
    L.PathParent(names, a[..k + 1]);
    var p := L.Path(names, a);
    assert p[k] == p[..k + 1][k];
  }

  /** Where the names of two registered layers part, the one whose part was first registered later
      comes after, whatever is nested below. */
  lemma LaterByRegistration(names: seq<L.Name>, a: L.Name, b: L.Name, k: nat, i: nat, j: nat)
    requires L.Registered(names) && a in names && b in names
    requires k < |a| && k < |b| && a[..k] == b[..k] && a[k] != b[k]
    requires i < |names| && j < |names| && names[i] == a[..k + 1] && names[j] == b[..k + 1]
    ensures LayerAfter(L.Path(names, a), L.Path(names, b)) <==> i > j
  {
    assert L.Distinct(names);
    hide *;
    PartingNames(a, b, k);
    IndexOnPath(names, a, k);
    IndexOnPath(names, b, k);
    IndexOrder(names, i, j);
    AfterSharedPrefix(L.Path(names, a), L.Path(names, b), k);
  }

  lemma PartingNames(a: L.Name, b: L.Name, k: nat)
    requires k < |a| && k < |b| && a[..k] == b[..k] && a[k] != b[k]
    ensures var x, y := a[..k + 1], b[..k + 1];
            x != y && x != [] && y != [] && L.Parent(x) == L.Parent(y)
  {
    assert a[..k + 1][k] != b[..k + 1][k];
    assert L.Parent(a[..k + 1]) == a[..k] && L.Parent(b[..k + 1]) == b[..k];
  }

  lemma IndexOrder(names: seq<L.Name>, i: nat, j: nat)
    requires L.Distinct(names) && i < |names| && j < |names| && names[i] != names[j]
    requires names[i] != [] && names[j] != [] && L.Parent(names[i]) == L.Parent(names[j])
    ensures L.Index(names, names[i]) != L.Index(names, names[j])
    ensures L.Index(names, names[i]) > L.Index(names, names[j]) <==> i > j
  {
    hide *;
    if i < j { L.SiblingOrder(names, i, j); } else { L.SiblingOrder(names, j, i); }
  }

  lemma {:induction false} AfterSharedPrefix(p: seq<nat>, q: seq<nat>, k: nat)
    requires k < |p| && k < |q| && p[..k] == q[..k] && p[k] != q[k]
    ensures LayerAfter(p, q) <==> p[k] > q[k]
    decreases k
  {
    if k > 0 {
      assert p[0] == p[..k][0] == q[..k][0] == q[0];
      assert p[1..][..k - 1] == p[..k][1..] && q[1..][..k - 1] == q[..k][1..];
      AfterSharedPrefix(p[1..], q[1..], k - 1);
    }
  }

  /** A layer's own declarations come after those of every layer it contains. */
  lemma ContainerComesLast(names: seq<L.Name>, a: L.Name, b: L.Name)
    requires L.Registered(names) && (a == [] || a in names) && b in names && a <= b && a != b
    ensures LayerAfter(L.Path(names, a), L.Path(names, b)) && !LayerAfter(L.Path(names, b), L.Path(names, a))
  {
    var p, q := L.Path(names, a), L.Path(names, b);
    L.AncestorPath(names, b, |a|);
    assert b[..|a|] == a && p == q[..|p|];
    LayerTrichotomy(p, q);
    LayerAfterFork(p, q);
    ForkOfPrefix(p, q);
  }
}
