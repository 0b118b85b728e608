/** Cascade layers of one style root: registration of qualified names, the rank of a declaration and
    the rule that wins an element's opacity. */
module Layers {
  /** A layer name as its parts, outermost first; the empty name is the root. */
  type Name = seq<string>

  predicate ValidName(n: Name) {
    forall i :: 0 <= i < |n| ==> n[i] != "" && '.' !in n[i]
  }

  function Parent(n: Name): Name
    requires n != []
  {
    n[..|n| - 1]
  }

  /** The key of a qualified name in the tables. */
  function Join(n: Name): string {
    if n == [] then "" else if |n| == 1 then n[0] else Join(Parent(n)) + "." + n[|n| - 1]
  }

  lemma JoinShape(n: Name)
    requires ValidName(n)
    ensures Join(n) == "" <==> n == []
    ensures '.' in Join(n) <==> |n| > 1
  {
  }

  lemma DotBefore(x: string, s: string, k: nat)
    requires '.' !in s && |x| <= k <= |x| + |s|
    ensures (x + "." + s)[k] == '.' <==> k == |x|
  {
  }

  lemma LastDot(x: string, s: string, y: string, t: string)
    requires x + "." + s == y + "." + t && '.' !in s && '.' !in t
    ensures x == y && s == t
  {
    var all := x + "." + s;
    if |y| >= |x| { DotBefore(x, s, |y|); }
    if |x| >= |y| { DotBefore(y, t, |x|); }
    assert all[|x|] == '.' && all[|y|] == '.';
    assert x == all[..|x|] && y == all[..|y|] && s == all[|x| + 1..] && t == all[|y| + 1..];
  }

  lemma {:induction false} JoinInjective(a: Name, b: Name)
    requires ValidName(a) && ValidName(b) && Join(a) == Join(b)
    ensures a == b
  {
    JoinShape(a);
    JoinShape(b);
    if |a| > 1 {
      LastDot(Join(Parent(a)), a[|a| - 1], Join(Parent(b)), b[|b| - 1]);
      JoinInjective(Parent(a), Parent(b));
      assert a == Parent(a) + [a[|a| - 1]] && b == Parent(b) + [b[|b| - 1]];
    }
  }

  /** How many of `names` are children of `parent`. */
  function Children(names: seq<Name>, parent: Name): nat {
    if names == [] then 0
    else
      var last := names[|names| - 1];
      Children(names[..|names| - 1], parent) + if last != [] && Parent(last) == parent then 1 else 0
  }

  /** How many siblings of `n` were registered before it. */
  function Index(names: seq<Name>, n: Name): nat
    requires n in names && n != []
  {
    var before := names[..|names| - 1];
    if n in before then Index(before, n) else Children(before, Parent(n))
  }

  ghost predicate Distinct(names: seq<Name>) {
    forall i, j :: 0 <= i < j < |names| ==> names[i] != names[j]
  }

  /** No name comes twice, and none comes without its parent. */
  ghost predicate Registered(names: seq<Name>) {
    && Distinct(names)
    && (forall n :: n in names ==> n != [] && ValidName(n))
    && (forall n {:trigger Parent(n)} :: n in names && |n| > 1 ==> Parent(n) in names)
  }

  /** The position of a layer: its own index below its parent's position. */
  function Path(names: seq<Name>, n: Name): (path: seq<nat>)
    requires Registered(names) && (n == [] || n in names)
    ensures |path| == |n|
    decreases |n|
  {
    if n == [] then []
    else
      Path(names, Parent(n)) + [Index(names, n)]
  }

  // ----- one more registration

  lemma RegisterOne(names: seq<Name>, n: Name)
    requires Registered(names) && n != [] && ValidName(n) && n !in names && (|n| > 1 ==> Parent(n) in names)
    ensures Registered(names + [n])
    ensures forall p :: Children(names + [n], p) == Children(names, p) + if p == Parent(n) then 1 else 0
    ensures Index(names + [n], n) == Children(names, Parent(n))
  {
  }

  lemma IndexKept(names: seq<Name>, n: Name, m: Name)
    requires n !in names && m in names && m != []
    ensures m in names + [n] && Index(names + [n], m) == Index(names, m)
  {
  }

  lemma {:induction false} PathKept(names: seq<Name>, n: Name, m: Name)
    requires Registered(names) && Registered(names + [n]) && n !in names && (m == [] || m in names)
    ensures m == [] || m in names + [n]
    ensures Path(names + [n], m) == Path(names, m)
    decreases |m|
  {
    if m != [] {
      PathKept(names, n, Parent(m));
      IndexKept(names, n, m);
    }
  }

  lemma {:induction false} IndexBelowChildren(names: seq<Name>, n: Name)
    requires n in names && n != []
    ensures Index(names, n) < Children(names, Parent(n))
  {
    var before := names[..|names| - 1];
    if n in before {
      IndexBelowChildren(before, n);
    }
  }

  /** Siblings keep the order of their first registration. */
  lemma {:induction false} SiblingOrder(names: seq<Name>, i: nat, j: nat)
    requires Distinct(names) && i < j < |names| && names[i] != [] && names[j] != [] && Parent(names[i]) == Parent(names[j])
    ensures Index(names, names[i]) < Index(names, names[j])
  {
    var before := names[..|names| - 1];
    assert names[i] == before[i];
    if j < |names| - 1 {
      assert names[j] == before[j];
      SiblingOrder(before, i, j);
    } else {
      assert names[j] !in before;
      IndexBelowChildren(before, names[i]);
    }
  }

  lemma PathParent(names: seq<Name>, n: Name)
    requires Registered(names) && n in names
    ensures Parent(n) == [] || Parent(n) in names
    ensures Path(names, n) == Path(names, Parent(n)) + [Index(names, n)]
  {
  }

  /** Different layers have different positions. */
  lemma {:induction false} PathInjective(names: seq<Name>, a: Name, b: Name)
    requires Registered(names) && (a == [] || a in names) && (b == [] || b in names)
    requires Path(names, a) == Path(names, b)
    ensures a == b
    decreases |a|
  {
    assert |a| == |b|;
    if a != [] {
      var p, q := Path(names, Parent(a)), Path(names, Parent(b));
      assert Path(names, a) == p + [Index(names, a)] && Path(names, b) == q + [Index(names, b)];
      assert p == (p + [Index(names, a)])[..|p|] && q == (q + [Index(names, b)])[..|q|];
      PathInjective(names, Parent(a), Parent(b));
      var i :| 0 <= i < |names| && names[i] == a;
      var j :| 0 <= j < |names| && names[j] == b;
      if i < j { SiblingOrder(names, i, j); } else if j < i { SiblingOrder(names, j, i); }
      assert Index(names, a) == Index(names, b) by { assert (p + [Index(names, a)])[|p|] == (q + [Index(names, b)])[|q|]; }
    }
  }

  lemma {:induction false} AncestorPath(names: seq<Name>, n: Name, k: nat)
    requires Registered(names) && n in names && k <= |n|
    ensures n[..k] == [] || n[..k] in names
    ensures Path(names, n[..k]) == Path(names, n)[..k]
    decreases |n|
  {
    if k == |n| {
      assert n[..k] == n;
    } else {
      PathParent(names, n);
      if |n| > 1 {
        AncestorPath(names, Parent(n), k);
        assert Parent(n)[..k] == n[..k];
      }
    }
  }

  /** The table of positions holds exactly the registered names. */
  ghost predicate OrderOk(names: seq<Name>, layerOrder: map<string, seq<nat>>)
    requires Registered(names)
  {
    && (forall key :: key in layerOrder ==> exists n :: n in names && Join(n) == key)
    && (forall n :: n in names ==> Join(n) in layerOrder && layerOrder[Join(n)] == Path(names, n))
  }

  function CountAt(layerCounts: map<string, nat>, key: string): nat {
    if key in layerCounts then layerCounts[key] else 0
  }

  ghost predicate CountsOk(names: seq<Name>, layerCounts: map<string, nat>) {
    forall p :: ValidName(p) ==> CountAt(layerCounts, Join(p)) == Children(names, p)
  }

  lemma PathOfNew(names: seq<Name>, n: Name)
    requires Registered(names) && n != [] && ValidName(n) && n !in names && (|n| > 1 ==> Parent(n) in names)
    ensures Registered(names + [n]) && Path(names + [n], n) == Path(names, Parent(n)) + [Children(names, Parent(n))]
  {
    RegisterOne(names, n);
    assert Parent(n) == [] || Parent(n) in names;
    PathKept(names, n, Parent(n));
    assert n in names + [n];
    PathParent(names + [n], n);
  }

  lemma PositionsKept(names: seq<Name>, layerOrder: map<string, seq<nat>>, n: Name, position: seq<nat>)
    requires Registered(names) && OrderOk(names, layerOrder) && Registered(names + [n])
    requires n !in names && position == Path(names + [n], n)
    ensures OrderOk(names + [n], layerOrder[Join(n) := position])
  {
    hide Join, Path, Children, Index, Parent, Registered;
    assert n in names + [n];
    assert Registered(names) && Registered(names + [n]);
    forall m | m in names
      ensures m in names + [n] && Path(names + [n], m) == Path(names, m) && (Join(m) == Join(n) ==> m == n)
    {
      Known(names, n, m);
      PathKept(names, n, m);
      if Join(m) == Join(n) { JoinInjective(m, n); }
    }
  }

  lemma InsertOk(names: seq<Name>, layerOrder: map<string, seq<nat>>, layerCounts: map<string, nat>, n: Name)
    requires Registered(names) && OrderOk(names, layerOrder) && CountsOk(names, layerCounts)
    requires n != [] && ValidName(n) && n !in names && (|n| > 1 ==> Parent(n) in names)
    ensures var key := Join(Parent(n));
            var next := CountAt(layerCounts, key);
            && Registered(names + [n])
            && OrderOk(names + [n], layerOrder[Join(n) := Path(names, Parent(n)) + [next]])
            && CountsOk(names + [n], layerCounts[key := next + 1])
  {
    assert ValidName(Parent(n));
    hide OrderOk, Path, Join, Registered, Children, Parent, ValidName;
    assert CountAt(layerCounts, Join(Parent(n))) == Children(names, Parent(n));
    hide CountsOk;
    PathOfNew(names, n);
    PositionsKept(names, layerOrder, n, Path(names + [n], n));
    CountsAfter(names, layerCounts, n);
  }

  lemma Known(names: seq<Name>, n: Name, m: Name)
    requires Registered(names + [n]) && m in names
    ensures m in names + [n] && ValidName(m) && ValidName(n)
  {
  }

  lemma CountsAfter(names: seq<Name>, layerCounts: map<string, nat>, n: Name)
    requires CountsOk(names, layerCounts) && n != [] && ValidName(n)
    ensures var key := Join(Parent(n));
            CountsOk(names + [n], layerCounts[key := CountAt(layerCounts, key) + 1])
  {
    assert (names + [n])[..|names|] == names;
    assert ValidName(Parent(n));
    var counts := layerCounts[Join(Parent(n)) := CountAt(layerCounts, Join(Parent(n))) + 1];
    forall p | ValidName(p)
      ensures CountAt(counts, Join(p)) == Children(names + [n], p)
    {
      if Join(p) == Join(Parent(n)) { JoinInjective(p, Parent(n)); }
    }
  }

  lemma PrefixStep(parts: Name, k: nat, m: Name)
    requires k < |parts|
    ensures m <= parts[..k + 1] <==> m <= parts[..k] || m == parts[..k + 1]
  {
  }

  class Registry {
    var layerOrder: map<string, seq<nat>>
    var layerCounts: map<string, nat>
    /** The qualified names in the order of their first registration. */
    ghost var names: seq<Name>

    ghost predicate Valid()
      reads this
    {
      Registered(names) && OrderOk(names, layerOrder) && CountsOk(names, layerCounts)
    }

    constructor ()
      ensures Valid() && names == []
    {
      layerOrder, layerCounts, names := map[], map[], [];
    }

    /** Registers a qualified name and its ancestors; whatever was registered keeps its position. */
    method RegisterLayer(parts: Name)
      requires Valid() && ValidName(parts)
      modifies this
      ensures Valid() && old(names) <= names
      ensures forall n :: n in names <==> n in old(names) || (n != [] && n <= parts)
    {
      hide OrderOk, CountsOk, Path, Join, Registered;
      var parent := "";
      var path: seq<nat> := [];
      assert parts[..0] == [] && Join([]) == "" && Path(names, []) == [] by {
        RootPath(names);
      }
      for k := 0 to |parts|
        invariant Valid() && old(names) <= names
        invariant parent == Join(parts[..k])
        invariant parts[..k] == [] || parts[..k] in names
        invariant path == Path(names, parts[..k])
        invariant forall n :: n in names <==> n in old(names) || (n != [] && n <= parts[..k])
      {
        var n := parts[..k + 1];
        assert Parent(n) == parts[..k] && ValidName(n) && ValidName(parts[..k]);
        var qualified := if parent != "" then parent + "." + parts[k] else parts[k];
        Qualify(parts, k);
        if qualified !in layerOrder {
          NotYet(names, layerOrder, n);
          Insert(n, parent, path);
        } else {
          Already(names, layerOrder, n);
        }
        forall m
          ensures m in names <==> m in old(names) || (m != [] && m <= n)
        {
          PrefixStep(parts, k, m);
        }
        PathOf(names, layerOrder, n);
        path := layerOrder[qualified];
        parent := qualified;
      }
      assert parts[..|parts|] == parts;
    }

    /** Appends the child to its parent's siblings. */
    method Insert(n: Name, parent: string, path: seq<nat>)
      requires Valid() && n != [] && ValidName(n) && n !in names && (|n| > 1 ==> Parent(n) in names)
      requires parent == Join(Parent(n)) && path == Path(names, Parent(n))
      modifies this
      ensures Valid() && names == old(names) + [n]
    {
      hide OrderOk, CountsOk, Path, Join, Registered, Children, Parent, ValidName, CountAt;
      InsertOk(names, layerOrder, layerCounts, n);
      var next := CountAt(layerCounts, parent);
      layerCounts := layerCounts[parent := next + 1];
      layerOrder := layerOrder[Join(n) := path + [next]];
      names := names + [n];
    }
  }

  lemma RootPath(names: seq<Name>)
    requires Registered(names)
    ensures Join([]) == "" && Path(names, []) == []
  {
  }

  /** The key the walk builds is the joined name. */
  lemma Qualify(parts: Name, k: nat)
    requires ValidName(parts) && k < |parts|
    ensures Join(parts[..k + 1]) ==
            if Join(parts[..k]) != "" then Join(parts[..k]) + "." + parts[k] else parts[k]
  {
    assert ValidName(parts[..k]) && Parent(parts[..k + 1]) == parts[..k];
    JoinShape(parts[..k]);
  }

  lemma NotYet(names: seq<Name>, layerOrder: map<string, seq<nat>>, n: Name)
    requires Registered(names) && OrderOk(names, layerOrder) && Join(n) !in layerOrder
    ensures n !in names
  {
  }

  lemma Already(names: seq<Name>, layerOrder: map<string, seq<nat>>, n: Name)
    requires Registered(names) && OrderOk(names, layerOrder) && ValidName(n) && Join(n) in layerOrder
    ensures n in names
  {
    var m :| m in names && Join(m) == Join(n);
    JoinInjective(m, n);
  }

  lemma PathOf(names: seq<Name>, layerOrder: map<string, seq<nat>>, n: Name)
    requires Registered(names) && OrderOk(names, layerOrder) && n in names
    ensures Join(n) in layerOrder && layerOrder[Join(n)] == Path(names, n)
  {
  }
}
