/** The union-find that `_detect_cross_platform` keeps in its `parent`
    dict: a key absent from the dict is its own parent, `find` halves the
    path as it walks to the root, and `union` points one root at the other.

    The ghost `rank` orders every parent link (a child has a strictly smaller
    rank than its parent), which makes every walk to a root finite; the
    source keeps no ranks. */
module UnionFind {

  /** `parent.get(x, x)`. */
  function Par(p: map<string, string>, x: string): string {
    if x in p then p[x] else x
  }

  function Rk(rk: map<string, nat>, x: string): nat {
    if x in rk then rk[x] else 0
  }

  /** Ranks are bounded by m and strictly increase along every parent link. */
  ghost predicate Ranked(p: map<string, string>, rk: map<string, nat>, m: nat) {
    && (forall x :: x in rk ==> rk[x] <= m)
    && (forall x :: x in p && p[x] != x ==> Rk(rk, x) < Rk(rk, p[x]))
  }

  /** The root reached from x by following parent links. */
  ghost function RootOf(p: map<string, string>, rk: map<string, nat>, m: nat, x: string): (r: string)
    requires Ranked(p, rk, m)
    ensures Par(p, r) == r
    decreases m - Rk(rk, x)
  {
    if Par(p, x) == x then x else RootOf(p, rk, m, Par(p, x))
  }

  /** Pointing x at its grandparent keeps the ranking and every root. */
  lemma {:induction false} HalveKeepsRoot(p: map<string, string>, rk: map<string, nat>, m: nat, x: string, y: string)
    requires Ranked(p, rk, m)
    ensures Ranked(p[x := Par(p, Par(p, x))], rk, m)
    ensures RootOf(p[x := Par(p, Par(p, x))], rk, m, y) == RootOf(p, rk, m, y)
    decreases m - Rk(rk, y)
  {
    var q := Par(p, x);
    var g := Par(p, q);
    var p' := p[x := g];
    assert Ranked(p', rk, m) by {
      forall z | z in p' && p'[z] != z ensures Rk(rk, z) < Rk(rk, p'[z]) {
        if z == x {
          assert q != x;
          if g != q {
            assert Rk(rk, q) < Rk(rk, g);
          }
        }
      }
    }
    if Par(p, y) != y {
      if y == x {
        if g != q {
          HalveKeepsRoot(p, rk, m, x, g);
          assert RootOf(p, rk, m, q) == RootOf(p, rk, m, g);
        } else {
          HalveKeepsRoot(p, rk, m, x, q);
        }
      } else {
        HalveKeepsRoot(p, rk, m, x, Par(p, y));
      }
    }
  }

  /** Pointing root rx at root ry (ry's rank raised above rx's) keeps a
      ranking, and sends exactly the elements of rx's tree to ry. */
  lemma {:induction false} LinkRoots(p: map<string, string>, rk: map<string, nat>, m: nat, rx: string, ry: string, y: string)
    requires Ranked(p, rk, m) && Par(p, rx) == rx && Par(p, ry) == ry && rx != ry
    ensures var rk' := rk[ry := if Rk(rk, ry) > Rk(rk, rx) then Rk(rk, ry) else Rk(rk, rx) + 1];
      var m' := if m > Rk(rk, rx) then m else Rk(rk, rx) + 1;
      && Ranked(p[rx := ry], rk', m')
      && RootOf(p[rx := ry], rk', m', y) == if RootOf(p, rk, m, y) == rx then ry else RootOf(p, rk, m, y)
    decreases m - Rk(rk, y)
  {
    var rk' := rk[ry := if Rk(rk, ry) > Rk(rk, rx) then Rk(rk, ry) else Rk(rk, rx) + 1];
    var m' := if m > Rk(rk, rx) then m else Rk(rk, rx) + 1;
    var p' := p[rx := ry];
    assert Ranked(p', rk', m') by {
      forall z | z in p' && p'[z] != z ensures Rk(rk', z) < Rk(rk', p'[z]) {
        if z != rx {
          assert z != ry;
          assert Rk(rk, z) < Rk(rk, p[z]);
        }
      }
    }
    if y != rx && Par(p, y) != y {
      LinkRoots(p, rk, m, rx, ry, Par(p, y));
    }
  }

  /** LinkRoots for every element at once. */
  lemma LinkAll(p: map<string, string>, rk: map<string, nat>, m: nat, rx: string, ry: string, rk': map<string, nat>, m': nat)
    requires Ranked(p, rk, m) && Par(p, rx) == rx && Par(p, ry) == ry && rx != ry
    requires rk' == rk[ry := if Rk(rk, ry) > Rk(rk, rx) then Rk(rk, ry) else Rk(rk, rx) + 1]
    requires m' == if m > Rk(rk, rx) then m else Rk(rk, rx) + 1
    ensures Ranked(p[rx := ry], rk', m')
    ensures forall z :: RootOf(p[rx := ry], rk', m', z) == if RootOf(p, rk, m, z) == rx then ry else RootOf(p, rk, m, z)
  {
    LinkRoots(p, rk, m, rx, ry, rx);
    forall z ensures RootOf(p[rx := ry], rk', m', z) == if RootOf(p, rk, m, z) == rx then ry else RootOf(p, rk, m, z) {
      LinkRoots(p, rk, m, rx, ry, z);
    }
  }

  class UnionFind {
    var parent: map<string, string>
    ghost var rank: map<string, nat>
    ghost var maxRank: nat

    ghost predicate Valid()
      reads this
    {
      Ranked(parent, rank, maxRank)
    }

    /** The representative of x's set. */
    ghost function Root(x: string): string
      reads this
      requires Valid()
    {
      RootOf(parent, rank, maxRank, x)
    }

    /** An empty `parent` dict: every element is alone in its set. */
    constructor ()
      ensures Valid() && parent == map[]
      ensures forall x :: Root(x) == x
    {
      parent := map[];
      rank := map[];
      maxRank := 0;
    }

    /** `find`: returns x's root and halves the path on the way; no element
        changes root. */
    method Find(x: string) returns (r: string)
      requires Valid()
      modifies this
      ensures Valid()
      ensures r == old(Root(x))
      ensures forall y :: Root(y) == old(Root(y))
    {
      var cur := x;
      while Par(parent, cur) != cur
        invariant Valid()
        invariant forall y :: Root(y) == old(Root(y))
        invariant Root(cur) == old(Root(x))
        decreases maxRank - Rk(rank, cur)
      {
        var g := Par(parent, Par(parent, cur));
        forall y ensures RootOf(parent[cur := g], rank, maxRank, y) == RootOf(parent, rank, maxRank, y) {
          HalveKeepsRoot(parent, rank, maxRank, cur, y);
        }
        HalveKeepsRoot(parent, rank, maxRank, cur, cur);
        parent := parent[cur := g];
        cur := parent[cur];
      }
      r := cur;
    }

    /** `union`: afterwards the elements that shared x's root share y's
        root, and nothing else moves. */
    method Union(x: string, y: string)
      requires Valid()
      modifies this
      ensures Valid()
      ensures forall z :: Root(z) == if old(Root(z)) == old(Root(x)) then old(Root(y)) else old(Root(z))
    {
      var rx := Find(x);
      var ry := Find(y);
      if rx != ry {
        ghost var rk' := rank[ry := if Rk(rank, ry) > Rk(rank, rx) then Rk(rank, ry) else Rk(rank, rx) + 1];
        ghost var m' := if maxRank > Rk(rank, rx) then maxRank else Rk(rank, rx) + 1;
        LinkAll(parent, rank, maxRank, rx, ry, rk', m');
        parent := parent[rx := ry];
        rank := rk';
        maxRank := m';
      }
    }
  }
}
