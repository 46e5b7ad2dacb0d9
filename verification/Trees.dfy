/** Rooted trees as the planner grows them: each node but the root hangs below an earlier one. */
module Trees {

  predicate Tree(parent: seq<nat>) {
    |parent| > 0 && forall i | 0 < i < |parent| :: parent[i] < i
  }

  /** `a` is `x` or lies above it. */
  predicate Anc(parent: seq<nat>, a: nat, x: nat)
    requires Tree(parent) && x < |parent|
    decreases x
  {
    a == x || (x > 0 && Anc(parent, a, parent[x]))
  }

  lemma {:induction false} AncIsSmaller(parent: seq<nat>, a: nat, x: nat)
    requires Tree(parent) && x < |parent| && Anc(parent, a, x)
    ensures a <= x
    decreases x
  {
    if a != x { AncIsSmaller(parent, a, parent[x]); }
  }

  lemma {:induction false} AncTrans(parent: seq<nat>, a: nat, b: nat, x: nat)
    requires Tree(parent) && x < |parent| && Anc(parent, b, x)
    ensures b < |parent| && (Anc(parent, a, b) ==> Anc(parent, a, x))
    decreases x
  {
    AncIsSmaller(parent, b, x);
    if b != x { AncTrans(parent, a, b, parent[x]); }
  }

  lemma {:induction false} RootIsAnc(parent: seq<nat>, x: nat)
    requires Tree(parent) && x < |parent|
    ensures Anc(parent, 0, x)
    decreases x
  {
    if x > 0 { RootIsAnc(parent, parent[x]); }
  }

  /** The ancestors of one node form a chain. */
  lemma {:induction false} AncChain(parent: seq<nat>, a: nat, b: nat, x: nat)
    requires Tree(parent) && x < |parent| && Anc(parent, a, x) && Anc(parent, b, x)
    ensures a < |parent| && b < |parent| && (Anc(parent, a, b) || Anc(parent, b, a))
    decreases x
  {
    AncIsSmaller(parent, a, x);
    AncIsSmaller(parent, b, x);
    if a != x && b != x { AncChain(parent, a, b, parent[x]); }
  }

  // ---- Lowest common ancestors ----

  ghost predicate IsLca(parent: seq<nat>, x: nat, y: nat, l: nat)
    requires Tree(parent) && x < |parent| && y < |parent|
  {
    && l < |parent| && Anc(parent, l, x) && Anc(parent, l, y)
    && forall c: nat | Anc(parent, c, x) && Anc(parent, c, y) :: Anc(parent, c, l)
  }

  lemma LcaIsUnique(parent: seq<nat>, x: nat, y: nat, l: nat, m: nat)
    requires Tree(parent) && x < |parent| && y < |parent|
    requires IsLca(parent, x, y, l) && IsLca(parent, x, y, m)
    ensures l == m
  {
    AncIsSmaller(parent, l, m);
    AncIsSmaller(parent, m, l);
  }

  /** Replacing the larger of two nodes by its parent until they meet. */
  function Lca(parent: seq<nat>, x: nat, y: nat): nat
    requires Tree(parent) && x < |parent| && y < |parent|
    decreases x + y
  {
    if x == y then x
    else if x > y then Lca(parent, parent[x], y)
    else Lca(parent, x, parent[y])
  }

  lemma {:induction false} LcaIsLca(parent: seq<nat>, x: nat, y: nat)
    requires Tree(parent) && x < |parent| && y < |parent|
    ensures IsLca(parent, x, y, Lca(parent, x, y))
    decreases x + y
  {
    if x > y {
      LcaIsLca(parent, parent[x], y);
      forall c: nat | Anc(parent, c, x) && Anc(parent, c, y) ensures Anc(parent, c, parent[x]) {
        AncIsSmaller(parent, c, y);
      }
    } else if x < y {
      LcaIsLca(parent, x, parent[y]);
      forall c: nat | Anc(parent, c, x) && Anc(parent, c, y) ensures Anc(parent, c, parent[y]) {
        AncIsSmaller(parent, c, x);
      }
    }
  }

  // ---- Paths ----

  /** `c` lies on the way from `top` down to `x`, below `top`. */
  predicate Below(parent: seq<nat>, top: nat, x: nat, c: nat)
    requires Tree(parent) && x < |parent|
  {
    Anc(parent, c, x) && c < |parent| && c != top && Anc(parent, top, c)
  }

  /** The nodes from `x` up to `top`. */
  ghost function Climbed(parent: seq<nat>, x: nat, top: nat): set<nat>
    requires Tree(parent) && x < |parent|
  {
    set c | 0 <= c <= x && Anc(parent, c, x) && Anc(parent, top, c)
  }

  lemma ClimbStart(parent: seq<nat>, x: nat)
    requires Tree(parent) && x < |parent|
    ensures Climbed(parent, x, x) == {x}
  {
    forall c | c in Climbed(parent, x, x) ensures c == x {
      AncIsSmaller(parent, x, c);
    }
  }

  lemma ClimbStep(parent: seq<nat>, x: nat, a: nat)
    requires Tree(parent) && x < |parent| && 0 < a < |parent| && Anc(parent, a, x)
    ensures Anc(parent, parent[a], x)
    ensures Climbed(parent, x, parent[a]) == Climbed(parent, x, a) + {parent[a]}
  {
    var p := parent[a];
    assert Anc(parent, p, a);
    AncTrans(parent, p, a, x);
    AncIsSmaller(parent, p, x);
    forall c | c in Climbed(parent, x, p) && c != p ensures c in Climbed(parent, x, a) {
      AncChain(parent, c, a, x);
      if Anc(parent, c, a) && c != a {
        AncIsSmaller(parent, c, p);
        AncIsSmaller(parent, p, c);
      }
    }
    forall c | c in Climbed(parent, x, a) ensures c in Climbed(parent, x, p) {
      AncTrans(parent, p, a, c);
    }
  }

  /** On two disjoint climbs, the first node of one that the other one has reached is the lowest common ancestor. */
  lemma FirstMeeting(parent: seq<nat>, x: nat, a: nat, y: nat, b: nat)
    requires Tree(parent) && x < |parent| && y < |parent|
    requires 0 < a < |parent| && Anc(parent, a, x) && Anc(parent, b, y) && b < |parent|
    requires forall c | c in Climbed(parent, x, a) && c in Climbed(parent, y, b) :: c == b
    requires parent[a] in Climbed(parent, y, b)
    ensures IsLca(parent, x, y, parent[a])
  {
    var l := parent[a];
    ClimbStep(parent, x, a);
    assert Anc(parent, l, y) && Anc(parent, b, l);
    forall c: nat | Anc(parent, c, x) && Anc(parent, c, y) ensures Anc(parent, c, l) {
      AncIsSmaller(parent, c, x);
      AncIsSmaller(parent, c, y);
      AncChain(parent, c, l, x);
      if Anc(parent, l, c) && c != l {
        AncTrans(parent, b, l, c);
        assert c in Climbed(parent, y, b);
        assert c in Climbed(parent, x, l);
        assert c in Climbed(parent, x, a);
        AncIsSmaller(parent, b, l);
        AncIsSmaller(parent, l, c);
      }
    }
  }
}
