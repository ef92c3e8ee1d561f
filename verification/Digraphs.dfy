/** Reachability in a graph given by its arcs, and what splicing new nodes into
    it or adding one arc does to reachability and to cycles. */
module Digraphs {
  type Node = string

  type Arcs = iset<(Node, Node)>

  /** A walk of `n` arcs from `a` to `b`. */
  ghost predicate Walk(r: Arcs, a: Node, b: Node, n: nat)
    decreases n
  {
    if n == 0 then a == b else exists m :: (a, m) in r && Walk(r, m, b, n - 1)
  }

  ghost predicate Reach(r: Arcs, a: Node, b: Node) {
    exists n: nat :: n > 0 && Walk(r, a, b, n)
  }

  ghost predicate Acyclic(r: Arcs) { forall a :: !Reach(r, a, a) }

  /** Reachable, or the same node. */
  ghost predicate Leads(r: Arcs, a: Node, b: Node) { a == b || Reach(r, a, b) }

  lemma {:induction false} WalkOnward(r: Arcs, a: Node, b: Node, c: Node, m: nat, n: nat)
    requires Walk(r, a, b, m) && Walk(r, b, c, n)
    ensures Walk(r, a, c, m + n)
    decreases m
  {
    if m > 0 {
      var x :| (a, x) in r && Walk(r, x, b, m - 1);
      WalkOnward(r, x, b, c, m - 1, n);
      assert (a, x) in r && Walk(r, x, c, m + n - 1);
    }
  }

  lemma {:induction false} ReachOnward(r: Arcs, a: Node, b: Node, c: Node)
    requires Leads(r, a, b) && Leads(r, b, c)
    ensures Leads(r, a, c)
    ensures Reach(r, a, b) || Reach(r, b, c) ==> Reach(r, a, c)
  {
    if Reach(r, a, b) && Reach(r, b, c) {
      var m: nat :| m > 0 && Walk(r, a, b, m);
      var n: nat :| n > 0 && Walk(r, b, c, n);
      WalkOnward(r, a, b, c, m, n);
    }
  }

  lemma {:induction false} ArcReaches(r: Arcs, a: Node, b: Node)
    requires (a, b) in r
    ensures Reach(r, a, b)
  {
    assert Walk(r, b, b, 0);
    assert Walk(r, a, b, 1);
  }

  lemma {:induction false} FirstArc(r: Arcs, a: Node, b: Node) returns (m: Node)
    requires Reach(r, a, b)
    ensures (a, m) in r && Leads(r, m, b)
  {
    var n: nat :| n > 0 && Walk(r, a, b, n);
    m :| (a, m) in r && Walk(r, m, b, n - 1);
    if n == 1 {
      assert m == b;
    }
  }

  /** Arcs that are walks of another graph add no reachability to it. */
  lemma {:induction false} WalkCarriesOver(r: Arcs, s: Arcs, a: Node, b: Node, n: nat)
    requires forall x, y :: (x, y) in r ==> Reach(s, x, y)
    requires Walk(r, a, b, n)
    ensures Leads(s, a, b)
    ensures n > 0 ==> Reach(s, a, b)
    decreases n
  {
    if n > 0 {
      var m :| (a, m) in r && Walk(r, m, b, n - 1);
      WalkCarriesOver(r, s, m, b, n - 1);
      ReachOnward(s, a, m, b);
    }
  }

  lemma {:induction false} ReachCarriesOver(r: Arcs, s: Arcs, a: Node, b: Node)
    requires forall x, y :: (x, y) in r ==> Reach(s, x, y)
    requires Reach(r, a, b)
    ensures Reach(s, a, b)
  {
    var n: nat :| n > 0 && Walk(r, a, b, n);
    WalkCarriesOver(r, s, a, b, n);
  }

  // ---------------------------------------------------------------- adding an arc

  lemma {:induction false} WalkWithArc(r: Arcs, u: Node, v: Node, a: Node, b: Node, n: nat)
    requires Walk(r + iset{(u, v)}, a, b, n)
    ensures Leads(r, a, b) || (Leads(r, a, u) && Leads(r, v, b))
    ensures n > 0 ==> Reach(r, a, b) || (Leads(r, a, u) && Leads(r, v, b))
    decreases n
  {
    if n > 0 {
      var m :| (a, m) in r + iset{(u, v)} && Walk(r + iset{(u, v)}, m, b, n - 1);
      WalkWithArc(r, u, v, m, b, n - 1);
      if (a, m) in r {
        ArcReaches(r, a, m);
        if Leads(r, m, b) {
          ReachOnward(r, a, m, b);
        } else {
          ReachOnward(r, a, m, u);
        }
      }
    }
  }

  /** With one more arc `u -> v`, the new connections are those from what leads
      to `u` to what `v` leads to. */
  lemma {:induction false} ReachWithArcIff(r: Arcs, u: Node, v: Node, a: Node, b: Node)
    ensures Reach(r + iset{(u, v)}, a, b) <==> Reach(r, a, b) || (Leads(r, a, u) && Leads(r, v, b))
  {
    var s := r + iset{(u, v)};
    if Reach(s, a, b) {
      var n: nat :| n > 0 && Walk(s, a, b, n);
      WalkWithArc(r, u, v, a, b, n);
    }
    forall x, y | (x, y) in r ensures Reach(s, x, y) {
      ArcReaches(s, x, y);
    }
    if Reach(r, a, b) {
      ReachCarriesOver(r, s, a, b);
    }
    if Leads(r, a, u) && Leads(r, v, b) {
      ArcReaches(s, u, v);
      if a != u {
        ReachCarriesOver(r, s, a, u);
      }
      if v != b {
        ReachCarriesOver(r, s, v, b);
      }
      ReachOnward(s, a, u, v);
      ReachOnward(s, a, v, b);
    }
  }

  lemma {:induction false} AcyclicWithArcIff(r: Arcs, u: Node, v: Node)
    ensures Acyclic(r + iset{(u, v)}) <==> Acyclic(r) && !Leads(r, v, u)
  {
    var s := r + iset{(u, v)};
    forall a ensures Reach(s, a, a) <==> Reach(r, a, a) || (Leads(r, a, u) && Leads(r, v, a)) {
      ReachWithArcIff(r, u, v, a, a);
    }
    if Leads(r, v, u) {
      assert Reach(s, u, u);
    }
    if !Acyclic(s) && Acyclic(r) {
      var a :| Reach(s, a, a);
      ReachOnward(r, v, a, u);
    }
    if !Acyclic(r) {
      var a :| Reach(r, a, a);
      assert Reach(s, a, a);
    }
  }

  // ---------------------------------------------------------------- splicing nodes in

  /** The old nodes that a spliced-in node feeds, and its place in the order of
      the new nodes. */
  datatype Splice = Splice(inner: set<Node>, feeds: map<Node, iset<Node>>, rank: map<Node, nat>) {
    ghost predicate Valid() { feeds.Keys == inner && rank.Keys == inner }

    ghost function Feeds(x: Node): iset<Node> { if x in feeds then feeds[x] else iset{} }

    ghost function Rank(x: Node): nat { if x in rank then rank[x] else 0 }
  }

  /** `s` is `r` with the fresh nodes spliced in: whatever goes through them
      stands for an arc of `r`, and nothing of `r` is lost. */
  ghost predicate Spliced(r: Arcs, s: Arcs, sp: Splice) {
    && sp.Valid()
    && (forall a, b :: (a, b) in r ==> a !in sp.inner && b !in sp.inner && Reach(s, a, b))
    && (forall a, b :: (a, b) in s ==> ArcOk(r, sp, a, b))
  }

  ghost predicate ArcOk(r: Arcs, sp: Splice, a: Node, b: Node) {
    if a !in sp.inner && b !in sp.inner then (a, b) in r
    else if a !in sp.inner then forall c :: c in sp.Feeds(b) ==> (a, c) in r
    else if b !in sp.inner then b in sp.Feeds(a)
    else sp.Feeds(b) <= sp.Feeds(a) && sp.Rank(a) < sp.Rank(b)
  }

  /** From a fresh node: where a walk to an old node leaves the fresh ones. */
  ghost predicate Emerges(r: Arcs, sp: Splice, x: Node, b: Node) {
    exists c :: c in sp.Feeds(x) && Leads(r, c, b)
  }

  ghost predicate Explained(r: Arcs, sp: Splice, a: Node, b: Node) {
    if a in sp.inner then Emerges(r, sp, a, b) else Reach(r, a, b)
  }

  lemma {:induction false} SplicedArc(r: Arcs, sp: Splice, a: Node, m: Node, b: Node)
    requires ArcOk(r, sp, a, m) && ((m == b && b !in sp.inner) || Explained(r, sp, m, b))
    ensures Explained(r, sp, a, b)
  {
    if m in sp.inner {
      var c :| c in sp.Feeds(m) && Leads(r, c, b);
      if a in sp.inner {
        assert c in sp.Feeds(a);
      } else {
        ArcReaches(r, a, c);
        ReachOnward(r, a, c, b);
      }
    } else if a in sp.inner {
      assert m in sp.Feeds(a) && Leads(r, m, b);
    } else {
      ArcReaches(r, a, m);
      ReachOnward(r, a, m, b);
    }
  }

  lemma {:induction false} SplicedWalk(r: Arcs, s: Arcs, sp: Splice, a: Node, b: Node, n: nat)
    requires Spliced(r, s, sp) && b !in sp.inner && n > 0 && Walk(s, a, b, n)
    ensures Explained(r, sp, a, b)
    decreases n
  {
    var m :| (a, m) in s && Walk(s, m, b, n - 1);
    if n > 1 {
      SplicedWalk(r, s, sp, m, b, n - 1);
    }
    SplicedArc(r, sp, a, m, b);
  }

  /** Between old nodes the spliced graph reaches exactly what the old one did. */
  lemma {:induction false} SpliceKeepsReach(r: Arcs, s: Arcs, sp: Splice, a: Node, b: Node)
    requires Spliced(r, s, sp) && a !in sp.inner && b !in sp.inner
    ensures Reach(s, a, b) <==> Reach(r, a, b)
  {
    if Reach(s, a, b) {
      var n: nat :| n > 0 && Walk(s, a, b, n);
      SplicedWalk(r, s, sp, a, b, n);
    }
    if Reach(r, a, b) {
      ReachCarriesOver(r, s, a, b);
    }
  }

  /** A walk that starts fresh climbs the ranks until it meets an old node. */
  lemma {:induction false} FreshClimb(r: Arcs, s: Arcs, sp: Splice, a: Node, b: Node, n: nat)
    requires Spliced(r, s, sp) && a in sp.inner && b in sp.inner && n > 0 && Walk(s, a, b, n)
    ensures sp.Rank(a) < sp.Rank(b) || exists c :: c !in sp.inner && Reach(s, a, c) && Reach(s, c, b)
    decreases n
  {
    var m :| (a, m) in s && Walk(s, m, b, n - 1);
    assert ArcOk(r, sp, a, m);
    ArcReaches(s, a, m);
    if n == 1 {
      assert m == b;
    } else if m in sp.inner {
      FreshClimb(r, s, sp, m, b, n - 1);
      if !(sp.Rank(m) < sp.Rank(b)) {
        var c :| c !in sp.inner && Reach(s, m, c) && Reach(s, c, b);
        ReachOnward(s, a, m, c);
      }
    } else {
      assert n - 1 > 0 && Walk(s, m, b, n - 1);
      assert Reach(s, m, b);
    }
  }

  /** Splicing neither makes nor breaks a cycle. */
  lemma {:induction false} SpliceKeepsAcyclic(r: Arcs, s: Arcs, sp: Splice)
    requires Spliced(r, s, sp)
    ensures Acyclic(s) <==> Acyclic(r)
  {
    if !Acyclic(s) {
      var a :| Reach(s, a, a);
      var c := a;
      if a in sp.inner {
        var n: nat :| n > 0 && Walk(s, a, a, n);
        FreshClimb(r, s, sp, a, a, n);
        c :| c !in sp.inner && Reach(s, a, c) && Reach(s, c, a);
        ReachOnward(s, c, a, c);
      }
      SpliceKeepsReach(r, s, sp, c, c);
    }
    if !Acyclic(r) {
      var a :| Reach(r, a, a);
      var m := FirstArc(r, a, a);
      SpliceKeepsReach(r, s, sp, a, a);
    }
  }
}
