/**
 The union-find that groups canonical memories and their evidence-linked
 observations before a legacy migration.  `Linker` keeps the source's single
 `parent` map, which `Find` rewrites by path compression; everything it promises
 is stated against chains of the unions performed so far.
 */
module ComponentLinker {
  import opened Basics

  // ----- chains of unions: the independent meaning of "same component" -----

  /** A graph node: a canonical memory (tag "m:") or an observation (tag "o:"). */
  datatype Node = Memory(id: string) | Observation(id: string)

  type Links = set<(Node, Node)>

  predicate Joined(links: Links, a: Node, b: Node) {
    (a, b) in links || (b, a) in links
  }

  ghost predicate IsChain(links: Links, c: seq<Node>) {
    |c| > 0 && forall i, j :: 0 <= i && j == i + 1 && j < |c| ==> Joined(links, c[i], c[j])
  }

  ghost predicate ChainBetween(links: Links, c: seq<Node>, a: Node, b: Node) {
    IsChain(links, c) && c[0] == a && c[|c| - 1] == b
  }

  /** A (possibly empty) chain of unions joins `a` to `b`. */
  ghost predicate Connected(links: Links, a: Node, b: Node) {
    exists c :: ChainBetween(links, c, a, b)
  }

  lemma ConnectedRefl(links: Links, a: Node)
    ensures Connected(links, a, a)
  {
    assert ChainBetween(links, [a], a, a);
  }

  lemma ConnectedStep(links: Links, a: Node, b: Node)
    requires Joined(links, a, b)
    ensures Connected(links, a, b)
  {
    assert ChainBetween(links, [a, b], a, b);
  }

  lemma ConnectedSym(links: Links, a: Node, b: Node)
    requires Connected(links, a, b)
    ensures Connected(links, b, a)
  {
    var c :| ChainBetween(links, c, a, b);
    var r := seq(|c|, i requires 0 <= i < |c| => c[|c| - 1 - i]);
    forall i, j | 0 <= i && j == i + 1 && j < |r| ensures Joined(links, r[i], r[j]) {
      assert Joined(links, c[|c| - 1 - j], c[|c| - 1 - i]);
    }
    assert ChainBetween(links, r, b, a);
  }

  lemma ConnectedTrans(links: Links, a: Node, b: Node, c: Node)
    requires Connected(links, a, b) && Connected(links, b, c)
    ensures Connected(links, a, c)
  {
    var x :| ChainBetween(links, x, a, b);
    var y :| ChainBetween(links, y, b, c);
    var z := x + y[1..];
    forall i, j | 0 <= i && j == i + 1 && j < |z| ensures Joined(links, z[i], z[j]) {
      if i >= |x| - 1 {
        assert z[i] == y[i - (|x| - 1)] && z[j] == y[j - (|x| - 1)];
      } else {
        assert z[i] == x[i] && z[j] == x[j];
      }
    }
    assert ChainBetween(links, z, a, c);
  }

  lemma ConnectedMono(links: Links, more: Links, a: Node, b: Node)
    requires Connected(links, a, b) && links <= more
    ensures Connected(more, a, b)
  {
    var c :| ChainBetween(links, c, a, b);
    assert ChainBetween(more, c, a, b);
  }

  /** A labelling that agrees across every union is constant along every chain. */
  lemma LabelConstant<L>(links: Links, mark: Node -> L, a: Node, b: Node)
    requires forall x, y :: (x, y) in links ==> mark(x) == mark(y)
    requires Connected(links, a, b)
    ensures mark(a) == mark(b)
  {
    var c :| ChainBetween(links, c, a, b);
    var i := 0;
    while i < |c| - 1
      invariant 0 <= i < |c| && mark(c[i]) == mark(a)
    {
      assert Joined(links, c[i], c[i + 1]);
      i := i + 1;
    }
  }

  // ----- the parent map as a forest -----

  /** `height` strictly decreases along the parent pointer of `n`. */
  ghost predicate Descends(parent: map<Node, Node>, height: map<Node, nat>, n: Node)
    requires n in parent && parent.Keys == height.Keys
  {
    parent[n] in parent && (parent[n] != n ==> height[parent[n]] < height[n])
  }

  /** Heights decrease along every parent pointer, so pointers cannot cycle. */
  ghost predicate Forest(parent: map<Node, Node>, height: map<Node, nat>) {
    && parent.Keys == height.Keys
    && forall n {:trigger Descends(parent, height, n)} :: n in parent ==> Descends(parent, height, n)
  }

  /** The end of the parent chain that starts at `n`. */
  ghost function Root(parent: map<Node, Node>, height: map<Node, nat>, n: Node): (r: Node)
    requires Forest(parent, height) && n in parent
    ensures r in parent && parent[r] == r
    ensures height[r] <= height[n] && (r == n <==> parent[n] == n)
    decreases height[n]
  {
    assert Descends(parent, height, n);
    if parent[n] == n then n else Root(parent, height, parent[n])
  }

  /** Path compression changes no representative. */
  lemma {:induction false} CompressKeepsRoots(parent: map<Node, Node>, height: map<Node, nat>, n: Node, x: Node)
    requires Forest(parent, height) && n in parent && x in parent
    ensures Forest(parent[n := Root(parent, height, n)], height)
    ensures Root(parent[n := Root(parent, height, n)], height, x) == Root(parent, height, x)
    decreases height[x]
  {
    var top := Root(parent, height, n);
    forall m | m in parent ensures Descends(parent[n := top], height, m) {
      assert Descends(parent, height, m);
    }
    if parent[x] != x {
      assert Descends(parent, height, x);
      CompressKeepsRoots(parent, height, n, parent[x]);
    }
  }

  /** The height map of the forest after the root `ra` is hung below the root `rb`. */
  ghost function RaisedHeight(parent: map<Node, Node>, height: map<Node, nat>, ra: Node, rb: Node): map<Node, nat>
    requires Forest(parent, height) && ra in parent && rb in parent
  {
    map x | x in parent :: if Root(parent, height, x) == ra then height[x] + height[rb] + 1 else height[x]
  }

  lemma RaisedIsForest(parent: map<Node, Node>, height: map<Node, nat>, ra: Node, rb: Node) returns (h': map<Node, nat>)
    requires Forest(parent, height) && ra in parent && rb in parent
    requires parent[ra] == ra && parent[rb] == rb && ra != rb
    ensures Forest(parent[ra := rb], h')
  {
    var p' := parent[ra := rb];
    h' := RaisedHeight(parent, height, ra, rb);
    assert p'.Keys == h'.Keys;
    forall m | m in p' ensures Descends(p', h', m) {
      assert Descends(parent, height, m);
      if m == ra {
        assert Root(parent, height, ra) == ra && Root(parent, height, rb) == rb;
      } else {
        assert Root(parent, height, m) == Root(parent, height, parent[m]);
      }
    }
  }

  /** Hanging one root below another merges exactly those two trees. */
  lemma {:induction false} LinkMergesTwoTrees(parent: map<Node, Node>, height: map<Node, nat>,
                                              p': map<Node, Node>, h': map<Node, nat>, ra: Node, rb: Node, x: Node)
    requires Forest(parent, height) && ra in parent && rb in parent && x in parent
    requires parent[ra] == ra && parent[rb] == rb && ra != rb
    requires p' == parent[ra := rb] && Forest(p', h')
    ensures Root(p', h', x) == if Root(parent, height, x) == ra then rb else Root(parent, height, x)
    decreases height[x]
  {
    assert Descends(parent, height, x);
    if parent[x] != x {
      LinkMergesTwoTrees(parent, height, p', h', ra, rb, parent[x]);
    }
  }

  // ----- what one step does to the whole structure -----

  /** The forest `parent` represents exactly the components of `links`. */
  ghost predicate Represents(parent: map<Node, Node>, height: map<Node, nat>, links: Links) {
    && Forest(parent, height)
    && (forall a, b :: (a, b) in links ==>
          a in parent && b in parent && Root(parent, height, a) == Root(parent, height, b))
    && (forall n {:trigger Root(parent, height, n)} :: n in parent ==> Connected(links, n, Root(parent, height, n)))
  }

  ghost predicate SameRoots(p: map<Node, Node>, h: map<Node, nat>, p': map<Node, Node>, h': map<Node, nat>) {
    && Forest(p, h) && Forest(p', h')
    && forall n {:trigger Root(p', h', n)} {:trigger Root(p, h, n)} :: n in p ==> n in p' && Root(p', h', n) == Root(p, h, n)
  }

  /** Two known nodes share a representative exactly when a chain of unions joins them. */
  lemma RootsAreComponents(p: map<Node, Node>, h: map<Node, nat>, links: Links, a: Node, b: Node)
    requires Represents(p, h, links) && a in p && b in p
    ensures Root(p, h, a) == Root(p, h, b) <==> Connected(links, a, b)
  {
    if Root(p, h, a) == Root(p, h, b) {
      ConnectedSym(links, b, Root(p, h, b));
      ConnectedTrans(links, a, Root(p, h, a), b);
    }
    if Connected(links, a, b) {
      var mark := (n: Node) => if Forest(p, h) && n in p then [Root(p, h, n)] else [];
      LabelConstant(links, mark, a, b);
    }
  }

  lemma AfterAdd(p: map<Node, Node>, h: map<Node, nat>, links: Links, node: Node)
    requires Represents(p, h, links) && node !in p
    ensures Represents(p[node := node], h[node := 0], links)
    ensures SameRoots(p, h, p[node := node], h[node := 0])
  {
    var p', h' := p[node := node], h[node := 0];
    forall m | m in p' ensures Descends(p', h', m) {
      assert m in p ==> Descends(p, h, m);
    }
    forall x | x in p ensures Root(p', h', x) == Root(p, h, x) {
      RootIgnoresNewNode(p, h, node, x);
    }
    ConnectedRefl(links, node);
  }

  lemma AfterCompress(p: map<Node, Node>, h: map<Node, nat>, links: Links, node: Node)
    requires Represents(p, h, links) && node in p
    ensures Represents(p[node := Root(p, h, node)], h, links)
    ensures SameRoots(p, h, p[node := Root(p, h, node)], h)
  {
    var p' := p[node := Root(p, h, node)];
    CompressKeepsRoots(p, h, node, node);
    forall x | x in p ensures Root(p', h, x) == Root(p, h, x) {
      CompressKeepsRoots(p, h, node, x);
    }
  }

  lemma AfterLink(p: map<Node, Node>, h: map<Node, nat>, links: Links, a: Node, b: Node, p': map<Node, Node>, h': map<Node, nat>)
    requires Represents(p, h, links) && a in p && b in p && Root(p, h, a) != Root(p, h, b)
    requires p' == p[Root(p, h, a) := Root(p, h, b)] && Forest(p', h')
    ensures Represents(p', h', links + {(a, b)})
  {
    var ra, rb, l' := Root(p, h, a), Root(p, h, b), links + {(a, b)};
    forall x | x in p ensures Root(p', h', x) == if Root(p, h, x) == ra then rb else Root(p, h, x) {
      LinkMergesTwoTrees(p, h, p', h', ra, rb, x);
    }
    forall n | n in p' ensures Connected(l', n, Root(p', h', n)) {
      ConnectedMono(links, l', n, Root(p, h, n));
      if Root(p, h, n) == ra {
        BridgeConnects(links, a, b, ra, rb);
        ConnectedTrans(l', n, ra, rb);
      }
    }
  }

  lemma AfterRedundantLink(p: map<Node, Node>, h: map<Node, nat>, links: Links, a: Node, b: Node)
    requires Represents(p, h, links) && a in p && b in p && Root(p, h, a) == Root(p, h, b)
    ensures Represents(p, h, links + {(a, b)})
  {
    forall n | n in p ensures Connected(links + {(a, b)}, n, Root(p, h, n)) {
      ConnectedMono(links, links + {(a, b)}, n, Root(p, h, n));
    }
  }

  /** Whether or not the two trees were already one, the union is represented. */
  lemma AfterUnion(p: map<Node, Node>, h: map<Node, nat>, links: Links, a: Node, b: Node)
    returns (p': map<Node, Node>, h': map<Node, nat>)
    requires Represents(p, h, links) && a in p && b in p
    ensures p' == if Root(p, h, a) == Root(p, h, b) then p else p[Root(p, h, a) := Root(p, h, b)]
    ensures p'.Keys == p.Keys && Represents(p', h', links + {(a, b)})
  {
    var ra, rb := Root(p, h, a), Root(p, h, b);
    if ra == rb {
      p', h' := p, h;
      AfterRedundantLink(p, h, links, a, b);
    } else {
      p' := p[ra := rb];
      h' := RaisedIsForest(p, h, ra, rb);
      AfterLink(p, h, links, a, b, p', h');
    }
  }

  lemma {:induction false} RootIgnoresNewNode(parent: map<Node, Node>, height: map<Node, nat>, node: Node, x: Node)
    requires Forest(parent, height) && node !in parent && x in parent
    ensures Forest(parent[node := node], height[node := 0])
    ensures Root(parent[node := node], height[node := 0], x) == Root(parent, height, x)
    decreases height[x]
  {
    var p', h' := parent[node := node], height[node := 0];
    forall m | m in p' ensures Descends(p', h', m) {
      assert m in parent ==> Descends(parent, height, m);
    }
    if parent[x] != x {
      assert Descends(parent, height, x);
      RootIgnoresNewNode(parent, height, node, parent[x]);
    }
  }

  lemma BridgeConnects(l: Links, a: Node, b: Node, ra: Node, rb: Node)
    requires Connected(l, a, ra) && Connected(l, b, rb)
    ensures Connected(l + {(a, b)}, ra, rb)
  {
    var l' := l + {(a, b)};
    ConnectedMono(l, l', a, ra);
    ConnectedMono(l, l', b, rb);
    ConnectedSym(l', a, ra);
    ConnectedStep(l', a, b);
    ConnectedTrans(l', ra, a, b);
    ConnectedTrans(l', ra, b, rb);
  }

  // ----- the mutable linker -----

  class Linker {
    var parent: map<Node, Node>
    ghost var height: map<Node, nat>
    ghost var links: Links

    ghost predicate Valid()
      reads this
    {
      Represents(parent, height, links)
    }

    constructor ()
      ensures Valid() && parent == map[] && links == {}
    {
      parent, height, links := map[], map[], {};
    }

    method Find(node: Node) returns (top: Node)
      requires Valid()
      modifies this
      ensures Valid() && links == old(links)
      ensures parent.Keys == old(parent.Keys) + {node}
      ensures SameRoots(old(parent), old(height), parent, height)
      ensures node in old(parent) ==> height == old(height)
      ensures top == Root(parent, height, node) && parent[node] == top
      decreases if node in parent then height[node] + 1 else 0
    {
      if node !in parent {
        AfterAdd(parent, height, links, node);
        parent, height := parent[node := node], height[node := 0];
        return node;
      }
      var next := parent[node];
      assert Descends(parent, height, node);
      if next == node {
        return node;
      }
      top := Find(next);
      AfterCompress(parent, height, links, node);
      parent := parent[node := top];
    }

    method Touch(node: Node)
      requires Valid()
      modifies this
      ensures Valid() && links == old(links)
      ensures parent.Keys == old(parent.Keys) + {node}
      ensures SameRoots(old(parent), old(height), parent, height)
    {
      var _ := Find(node);
    }

    method Union(a: Node, b: Node)
      requires Valid()
      modifies this
      ensures Valid() && links == old(links) + {(a, b)}
      ensures parent.Keys == old(parent.Keys) + {a, b}
    {
      var ra := Find(a);
      var rb := Find(b);
      Hang(a, b, ra, rb);
    }

    /** The last statement of `Union`: hang the root of `a` below the root of `b` when they differ. */
    method Hang(ghost a: Node, ghost b: Node, ra: Node, rb: Node)
      requires Valid() && a in parent && b in parent && ra == Root(parent, height, a) && rb == Root(parent, height, b)
      modifies this
      ensures Valid() && links == old(links) + {(a, b)}
      ensures parent == if ra == rb then old(parent) else old(parent)[ra := rb]
      ensures parent.Keys == old(parent.Keys)
    {
      ghost var p', h' := AfterUnion(parent, height, links, a, b);
      ghost var links' := links + {(a, b)};
      if ra != rb {
        parent := parent[ra := rb];
      }
      assert parent == p';
      height, links := h', links';
    }

    /**
     The node groups, keyed by representative.  Iterating while `Find` compresses
     paths is safe: no key appears or disappears and no representative moves.
     */
    method Components() returns (out: map<Node, seq<Node>>)
      requires Valid()
      modifies this
      ensures Valid() && links == old(links) && parent.Keys == old(parent.Keys)
      ensures SameRoots(old(parent), old(height), parent, height)
      ensures IsGrouping(out, parent.Keys, links)
    {
      out := map[];
      var todo := parent.Keys;
      ghost var p0, h0, l0 := parent, height, links;
      while todo != {}
        invariant Valid() && links == l0 && parent.Keys == p0.Keys
        invariant SameRoots(p0, h0, parent, height)
        invariant todo <= p0.Keys
        invariant GroupedByRoot(out, p0, h0, todo)
        decreases todo
      {
        var node :| node in todo;
        var root := Find(node);
        assert root == Root(p0, h0, node);
        var group := if root in out then out[root] else [];
        GroupStep(out, p0, h0, todo, node);
        out := out[root := group + [node]];
        todo := todo - {node};
      }
      GroupedByRootIsGrouping(out, p0, h0, l0);
    }
  }

  /** Every node outside `todo` is listed once, under its root. */
  ghost predicate GroupedByRoot(out: map<Node, seq<Node>>, p: map<Node, Node>, h: map<Node, nat>, todo: set<Node>) {
    && Forest(p, h)
    && (forall r :: r in out ==> out[r] != [] && NoDup(out[r]))
    && (forall r, n :: r in out && n in out[r] ==> n in p && n !in todo && Root(p, h, n) == r)
    && (forall n :: n in p && n !in todo ==> Root(p, h, n) in out && n in out[Root(p, h, n)])
  }

  lemma GroupStep(out: map<Node, seq<Node>>, p: map<Node, Node>, h: map<Node, nat>, todo: set<Node>, node: Node)
    requires GroupedByRoot(out, p, h, todo) && node in todo && node in p
    ensures var root := Root(p, h, node);
            var group := if root in out then out[root] else [];
            GroupedByRoot(out[root := group + [node]], p, h, todo - {node})
  {
    var root := Root(p, h, node);
    var group := if root in out then out[root] else [];
    var out' := out[root := group + [node]];
    assert node !in group;
    forall n | n in p && n !in todo - {node} ensures Root(p, h, n) in out' && n in out'[Root(p, h, n)] {
      if n == node {
        assert out'[root][|group|] == node;
      } else if Root(p, h, n) == root {
        assert n in group;
      }
    }
  }

  lemma GroupedByRootIsGrouping(out: map<Node, seq<Node>>, p: map<Node, Node>, h: map<Node, nat>, links: Links)
    requires Represents(p, h, links) && GroupedByRoot(out, p, h, {})
    ensures IsGrouping(out, p.Keys, links)
  {
    forall r, s, a, b | r in out && s in out && a in out[r] && b in out[s]
      ensures r == s <==> Connected(links, a, b)
    {
      assert Root(p, h, a) == r && Root(p, h, b) == s;
      RootsAreComponents(p, h, links, a, b);
    }
    forall n | n in p.Keys ensures exists r :: r in out && n in out[r] {
      assert Root(p, h, n) in out && n in out[Root(p, h, n)];
    }
  }

  /** `groups` lists each node of `nodes` once, and two nodes share a list exactly when `links` connects them. */
  ghost predicate IsGrouping(groups: map<Node, seq<Node>>, nodes: set<Node>, links: Links) {
    && (forall r :: r in groups ==> groups[r] != [] && NoDup(groups[r]))
    && (forall r, n :: r in groups && n in groups[r] ==> n in nodes)
    && (forall n :: n in nodes ==> exists r :: r in groups && n in groups[r])
    && (forall r, s, a, b :: r in groups && s in groups && a in groups[r] && b in groups[s] ==>
          (r == s <==> Connected(links, a, b)))
  }
}
