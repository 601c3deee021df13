/** Configuration trees: lookup, set and delete along paths, and how they interact. */
module ConfigTree {
  import opened Basics

  /** A configuration tree over keys; a mapping keeps its entries in order and may repeat a key. */
  datatype Node<K> = Scalar(text: string) | Mapping(entries: seq<Entry<K>>) | Sequence(items: seq<Node<K>>)
  datatype Entry<K> = Entry(key: K, node: Node<K>)

  // ----- one mapping -----

  function Get<K(==)>(es: seq<Entry<K>>, key: K): Option<Node<K>> {
    if es == [] then None else if es[0].key == key then Some(es[0].node) else Get(es[1..], key)
  }

  /** Replaces the first entry of the key, or appends one. */
  function Set<K(==)>(es: seq<Entry<K>>, key: K, node: Node<K>): seq<Entry<K>> {
    if es == [] then [Entry(key, node)]
    else if es[0].key == key then [Entry(key, node)] + es[1..]
    else [es[0]] + Set(es[1..], key, node)
  }

  /** Removes the first entry of the key. */
  function Del<K(==)>(es: seq<Entry<K>>, key: K): seq<Entry<K>> {
    if es == [] then [] else if es[0].key == key then es[1..] else [es[0]] + Del(es[1..], key)
  }

  lemma {:induction false} GetSet<K>(es: seq<Entry<K>>, key: K, node: Node<K>, k: K)
    ensures Get(Set(es, key, node), k) == if k == key then Some(node) else Get(es, k)
  {
    if es != [] && es[0].key != key {
      GetSet(es[1..], key, node, k);
    }
  }

  lemma {:induction false} GetDelOther<K>(es: seq<Entry<K>>, key: K, k: K)
    requires k != key
    ensures Get(Del(es, key), k) == Get(es, k)
  {
    if es != [] && es[0].key != key {
      GetDelOther(es[1..], key, k);
    }
  }

  // ----- unique keys -----

  predicate DistinctKeys<K(==)>(es: seq<Entry<K>>) {
    es == [] || (Get(es[1..], es[0].key) == None && DistinctKeys(es[1..]))
  }

  /** No mapping anywhere in the tree repeats a key. */
  predicate Unique<K(==)>(n: Node<K>) {
    match n
    case Scalar(_) => true
    case Mapping(es) => DistinctKeys(es) && forall i :: 0 <= i < |es| ==> Unique(es[i].node)
    case Sequence(items) => forall i :: 0 <= i < |items| ==> Unique(items[i])
  }

  predicate UniqueEntries<K(==)>(es: seq<Entry<K>>) { Unique(Mapping(es)) }

  lemma UniqueTail<K>(es: seq<Entry<K>>)
    requires es != []
    ensures UniqueEntries(es) <==> Get(es[1..], es[0].key) == None && Unique(es[0].node) && UniqueEntries(es[1..])
  {
    if Get(es[1..], es[0].key) == None && Unique(es[0].node) && UniqueEntries(es[1..]) {
      forall i | 0 <= i < |es| ensures Unique(es[i].node) {
        assert i > 0 ==> es[i] == es[1..][i - 1];
      }
    }
  }

  lemma UniqueCons<K>(e: Entry<K>, es: seq<Entry<K>>)
    requires Get(es, e.key) == None && Unique(e.node) && UniqueEntries(es)
    ensures UniqueEntries([e] + es)
  {
    assert ([e] + es)[1..] == es;
    UniqueTail([e] + es);
  }

  lemma {:induction false} UniqueGet<K>(es: seq<Entry<K>>, key: K)
    requires UniqueEntries(es) && Get(es, key).Some?
    ensures Unique(Get(es, key).value)
  {
    UniqueTail(es);
    if es[0].key != key {
      UniqueGet(es[1..], key);
    }
  }

  lemma {:induction false} UniqueSet<K>(es: seq<Entry<K>>, key: K, node: Node<K>)
    requires UniqueEntries(es) && Unique(node)
    ensures UniqueEntries(Set(es, key, node))
  {
    if es == [] {
      UniqueCons(Entry(key, node), []);
    } else {
      UniqueTail(es);
      if es[0].key == key {
        UniqueCons(Entry(key, node), es[1..]);
      } else {
        UniqueSet(es[1..], key, node);
        GetSet(es[1..], key, node, es[0].key);
        UniqueCons(es[0], Set(es[1..], key, node));
      }
    }
  }

  lemma {:induction false} UniqueDel<K>(es: seq<Entry<K>>, key: K)
    requires UniqueEntries(es)
    ensures UniqueEntries(Del(es, key)) && Get(Del(es, key), key) == None
  {
    if es != [] {
      UniqueTail(es);
      if es[0].key != key {
        UniqueDel(es[1..], key);
        GetDelOther(es[1..], key, es[0].key);
        UniqueCons(es[0], Del(es[1..], key));
      }
    }
  }

  lemma {:induction false} DistinctSet<K>(es: seq<Entry<K>>, key: K, node: Node<K>)
    requires DistinctKeys(es)
    ensures DistinctKeys(Set(es, key, node))
  {
    if es != [] && es[0].key != key {
      DistinctSet(es[1..], key, node);
      GetSet(es[1..], key, node, es[0].key);
      assert ([es[0]] + Set(es[1..], key, node))[1..] == Set(es[1..], key, node);
    } else if es != [] {
      assert ([Entry(key, node)] + es[1..])[1..] == es[1..];
    }
  }

  lemma {:induction false} DistinctDel<K>(es: seq<Entry<K>>, key: K)
    requires DistinctKeys(es)
    ensures Get(Del(es, key), key) == None
  {
    if es != [] && es[0].key != key {
      DistinctDel(es[1..], key);
    }
  }

  // ----- paths -----

  function Lookup<K(==)>(n: Node<K>, path: seq<K>): Option<Node<K>>
    decreases |path|
  {
    if path == [] then Some(n)
    else if !n.Mapping? then None
    else
      var child := Get(n.entries, path[0]);
      if child.None? then None else Lookup(child.value, path[1..])
  }

  /** A missing or non-mapping node is taken as an empty mapping. */
  function EntriesOf<K(==)>(n: Option<Node<K>>): seq<Entry<K>> { if n.Some? && n.value.Mapping? then n.value.entries else [] }

  /** Puts a value at a path, making every node on the way a mapping. */
  function SetPath<K(==)>(es: seq<Entry<K>>, path: seq<K>, node: Node<K>): seq<Entry<K>>
    requires path != []
    decreases |path|
  {
    if |path| == 1 then Set(es, path[0], node)
    else Set(es, path[0], Mapping(SetPath(EntriesOf(Get(es, path[0])), path[1..], node)))
  }

  /** Removes a path's last key if its parent is a mapping. */
  function DelPath<K(==)>(es: seq<Entry<K>>, path: seq<K>): seq<Entry<K>>
    requires path != []
    decreases |path|
  {
    if |path| == 1 then Del(es, path[0])
    else
      var child := Get(es, path[0]);
      if child.Some? && child.value.Mapping? then Set(es, path[0], Mapping(DelPath(child.value.entries, path[1..]))) else es
  }

  /** The paths part at some key, so neither runs through the other. */
  predicate Apart<K(==)>(p: seq<K>, q: seq<K>) {
    p != [] && q != [] && (p[0] != q[0] || Apart(p[1..], q[1..]))
  }

  function At<K(==)>(es: seq<Entry<K>>, path: seq<K>): Option<Node<K>> { Lookup(Mapping(es), path) }

  /** One key down. */
  lemma AtStep<K>(es: seq<Entry<K>>, q: seq<K>)
    requires q != []
    ensures At(es, q) == var child := Get(es, q[0]);
                         if child.None? then None
                         else if child.value.Mapping? then At(child.value.entries, q[1..])
                         else if |q| == 1 then Some(child.value) else None
  {
    var child := Get(es, q[0]);
    assert Mapping(es).entries == es;
    if child.Some? {
      assert Lookup(Mapping(es), q) == Lookup(child.value, q[1..]);
      assert child.value.Mapping? ==> child.value == Mapping(child.value.entries);
    }
  }

  lemma {:induction false} SetApart<K>(es: seq<Entry<K>>, p: seq<K>, node: Node<K>, q: seq<K>)
    requires Apart(p, q)
    ensures At(SetPath(es, p, node), q) == At(es, q)
    decreases |p|
  {
    AtStep(es, q);
    AtStep(SetPath(es, p, node), q);
    GetSet(es, p[0], if |p| == 1 then node else Mapping(SetPath(EntriesOf(Get(es, p[0])), p[1..], node)), q[0]);
    if p[0] == q[0] {
      var below := EntriesOf(Get(es, p[0]));
      SetApart(below, p[1..], node, q[1..]);
      assert Get(es, p[0]).None? || !Get(es, p[0]).value.Mapping? ==> At(below, q[1..]).None?;
    }
  }

  lemma {:induction false} SetHere<K>(es: seq<Entry<K>>, p: seq<K>, node: Node<K>)
    requires p != []
    ensures At(SetPath(es, p, node), p) == Some(node)
    decreases |p|
  {
    AtStep(SetPath(es, p, node), p);
    GetSet(es, p[0], if |p| == 1 then node else Mapping(SetPath(EntriesOf(Get(es, p[0])), p[1..], node)), p[0]);
    if |p| > 1 {
      SetHere(EntriesOf(Get(es, p[0])), p[1..], node);
    }
  }

  lemma {:induction false} DelApart<K>(es: seq<Entry<K>>, p: seq<K>, q: seq<K>)
    requires Apart(p, q)
    ensures At(DelPath(es, p), q) == At(es, q)
    decreases |p|
  {
    AtStep(es, q);
    AtStep(DelPath(es, p), q);
    var child := Get(es, p[0]);
    if |p| == 1 {
      GetDelOther(es, p[0], q[0]);
    } else if child.Some? && child.value.Mapping? {
      GetSet(es, p[0], Mapping(DelPath(child.value.entries, p[1..])), q[0]);
      if p[0] == q[0] {
        DelApart(child.value.entries, p[1..], q[1..]);
      }
    }
  }

  lemma {:induction false} DelHere<K>(es: seq<Entry<K>>, p: seq<K>)
    requires p != [] && UniqueEntries(es)
    ensures At(DelPath(es, p), p) == None
    decreases |p|
  {
    AtStep(DelPath(es, p), p);
    var child := Get(es, p[0]);
    if |p| == 1 {
      UniqueDel(es, p[0]);
    } else if child.Some? && child.value.Mapping? {
      UniqueGet(es, p[0]);
      GetSet(es, p[0], Mapping(DelPath(child.value.entries, p[1..])), p[0]);
      DelHere(child.value.entries, p[1..]);
    }
  }

  /** A value that is no mapping stays where it is unless the deleted path runs through it. */
  lemma {:induction false} DelKeepsLeaf<K>(es: seq<Entry<K>>, p: seq<K>, q: seq<K>)
    requires p != [] && q != [] && !(p <= q) && At(es, q).Some? && !At(es, q).value.Mapping?
    ensures At(DelPath(es, p), q) == At(es, q)
    decreases |p|
  {
    AtStep(es, q);
    AtStep(DelPath(es, p), q);
    var child := Get(es, p[0]);
    if |p| == 1 {
      assert p[0] != q[0] by {
        assert p[0] == q[0] ==> p <= q;
      }
      GetDelOther(es, p[0], q[0]);
    } else if child.Some? && child.value.Mapping? {
      GetSet(es, p[0], Mapping(DelPath(child.value.entries, p[1..])), q[0]);
      if p[0] == q[0] {
        assert |q| > 1;
        assert p[1..] <= q[1..] ==> p <= q;
        DelKeepsLeaf(child.value.entries, p[1..], q[1..]);
      }
    }
  }

  /** Setting an absent path keeps every value that is no mapping, unless that value sits on the way. */
  lemma {:induction false} SetKeepsLeaf<K>(es: seq<Entry<K>>, p: seq<K>, node: Node<K>, q: seq<K>)
    requires p != [] && q != [] && !(q <= p) && At(es, p).None? && At(es, q).Some? && !At(es, q).value.Mapping?
    ensures At(SetPath(es, p, node), q) == At(es, q)
    decreases |p|
  {
    AtStep(es, p);
    AtStep(es, q);
    AtStep(SetPath(es, p, node), q);
    GetSet(es, p[0], if |p| == 1 then node else Mapping(SetPath(EntriesOf(Get(es, p[0])), p[1..], node)), q[0]);
    if p[0] == q[0] {
      assert |q| > 1 by {
        assert |q| == 1 ==> q <= p;
      }
      assert |p| > 1;
      assert q[1..] <= p[1..] ==> q <= p;
      SetKeepsLeaf(EntriesOf(Get(es, p[0])), p[1..], node, q[1..]);
    }
  }

  lemma {:induction false} UniqueSetPath<K>(es: seq<Entry<K>>, p: seq<K>, node: Node<K>)
    requires p != [] && UniqueEntries(es) && Unique(node)
    ensures UniqueEntries(SetPath(es, p, node))
    decreases |p|
  {
    if |p| == 1 {
      UniqueSet(es, p[0], node);
    } else {
      var child := Get(es, p[0]);
      if child.Some? {
        UniqueGet(es, p[0]);
      }
      UniqueSetPath(EntriesOf(child), p[1..], node);
      UniqueSet(es, p[0], Mapping(SetPath(EntriesOf(child), p[1..], node)));
    }
  }

  lemma {:induction false} UniqueDelPath<K>(es: seq<Entry<K>>, p: seq<K>)
    requires p != [] && UniqueEntries(es)
    ensures UniqueEntries(DelPath(es, p))
    decreases |p|
  {
    var child := Get(es, p[0]);
    if |p| == 1 {
      UniqueDel(es, p[0]);
    } else if child.Some? && child.value.Mapping? {
      UniqueGet(es, p[0]);
      UniqueDelPath(child.value.entries, p[1..]);
      UniqueSet(es, p[0], Mapping(DelPath(child.value.entries, p[1..])));
    }
  }

  lemma {:induction false} UniqueAt<K>(es: seq<Entry<K>>, p: seq<K>)
    requires UniqueEntries(es) && At(es, p).Some?
    ensures Unique(At(es, p).value)
    decreases |p|
  {
    if p != [] {
      AtStep(es, p);
      UniqueGet(es, p[0]);
      var child := Get(es, p[0]).value;
      if child.Mapping? {
        UniqueAt(child.entries, p[1..]);
      }
    }
  }

  /** What lies below a path lies above its prefix. */
  lemma {:induction false} AtPrefix<K>(es: seq<Entry<K>>, p: seq<K>, k: nat)
    requires At(es, p).Some? && k <= |p|
    ensures At(es, p[..k]).Some? && (k < |p| ==> At(es, p[..k]).value.Mapping?)
    decreases |p|
  {
    if k > 0 {
      AtStep(es, p);
      AtStep(es, p[..k]);
      var child := Get(es, p[0]).value;
      assert p[..k][1..] == p[1..][..k - 1];
      if child.Mapping? {
        AtPrefix(child.entries, p[1..], k - 1);
      }
    }
  }

  lemma {:induction false} LookupAppend<K>(n: Node<K>, p: seq<K>, r: seq<K>)
    ensures Lookup(n, p + r) == var here := Lookup(n, p); if here.None? then None else Lookup(here.value, r)
    decreases |p|
  {
    if p == [] {
      assert p + r == r;
    } else {
      assert (p + r)[1..] == p[1..] + r;
      if n.Mapping? && Get(n.entries, p[0]).Some? {
        LookupAppend(Get(n.entries, p[0]).value, p[1..], r);
      }
    }
  }

  lemma BelowEmpty<K>(es: seq<Entry<K>>, p: seq<K>, q: seq<K>)
    requires At(es, p) == Some(Mapping([])) && p <= q && p != q
    ensures At(es, q) == None
  {
    assert q == p + q[|p|..];
    LookupAppend(Mapping(es), p, q[|p|..]);
  }

  /** What exists still exists after an absent path is set. */
  lemma {:induction false} SetKeepsSome<K>(es: seq<Entry<K>>, p: seq<K>, node: Node<K>, q: seq<K>)
    requires p != [] && At(es, p).None? && At(es, q).Some?
    ensures At(SetPath(es, p, node), q).Some?
    decreases |p|
  {
    if q != [] {
      AtStep(es, p);
      AtStep(es, q);
      AtStep(SetPath(es, p, node), q);
      GetSet(es, p[0], if |p| == 1 then node else Mapping(SetPath(EntriesOf(Get(es, p[0])), p[1..], node)), q[0]);
      if p[0] == q[0] && |p| > 1 && |q| > 1 {
        SetKeepsSome(EntriesOf(Get(es, p[0])), p[1..], node, q[1..]);
      }
    }
  }

  /** What exists still exists after a path that does not lead to it is deleted. */
  lemma {:induction false} DelKeepsSome<K>(es: seq<Entry<K>>, p: seq<K>, q: seq<K>)
    requires p != [] && !(p <= q) && At(es, q).Some?
    ensures At(DelPath(es, p), q).Some?
    decreases |p|
  {
    if q != [] {
      AtStep(es, q);
      AtStep(DelPath(es, p), q);
      var child := Get(es, p[0]);
      if |p| == 1 {
        assert p[0] == q[0] ==> p <= q;
        GetDelOther(es, p[0], q[0]);
      } else if child.Some? && child.value.Mapping? {
        GetSet(es, p[0], Mapping(DelPath(child.value.entries, p[1..])), q[0]);
        if p[0] == q[0] && |q| > 1 {
          assert p[1..] <= q[1..] ==> p <= q;
          DelKeepsSome(child.value.entries, p[1..], q[1..]);
        }
      }
    }
  }

  lemma SameHead<K>(es: seq<Entry<K>>, es': seq<Entry<K>>, q: seq<K>)
    requires q != [] && Get(es, q[0]) == Get(es', q[0])
    ensures At(es, q) == At(es', q)
  {
    AtStep(es, q);
    AtStep(es', q);
  }

  /** A document of one section with one key. */
  function OneSection<K>(section: K, key: K, node: Node<K>): seq<Entry<K>> { [Entry(section, Mapping([Entry(key, node)]))] }

  lemma OneEntryAt<K>(key: K, node: Node<K>, q: seq<K>)
    requires q != []
    ensures At([Entry(key, node)], q) == if q[0] == key then Lookup(node, q[1..]) else None
  {
    var es := [Entry(key, node)];
    assert Get(es, q[0]) == if q[0] == key then Some(node) else None;
  }

  lemma OneSectionAt<K>(section: K, key: K, node: Node<K>, a: K, b: K)
    ensures At(OneSection(section, key, node), [a, b]) == if a == section && b == key then Some(node) else None
  {
    OneEntryAt(section, Mapping([Entry(key, node)]), [a, b]);
    OneEntryAt(key, node, [b]);
    assert [a, b][1..] == [b] && [b][1..] == [];
  }

  lemma OneSectionUnique<K>(section: K, key: K, node: Node<K>)
    requires Unique(node)
    ensures UniqueEntries(OneSection(section, key, node))
  {
    UniqueCons(Entry(key, node), []);
    UniqueCons(Entry(section, Mapping([Entry(key, node)])), []);
  }
}
