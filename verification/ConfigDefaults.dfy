/** Adding missing defaults to a configuration tree without disturbing what is there. */
module ConfigDefaults {
  import opened Basics
  import opened ConfigTree

  /** Keys never written by the upgrade, and the paths with a fixed default text. */
  datatype Rules<!K> = Rules(sensitive: K -> bool, literal: seq<K> -> Option<string>)

  /** The entries after one canonical entry; filled is its mapping completed below the target's own. */
  function AddOne<K(==)>(rules: Rules<K>, es: seq<Entry<K>>, c: Entry<K>, path: seq<K>, filled: Node<K>): seq<Entry<K>> {
    if rules.sensitive(c.key) then es
    else
      var target := Get(es, c.key);
      if target.None? then
        if rules.literal(path + [c.key]).Some? then Set(es, c.key, Scalar(rules.literal(path + [c.key]).value))
        else Set(es, c.key, if c.node.Mapping? then filled else c.node)
      else if target.value.Mapping? && c.node.Mapping? then Set(es, c.key, filled)
      else es
  }

  function AddMissing<K(==)>(rules: Rules<K>, es: seq<Entry<K>>, canonical: Node<K>, path: seq<K>): seq<Entry<K>>
    decreases canonical, 1, 0
  {
    if canonical.Mapping? then AddUpTo(rules, es, canonical, |canonical.entries|, path) else es
  }

  /** The entries after the first i canonical entries. */
  function AddUpTo<K(==)>(rules: Rules<K>, es: seq<Entry<K>>, canonical: Node<K>, i: nat, path: seq<K>): seq<Entry<K>>
    requires canonical.Mapping? && i <= |canonical.entries|
    decreases canonical, 0, i
  {
    if i == 0 then es
    else
      var before := AddUpTo(rules, es, canonical, i - 1, path);
      var c := canonical.entries[i - 1];
      AddOne(rules, before, c, path, Mapping(AddMissing(rules, EntriesOf(Get(before, c.key)), c.node, path + [c.key])))
  }

  // ----- what one step does -----

  lemma OtherKeys<K>(rules: Rules<K>, es: seq<Entry<K>>, c: Entry<K>, path: seq<K>, filled: Node<K>, k: K)
    requires k != c.key
    ensures Get(AddOne(rules, es, c, path, filled), k) == Get(es, k)
  {
    GetSet(es, c.key, filled, k);
    GetSet(es, c.key, c.node, k);
    if rules.literal(path + [c.key]).Some? {
      GetSet(es, c.key, Scalar(rules.literal(path + [c.key]).value), k);
    }
  }

  /** The step's own key: kept, or completed, or newly set. */
  lemma OwnKey<K>(rules: Rules<K>, es: seq<Entry<K>>, c: Entry<K>, path: seq<K>, filled: Node<K>)
    ensures Get(AddOne(rules, es, c, path, filled), c.key) ==
              var t := Get(es, c.key);
              if rules.sensitive(c.key) then t
              else if t.Some? then (if t.value.Mapping? && c.node.Mapping? then Some(filled) else t)
              else if rules.literal(path + [c.key]).Some? then Some(Scalar(rules.literal(path + [c.key]).value))
              else Some(if c.node.Mapping? then filled else c.node)
  {
    GetSet(es, c.key, filled, c.key);
    GetSet(es, c.key, c.node, c.key);
    if rules.literal(path + [c.key]).Some? {
      GetSet(es, c.key, Scalar(rules.literal(path + [c.key]).value), c.key);
    }
  }

  // ----- user values stay -----

  /** What is there stays there: a value that is no mapping unchanged, a mapping as a mapping. */
  predicate Kept<K(==)>(was: Option<Node<K>>, now: Option<Node<K>>) {
    was.Some? ==> now.Some? && (if was.value.Mapping? then now.value.Mapping? else now == was)
  }

  lemma {:induction false} DefaultsKeep<K>(rules: Rules<K>, es: seq<Entry<K>>, canonical: Node<K>, path: seq<K>, q: seq<K>)
    ensures Kept(At(es, q), At(AddMissing(rules, es, canonical, path), q))
    decreases canonical, 2, 0
  {
    if canonical.Mapping? {
      UpToKeeps(rules, es, canonical, |canonical.entries|, path, q);
    }
  }

  lemma {:induction false} UpToKeeps<K>(rules: Rules<K>, es: seq<Entry<K>>, canonical: Node<K>, i: nat, path: seq<K>, q: seq<K>)
    requires canonical.Mapping? && i <= |canonical.entries|
    ensures Kept(At(es, q), At(AddUpTo(rules, es, canonical, i, path), q))
    decreases canonical, 1, i
  {
    if i > 0 {
      UpToKeeps(rules, es, canonical, i - 1, path, q);
      StepKeeps(rules, es, canonical, i, path, q);
    }
  }

  lemma {:induction false} StepKeeps<K>(rules: Rules<K>, es: seq<Entry<K>>, canonical: Node<K>, i: nat, path: seq<K>, q: seq<K>)
    requires canonical.Mapping? && 0 < i <= |canonical.entries|
    ensures Kept(At(AddUpTo(rules, es, canonical, i - 1, path), q), At(AddUpTo(rules, es, canonical, i, path), q))
    decreases canonical, 0, i
  {
    var before := AddUpTo(rules, es, canonical, i - 1, path);
    var c := canonical.entries[i - 1];
    var below := EntriesOf(Get(before, c.key));
    var filled := Mapping(AddMissing(rules, below, c.node, path + [c.key]));
    if q != [] {
      AtStep(before, q);
      AtStep(AddUpTo(rules, es, canonical, i, path), q);
      if q[0] == c.key {
        OwnKey(rules, before, c, path, filled);
        DefaultsKeep(rules, below, c.node, path + [c.key], q[1..]);
      } else {
        OtherKeys(rules, before, c, path, filled, q[0]);
      }
    }
  }

  // ----- defaults arrive -----

  /** Every node on the way to p that exists is a mapping. */
  ghost predicate Shaped<K>(es: seq<Entry<K>>, p: seq<K>) {
    forall k :: 0 <= k < |p| && At(es, p[..k]).Some? ==> At(es, p[..k]).value.Mapping?
  }

  /** No key of p is sensitive, and no fixed default sits above its end. */
  ghost predicate Writable<K(!new)>(rules: Rules<K>, path: seq<K>, p: seq<K>) {
    && (forall k :: k in p ==> !rules.sensitive(k))
    && (forall k :: 0 < k < |p| ==> rules.literal(path + p[..k]).None?)
  }

  lemma ShapedBelow<K>(es: seq<Entry<K>>, p: seq<K>)
    requires p != [] && Shaped(es, p)
    ensures Shaped(EntriesOf(Get(es, p[0])), p[1..])
    ensures |p| > 1 && Get(es, p[0]).Some? ==> Get(es, p[0]).value.Mapping?
  {
    var child := Get(es, p[0]);
    forall k | 0 <= k < |p[1..]| && At(EntriesOf(child), p[1..][..k]).Some? ensures At(EntriesOf(child), p[1..][..k]).value.Mapping? {
      assert p[..k + 1][1..] == p[1..][..k];
      AtStep(es, p[..k + 1]);
    }
    if |p| > 1 {
      AtStep(es, p[..1]);
    }
  }

  lemma WritableBelow<K(!new)>(rules: Rules<K>, path: seq<K>, p: seq<K>)
    requires p != [] && Writable(rules, path, p)
    ensures Writable(rules, path + [p[0]], p[1..])
  {
    forall k | 0 < k < |p[1..]| ensures rules.literal(path + [p[0]] + p[1..][..k]).None? {
      assert path + [p[0]] + p[1..][..k] == path + p[..k + 1];
    }
  }

  lemma {:induction false} GetPrefix<K>(es: seq<Entry<K>>, i: nat, k: K)
    requires i < |es|
    ensures Get(es[..i + 1], k) == if Get(es[..i], k).Some? then Get(es[..i], k) else if es[i].key == k then Some(es[i].node) else None
  {
    if i > 0 {
      assert es[..i + 1][1..] == es[1..][..i] && es[..i][1..] == es[1..][..i - 1];
      GetPrefix(es[1..], i - 1, k);
    }
  }

  lemma {:induction false} Untouched<K>(rules: Rules<K>, es: seq<Entry<K>>, canonical: Node<K>, i: nat, path: seq<K>, k: K)
    requires canonical.Mapping? && i <= |canonical.entries| && Get(canonical.entries[..i], k).None?
    ensures Get(AddUpTo(rules, es, canonical, i, path), k) == Get(es, k)
    decreases i
  {
    if i > 0 {
      GetPrefix(canonical.entries, i - 1, k);
      Untouched(rules, es, canonical, i - 1, path, k);
      var before, c := AddUpTo(rules, es, canonical, i - 1, path), canonical.entries[i - 1];
      OtherKeys(rules, before, c, path, Mapping(AddMissing(rules, EntriesOf(Get(before, c.key)), c.node, path + [c.key])), k);
    }
  }

  /** Every writable path of the canonical tree exists afterwards, where the target has mappings on the way. */
  lemma {:induction false} DefaultsArrive<K(!new)>(rules: Rules<K>, es: seq<Entry<K>>, canonical: Node<K>, path: seq<K>, p: seq<K>)
    requires canonical.Mapping? && p != [] && Lookup(canonical, p).Some? && Shaped(es, p) && Writable(rules, path, p)
    ensures At(AddMissing(rules, es, canonical, path), p).Some?
    decreases canonical, 2, 0
  {
    var n := |canonical.entries|;
    assert canonical.entries[..n] == canonical.entries;
    UpToArrive(rules, es, canonical, n, path, p);
  }

  lemma {:induction false} UpToArrive<K(!new)>(rules: Rules<K>, es: seq<Entry<K>>, canonical: Node<K>, i: nat, path: seq<K>, p: seq<K>)
    requires canonical.Mapping? && i <= |canonical.entries| && p != [] && Shaped(es, p) && Writable(rules, path, p)
    requires Get(canonical.entries[..i], p[0]).Some? && Lookup(Get(canonical.entries[..i], p[0]).value, p[1..]).Some?
    ensures At(AddUpTo(rules, es, canonical, i, path), p).Some?
    decreases canonical, 1, i
  {
    GetPrefix(canonical.entries, i - 1, p[0]);
    if Get(canonical.entries[..i - 1], p[0]).Some? {
      UpToArrive(rules, es, canonical, i - 1, path, p);
      StepKeeps(rules, es, canonical, i, path, p);
    } else {
      Untouched(rules, es, canonical, i - 1, path, p[0]);
      StepArrive(rules, es, canonical, i, path, p);
    }
  }

  lemma {:induction false} StepArrive<K(!new)>(rules: Rules<K>, es: seq<Entry<K>>, canonical: Node<K>, i: nat, path: seq<K>, p: seq<K>)
    requires canonical.Mapping? && 0 < i <= |canonical.entries| && p != [] && Shaped(es, p) && Writable(rules, path, p)
    requires canonical.entries[i - 1].key == p[0] && Lookup(canonical.entries[i - 1].node, p[1..]).Some?
    requires Get(AddUpTo(rules, es, canonical, i - 1, path), p[0]) == Get(es, p[0])
    ensures At(AddUpTo(rules, es, canonical, i, path), p).Some?
    decreases canonical, 0, i
  {
    var before := AddUpTo(rules, es, canonical, i - 1, path);
    var c := canonical.entries[i - 1];
    var below := EntriesOf(Get(before, c.key));
    OwnKey(rules, before, c, path, Mapping(AddMissing(rules, below, c.node, path + [c.key])));
    AtStep(AddUpTo(rules, es, canonical, i, path), p);
    ShapedBelow(es, p);
    WritableBelow(rules, path, p);
    if |p| == 1 {
      assert p[1..] == [];
    } else {
      assert c.node.Mapping? && path + p[..1] == path + [c.key];
      DefaultsArrive(rules, below, c.node, path + [c.key], p[1..]);
    }
  }

  // ----- and nothing else does -----

  /** What the canonical entry of a key makes of the target's own. */
  function Completed<K(==)>(rules: Rules<K>, was: Option<Node<K>>, c: Option<Node<K>>, path: seq<K>, key: K): Option<Node<K>> {
    if c.None? || rules.sensitive(key) then was
    else
      var filled := Mapping(AddMissing(rules, EntriesOf(was), c.value, path + [key]));
      if was.Some? then (if was.value.Mapping? && c.value.Mapping? then Some(filled) else was)
      else if rules.literal(path + [key]).Some? then Some(Scalar(rules.literal(path + [key]).value))
      else Some(if c.value.Mapping? then filled else c.value)
  }

  lemma {:induction false} GetBefore<K>(es: seq<Entry<K>>, i: nat)
    requires DistinctKeys(es) && i < |es|
    ensures Get(es[..i], es[i].key).None?
  {
    if i > 0 {
      assert es[1..][i - 1] == es[i] && es[..i][1..] == es[1..][..i - 1];
      GetBefore(es[1..], i - 1);
      if es[0].key == es[i].key {
        GetAt(es[1..], i - 1);
      }
    }
  }

  lemma {:induction false} GetAt<K>(es: seq<Entry<K>>, i: nat)
    requires i < |es|
    ensures Get(es, es[i].key).Some?
  {
    if i > 0 {
      assert es[1..][i - 1] == es[i];
      GetAt(es[1..], i - 1);
    }
  }

  /** Each key is completed by its own canonical entry alone, in whatever order the entries stand. */
  lemma {:induction false} UpToCompletes<K>(rules: Rules<K>, es: seq<Entry<K>>, canonical: Node<K>, i: nat, path: seq<K>, k: K)
    requires canonical.Mapping? && i <= |canonical.entries| && DistinctKeys(canonical.entries)
    ensures Get(AddUpTo(rules, es, canonical, i, path), k) == Completed(rules, Get(es, k), Get(canonical.entries[..i], k), path, k)
  {
    if i > 0 {
      UpToCompletes(rules, es, canonical, i - 1, path, k);
      GetPrefix(canonical.entries, i - 1, k);
      var before, c := AddUpTo(rules, es, canonical, i - 1, path), canonical.entries[i - 1];
      var filled := Mapping(AddMissing(rules, EntriesOf(Get(before, c.key)), c.node, path + [c.key]));
      if k == c.key {
        GetBefore(canonical.entries, i - 1);
        OwnKey(rules, before, c, path, filled);
      } else {
        OtherKeys(rules, before, c, path, filled, k);
      }
    }
  }

  lemma AddedCompletes<K>(rules: Rules<K>, es: seq<Entry<K>>, canonical: Node<K>, path: seq<K>, k: K)
    requires canonical.Mapping? && DistinctKeys(canonical.entries)
    ensures Get(AddMissing(rules, es, canonical, path), k) == Completed(rules, Get(es, k), Get(canonical.entries, k), path, k)
  {
    assert canonical.entries[..|canonical.entries|] == canonical.entries;
    UpToCompletes(rules, es, canonical, |canonical.entries|, path, k);
  }

  /** No fixed default sits above the end of p. */
  ghost predicate NoLiteralAbove<K(!new)>(rules: Rules<K>, path: seq<K>, p: seq<K>) {
    forall k :: 0 < k < |p| ==> rules.literal(path + p[..k]).None?
  }

  lemma NoLiteralBelow<K(!new)>(rules: Rules<K>, path: seq<K>, p: seq<K>)
    requires p != [] && NoLiteralAbove(rules, path, p)
    ensures (|p| > 1 ==> rules.literal(path + [p[0]]).None?) && NoLiteralAbove(rules, path + [p[0]], p[1..])
    ensures path + [p[0]] + p[1..] == path + p
  {
    assert p[..1] == [p[0]];
    forall k | 0 < k < |p[1..]| ensures rules.literal(path + [p[0]] + p[1..][..k]).None? {
      assert path + [p[0]] + p[1..][..k] == path + p[..k + 1];
    }
  }

  lemma ShapedAbove<K>(es: seq<Entry<K>>, p: seq<K>)
    requires p != [] && Shaped(EntriesOf(Get(es, p[0])), p[1..]) && (|p| > 1 && Get(es, p[0]).Some? ==> Get(es, p[0]).value.Mapping?)
    ensures Shaped(es, p)
  {
    forall k | 0 <= k < |p| && At(es, p[..k]).Some? ensures At(es, p[..k]).value.Mapping? {
      if k > 0 {
        assert p[..k][1..] == p[1..][..k - 1];
        AtStep(es, p[..k]);
      }
    }
  }

  /** A path that is new came from the canonical tree, with its value, along mappings. */
  lemma {:induction false} NewFromCanonical<K(!new)>(rules: Rules<K>, es: seq<Entry<K>>, canonical: Node<K>, path: seq<K>, p: seq<K>)
    requires Unique(canonical) && NoLiteralAbove(rules, path, p) && At(es, p).None? && At(AddMissing(rules, es, canonical, path), p).Some?
    ensures Lookup(canonical, p).Some? && Shaped(es, p)
    ensures var now := At(AddMissing(rules, es, canonical, path), p);
            if rules.literal(path + p).Some? then now == Some(Scalar(rules.literal(path + p).value)) else Kept(Lookup(canonical, p), now)
    decreases |p|
  {
    var added := AddMissing(rules, es, canonical, path);
    var was, c := Get(es, p[0]), Get(canonical.entries, p[0]);
    AtStep(es, p);
    AtStep(added, p);
    NoLiteralBelow(rules, path, p);
    AddedCompletes(rules, es, canonical, path, p[0]);
    UniqueGet(canonical.entries, p[0]);
    var below := AddMissing(rules, EntriesOf(was), c.value, path + [p[0]]);
    assert Lookup(canonical, p) == Lookup(c.value, p[1..]);
    if |p| == 1 {
      assert p == [p[0]] && p[1..] == [];
    } else {
      assert At(added, p) == At(below, p[1..]);
      NewFromCanonical(rules, EntriesOf(was), c.value, path + [p[0]], p[1..]);
    }
    ShapedAbove(es, p);
  }

  /** No secret is ever written: a path through a sensitive key that is missing stays missing, whatever the canonical tree holds there. */
  lemma {:induction false} SecretsStayOut<K(!new)>(rules: Rules<K>, es: seq<Entry<K>>, canonical: Node<K>, path: seq<K>, p: seq<K>)
    requires Unique(canonical) && (exists k :: k in p && rules.sensitive(k)) && At(es, p).None?
    ensures At(AddMissing(rules, es, canonical, path), p).None?
    decreases |p|
  {
    var added := AddMissing(rules, es, canonical, path);
    AtStep(es, p);
    AtStep(added, p);
    if canonical.Mapping? {
      var was, c := Get(es, p[0]), Get(canonical.entries, p[0]);
      AddedCompletes(rules, es, canonical, path, p[0]);
      if !rules.sensitive(p[0]) && c.Some? {
        UniqueGet(canonical.entries, p[0]);
        var k :| k in p && rules.sensitive(k);
        assert p == [p[0]] + p[1..] && k in p[1..];
        SecretsStayOut(rules, EntriesOf(was), c.value, path + [p[0]], p[1..]);
      }
    }
  }

  /** What stands at a path once defaults are added, up to what is below a mapping. */
  ghost function Merged<K>(rules: Rules<K>, es: seq<Entry<K>>, canonical: Node<K>, p: seq<K>): Option<Node<K>> {
    if At(es, p).Some? then At(es, p)
    else if Lookup(canonical, p).None? || !Shaped(es, p) then None
    else if rules.literal(p).Some? then Some(Scalar(rules.literal(p).value))
    else Lookup(canonical, p)
  }

  /** Absent together, equal values, or both mappings. */
  predicate Alike<K(==)>(a: Option<Node<K>>, b: Option<Node<K>>) { (a.None? ==> b.None?) && Kept(a, b) }

  /**
   At every writable path stands the document's own value, else the fixed default or the
   canonical value where only mappings are on the way, else nothing.
   */
  lemma DefaultsExactly<K(!new)>(rules: Rules<K>, es: seq<Entry<K>>, canonical: Node<K>, p: seq<K>)
    requires Unique(canonical) && p != [] && Writable(rules, [], p)
    ensures Alike(Merged(rules, es, canonical, p), At(AddMissing(rules, es, canonical, []), p))
  {
    DefaultsKeep(rules, es, canonical, [], p);
    if At(es, p).None? {
      if Lookup(canonical, p).Some? && Shaped(es, p) {
        DefaultsArrive(rules, es, canonical, [], p);
      }
      if At(AddMissing(rules, es, canonical, []), p).Some? {
        assert [] + p == p;
        NewFromCanonical(rules, es, canonical, [], p);
      }
    }
  }

  // ----- keys stay unique -----

  lemma {:induction false} DefaultsUnique<K>(rules: Rules<K>, es: seq<Entry<K>>, canonical: Node<K>, path: seq<K>)
    requires UniqueEntries(es) && Unique(canonical)
    ensures UniqueEntries(AddMissing(rules, es, canonical, path))
    decreases canonical, 1, 0
  {
    if canonical.Mapping? {
      UpToUnique(rules, es, canonical, |canonical.entries|, path);
    }
  }

  lemma {:induction false} UpToUnique<K>(rules: Rules<K>, es: seq<Entry<K>>, canonical: Node<K>, i: nat, path: seq<K>)
    requires canonical.Mapping? && i <= |canonical.entries| && UniqueEntries(es) && Unique(canonical)
    ensures UniqueEntries(AddUpTo(rules, es, canonical, i, path))
    decreases canonical, 0, i
  {
    if i > 0 {
      UpToUnique(rules, es, canonical, i - 1, path);
      var before, c := AddUpTo(rules, es, canonical, i - 1, path), canonical.entries[i - 1];
      if Get(before, c.key).Some? {
        UniqueGet(before, c.key);
      }
      var below := EntriesOf(Get(before, c.key));
      DefaultsUnique(rules, below, c.node, path + [c.key]);
      UniqueSet(before, c.key, Mapping(AddMissing(rules, below, c.node, path + [c.key])));
      UniqueSet(before, c.key, c.node);
      if rules.literal(path + [c.key]).Some? {
        UniqueSet(before, c.key, Scalar(rules.literal(path + [c.key]).value));
      }
    }
  }
}
