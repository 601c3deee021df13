/** Moving and dropping legacy paths, for any table whose paths keep apart. */
module ConfigMigrate {
  import opened Basics
  import opened ConfigTree

  datatype Migration<K> = Move(from: seq<K>, to: seq<K>) | Drop(from: seq<K>)

  /** A move takes the value along unless the new path is already set; either way the old path goes. */
  function MovePath<K(==)>(es: seq<Entry<K>>, from: seq<K>, to: seq<K>): seq<Entry<K>>
    requires from != [] && to != []
  {
    if At(es, from).None? then es
    else if At(es, to).None? then DelPath(SetPath(es, to, At(es, from).value), from)
    else DelPath(es, from)
  }

  predicate Proper<K>(m: Migration<K>) { m.from != [] && (m.Move? ==> m.to != []) }

  function Migrate<K(==)>(es: seq<Entry<K>>, m: Migration<K>): seq<Entry<K>>
    requires Proper(m)
  {
    if m.Drop? then DelPath(es, m.from) else MovePath(es, m.from, m.to)
  }

  function MigrateAll<K(==)>(es: seq<Entry<K>>, ms: seq<Migration<K>>): seq<Entry<K>>
    requires forall m :: m in ms ==> Proper(m)
  {
    if ms == [] then es else Migrate(MigrateAll(es, ms[..|ms| - 1]), ms[|ms| - 1])
  }

  /** No new path runs through an old one, and old paths are equal or keep apart. */
  ghost predicate Tidy<K>(ms: seq<Migration<K>>) {
    && (forall m :: m in ms ==> Proper(m))
    && (forall m, m' :: m in ms && m' in ms ==> m.from == m'.from || Apart(m.from, m'.from))
    && (forall m, m' :: m in ms && m' in ms && m'.Move? ==> Apart(m'.to, m.from))
  }

  lemma MigrateUnique<K>(es: seq<Entry<K>>, m: Migration<K>)
    requires Proper(m) && UniqueEntries(es)
    ensures UniqueEntries(Migrate(es, m))
  {
    UniqueDelPath(es, m.from);
    if m.Move? && At(es, m.from).Some? {
      UniqueAt(es, m.from);
      UniqueSetPath(es, m.to, At(es, m.from).value);
      UniqueDelPath(SetPath(es, m.to, At(es, m.from).value), m.from);
    }
  }

  lemma MigrateClears<K>(es: seq<Entry<K>>, m: Migration<K>)
    requires Proper(m) && UniqueEntries(es)
    ensures At(Migrate(es, m), m.from) == None
  {
    DelHere(es, m.from);
    if m.Move? && At(es, m.from).Some? {
      UniqueAt(es, m.from);
      UniqueSetPath(es, m.to, At(es, m.from).value);
      DelHere(SetPath(es, m.to, At(es, m.from).value), m.from);
    }
  }

  /** A path that keeps apart from both ends is not affected. */
  lemma MigrateApart<K>(es: seq<Entry<K>>, m: Migration<K>, q: seq<K>)
    requires Proper(m) && Apart(m.from, q) && (m.Move? ==> Apart(m.to, q))
    ensures At(Migrate(es, m), q) == At(es, q)
  {
    DelApart(es, m.from, q);
    if m.Move? && At(es, m.from).Some? {
      SetApart(es, m.to, At(es, m.from).value, q);
      DelApart(SetPath(es, m.to, At(es, m.from).value), m.from, q);
    }
  }

  /** After the whole table every old path is gone. */
  lemma {:induction false} AllCleared<K(!new)>(es: seq<Entry<K>>, ms: seq<Migration<K>>)
    requires Tidy(ms) && UniqueEntries(es)
    ensures UniqueEntries(MigrateAll(es, ms))
    ensures forall m :: m in ms ==> At(MigrateAll(es, ms), m.from) == None
  {
    if ms != [] {
      var front, last := ms[..|ms| - 1], ms[|ms| - 1];
      assert last in ms && forall m :: m in front ==> m in ms;
      AllCleared(es, front);
      var es' := MigrateAll(es, front);
      MigrateUnique(es', last);
      MigrateClears(es', last);
      forall m | m in ms ensures At(MigrateAll(es, ms), m.from) == None {
        if m.from != last.from {
          assert m in front && Apart(m.from, last.from);
          ApartSym(m.from, last.from);
          MigrateApart(es', last, m.from);
        }
      }
    }
  }

  lemma {:induction false} ApartSym<K>(p: seq<K>, q: seq<K>)
    requires Apart(p, q)
    ensures Apart(q, p)
    decreases |p|
  {
    if p[0] == q[0] {
      ApartSym(p[1..], q[1..]);
    }
  }

  lemma {:induction false} AllApart<K(!new)>(es: seq<Entry<K>>, ms: seq<Migration<K>>, q: seq<K>)
    requires forall m :: m in ms ==> Proper(m) && Apart(m.from, q) && (m.Move? ==> Apart(m.to, q))
    ensures At(MigrateAll(es, ms), q) == At(es, q)
  {
    if ms != [] {
      assert ms[|ms| - 1] in ms;
      AllApart(es, ms[..|ms| - 1], q);
      MigrateApart(MigrateAll(es, ms[..|ms| - 1]), ms[|ms| - 1], q);
    }
  }

  /** A value no legacy path leads to, and that sits on the way to no new path. */
  predicate OutOfTheWay<K(==)>(m: Migration<K>, q: seq<K>) { !(m.from <= q) && (m.Move? && q <= m.to ==> q == m.to) }

  predicate IsLeaf<K>(v: Option<Node<K>>) { v.Some? && !v.value.Mapping? }

  lemma MigrateKeepsLeaf<K>(es: seq<Entry<K>>, m: Migration<K>, q: seq<K>)
    requires Proper(m) && q != [] && OutOfTheWay(m, q) && IsLeaf(At(es, q))
    ensures At(Migrate(es, m), q) == At(es, q)
  {
    DelKeepsLeaf(es, m.from, q);
    if m.Move? && At(es, m.from).Some? && At(es, m.to).None? {
      SetKeepsLeaf(es, m.to, At(es, m.from).value, q);
      DelKeepsLeaf(SetPath(es, m.to, At(es, m.from).value), m.from, q);
    }
  }

  lemma {:induction false} AllKeepLeaf<K(!new)>(es: seq<Entry<K>>, ms: seq<Migration<K>>, q: seq<K>)
    requires q != [] && IsLeaf(At(es, q)) && forall m :: m in ms ==> Proper(m) && OutOfTheWay(m, q)
    ensures At(MigrateAll(es, ms), q) == At(es, q)
  {
    if ms != [] {
      assert ms[|ms| - 1] in ms;
      AllKeepLeaf(es, ms[..|ms| - 1], q);
      MigrateKeepsLeaf(MigrateAll(es, ms[..|ms| - 1]), ms[|ms| - 1], q);
    }
  }

  /** A moved value arrives: the new path holds what was there, or else the old path's value. */
  lemma MoveDelivers<K>(es: seq<Entry<K>>, m: Migration<K>)
    requires Proper(m) && m.Move? && Apart(m.to, m.from)
    ensures At(Migrate(es, m), m.to) == if At(es, m.to).Some? then At(es, m.to) else At(es, m.from)
  {
    ApartSym(m.to, m.from);
    DelApart(es, m.from, m.to);
    if At(es, m.from).Some? {
      SetHere(es, m.to, At(es, m.from).value);
      DelApart(SetPath(es, m.to, At(es, m.from).value), m.from, m.to);
    }
  }

  /** What the new path must hold afterwards: its own value, or the first legacy source in table order. */
  function Source<K(==)>(es: seq<Entry<K>>, ms: seq<Migration<K>>, to: seq<K>): Option<Node<K>> {
    if ms == [] then At(es, to)
    else
      var before, last := Source(es, ms[..|ms| - 1], to), ms[|ms| - 1];
      if before.Some? || last.Drop? || last.to != to then before else At(es, last.from)
  }

  /** New paths are equal or keep apart, and no two rows share an old path. */
  ghost predicate Separate<K>(ms: seq<Migration<K>>) {
    && (forall i, j :: 0 <= i < j < |ms| ==> Apart(ms[i].from, ms[j].from))
    && (forall i, j :: 0 <= i < |ms| && 0 <= j < |ms| && ms[i].Move? && ms[j].Move? ==> ms[i].to == ms[j].to || Apart(ms[i].to, ms[j].to))
  }

  /** Every new path ends up with its own value or the first legacy source's. */
  lemma {:induction false} AllDeliver<K(!new)>(es: seq<Entry<K>>, ms: seq<Migration<K>>, to: seq<K>)
    requires Tidy(ms) && Separate(ms)
    requires forall m :: m in ms ==> Apart(m.from, to) && (m.Move? ==> m.to == to || Apart(m.to, to))
    ensures At(MigrateAll(es, ms), to) == Source(es, ms, to)
  {
    if ms != [] {
      var front, last := ms[..|ms| - 1], ms[|ms| - 1];
      assert last in ms && forall m :: m in front ==> m in ms;
      AllDeliver(es, front, to);
      if last.Move? && last.to == to {
        MoveDelivers(MigrateAll(es, front), last);
        forall m | m in front ensures Proper(m) && Apart(m.from, last.from) && (m.Move? ==> Apart(m.to, last.from)) {
          var i :| 0 <= i < |front| && front[i] == m;
          assert ms[i] == m;
        }
        AllApart(es, front, last.from);
      } else {
        MigrateApart(MigrateAll(es, front), last, to);
      }
    }
  }
}
