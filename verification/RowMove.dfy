/**
 Moving rows between two attached SQLite tables.  A table is a map from primary
 key to row; INSERT OR IGNORE keeps the row already present under a key.
 */
module RowMove {
  import opened Basics

  /** The rows of `t` whose `col` is one of `ids`. */
  function Selected<K(==), V>(t: map<K, V>, col: (K, V) -> string, ids: set<string>): map<K, V> {
    map k | k in t && col(k, t[k]) in ids :: t[k]
  }

  /** The rows of `t` whose `col` is none of `ids`. */
  function Others<K(==), V>(t: map<K, V>, col: (K, V) -> string, ids: set<string>): map<K, V> {
    map k | k in t && col(k, t[k]) !in ids :: t[k]
  }

  lemma SelectedOfOthers<K, V>(t: map<K, V>, col: (K, V) -> string, col': (K, V) -> string, gone: set<string>, who: set<string>)
    requires gone !! who
    requires forall k :: k in t ==> (col'(k, t[k]) in who <==> col(k, t[k]) in who)
    ensures Selected(Others(t, col, gone), col', who) == Selected(t, col, who)
  {
  }

  lemma OthersOfOthers<K, V>(t: map<K, V>, col: (K, V) -> string, col': (K, V) -> string, gone: set<string>, who: set<string>)
    requires forall k :: k in t && col(k, t[k]) !in gone ==> col'(k, t[k]) == col(k, t[k])
    ensures Others(Others(t, col, gone), col', who) == Others(t, col, gone + who)
  {
  }

  function InsertOrIgnore<K(==), V>(rows: map<K, V>, t: map<K, V>): map<K, V> {
    rows + t
  }

  function Delete<K(==), V>(t: map<K, V>, rows: map<K, V>): map<K, V> {
    t - rows.Keys
  }

  // ----- row by row -----

  /** A target row is as before, or its key was free and it is a source row of `who`; every such row is there. */
  ghost predicate Arrived<K, V>(before: map<K, V>, after: map<K, V>, src: map<K, V>, col: (K, V) -> string, who: set<string>) {
    && (forall k :: k in before ==> k in after && after[k] == before[k])
    && (forall k :: k in src && col(k, src[k]) in who && k !in before ==> k in after && after[k] == src[k])
    && (forall k :: k in after && k !in before ==> k in src && col(k, src[k]) in who)
  }

  /** Exactly the rows of `who` are gone; the others are as before. */
  ghost predicate Left<K, V>(before: map<K, V>, after: map<K, V>, col: (K, V) -> string, who: set<string>) {
    && (forall k :: k in before && col(k, before[k]) !in who ==> k in after && after[k] == before[k])
    && (forall k :: k in after ==> k in before && col(k, before[k]) !in who)
  }

  lemma InsertedArrive<K, V>(t: map<K, V>, col: (K, V) -> string, who: set<string>, dst: map<K, V>)
    ensures Arrived(dst, InsertOrIgnore(Selected(t, col, who), dst), t, col, who)
  {
  }

  lemma DeletedLeave<K, V>(t: map<K, V>, col: (K, V) -> string, who: set<string>)
    ensures Left(t, Delete(t, Selected(t, col, who)), col, who) && Left(t, Others(t, col, who), col, who)
  {
  }

  const CHUNK_SIZE := 200

  /**
   The chunked copy-then-delete moves exactly what one set-wide move would, and
   counts each row that left the source once, however often its key is listed.
   Row by row: a row already at the target stays, a selected one takes a free key.
   */
  method MoveRowsByKey<K(==, !new), V>(main: map<K, V>, dst: map<K, V>, col: (K, V) -> string, ids: seq<string>)
    returns (main': map<K, V>, dst': map<K, V>, moved: nat)
    ensures IsMoved(main, dst, col, Elements(ids), main', dst', moved)
    ensures Arrived(dst, dst', main, col, Elements(ids)) && Left(main, main', col, Elements(ids))
    ensures moved == |set k | k in main && col(k, main[k]) in Elements(ids)|
  {
    main', dst', moved := main, dst, 0;
    var start := 0;
    NoRows(main, dst, col);
    while start < |ids|
      invariant 0 <= start <= |ids|
      invariant IsMoved(main, dst, col, Elements(ids[..start]), main', dst', moved)
    {
      var end := if start + CHUNK_SIZE > |ids| then |ids| else start + CHUNK_SIZE;
      var rows := Selected(main', col, Elements(ids[start..end]));
      ChunkStep(main, dst, col, Elements(ids[..start]), Elements(ids[start..end]));
      ChunkElements(ids, start, end);
      main', dst', moved := Delete(main', rows), InsertOrIgnore(rows, dst'), moved + |rows|;
      start := end;
    }
    assert ids[..start] == ids;
    InsertedArrive(main, col, Elements(ids), dst);
    DeletedLeave(main, col, Elements(ids));
    assert Selected(main, col, Elements(ids)).Keys == set k | k in main && col(k, main[k]) in Elements(ids);
  }

  /** What moving the rows of `ids` in one statement would do. */
  ghost predicate IsMoved<K, V>(main: map<K, V>, dst: map<K, V>, col: (K, V) -> string, ids: set<string>,
                                main': map<K, V>, dst': map<K, V>, moved: nat)
  {
    var rows := Selected(main, col, ids);
    main' == Delete(main, rows) && dst' == InsertOrIgnore(rows, dst) && moved == |rows|
  }

  lemma NoRows<K, V>(main: map<K, V>, dst: map<K, V>, col: (K, V) -> string)
    ensures IsMoved(main, dst, col, Elements([]), main, dst, 0)
  {
    assert Selected(main, col, Elements([])) == map[];
  }

  lemma ChunkElements(ids: seq<string>, start: nat, end: nat)
    requires start <= end <= |ids|
    ensures Elements(ids[..end]) == Elements(ids[..start]) + Elements(ids[start..end])
  {
    assert ids[..end] == ids[..start] + ids[start..end];
  }

  /** Moving `first` and then `next` is moving their union. */
  lemma ChunkStep<K(!new), V>(main: map<K, V>, dst: map<K, V>, col: (K, V) -> string, first: set<string>, next: set<string>)
    ensures var a := Selected(main, col, first);
            var b := Selected(Delete(main, a), col, next);
            var all := Selected(main, col, first + next);
            && Delete(Delete(main, a), b) == Delete(main, all)
            && InsertOrIgnore(b, InsertOrIgnore(a, dst)) == InsertOrIgnore(all, dst)
            && |a| + |b| == |all|
  {
    var a := Selected(main, col, first);
    var rest := Delete(main, a);
    var b := Selected(rest, col, next);
    var all := Selected(main, col, first + next);
    forall k ensures k in all <==> k in a || k in b {
      if k in all && k !in a {
        assert k in rest && rest[k] == main[k];
      }
      if k in b {
        assert k in rest && rest[k] == main[k];
      }
    }
    PartsCount(a, b, all);
    PartsDelete(main, a, b, all);
    PartsInsert(main, dst, a, b, all);
  }

  lemma PartsCount<K, V>(a: map<K, V>, b: map<K, V>, all: map<K, V>)
    requires forall k :: k in all <==> k in a || k in b
    requires forall k :: k in b ==> k !in a
    ensures |a| + |b| == |all|
  {
    assert all.Keys == a.Keys + b.Keys;
    assert a.Keys !! b.Keys;
    assert |all.Keys| == |a.Keys| + |b.Keys|;
  }

  lemma PartsDelete<K, V>(main: map<K, V>, a: map<K, V>, b: map<K, V>, all: map<K, V>)
    requires forall k :: k in all <==> k in a || k in b
    ensures Delete(Delete(main, a), b) == Delete(main, all)
  {
    assert all.Keys == a.Keys + b.Keys;
  }

  lemma PartsInsert<K, V>(main: map<K, V>, dst: map<K, V>, a: map<K, V>, b: map<K, V>, all: map<K, V>)
    requires forall k :: k in all <==> k in a || k in b
    requires forall k :: k in all ==> k in main && all[k] == main[k]
    requires forall k :: k in a ==> a[k] == main[k]
    requires forall k :: k in b ==> b[k] == main[k]
    ensures InsertOrIgnore(b, InsertOrIgnore(a, dst)) == InsertOrIgnore(all, dst)
  {
  }
}
