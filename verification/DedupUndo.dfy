/** The undo path of a dedup event, and what undoing a whole pass restores. */
module DedupUndo {
  import opened Basics
  import opened EvidenceDedup
  import opened DedupApply

  // ----- undo -----

  function InsertIfAbsent<K, V>(t: map<K, V>, row: (K, V)): map<K, V> {
    if row.0 in t then t else t[row.0 := row.1]
  }

  function InsertAll<K, V>(t: map<K, V>, rows: seq<(K, V)>): map<K, V> {
    if rows == [] then t else InsertIfAbsent(InsertAll(t, rows[..|rows| - 1]), rows[|rows| - 1])
  }

  function KeysIn<K(==), V>(rows: seq<(K, V)>): set<K> { set i | 0 <= i < |rows| :: rows[i].0 }

  function Keep<K(==), V>(full: map<K, V>, keys: set<K>): map<K, V> { map k | k in full && k in keys :: full[k] }

  /** Re-inserting rows of `full` into part of `full` gives the larger part of `full`. */
  lemma {:induction false} InsertAllKeeps<K, V>(full: map<K, V>, keys: set<K>, rows: seq<(K, V)>)
    requires forall p :: p in rows ==> p.0 in full && full[p.0] == p.1
    ensures InsertAll(Keep(full, keys), rows) == Keep(full, keys + KeysIn(rows))
  {
    if rows == [] {
      assert keys + KeysIn(rows) == keys;
    } else {
      var n := |rows| - 1;
      InsertAllKeeps(full, keys, rows[..n]);
      assert rows[n] in rows;
      assert KeysIn(rows) == KeysIn(rows[..n]) + {rows[n].0};
    }
  }

  /** Row by row: what is there stays, the recorded rows are there afterwards, and what is new is a recorded row. */
  ghost predicate Reinserted<K, V>(before: map<K, V>, after: map<K, V>, rows: seq<(K, V)>) {
    && (forall k :: k in before ==> k in after && after[k] == before[k])
    && (forall i :: 0 <= i < |rows| ==> rows[i].0 in after)
    && (forall k :: k in after && k !in before ==> (k, after[k]) in rows)
  }

  lemma {:induction false} InsertAllReinserts<K, V>(t: map<K, V>, rows: seq<(K, V)>)
    ensures Reinserted(t, InsertAll(t, rows), rows)
  {
    if rows != [] {
      var n := |rows| - 1;
      InsertAllReinserts(t, rows[..n]);
      var before, after := InsertAll(t, rows[..n]), InsertAll(t, rows);
      forall k | k in after && k !in t ensures (k, after[k]) in rows {
        if k in before {
          assert (k, before[k]) in rows[..n];
        } else {
          assert rows[n] in rows;
        }
      }
      forall i | 0 <= i < |rows| ensures rows[i].0 in after {
        assert i < n ==> rows[..n][i].0 in before;
      }
    }
  }

  function RestoreCounters(c: Canonical, s: Counters): Canonical {
    c.(confidence := s.confidence, evidenceCount := s.evidenceCount, occurrences := s.occurrences, updatedAt := s.updatedAt)
  }

  /** The three statements of undoing one dedup event. */
  function Undone(db: Db, m: string, s: Snapshot): Db {
    Db(db.facts, InsertAll(db.observations, s.observations), InsertAll(db.evidence, s.evidence),
       if m in db.canonicals then db.canonicals[m := RestoreCounters(db.canonicals[m], s.canonical)] else db.canonicals)
  }

  lemma UndoneReinserts(db: Db, m: string, s: Snapshot)
    ensures var d := Undone(db, m, s); Reinserted(db.observations, d.observations, s.observations) && Reinserted(db.evidence, d.evidence, s.evidence)
  {
    InsertAllReinserts(db.observations, s.observations);
    InsertAllReinserts(db.evidence, s.evidence);
  }

  predicate Undoable(m: string, s: Snapshot) {
    && s.canonical.id == m && s.observations != [] && s.evidence != []
    && forall p :: p in s.evidence ==> p.0.memory == m
  }

  datatype UndoResult = Refused | Undid(db: Db)

  method UndoDedupEvent(db: Db, m: string, s: Snapshot) returns (r: UndoResult)
    ensures r.Undid? <==> Undoable(m, s)
    ensures r.Undid? ==> r.db == Undone(db, m, s)
    ensures r.Undid? ==> Reinserted(db.observations, r.db.observations, s.observations) && Reinserted(db.evidence, r.db.evidence, s.evidence)
  {
    if s.canonical.id != m || s.observations == [] || s.evidence == [] {
      return Refused;
    }
    var observations, evidence := db.observations, db.evidence;
    var i := 0;
    while i < |s.observations|
      invariant 0 <= i <= |s.observations| && observations == InsertAll(db.observations, s.observations[..i])
    {
      assert s.observations[..i + 1][..i] == s.observations[..i];
      observations := InsertIfAbsent(observations, s.observations[i]);
      i := i + 1;
    }
    assert s.observations[..i] == s.observations;
    i := 0;
    while i < |s.evidence|
      invariant 0 <= i <= |s.evidence| && evidence == InsertAll(db.evidence, s.evidence[..i])
      invariant forall j :: 0 <= j < i ==> s.evidence[j].0.memory == m
    {
      if s.evidence[i].0.memory != m {
        assert s.evidence[i] in s.evidence;
        return Refused;
      }
      assert s.evidence[..i + 1][..i] == s.evidence[..i];
      evidence := InsertIfAbsent(evidence, s.evidence[i]);
      i := i + 1;
    }
    assert s.evidence[..i] == s.evidence;
    r := Undid(Db(db.facts, observations, evidence,
                  if m in db.canonicals then db.canonicals[m := RestoreCounters(db.canonicals[m], s.canonical)] else db.canonicals));
    UndoneReinserts(db, m, s);
  }

  function CutObservations(cut: set<EdgeKey>, who: set<string>): set<string> {
    set e | e in cut && e.memory in who :: e.observation
  }

  function CutEdges(cut: set<EdgeKey>, who: set<string>): set<EdgeKey> { set e | e in cut && e.memory in who }

  /**
   The tables when the pass has left the observations `os` and edges `es`, and the
   events of `undone` have been taken back.
   */
  ghost predicate PartlyRestored(db: Db, os: set<string>, es: set<EdgeKey>, now: Db, cut: set<EdgeKey>, undone: set<string>) {
    && now.facts == db.facts
    && now.observations == Keep(db.observations, os + CutObservations(cut, undone))
    && now.evidence == Keep(db.evidence, es + CutEdges(cut, undone))
    && CountersRestored(db, now.canonicals, cut, undone)
  }

  ghost predicate CountersRestored(db: Db, now: map<string, Canonical>, cut: set<EdgeKey>, undone: set<string>) {
    && now.Keys == db.canonicals.Keys
    && forall m :: m in now ==>
         && now[m].body == db.canonicals[m].body
         && (m in undone || m !in Touched(cut) ==> now[m] == db.canonicals[m])
  }

  lemma SnapshotKeys(db: Db, m: string, s: Snapshot, cut: set<EdgeKey>)
    requires Snapped(db, m, s, cut) && Sound(db, cut)
    ensures KeysIn(s.evidence) == CutEdges(cut, {m})
    ensures KeysIn(s.observations) == CutObservations(cut, {m})
  {
    forall e | e in cut && e.memory == m ensures e in KeysIn(s.evidence) && e.observation in KeysIn(s.observations) {
      var i :| 0 <= i < |s.evidence| && s.evidence[i] == (e, db.evidence[e]);
      var j :| 0 <= j < |s.observations| && s.observations[j] == (e.observation, db.observations[e.observation]);
    }
    forall e | e in KeysIn(s.evidence) ensures e in CutEdges(cut, {m}) {
      var i :| 0 <= i < |s.evidence| && s.evidence[i].0 == e;
      assert s.evidence[i] in s.evidence;
    }
    forall o | o in KeysIn(s.observations) ensures o in CutObservations(cut, {m}) {
      var i :| 0 <= i < |s.observations| && s.observations[i].0 == o;
      assert s.observations[i] in s.observations;
    }
  }

  lemma UndoStep(db: Db, os: set<string>, es: set<EdgeKey>, now: Db, cut: set<EdgeKey>, undone: set<string>, m: string, s: Snapshot)
    requires PartlyRestored(db, os, es, now, cut, undone) && Sound(db, cut) && Snapped(db, m, s, cut)
    ensures PartlyRestored(db, os, es, Undone(now, m, s), cut, undone + {m})
  {
    SnapshotKeys(db, m, s, cut);
    InsertAllKeeps(db.observations, os + CutObservations(cut, undone), s.observations);
    InsertAllKeeps(db.evidence, es + CutEdges(cut, undone), s.evidence);
    assert os + CutObservations(cut, undone) + KeysIn(s.observations) == os + CutObservations(cut, undone + {m});
    assert es + CutEdges(cut, undone) + KeysIn(s.evidence) == es + CutEdges(cut, undone + {m});
  }

  function UndoAll(d: Db, events: map<string, Snapshot>, order: seq<string>): Db
    requires Elements(order) <= events.Keys
  {
    if order == [] then d
    else
      var front, m := order[..|order| - 1], order[|order| - 1];
      ElementsStep(order);
      Undone(UndoAll(d, events, front), m, events[m])
  }

  lemma ElementsStep(order: seq<string>)
    requires order != []
    ensures Elements(order) == Elements(order[..|order| - 1]) + {order[|order| - 1]}
  {
    assert order == order[..|order| - 1] + [order[|order| - 1]];
  }

  lemma {:induction false} UndoAllRestores(db: Db, os: set<string>, es: set<EdgeKey>, d: Db, events: map<string, Snapshot>,
                                           cut: set<EdgeKey>, order: seq<string>)
    requires PartlyRestored(db, os, es, d, cut, {}) && Sound(db, cut) && Elements(order) <= events.Keys
    requires forall m :: m in events ==> Snapped(db, m, events[m], cut)
    ensures PartlyRestored(db, os, es, UndoAll(d, events, order), cut, Elements(order))
  {
    if order == [] {
      assert Elements(order) == {};
    } else {
      var front, m := order[..|order| - 1], order[|order| - 1];
      ElementsStep(order);
      UndoAllRestores(db, os, es, d, events, cut, front);
      UndoStep(db, os, es, UndoAll(d, events, front), cut, Elements(front), m, events[m]);
    }
  }

  lemma DedupedIsPartlyRestored(db: Db, cut: set<EdgeKey>, rescore: Rescore, now: int)
    requires Sound(db, cut)
    ensures var d := Deduped(db, cut, rescore, now);
            PartlyRestored(db, db.observations.Keys - Orphaned(db, cut), db.evidence.Keys - cut, d, cut, {})
  {
    var d := Deduped(db, cut, rescore, now);
    assert CutObservations(cut, {}) == {} && CutEdges(cut, {}) == {};
    assert d.observations == Keep(db.observations, db.observations.Keys - Orphaned(db, cut) + {});
    assert d.evidence == Keep(db.evidence, db.evidence.Keys - cut + {});
  }

  lemma ObservationsBack(db: Db, cut: set<EdgeKey>)
    ensures Keep(db.observations, db.observations.Keys - Orphaned(db, cut) + CutObservations(cut, Touched(cut))) == db.observations
  {
    forall o | o in Orphaned(db, cut) ensures o in CutObservations(cut, Touched(cut)) {
      var e :| e in cut && e.observation == o;
      assert e.memory in Touched(cut);
    }
  }

  lemma EvidenceBack(db: Db, cut: set<EdgeKey>)
    ensures Keep(db.evidence, db.evidence.Keys - cut + CutEdges(cut, Touched(cut))) == db.evidence
  {
    assert CutEdges(cut, Touched(cut)) == cut;
  }

  lemma CountersBack(db: Db, now: map<string, Canonical>, cut: set<EdgeKey>)
    requires CountersRestored(db, now, cut, Touched(cut))
    ensures now == db.canonicals
  {
  }

  /**
   The undo record is complete: taking back every event of an applied pass, in any
   order, restores every table and every saved counter exactly.
   */
  lemma UndoRestoresEverything(db: Db, groups: seq<Group>, events: map<string, Snapshot>, order: seq<string>, rescore: Rescore, now: int)
    requires IsGroups(db, groups) && AllSnapped(db, events, Cuts(groups)) && events.Keys == Memories(groups)
    requires Elements(order) == events.Keys
    ensures UndoAll(Deduped(db, Cuts(groups), rescore, now), events, order) == db
    ensures forall m :: m in events ==> Undoable(m, events[m])
  {
    CutsAreSound(db, groups);
    TouchedAreMemories(db, groups);
    RestoresFrom(db, Cuts(groups), events, order, rescore, now);
    forall m | m in events ensures Undoable(m, events[m]) {
      SnapshotUsable(db, m, events[m], Cuts(groups));
    }
  }

  lemma RestoresFrom(db: Db, cut: set<EdgeKey>, events: map<string, Snapshot>, order: seq<string>, rescore: Rescore, now: int)
    requires Sound(db, cut) && Elements(order) == events.Keys == Touched(cut)
    requires forall m :: m in events ==> Snapped(db, m, events[m], cut)
    ensures UndoAll(Deduped(db, cut, rescore, now), events, order) == db
  {
    var d := Deduped(db, cut, rescore, now);
    DedupedIsPartlyRestored(db, cut, rescore, now);
    UndoAllRestores(db, db.observations.Keys - Orphaned(db, cut), db.evidence.Keys - cut, d, events, cut, order);
    ObservationsBack(db, cut);
    EvidenceBack(db, cut);
    CountersBack(db, UndoAll(d, events, order).canonicals, cut);
  }

  lemma SnapshotUsable(db: Db, m: string, s: Snapshot, cut: set<EdgeKey>)
    requires Snapped(db, m, s, cut) && Sound(db, cut) && m in Touched(cut)
    ensures Undoable(m, s)
  {
    var e :| e in cut && e.memory == m;
    assert (e, db.evidence[e]) in s.evidence && (e.observation, db.observations[e.observation]) in s.observations;
  }
}
