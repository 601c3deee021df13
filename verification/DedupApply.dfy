/** Applying a dedup plan: the cuts, the recount and the undo record. */
module DedupApply {
  import opened Basics
  import opened EvidenceDedup

  // ----- what a plan means -----

  predicate Cited(edges: set<EdgeKey>, o: string) { exists e :: e in edges && e.observation == o }

  /** The redundant supports edges of all groups. */
  function Cuts(groups: seq<Group>): set<EdgeKey> {
    set g, o | g in groups && o in g.redundant :: EdgeKey(g.key.memory, o, SUPPORTS)
  }

  /** The observations a set of cuts leaves without any citing edge. */
  function Orphaned(db: Db, cut: set<EdgeKey>): set<string> {
    set o | o in db.observations && Cited(cut, o) && !Cited(db.evidence.Keys - cut, o)
  }

  function Touched(cut: set<EdgeKey>): set<string> { set e | e in cut :: e.memory }

  /** The supports edges of a canonical whose observation exists (the COUNT(*) join). */
  function Supports(observations: map<string, Observation>, evidence: map<EdgeKey, int>, m: string): set<EdgeKey> {
    set e | e in evidence && e.memory == m && e.relation == SUPPORTS && e.observation in observations
  }

  type Rescore = (map<string, Observation>, map<EdgeKey, int>, string) -> real

  function Recounted(c: Canonical, observations: map<string, Observation>, evidence: map<EdgeKey, int>, m: string,
                     rescore: Rescore, now: int): Canonical {
    var n := |Supports(observations, evidence, m)|;
    c.(confidence := rescore(observations, evidence, m), evidenceCount := n, occurrences := n, updatedAt := now)
  }

  /** The database after the whole transaction. */
  function Deduped(db: Db, cut: set<EdgeKey>, rescore: Rescore, now: int): Db {
    var observations, evidence := db.observations - Orphaned(db, cut), db.evidence - cut;
    Db(db.facts, observations, evidence,
       map m | m in db.canonicals ::
         if m in Touched(cut) then Recounted(db.canonicals[m], observations, evidence, m, rescore, now) else db.canonicals[m])
  }

  // ----- cutting, one edge at a time -----

  datatype Counters = Counters(id: string, confidence: real, evidenceCount: int, occurrences: int, updatedAt: int)

  datatype Snapshot = Snapshot(canonical: Counters, observations: seq<(string, Observation)>, evidence: seq<(EdgeKey, int)>)

  function CountersOf(id: string, c: Canonical): Counters {
    Counters(id, c.confidence, c.evidenceCount, c.occurrences, c.updatedAt)
  }

  datatype Work = Work(observations: map<string, Observation>, evidence: map<EdgeKey, int>,
                       snapshots: map<string, Snapshot>, edges: nat, deleted: nat)

  /** The body of the inner loop: snapshot the edge and its observation, delete the edge, drop an uncited observation. */
  function Cut(w: Work, e: EdgeKey, row: Observation): Work
    requires e in w.evidence && e.memory in w.snapshots
  {
    var snap := w.snapshots[e.memory];
    var evidence := w.evidence - {e};
    var cited := Cited(evidence.Keys, e.observation);
    Work(if cited then w.observations else w.observations - {e.observation}, evidence,
         w.snapshots[e.memory := Snapshot(snap.canonical, snap.observations + [(e.observation, row)],
                                          snap.evidence + [(e, w.evidence[e])])],
         w.edges + 1, if cited then w.deleted else w.deleted + 1)
  }

  predicate Sound(db: Db, cut: set<EdgeKey>) {
    forall e :: e in cut ==> e in db.evidence && e.observation in db.observations && e.relation == SUPPORTS
  }

  ghost predicate TablesCut(db: Db, w: Work, cut: set<EdgeKey>) {
    && Sound(db, cut)
    && w.evidence == db.evidence - cut
    && w.observations == db.observations - Orphaned(db, cut)
    && w.edges == |cut|
    && w.deleted == |Orphaned(db, cut)|
  }

  /** The snapshot of `m` holds its old counters and exactly the edges and observations cut from it. */
  ghost predicate Snapped(db: Db, m: string, s: Snapshot, cut: set<EdgeKey>) {
    && m in db.canonicals && s.canonical == CountersOf(m, db.canonicals[m])
    && (forall p :: p in s.observations ==> EdgeKey(m, p.0, SUPPORTS) in cut && p.0 in db.observations && p.1 == db.observations[p.0])
    && (forall p :: p in s.evidence ==> p.0 in cut && p.0.memory == m && p.0 in db.evidence && p.1 == db.evidence[p.0])
    && (forall e :: e in cut && e.memory == m && e in db.evidence && e.observation in db.observations ==>
          (e.observation, db.observations[e.observation]) in s.observations && (e, db.evidence[e]) in s.evidence)
  }

  ghost predicate AllSnapped(db: Db, snapshots: map<string, Snapshot>, cut: set<EdgeKey>) {
    && Touched(cut) <= snapshots.Keys
    && forall m :: m in snapshots ==> Snapped(db, m, snapshots[m], cut)
  }

  lemma OrphanStep(db: Db, cut: set<EdgeKey>, e: EdgeKey)
    requires Sound(db, cut) && e in db.evidence && e !in cut && e.observation in db.observations && e.relation == SUPPORTS
    ensures var left := db.evidence.Keys - cut - {e};
            Orphaned(db, cut + {e}) == (if Cited(left, e.observation) then Orphaned(db, cut) else Orphaned(db, cut) + {e.observation})
    ensures e.observation !in Orphaned(db, cut)
  {
    var left := db.evidence.Keys - cut - {e};
    assert db.evidence.Keys - (cut + {e}) == left;
    assert e in db.evidence.Keys - cut;
    forall o ensures o in Orphaned(db, cut + {e}) <==>
                       o in (if Cited(left, e.observation) then Orphaned(db, cut) else Orphaned(db, cut) + {e.observation})
    {
      if o != e.observation {
        OtherCited(db.evidence.Keys - cut, e, o);
        assert Cited(cut + {e}, o) <==> Cited(cut, o);
      } else {
        assert e in cut + {e};
      }
    }
  }

  lemma OtherCited(edges: set<EdgeKey>, e: EdgeKey, o: string)
    requires o != e.observation
    ensures Cited(edges - {e}, o) <==> Cited(edges, o)
  {
    if Cited(edges, o) {
      var k :| k in edges && k.observation == o;
      assert k in edges - {e};
    }
  }

  lemma CutTables(db: Db, w: Work, cut: set<EdgeKey>, e: EdgeKey)
    requires TablesCut(db, w, cut) && e in db.evidence && e !in cut && e.observation in db.observations && e.relation == SUPPORTS && e.memory in w.snapshots
    ensures TablesCut(db, Cut(w, e, db.observations[e.observation]), cut + {e})
  {
    OrphanStep(db, cut, e);
    CutMaps(db.evidence, cut, e);
    DropMaps(db.observations, Orphaned(db, cut), e.observation);
    var w' := Cut(w, e, db.observations[e.observation]);
    assert w'.evidence == db.evidence - (cut + {e});
    if Cited(db.evidence.Keys - cut - {e}, e.observation) {
      assert w'.observations == w.observations && Orphaned(db, cut + {e}) == Orphaned(db, cut);
    } else {
      assert w'.observations == w.observations - {e.observation};
    }
  }

  lemma CutMaps(evidence: map<EdgeKey, int>, cut: set<EdgeKey>, e: EdgeKey)
    ensures (evidence - cut) - {e} == evidence - (cut + {e})
    ensures ((evidence - cut) - {e}).Keys == evidence.Keys - cut - {e}
  {
  }

  lemma DropMaps(observations: map<string, Observation>, gone: set<string>, o: string)
    ensures (observations - gone) - {o} == observations - (gone + {o})
  {
  }

  lemma CutSnapshots(db: Db, w: Work, cut: set<EdgeKey>, e: EdgeKey)
    requires TablesCut(db, w, cut) && AllSnapped(db, w.snapshots, cut)
    requires e in db.evidence && e !in cut && e.observation in db.observations && e.relation == SUPPORTS && e.memory in w.snapshots
    ensures AllSnapped(db, Cut(w, e, db.observations[e.observation]).snapshots, cut + {e})
  {
    var s, s' := w.snapshots, Cut(w, e, db.observations[e.observation]).snapshots;
    forall m | m in s' ensures Snapped(db, m, s'[m], cut + {e}) {
      assert Snapped(db, m, s[m], cut);
      if m == e.memory {
        SnappedMore(db, m, s[m], cut, e);
      } else {
        SnappedSame(db, m, s[m], cut, e);
      }
    }
  }

  lemma SnappedMore(db: Db, m: string, s: Snapshot, cut: set<EdgeKey>, e: EdgeKey)
    requires Snapped(db, m, s, cut) && e.memory == m && e in db.evidence && e.observation in db.observations && e.relation == SUPPORTS
    ensures Snapped(db, m, Snapshot(s.canonical, s.observations + [(e.observation, db.observations[e.observation])],
                                    s.evidence + [(e, db.evidence[e])]), cut + {e})
  {
  }

  lemma SnappedSame(db: Db, m: string, s: Snapshot, cut: set<EdgeKey>, e: EdgeKey)
    requires Snapped(db, m, s, cut) && e.memory != m
    ensures Snapped(db, m, s, cut + {e})
  {
  }

  // ----- the two loops -----

  function GroupCuts(m: string, list: seq<string>): set<EdgeKey> { set o | o in list :: EdgeKey(m, o, SUPPORTS) }

  ghost predicate Progress(db: Db, w: Work, cut: set<EdgeKey>) {
    TablesCut(db, w, cut) && AllSnapped(db, w.snapshots, cut)
  }

  lemma CutStep(db: Db, w: Work, cut: set<EdgeKey>, e: EdgeKey)
    requires Progress(db, w, cut) && e in db.evidence && e !in cut && e.observation in db.observations && e.relation == SUPPORTS && e.memory in w.snapshots
    ensures e in w.evidence && Progress(db, Cut(w, e, db.observations[e.observation]), cut + {e})
    ensures Cut(w, e, db.observations[e.observation]).snapshots.Keys == w.snapshots.Keys
  {
    CutTables(db, w, cut, e);
    CutSnapshots(db, w, cut, e);
  }

  /** The inner loop: cut every redundant edge of one group. */
  method CutGroup(db: Db, w0: Work, g: Group, ghost cut: set<EdgeKey>) returns (w: Work)
    requires Progress(db, w0, cut) && g.key.memory in w0.snapshots && NoDup(g.redundant)
    requires forall o :: o in g.redundant ==>
               EdgeKey(g.key.memory, o, SUPPORTS) in db.evidence && EdgeKey(g.key.memory, o, SUPPORTS) !in cut && o in db.observations
    ensures Progress(db, w, cut + GroupCuts(g.key.memory, g.redundant)) && w.snapshots.Keys == w0.snapshots.Keys
  {
    w := w0;
    var m, j := g.key.memory, 0;
    assert cut + GroupCuts(m, g.redundant[..0]) == cut;
    while j < |g.redundant|
      invariant 0 <= j <= |g.redundant| && w.snapshots.Keys == w0.snapshots.Keys
      invariant Progress(db, w, cut + GroupCuts(m, g.redundant[..j]))
    {
      ghost var sofar := cut + GroupCuts(m, g.redundant[..j]);
      var e := EdgeKey(m, g.redundant[j], SUPPORTS);
      NextCut(g, j, cut);
      CutStep(db, w, sofar, e);
      w := Cut(w, e, db.observations[g.redundant[j]]);
      j := j + 1;
    }
    assert g.redundant[..j] == g.redundant;
  }

  lemma NextCut(g: Group, j: nat, cut: set<EdgeKey>)
    requires NoDup(g.redundant) && j < |g.redundant|
    ensures var m, e := g.key.memory, EdgeKey(g.key.memory, g.redundant[j], SUPPORTS);
            && g.redundant[j] in g.redundant
            && e !in GroupCuts(m, g.redundant[..j])
            && cut + GroupCuts(m, g.redundant[..j]) + {e} == cut + GroupCuts(m, g.redundant[..j + 1])
  {
    assert g.redundant[..j + 1] == g.redundant[..j] + [g.redundant[j]];
  }

  /** An edge belongs to one group only, so no edge is cut twice. */
  lemma GroupsCutApart(db: Db, groups: seq<Group>, i: nat)
    requires IsGroups(db, groups) && i < |groups|
    ensures var g := groups[i];
            && g in groups && NoDup(g.redundant)
            && (forall o :: o in g.redundant ==>
                  var e := EdgeKey(g.key.memory, o, SUPPORTS);
                  e in db.evidence && e !in Cuts(groups[..i]) && o in db.observations)
            && Cuts(groups[..i + 1]) == Cuts(groups[..i]) + GroupCuts(g.key.memory, g.redundant)
            && Memories(groups[..i + 1]) == Memories(groups[..i]) + {g.key.memory}
  {
    var g := groups[i];
    assert g in groups && IsGroup(db, g);
    forall o, h | o in g.redundant && h in groups[..i] && o in h.redundant ensures h.key.memory != g.key.memory {
      assert Member(db, h.key, o) && Member(db, g.key, o);
    }
    PrefixStep(groups, i);
    forall e ensures e in Cuts(groups[..i + 1]) <==> e in Cuts(groups[..i]) + GroupCuts(g.key.memory, g.redundant) {
      CutsAppend(groups[..i], g, e);
    }
  }

  lemma CutsAreSound(db: Db, groups: seq<Group>)
    requires IsGroups(db, groups)
    ensures Sound(db, Cuts(groups))
  {
    forall e | e in Cuts(groups) ensures e in db.evidence && e.observation in db.observations {
      var g, o :| g in groups && o in g.redundant && e == EdgeKey(g.key.memory, o, SUPPORTS);
      assert IsGroup(db, g);
    }
  }

  function Memories(groups: seq<Group>): set<string> { set g | g in groups :: g.key.memory }

  lemma PrefixStep(groups: seq<Group>, i: nat)
    requires i < |groups|
    ensures groups[..i + 1] == groups[..i] + [groups[i]]
    ensures Memories(groups[..i + 1]) == Memories(groups[..i]) + {groups[i].key.memory}
  {
    assert groups[..i + 1] == groups[..i] + [groups[i]];
    assert (groups[..i] + [groups[i]])[i] == groups[i];
  }

  lemma CutsAppend(groups: seq<Group>, g: Group, e: EdgeKey)
    ensures e in Cuts(groups + [g]) <==> e in Cuts(groups) || e in GroupCuts(g.key.memory, g.redundant)
  {
    if e in Cuts(groups) {
      var h, o :| h in groups && o in h.redundant && e == EdgeKey(h.key.memory, o, SUPPORTS);
      assert h in groups + [g];
    }
    if e in GroupCuts(g.key.memory, g.redundant) {
      assert (groups + [g])[|groups|] == g;
      assert g in groups + [g] && e.observation in g.redundant && e == EdgeKey(g.key.memory, e.observation, SUPPORTS);
    }
    if e in Cuts(groups + [g]) {
      var h, o :| h in groups + [g] && o in h.redundant && e == EdgeKey(h.key.memory, o, SUPPORTS);
    }
  }

  /** The outer loop; it fails exactly when some group's canonical row is missing. */
  method CutGroups(db: Db, groups: seq<Group>) returns (w: Work, ok: bool)
    requires IsGroups(db, groups)
    ensures ok <==> Memories(groups) <= db.canonicals.Keys
    ensures ok ==> Progress(db, w, Cuts(groups)) && w.snapshots.Keys == Memories(groups)
  {
    w := Work(db.observations, db.evidence, map[], 0, 0);
    NoCuts(db);
    assert Cuts([]) == {};
    var i := 0;
    while i < |groups|
      invariant 0 <= i <= |groups| && Progress(db, w, Cuts(groups[..i]))
      invariant Memories(groups[..i]) <= db.canonicals.Keys && w.snapshots.Keys == Memories(groups[..i])
    {
      var g := groups[i];
      GroupsCutApart(db, groups, i);
      if g.key.memory !in db.canonicals {
        assert g.key.memory in Memories(groups);
        return w, false;
      }
      w := OpenSnapshot(db, w, g.key.memory, Cuts(groups[..i]));
      w := CutGroup(db, w, g, Cuts(groups[..i]));
      i := i + 1;
    }
    assert groups[..i] == groups;
    ok := true;
  }

  lemma NoCuts(db: Db)
    ensures Progress(db, Work(db.observations, db.evidence, map[], 0, 0), {})
  {
    assert Orphaned(db, {}) == {};
    assert Touched({}) == {};
  }

  lemma OpenSnapped(db: Db, snapshots: map<string, Snapshot>, cut: set<EdgeKey>, m: string)
    requires AllSnapped(db, snapshots, cut) && m in db.canonicals && m !in snapshots
    ensures AllSnapped(db, snapshots[m := Snapshot(CountersOf(m, db.canonicals[m]), [], [])], cut)
  {
    forall e | e in cut ensures e.memory != m {
      assert e.memory in Touched(cut);
    }
  }

  /** The first cut from a canonical records its counters. */
  method OpenSnapshot(db: Db, w0: Work, m: string, ghost cut: set<EdgeKey>) returns (w: Work)
    requires Progress(db, w0, cut) && m in db.canonicals
    ensures Progress(db, w, cut) && w.snapshots.Keys == w0.snapshots.Keys + {m}
  {
    w := w0;
    if m !in w.snapshots {
      OpenSnapped(db, w.snapshots, cut, m);
      w := w.(snapshots := w.snapshots[m := Snapshot(CountersOf(m, db.canonicals[m]), [], [])]);
    }
  }

  // ----- the recount and the whole transaction -----

  method RecountCanonicals(canonicals: map<string, Canonical>, observations: map<string, Observation>, evidence: map<EdgeKey, int>,
                           touched: set<string>, rescore: Rescore, now: int) returns (r: map<string, Canonical>)
    requires touched <= canonicals.Keys
    ensures r.Keys == canonicals.Keys
    ensures forall m :: m in r ==> r[m] == if m in touched then Recounted(canonicals[m], observations, evidence, m, rescore, now) else canonicals[m]
  {
    r := canonicals;
    var todo := touched;
    while todo != {}
      invariant todo <= touched && r.Keys == canonicals.Keys
      invariant forall m :: m in r ==>
                  r[m] == if m in touched && m !in todo then Recounted(canonicals[m], observations, evidence, m, rescore, now) else canonicals[m]
      decreases todo
    {
      var m :| m in todo;
      r := r[m := Recounted(r[m], observations, evidence, m, rescore, now)];
      todo := todo - {m};
    }
  }

  lemma TouchedAreMemories(db: Db, groups: seq<Group>)
    requires IsGroups(db, groups)
    ensures Touched(Cuts(groups)) == Memories(groups)
  {
    forall g | g in groups ensures g.key.memory in Touched(Cuts(groups)) {
      assert g.redundant != [] by { assert IsGroup(db, g); }
      GroupTouches(groups, g);
    }
    forall m | m in Touched(Cuts(groups)) ensures m in Memories(groups) {
      var e :| e in Cuts(groups) && e.memory == m;
    }
  }

  lemma GroupTouches(groups: seq<Group>, g: Group)
    requires g in groups && g.redundant != []
    ensures g.key.memory in Touched(Cuts(groups))
  {
    assert g.redundant[0] in g.redundant;
    assert EdgeKey(g.key.memory, g.redundant[0], SUPPORTS) in Cuts(groups);
  }

  lemma RecountIsDeduped(db: Db, w: Work, cut: set<EdgeKey>, canonicals: map<string, Canonical>, rescore: Rescore, now: int)
    requires w.evidence == db.evidence - cut && w.observations == db.observations - Orphaned(db, cut)
    requires canonicals.Keys == db.canonicals.Keys
    requires forall m :: m in canonicals ==>
               canonicals[m] == if m in Touched(cut) then Recounted(db.canonicals[m], w.observations, w.evidence, m, rescore, now) else db.canonicals[m]
    ensures Db(db.facts, w.observations, w.evidence, canonicals) == Deduped(db, cut, rescore, now)
  {
    assert canonicals == Deduped(db, cut, rescore, now).canonicals;
  }

  /** One audit event per affected canonical, carrying its undo snapshot. */
  datatype Outcome = RolledBack | Applied(db: Db, events: map<string, Snapshot>, edges: nat, deleted: nat, affected: nat)

  method ApplyDedupGroups(db: Db, groups: seq<Group>, rescore: Rescore, now: int) returns (r: Outcome)
    requires IsGroups(db, groups)
    ensures r.Applied? <==> Memories(groups) <= db.canonicals.Keys
    ensures r.Applied? ==> r.db == Deduped(db, Cuts(groups), rescore, now)
    ensures r.Applied? ==> AllSnapped(db, r.events, Cuts(groups)) && r.events.Keys == Memories(groups)
    ensures r.Applied? ==> r.edges == |Cuts(groups)| && r.deleted == |Orphaned(db, Cuts(groups))| && r.affected == |Memories(groups)|
  {
    var w, ok := CutGroups(db, groups);
    if !ok {
      return RolledBack;
    }
    var canonicals := RecountCanonicals(db.canonicals, w.observations, w.evidence, w.snapshots.Keys, rescore, now);
    TouchedAreMemories(db, groups);
    RecountIsDeduped(db, w, Cuts(groups), canonicals, rescore, now);
    r := Applied(Db(db.facts, w.observations, w.evidence, canonicals), w.snapshots, w.edges, w.deleted, |w.snapshots.Keys|);
  }
}
