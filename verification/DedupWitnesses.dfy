/**
 Databases on which the dedup pass does what its comments deny: the dry run announces
 too few or too many deletions, and a live obs_ row is deleted.
 */
module DedupWitnesses {
  import opened Basics
  import opened EvidenceDedup
  import opened DedupApply
  import opened DedupDryRun

  // Two observations with equal content: the live `k`, and the later `o`, which facts also holds.

  function Row(run: string, at: int): Observation { Observed(run, "", "", "", "", 0.5, at, "") }

  function PairDb(edges: map<EdgeKey, int>, canonicals: map<string, Canonical>, k: string, o: string, run: string): Db {
    Db(map[o := Fact(run, "", "")], map[k := Row(run, 0), o := Row(run, 1)], edges, canonicals)
  }

  /** Exactly the canonicals `ms` are supported, each by both observations. */
  predicate SupportsBoth(edges: set<EdgeKey>, ms: seq<string>, k: string, o: string) {
    && NoDup(ms)
    && (forall m :: m in ms ==> EdgeKey(m, k, SUPPORTS) in edges && EdgeKey(m, o, SUPPORTS) in edges)
    && (forall e :: e in edges && e.relation == SUPPORTS ==> e.memory in ms)
  }

  function PairGroup(m: string, k: string, o: string, run: string): Group { Group(GroupKey(m, run, "", ""), k, [o]) }

  function PairGroups(ms: seq<string>, k: string, o: string, run: string): seq<Group> {
    seq(|ms|, i requires 0 <= i < |ms| => PairGroup(ms[i], k, o, run))
  }

  lemma PairIsGroup(edges: map<EdgeKey, int>, canonicals: map<string, Canonical>, k: string, o: string, run: string, m: string)
    requires k != o && Live(k) && !Blank(run) && EdgeKey(m, k, SUPPORTS) in edges && EdgeKey(m, o, SUPPORTS) in edges
    ensures IsGroup(PairDb(edges, canonicals, k, o, run), PairGroup(m, k, o, run))
  {
    var db, key := PairDb(edges, canonicals, k, o, run), GroupKey(m, run, "", "");
    forall x ensures Member(db, key, x) <==> x == k || x == o { }
    assert [o][0] == o && Before(db, k, o);
  }

  lemma OnlyPairGroups(edges: map<EdgeKey, int>, canonicals: map<string, Canonical>, k: string, o: string, run: string, ms: seq<string>, g: Group)
    requires SupportsBoth(edges.Keys, ms, k, o) && IsGroup(PairDb(edges, canonicals, k, o, run), g)
    ensures g.key.memory in ms && g.key == GroupKey(g.key.memory, run, "", "")
  {
    assert Member(PairDb(edges, canonicals, k, o, run), g.key, g.keeper);
  }

  lemma ListsOnePerMemory(ok: Group -> bool, ms: seq<string>, k: string, o: string, run: string)
    requires NoDup(ms) && (forall m :: m in ms ==> ok(PairGroup(m, k, o, run)))
    requires forall g :: ok(g) ==> g.key.memory in ms && g.key == GroupKey(g.key.memory, run, "", "")
    ensures Lists(ok, PairGroups(ms, k, o, run))
  {
    var groups := PairGroups(ms, k, o, run);
    assert forall i :: 0 <= i < |ms| ==> groups[i].key.memory == ms[i];
    forall g | g in groups ensures ok(g) {
      var i :| 0 <= i < |groups| && groups[i] == g;
      assert ms[i] in ms;
    }
    forall g | ok(g) ensures exists h :: h in groups && h.key == g.key {
      var i :| 0 <= i < |ms| && ms[i] == g.key.memory;
      assert groups[i] in groups && groups[i].key == g.key;
    }
  }

  /** The search finds one group per canonical. */
  lemma PairsAreGroups(edges: map<EdgeKey, int>, canonicals: map<string, Canonical>, k: string, o: string, run: string, ms: seq<string>)
    requires k != o && Live(k) && !Blank(run) && SupportsBoth(edges.Keys, ms, k, o)
    ensures IsGroups(PairDb(edges, canonicals, k, o, run), PairGroups(ms, k, o, run))
  {
    var db := PairDb(edges, canonicals, k, o, run);
    forall m | m in ms ensures DuplicateGroup(db)(PairGroup(m, k, o, run)) {
      PairIsGroup(edges, canonicals, k, o, run, m);
    }
    forall g | DuplicateGroup(db)(g) ensures g.key.memory in ms && g.key == GroupKey(g.key.memory, run, "", "") {
      OnlyPairGroups(edges, canonicals, k, o, run, ms, g);
    }
    ListsOnePerMemory(DuplicateGroup(db), ms, k, o, run);
  }

  lemma PairCuts(ms: seq<string>, k: string, o: string, run: string)
    ensures Cuts(PairGroups(ms, k, o, run)) == set m | m in ms :: EdgeKey(m, o, SUPPORTS)
    ensures Memories(PairGroups(ms, k, o, run)) == set m | m in ms
  {
    var groups := PairGroups(ms, k, o, run);
    forall m | m in ms ensures EdgeKey(m, o, SUPPORTS) in Cuts(groups) && m in Memories(groups) {
      var i :| 0 <= i < |ms| && ms[i] == m;
      assert groups[i] in groups && groups[i].redundant[0] in groups[i].redundant;
    }
    forall e | e in Cuts(groups) ensures e.memory in ms && e == EdgeKey(e.memory, o, SUPPORTS) {
      var g, x :| g in groups && x in g.redundant && e == EdgeKey(g.key.memory, x, SUPPORTS);
    }
  }

  lemma SharedCounts(db: Db, ea: EdgeKey, eb: EdgeKey, o: string)
    requires ea.memory != eb.memory && ea in db.evidence && eb in db.evidence
    requires ea.observation == o && eb.observation == o && o in db.observations
    requires forall e :: e in db.evidence && e.observation == o ==> e == ea || e == eb
    ensures ExpectedGone(db, {ea, eb}) == {} && Orphaned(db, {ea, eb}) == {o}
  {
    assert CitedElsewhere(db, ea) && CitedElsewhere(db, eb);
    assert ea in {ea, eb};
    assert Cited({ea, eb}, o) && !Cited(db.evidence.Keys - {ea, eb}, o);
  }

  /**
   Too few: `o` is redundant under two canonicals.  The pass deletes it, and the dry
   run expects no deletion, because each canonical sees the other one's edge.
   */
  lemma DryRunCanMiss(edges: map<EdgeKey, int>, canonicals: map<string, Canonical>, a: string, b: string, k: string, o: string, run: string)
    requires a != b && k != o && Live(k) && !Blank(run) && a in canonicals && b in canonicals
    requires edges.Keys == {EdgeKey(a, k, SUPPORTS), EdgeKey(a, o, SUPPORTS), EdgeKey(b, k, SUPPORTS), EdgeKey(b, o, SUPPORTS)}
    ensures var db, groups := PairDb(edges, canonicals, k, o, run), PairGroups([a, b], k, o, run);
            && IsGroups(db, groups) && Applies(db, groups)
            && ExpectedGone(db, Cuts(groups)) == {} && Deleted(db, groups) == {o}
  {
    SharedEdges(edges.Keys, a, b, k, o);
    PairsAreGroups(edges, canonicals, k, o, run, [a, b]);
    TwoCuts(a, b, k, o, run);
    assert {a, b} <= canonicals.Keys;
    SharedCounts(PairDb(edges, canonicals, k, o, run), EdgeKey(a, o, SUPPORTS), EdgeKey(b, o, SUPPORTS), o);
  }

  lemma SharedEdges(edges: set<EdgeKey>, a: string, b: string, k: string, o: string)
    requires a != b && k != o
    requires edges == {EdgeKey(a, k, SUPPORTS), EdgeKey(a, o, SUPPORTS), EdgeKey(b, k, SUPPORTS), EdgeKey(b, o, SUPPORTS)}
    ensures SupportsBoth(edges, [a, b], k, o)
    ensures forall e :: e in edges && e.observation == o ==> e == EdgeKey(a, o, SUPPORTS) || e == EdgeKey(b, o, SUPPORTS)
  {
    assert [a, b][0] == a && [a, b][1] == b;
  }

  lemma TwoCuts(a: string, b: string, k: string, o: string, run: string)
    ensures Cuts(PairGroups([a, b], k, o, run)) == {EdgeKey(a, o, SUPPORTS), EdgeKey(b, o, SUPPORTS)}
    ensures Memories(PairGroups([a, b], k, o, run)) == {a, b}
  {
    PairCuts([a, b], k, o, run);
    assert [a, b][0] == a && [a, b][1] == b;
    assert (set m | m in [a, b]) == {a, b};
    assert (set m | m in [a, b] :: EdgeKey(m, o, SUPPORTS)) == {EdgeKey(a, o, SUPPORTS), EdgeKey(b, o, SUPPORTS)};
  }

  lemma KeptCounts(db: Db, e: EdgeKey, other: EdgeKey, o: string)
    requires e in db.evidence && other in db.evidence && e != other && e.memory == other.memory && other.observation == o == e.observation
    requires forall x :: x in db.evidence && x.observation == o ==> x.memory == e.memory
    ensures ExpectedGone(db, {e}) == {e} && Orphaned(db, {e}) == {}
  {
    assert !CitedElsewhere(db, e);
    assert other in db.evidence.Keys - {e};
    assert Cited(db.evidence.Keys - {e}, o);
  }

  /**
   Too many: the one canonical also cites `o` by another relation.  The dry run expects
   a deletion, and the pass keeps `o`.
   */
  lemma DryRunCanOverstate(edges: map<EdgeKey, int>, canonicals: map<string, Canonical>, a: string, k: string, o: string, run: string, relation: string)
    requires k != o && Live(k) && !Blank(run) && a in canonicals && relation != SUPPORTS
    requires edges.Keys == {EdgeKey(a, k, SUPPORTS), EdgeKey(a, o, SUPPORTS), EdgeKey(a, o, relation)}
    ensures var db, groups := PairDb(edges, canonicals, k, o, run), PairGroups([a], k, o, run);
            && IsGroups(db, groups) && Applies(db, groups)
            && |ExpectedGone(db, Cuts(groups))| == 1 && Deleted(db, groups) == {}
  {
    var db, ms := PairDb(edges, canonicals, k, o, run), [a];
    assert ms[0] == a;
    PairsAreGroups(edges, canonicals, k, o, run, ms);
    PairCuts(ms, k, o, run);
    assert (set m | m in ms :: EdgeKey(m, o, SUPPORTS)) == {EdgeKey(a, o, SUPPORTS)};
    KeptCounts(db, EdgeKey(a, o, SUPPORTS), EdgeKey(a, o, relation), o);
  }

  /** A live row goes: `o` carries an obs_ id, and facts holds a row with that id, run and text. */
  lemma LiveRowCanBeDeleted(edges: map<EdgeKey, int>, canonicals: map<string, Canonical>, a: string, k: string, o: string, run: string,
                            rescore: Rescore, now: int)
    requires k != o && Live(k) && Live(o) && !Blank(run) && a in canonicals
    requires edges.Keys == {EdgeKey(a, k, SUPPORTS), EdgeKey(a, o, SUPPORTS)}
    ensures var db, groups := PairDb(edges, canonicals, k, o, run), PairGroups([a], k, o, run);
            && IsGroups(db, groups) && Applies(db, groups)
            && o in db.observations && o !in Deduped(db, Cuts(groups), rescore, now).observations
  {
    var db, ms := PairDb(edges, canonicals, k, o, run), [a];
    assert ms[0] == a;
    PairsAreGroups(edges, canonicals, k, o, run, ms);
    PairCuts(ms, k, o, run);
    var e := EdgeKey(a, o, SUPPORTS);
    assert (set m | m in ms :: EdgeKey(m, o, SUPPORTS)) == {e};
    assert Cited({e}, o) && !Cited(db.evidence.Keys - {e}, o);
  }
}
