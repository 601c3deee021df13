/** The dry run beside the applied pass, and how far the two can differ. */
module DedupDryRun {
  import opened Basics
  import opened EvidenceDedup
  import opened DedupApply

  predicate CitedElsewhere(db: Db, e: EdgeKey) {
    exists k :: k in db.evidence && k.observation == e.observation && k.memory != e.memory
  }

  /** The cuts whose observation the dry run expects to delete: nothing else than this canonical cites it. */
  function ExpectedGone(db: Db, cut: set<EdgeKey>): set<EdgeKey> {
    set e | e in cut && !CitedElsewhere(db, e)
  }

  /** The numbers of a dry run. */
  datatype DryRun = DryRun(edges: nat, observations: nat, affected: set<string>)

  function CountCut(db: Db, r: DryRun, e: EdgeKey): DryRun {
    r.(edges := r.edges + 1, observations := if CitedElsewhere(db, e) then r.observations else r.observations + 1)
  }

  predicate Counts(db: Db, r: DryRun, cut: set<EdgeKey>) { r.edges == |cut| && r.observations == |ExpectedGone(db, cut)| }

  lemma NothingCounted(db: Db)
    ensures Counts(db, DryRun(0, 0, {}), Cuts([])) && Memories([]) == {}
  {
    assert Cuts([]) == {} && ExpectedGone(db, {}) == {};
  }

  lemma MoreCuts(m: string, list: seq<string>, j: nat)
    requires NoDup(list) && j < |list|
    ensures GroupCuts(m, list[..j + 1]) == GroupCuts(m, list[..j]) + {EdgeKey(m, list[j], SUPPORTS)}
    ensures EdgeKey(m, list[j], SUPPORTS) !in GroupCuts(m, list[..j])
  {
    assert list[..j + 1] == list[..j] + [list[j]];
  }

  lemma CountStep(db: Db, m: string, list: seq<string>, j: nat, cut: set<EdgeKey>, r: DryRun)
    requires NoDup(list) && j < |list| && EdgeKey(m, list[j], SUPPORTS) !in cut
    requires Counts(db, r, cut + GroupCuts(m, list[..j]))
    ensures Counts(db, CountCut(db, r, EdgeKey(m, list[j], SUPPORTS)), cut + GroupCuts(m, list[..j + 1]))
  {
    var e, sofar := EdgeKey(m, list[j], SUPPORTS), cut + GroupCuts(m, list[..j]);
    MoreCuts(m, list, j);
    assert cut + GroupCuts(m, list[..j + 1]) == sofar + {e};
    ExpectStep(db, sofar, e);
  }

  /** The counting loop of one group. */
  method CountGroup(db: Db, m: string, list: seq<string>, r0: DryRun, ghost cut: set<EdgeKey>) returns (r: DryRun)
    requires NoDup(list) && forall o :: o in list ==> EdgeKey(m, o, SUPPORTS) !in cut
    requires Counts(db, r0, cut)
    ensures Counts(db, r, cut + GroupCuts(m, list)) && r.affected == r0.affected
  {
    r := r0;
    var j := 0;
    assert cut + GroupCuts(m, list[..0]) == cut;
    while j < |list|
      invariant 0 <= j <= |list| && Counts(db, r, cut + GroupCuts(m, list[..j])) && r.affected == r0.affected
    {
      CountStep(db, m, list, j, cut, r);
      r := CountCut(db, r, EdgeKey(m, list[j], SUPPORTS));
      j := j + 1;
    }
    assert list[..j] == list;
  }

  /** The first i groups are counted. */
  ghost predicate CountedUpTo(db: Db, groups: seq<Group>, i: nat, r: DryRun)
    requires i <= |groups|
  {
    Counts(db, r, Cuts(groups[..i])) && r.affected == Memories(groups[..i])
  }

  /** One more group. */
  method CountNext(db: Db, groups: seq<Group>, i: nat, r0: DryRun) returns (r: DryRun)
    requires IsGroups(db, groups) && i < |groups| && CountedUpTo(db, groups, i, r0)
    ensures CountedUpTo(db, groups, i + 1, r)
  {
    GroupsCutApart(db, groups, i);
    var g := groups[i];
    r := CountGroup(db, g.key.memory, g.redundant, r0.(affected := r0.affected + {g.key.memory}), Cuts(groups[..i]));
  }

  lemma ExpectStep(db: Db, cut: set<EdgeKey>, e: EdgeKey)
    requires e !in cut
    ensures |ExpectedGone(db, cut + {e})| == |ExpectedGone(db, cut)| + if CitedElsewhere(db, e) then 0 else 1
  {
    var a, b := ExpectedGone(db, cut), ExpectedGone(db, cut + {e});
    if CitedElsewhere(db, e) {
      assert a == b;
    } else {
      assert b == a + {e};
    }
  }

  method CountDedupPlan(db: Db, groups: seq<Group>) returns (r: DryRun)
    requires IsGroups(db, groups)
    ensures r.edges == |Cuts(groups)| && r.observations == |ExpectedGone(db, Cuts(groups))| && r.affected == Memories(groups)
  {
    r := DryRun(0, 0, {});
    NothingCounted(db);
    var i := 0;
    while i < |groups|
      invariant 0 <= i <= |groups| && CountedUpTo(db, groups, i, r)
    {
      r := CountNext(db, groups, i, r);
      i := i + 1;
    }
    assert groups[..i] == groups;
  }

  // The two ways an observation can be counted on one side only.

  /** Only its own canonical cites it, but also by a relation the pass does not cut. */
  predicate KeptByRelation(db: Db, cut: set<EdgeKey>, o: string) {
    exists e, k :: e in cut && e.observation == o && !CitedElsewhere(db, e)
                   && k in db.evidence && k.observation == o && k.relation != SUPPORTS
  }

  /** It is redundant under several canonicals and nothing else cites it. */
  predicate SharedTwin(db: Db, cut: set<EdgeKey>, o: string) {
    && (exists e, k :: e in cut && k in cut && e.observation == o && k.observation == o && e.memory != k.memory)
    && forall k :: k in db.evidence && k.observation == o ==> k in cut
  }

  function Overcounted(db: Db, cut: set<EdgeKey>): set<string> { set e | e in cut && KeptByRelation(db, cut, e.observation) :: e.observation }
  function Undercounted(db: Db, cut: set<EdgeKey>): set<string> { set e | e in cut && SharedTwin(db, cut, e.observation) :: e.observation }

  function Expected(db: Db, cut: set<EdgeKey>): set<string> { set e | e in ExpectedGone(db, cut) :: e.observation }

  lemma {:induction false} SameSize(edges: set<EdgeKey>)
    requires forall a, b :: a in edges && b in edges && a.observation == b.observation ==> a == b
    ensures |set e | e in edges :: e.observation| == |edges|
  {
    if edges != {} {
      var x :| x in edges;
      SameSize(edges - {x});
      assert (set e | e in edges :: e.observation) == (set e | e in edges - {x} :: e.observation) + {x.observation};
    } else {
      assert (set e | e in edges :: e.observation) == {};
    }
  }

  lemma ExpectedButKept(db: Db, cut: set<EdgeKey>, o: string)
    requires Sound(db, cut)
    ensures o in Expected(db, cut) && o !in Orphaned(db, cut) ==> o in Overcounted(db, cut)
  {
    if o in Expected(db, cut) && o !in Orphaned(db, cut) {
      var e :| e in ExpectedGone(db, cut) && e.observation == o;
      var k :| k in db.evidence.Keys - cut && k.observation == o;
      assert e == EdgeKey(e.memory, o, SUPPORTS) && k == EdgeKey(e.memory, o, k.relation);
      assert KeptByRelation(db, cut, o);
    }
  }

  lemma KeptButExpected(db: Db, cut: set<EdgeKey>, o: string)
    requires Sound(db, cut) && o in Overcounted(db, cut)
    ensures o in Expected(db, cut) && o !in Orphaned(db, cut)
  {
    var e, k :| e in cut && e.observation == o && !CitedElsewhere(db, e) && k in db.evidence && k.observation == o && k.relation != SUPPORTS;
    assert e in ExpectedGone(db, cut) && k in db.evidence.Keys - cut;
  }

  lemma GoneUnexpected(db: Db, cut: set<EdgeKey>, o: string)
    requires Sound(db, cut)
    ensures o in Orphaned(db, cut) && o !in Expected(db, cut) ==> o in Undercounted(db, cut)
  {
    if o in Orphaned(db, cut) && o !in Expected(db, cut) {
      forall k | k in db.evidence && k.observation == o ensures k in cut {
        assert k !in db.evidence.Keys - cut;
      }
      var e :| e in cut && e.observation == o;
      assert e !in ExpectedGone(db, cut);
      var k :| k in db.evidence && k.observation == o && k.memory != e.memory;
      assert SharedTwin(db, cut, o);
    }
  }

  lemma UnexpectedGone(db: Db, cut: set<EdgeKey>, o: string)
    requires Sound(db, cut) && o in Undercounted(db, cut)
    ensures o in Orphaned(db, cut) && o !in Expected(db, cut)
  {
    assert SharedTwin(db, cut, o);
    var a, b :| a in cut && b in cut && a.observation == o && b.observation == o && a.memory != b.memory;
    forall k | k in db.evidence.Keys - cut ensures k.observation != o { }
    assert o in Orphaned(db, cut);
    forall e | e in ExpectedGone(db, cut) ensures e.observation != o {
      assert a in db.evidence && b in db.evidence;
    }
  }

  lemma Differences(db: Db, cut: set<EdgeKey>)
    requires Sound(db, cut)
    ensures Expected(db, cut) - Orphaned(db, cut) == Overcounted(db, cut)
    ensures Orphaned(db, cut) - Expected(db, cut) == Undercounted(db, cut)
  {
    forall o | o in Overcounted(db, cut) ensures o in Expected(db, cut) - Orphaned(db, cut) { KeptButExpected(db, cut, o); }
    forall o | o in Undercounted(db, cut) ensures o in Orphaned(db, cut) - Expected(db, cut) { UnexpectedGone(db, cut, o); }
    forall o | o in Expected(db, cut) - Orphaned(db, cut) ensures o in Overcounted(db, cut) { ExpectedButKept(db, cut, o); }
    forall o | o in Orphaned(db, cut) - Expected(db, cut) ensures o in Undercounted(db, cut) { GoneUnexpected(db, cut, o); }
  }

  lemma TwoWaySizes(x: set<string>, y: set<string>)
    ensures |x| + |y - x| == |y| + |x - y|
  {
    assert x == (x - y) + (x * y) && y == (y - x) + (x * y);
  }

  lemma ExpectedOnce(db: Db, cut: set<EdgeKey>)
    requires Sound(db, cut)
    ensures |Expected(db, cut)| == |ExpectedGone(db, cut)|
  {
    forall a, b | a in ExpectedGone(db, cut) && b in ExpectedGone(db, cut) && a.observation == b.observation ensures a == b {
      assert a == EdgeKey(a.memory, a.observation, SUPPORTS) && b == EdgeKey(b.memory, b.observation, SUPPORTS);
    }
    SameSize(ExpectedGone(db, cut));
  }

  /** The pass succeeds: every group's canonical row is there. */
  predicate Applies(db: Db, groups: seq<Group>) { Memories(groups) <= db.canonicals.Keys }

  /** The observations the pass deletes; a pass that rolls back deletes none. */
  function Deleted(db: Db, groups: seq<Group>): set<string> {
    if Applies(db, groups) then Orphaned(db, Cuts(groups)) else {}
  }

  /**
   How far the dry run is off.  Where the pass succeeds, the observations it deletes
   and those the dry run expects differ by exactly the twins kept by another relation
   of their own canonical (expected, not deleted) and the twins redundant under
   several canonicals (deleted, not expected); so the numbers agree exactly when the
   two kinds are equally many, and the observations agree exactly when there are none.
   */
  lemma DryRunExactlyOff(db: Db, groups: seq<Group>)
    requires IsGroups(db, groups) && Applies(db, groups)
    ensures var cut := Cuts(groups);
            && Expected(db, cut) - Deleted(db, groups) == Overcounted(db, cut)
            && Deleted(db, groups) - Expected(db, cut) == Undercounted(db, cut)
            && |ExpectedGone(db, cut)| + |Undercounted(db, cut)| == |Deleted(db, groups)| + |Overcounted(db, cut)|
            && (|ExpectedGone(db, cut)| == |Deleted(db, groups)| <==> |Undercounted(db, cut)| == |Overcounted(db, cut)|)
            && (Expected(db, cut) == Deleted(db, groups) <==> Undercounted(db, cut) == {} && Overcounted(db, cut) == {})
  {
    var cut := Cuts(groups);
    CutsAreSound(db, groups);
    ExpectedOnce(db, cut);
    Differences(db, cut);
    TwoWaySizes(Expected(db, cut), Orphaned(db, cut));
    SameExactly(Expected(db, cut), Orphaned(db, cut));
  }

  lemma SameExactly(x: set<string>, y: set<string>)
    ensures x == y <==> x - y == {} && y - x == {}
  {
    if x - y == {} && y - x == {} {
      assert forall o :: o in x <==> o in y;
    }
  }

  /** Where a canonical row is missing the pass rolls back, so the dry run is right exactly when it expects no deletion. */
  lemma DryRunOfARollback(db: Db, groups: seq<Group>)
    requires IsGroups(db, groups) && !Applies(db, groups)
    ensures |ExpectedGone(db, Cuts(groups))| == |Deleted(db, groups)| <==>
              forall e :: e in Cuts(groups) ==> CitedElsewhere(db, e)
  {
    var gone := ExpectedGone(db, Cuts(groups));
    assert |gone| == 0 <==> gone == {};
    if gone == {} {
      forall e | e in Cuts(groups) ensures CitedElsewhere(db, e) {
        assert e !in gone;
      }
    }
  }

  // ----- one partition -----

  datatype Partition = Failed | Report(db: Db, groups: nat, edges: nat, observations: nat, affected: nat)

  lemma NoGroupsNoChange(db: Db, rescore: Rescore, now: int)
    ensures Deduped(db, Cuts([]), rescore, now) == db && Deleted(db, []) == {}
  {
    assert Cuts([]) == {} && Touched({}) == {} && Orphaned(db, {}) == {};
    assert db.observations - {} == db.observations && db.evidence - {} == db.evidence;
    assert Deduped(db, {}, rescore, now).canonicals == db.canonicals;
  }

  /** One partition: found groups are counted, or cut in one transaction that fails as a whole. */
  method DedupMemoryPartition(db: Db, keys: seq<GroupKey>, query: GroupKey -> seq<string>, apply: bool, rescore: Rescore, now: int)
    returns (r: Partition, groups: seq<Group>)
    requires IsKeyQuery(db, keys) && forall key :: IsMemberQuery(db, key, query(key))
    ensures IsGroups(db, groups)
    ensures !apply ==> r == Report(db, |groups|, |Cuts(groups)|, |ExpectedGone(db, Cuts(groups))|, |Memories(groups)|)
    ensures apply && !Applies(db, groups) ==> r == Failed
    ensures apply && Applies(db, groups) ==>
              r == Report(Deduped(db, Cuts(groups), rescore, now), |groups|, |Cuts(groups)|, |Deleted(db, groups)|, |Memories(groups)|)
  {
    groups := FindDuplicateEvidenceGroups(db, keys, query);
    if groups == [] {
      NothingCounted(db);
      NoGroupsNoChange(db, rescore, now);
      return Report(db, 0, 0, 0, 0), groups;
    }
    if !apply {
      var dry := CountDedupPlan(db, groups);
      return Report(db, |groups|, dry.edges, dry.observations, |dry.affected|), groups;
    }
    var done := ApplyDedupGroups(db, groups, rescore, now);
    r := if done.RolledBack? then Failed else Report(done.db, |groups|, done.edges, done.deleted, done.affected);
  }
}
