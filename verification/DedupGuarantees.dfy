/** What a dedup pass guarantees: safety, exactly what is cut and deleted, the fixpoint and the counters. */
module DedupGuarantees {
  import opened Basics
  import opened EvidenceDedup
  import opened DedupApply

  // ----- safety -----

  /** The keeper's edge and the keeper's observation survive, whatever other groups do. */
  lemma KeepersStay(db: Db, groups: seq<Group>, g: Group, rescore: Rescore, now: int)
    requires IsGroups(db, groups) && g in groups
    ensures var d := Deduped(db, Cuts(groups), rescore, now);
            EdgeKey(g.key.memory, g.keeper, SUPPORTS) in d.evidence && g.keeper in d.observations
  {
    var e := EdgeKey(g.key.memory, g.keeper, SUPPORTS);
    assert IsGroup(db, g);
    forall h | h in groups && g.keeper in h.redundant ensures h.key.memory != g.key.memory {
      assert IsGroup(db, h);
      if h.key.memory == g.key.memory {
        assert h.key == g.key;
        KeeperUnique(db, g.key, g.keeper, h.keeper);
      }
    }
    assert e !in Cuts(groups) && e in db.evidence.Keys - Cuts(groups);
  }

  /** No edge is left pointing at an observation the pass deleted. */
  lemma NoEdgeDangles(db: Db, cut: set<EdgeKey>, rescore: Rescore, now: int, e: EdgeKey)
    requires e in Deduped(db, cut, rescore, now).evidence
    ensures e in db.evidence
    ensures e.observation in db.observations ==> e.observation in Deduped(db, cut, rescore, now).observations
  {
    assert e in db.evidence.Keys - cut;
  }

  /** Only supports edges to proven twins are cut, each beside a kept live member of the same group. */
  lemma OnlyTwinsLoseEdges(db: Db, groups: seq<Group>, rescore: Rescore, now: int, e: EdgeKey)
    requires IsGroups(db, groups) && e in db.evidence && e !in Deduped(db, Cuts(groups), rescore, now).evidence
    ensures e.relation == SUPPORTS && LegacyTwin(db, e.observation)
    ensures exists g :: g in groups && Member(db, g.key, e.observation) && g.key.memory == e.memory && g.keeper != e.observation && Live(g.keeper)
  {
    var g, o :| g in groups && o in g.redundant && e == EdgeKey(g.key.memory, o, SUPPORTS);
    assert IsGroup(db, g);
  }

  // ----- the fixpoint -----

  function Twins(db: Db, members: seq<string>, k: string): (r: seq<string>)
    ensures forall o :: o in r <==> o in members && LegacyTwin(db, o) && o != k
    ensures NoDup(members) ==> NoDup(r)
  {
    if members == [] then []
    else
      var rest := Twins(db, members[1..], k);
      assert members == [members[0]] + members[1..];
      if LegacyTwin(db, members[0]) && members[0] != k then [members[0]] + rest else rest
  }

  lemma {:induction false} FirstLive(members: seq<string>, o: string) returns (k: nat)
    requires o in members && Live(o)
    ensures k < |members| && Live(members[k]) && forall i :: 0 <= i < k ==> !Live(members[i])
  {
    k := 0;
    while !Live(members[k])
      invariant k < |members| && forall i :: 0 <= i < k ==> !Live(members[i])
      decreases |members| - k
    {
      if k + 1 == |members| {
        var i :| 0 <= i < |members| && members[i] == o;
      }
      k := k + 1;
    }
  }

  /** A twin that shares its key with another live member is redundant or is itself the keeper. */
  lemma TwinIsCutOrKeeper(db: Db, groups: seq<Group>, key: GroupKey, members: seq<string>, r: string, live: string) returns (k: string)
    requires IsGroups(db, groups) && IsMemberQuery(db, key, members) && !Blank(key.run)
    requires Member(db, key, r) && LegacyTwin(db, r) && Member(db, key, live) && Live(live)
    ensures IsKeeper(db, key, k)
    ensures r == k || EdgeKey(key.memory, r, SUPPORTS) in Cuts(groups)
  {
    var i := FirstLive(members, live);
    k := members[i];
    FirstLiveIsKeeper(db, key, members, i);
    if r != k {
      var g := Group(key, k, Twins(db, members, k));
      assert r in g.redundant && IsGroup(db, g);
      var h :| h in groups && h.key == key;
      assert IsGroup(db, h);
      KeeperUnique(db, key, h.keeper, k);
      assert r in h.redundant;
    }
  }

  // ----- which rows go -----

  function KeyOf(db: Db, m: string, o: string): GroupKey
    requires o in db.observations
  {
    GroupKey(m, db.observations[o].run, db.observations[o].scope, db.observations[o].hash)
  }

  /** The facts table still holds this observation's row: same run, target and content. */
  predicate CopiedFromFacts(db: Db, o: string) {
    && o in db.facts && o in db.observations
    && db.facts[o].run == db.observations[o].run && db.facts[o].target == db.observations[o].target
    && db.facts[o].content == db.observations[o].content
  }

  /** A live row that supports the same memory under the same run, scope and hash. */
  predicate LiveSibling(db: Db, m: string, o: string, k: string)
    requires o in db.observations
  {
    && k != o && "obs_" <= k && k in db.observations && EdgeKey(m, k, "supports") in db.evidence
    && db.observations[k].run == db.observations[o].run && db.observations[k].scope == db.observations[o].scope
    && db.observations[k].hash == db.observations[o].hash
  }

  predicate Earlier(db: Db, k: string, o: string)
    requires k in db.observations && o in db.observations
  {
    db.observations[k].createdAt < db.observations[o].createdAt
    || (db.observations[k].createdAt == db.observations[o].createdAt && StringLess(k, o))
  }

  /** A supports edge of some run to a row copied from facts, beside a live sibling, an earlier one if the row is live itself. */
  ghost predicate Redundant(db: Db, e: EdgeKey) {
    && e in db.evidence && e.relation == "supports"
    && CopiedFromFacts(db, e.observation) && (exists i :: 0 <= i < |db.observations[e.observation].run| && db.observations[e.observation].run[i] != ' ')
    && exists k :: LiveSibling(db, e.memory, e.observation, k) && ("obs_" <= e.observation ==> Earlier(db, k, e.observation))
  }

  /** Exactly the redundant edges of the database are cut. */
  lemma CutExactly(db: Db, groups: seq<Group>, query: GroupKey -> seq<string>, e: EdgeKey)
    requires IsGroups(db, groups) && forall key :: IsMemberQuery(db, key, query(key))
    ensures e in Cuts(groups) <==> Redundant(db, e)
  {
    if e in Cuts(groups) {
      var g, o :| g in groups && o in g.redundant && e == EdgeKey(g.key.memory, o, SUPPORTS);
      assert IsGroup(db, g) && g.key == KeyOf(db, e.memory, o) && Member(db, g.key, o);
      assert LiveSibling(db, e.memory, o, g.keeper);
    }
    if Redundant(db, e) {
      var key := KeyOf(db, e.memory, e.observation);
      var o := e.observation;
      var k :| LiveSibling(db, e.memory, o, k) && ("obs_" <= o ==> Earlier(db, k, o));
      assert e == EdgeKey(e.memory, o, SUPPORTS) && Member(db, key, o) && Member(db, key, k);
      var k' := TwinIsCutOrKeeper(db, groups, key, query(key), o, k);
      if o == k' {
        BeforeAsymmetric(db, o, k);
      }
    }
  }

  /**
   An observation, live or not, is deleted exactly when something cites it and every
   edge that cites it is redundant.  A live obs_ row is no exception.
   */
  lemma DeletedExactly(db: Db, groups: seq<Group>, query: GroupKey -> seq<string>, rescore: Rescore, now: int, o: string)
    requires IsGroups(db, groups) && (forall key :: IsMemberQuery(db, key, query(key))) && o in db.observations
    ensures o !in Deduped(db, Cuts(groups), rescore, now).observations <==>
              Cited(db.evidence.Keys, o) && forall e :: e in db.evidence && e.observation == o ==> Redundant(db, e)
  {
    var cut := Cuts(groups);
    CutsAreSound(db, groups);
    forall e ensures e in cut <==> Redundant(db, e) {
      CutExactly(db, groups, query, e);
    }
    OrphanedExactly(db, cut, o);
  }

  lemma OrphanedExactly(db: Db, cut: set<EdgeKey>, o: string)
    requires o in db.observations && cut <= db.evidence.Keys
    ensures o in Orphaned(db, cut) <==> Cited(db.evidence.Keys, o) && forall e :: e in db.evidence && e.observation == o ==> e in cut
  {
    if o in Orphaned(db, cut) {
      var x :| x in cut && x.observation == o;
      assert x in db.evidence.Keys;
      forall e | e in db.evidence && e.observation == o ensures e in cut {
        assert e !in db.evidence.Keys - cut;
      }
    }
    if Cited(db.evidence.Keys, o) && forall e :: e in db.evidence && e.observation == o ==> e in cut {
      var x :| x in db.evidence.Keys && x.observation == o;
      assert x in cut;
    }
  }

  /** A second pass finds no group, also when one observation is cited by several canonicals. */
  lemma SecondPassFindsNothing(db: Db, groups: seq<Group>, query: GroupKey -> seq<string>, rescore: Rescore, now: int, g: Group)
    requires IsGroups(db, groups) && forall key :: IsMemberQuery(db, key, query(key))
    ensures !IsGroup(Deduped(db, Cuts(groups), rescore, now), g)
  {
    var d := Deduped(db, Cuts(groups), rescore, now);
    if IsGroup(d, g) {
      GroupHasTwo(d, g);
      var r := g.redundant[0];
      var k := TwinIsCutOrKeeper(db, groups, g.key, query(g.key), r, g.keeper);
      BeforeAsymmetric(db, k, g.keeper);
      assert false;
    }
  }

  // ----- the counters -----

  /** Every affected canonical counts exactly its remaining supports edges, at least the keeper's, and is scored by what remains. */
  lemma CountersMatchEvidence(db: Db, groups: seq<Group>, g: Group, rescore: Rescore, now: int)
    requires IsGroups(db, groups) && g in groups && g.key.memory in db.canonicals
    ensures var d, m := Deduped(db, Cuts(groups), rescore, now), g.key.memory;
            var n := |set e | e in d.evidence && e.memory == m && e.relation == "supports" && e.observation in d.observations|;
            d.canonicals[m].evidenceCount == n && d.canonicals[m].occurrences == n && n >= 1
            && d.canonicals[m].body == db.canonicals[m].body
            && d.canonicals[m].confidence == rescore(d.observations, d.evidence, m) && d.canonicals[m].updatedAt == now
  {
    var d, m := Deduped(db, Cuts(groups), rescore, now), g.key.memory;
    TouchedAreMemories(db, groups);
    assert m in Memories(groups);
    KeepersStay(db, groups, g, rescore, now);
    var e := EdgeKey(m, g.keeper, SUPPORTS);
    assert e in Supports(d.observations, d.evidence, m);
    assert Supports(d.observations, d.evidence, m) == set x | x in d.evidence && x.memory == m && x.relation == "supports" && x.observation in d.observations;
  }

  /** Canonicals outside every group keep their row. */
  lemma OthersUntouched(db: Db, groups: seq<Group>, rescore: Rescore, now: int, m: string)
    requires IsGroups(db, groups) && m in db.canonicals && m !in Memories(groups)
    ensures Deduped(db, Cuts(groups), rescore, now).canonicals[m] == db.canonicals[m]
  {
    TouchedAreMemories(db, groups);
  }
}
