/**
 Duplicate-evidence cleanup: the tables it reads, the groups it finds, and the
 cuts it makes.  All of it is one transaction over one partition database.
 */
module EvidenceDedup {
  import opened Basics

  const SUPPORTS := "supports"

  datatype Observation = Observed(run: string, scope: string, hash: string, target: string, content: string,
                                  prior: real, createdAt: int, body: string)
  datatype Fact = Fact(run: string, target: string, content: string)
  datatype EdgeKey = EdgeKey(memory: string, observation: string, relation: string)
  datatype Canonical = Canonical(confidence: real, evidenceCount: int, occurrences: int, updatedAt: int, body: string)

  /** `facts.run` is the trimmed created_from_run; evidence maps its primary key to created_at. */
  datatype Db = Db(facts: map<string, Fact>, observations: map<string, Observation>,
                   evidence: map<EdgeKey, int>, canonicals: map<string, Canonical>)

  datatype GroupKey = GroupKey(memory: string, run: string, scope: string, hash: string)
  datatype Group = Group(key: GroupKey, keeper: string, redundant: seq<string>)

  // ----- the order of the member query: created_at, then id -----

  predicate StringLess(a: string, b: string) {
    b != [] && (a == [] || a[0] < b[0] || (a[0] == b[0] && StringLess(a[1..], b[1..])))
  }

  lemma {:induction false} StringLessAsymmetric(a: string, b: string)
    requires StringLess(a, b)
    ensures !StringLess(b, a)
  {
    if a != [] && a[0] == b[0] {
      StringLessAsymmetric(a[1..], b[1..]);
    }
  }

  predicate Before(db: Db, a: string, b: string) {
    && a in db.observations && b in db.observations
    && var x, y := db.observations[a].createdAt, db.observations[b].createdAt;
    x < y || (x == y && StringLess(a, b))
  }

  lemma BeforeAsymmetric(db: Db, a: string, b: string)
    requires Before(db, a, b)
    ensures !Before(db, b, a)
  {
    if StringLess(a, b) {
      StringLessAsymmetric(a, b);
    }
  }

  // ----- members, twins, groups -----

  /** TRIM(run) = '' */
  predicate Blank(run: string) { forall i :: 0 <= i < |run| ==> run[i] == ' ' }

  predicate Live(id: string) { "obs_" <= id }

  /** The observation supports the canonical under exactly this run, scope and hash. */
  predicate Member(db: Db, key: GroupKey, o: string) {
    && EdgeKey(key.memory, o, SUPPORTS) in db.evidence
    && o in db.observations
    && db.observations[o].run == key.run && db.observations[o].scope == key.scope && db.observations[o].hash == key.hash
  }

  /** facts still holds the row the legacy importer copied: same id, run, target and content. */
  predicate LegacyTwin(db: Db, o: string) {
    && o in db.facts && o in db.observations
    && db.facts[o].run == db.observations[o].run
    && db.facts[o].target == db.observations[o].target
    && db.facts[o].content == db.observations[o].content
  }

  /** What the member query returns for a key. */
  ghost predicate IsMemberQuery(db: Db, key: GroupKey, members: seq<string>) {
    && NoDup(members)
    && (forall o :: o in members <==> Member(db, key, o))
    && (forall i, j :: 0 <= i < j < |members| ==> Before(db, members[i], members[j]))
  }

  ghost predicate IsKeeper(db: Db, key: GroupKey, k: string) {
    && Member(db, key, k) && Live(k)
    && forall o :: Member(db, key, o) && Live(o) && o != k ==> Before(db, k, o)
  }

  /** A duplicate group: the earliest live member is kept, every other proven twin is redundant. */
  ghost predicate IsGroup(db: Db, g: Group) {
    && !Blank(g.key.run)
    && IsKeeper(db, g.key, g.keeper)
    && g.redundant != [] && NoDup(g.redundant)
    && forall o :: o in g.redundant <==> Member(db, g.key, o) && LegacyTwin(db, o) && o != g.keeper
  }

  ghost function DuplicateGroup(db: Db): Group -> bool { g => IsGroup(db, g) }

  /** `groups` has one group for each key that has a group satisfying `ok`. */
  ghost predicate Lists(ok: Group -> bool, groups: seq<Group>) {
    && (forall g :: g in groups ==> ok(g))
    && (forall i, j :: 0 <= i < j < |groups| ==> groups[i].key != groups[j].key)
    && (forall g :: ok(g) ==> exists h :: h in groups && h.key == g.key)
  }

  /** Every duplicate group of `db`, each once. */
  ghost predicate IsGroups(db: Db, groups: seq<Group>) { Lists(DuplicateGroup(db), groups) }

  lemma KeeperUnique(db: Db, key: GroupKey, a: string, b: string)
    requires IsKeeper(db, key, a) && IsKeeper(db, key, b)
    ensures a == b
  {
    if a != b {
      BeforeAsymmetric(db, a, b);
    }
  }

  datatype Loaded = Loaded(keeper: string, redundant: seq<string>)

  /** Keeper and redundant members of one key, from the ordered member query. */
  method LoadDedupGroupMembers(db: Db, key: GroupKey, members: seq<string>) returns (l: Loaded)
    requires IsMemberQuery(db, key, members) && !Blank(key.run)
    ensures l.redundant != [] ==> IsGroup(db, Group(key, l.keeper, l.redundant))
    ensures l.redundant == [] ==> forall g :: IsGroup(db, g) ==> g.key != key
  {
    l := Loaded("", []);
    if |members| < 2 {
      TooFew(db, key, members);
      return;
    }
    var k := 0;
    while k < |members| && !Live(members[k])
      invariant 0 <= k <= |members| && forall i :: 0 <= i < k ==> !Live(members[i])
    {
      k := k + 1;
    }
    if k == |members| {
      NoLive(db, key, members);
      return;
    }
    var redundant := [];
    var i := 0;
    while i < |members|
      invariant 0 <= i <= |members| && NoDup(redundant)
      invariant forall o :: o in redundant <==> o in members[..i] && LegacyTwin(db, o) && o != members[k]
    {
      if i != k && LegacyTwin(db, members[i]) {
        redundant := redundant + [members[i]];
      }
      assert members[..i + 1] == members[..i] + [members[i]];
      i := i + 1;
    }
    assert members[..i] == members;
    l := Loaded(members[k], redundant);
    FirstLiveIsKeeper(db, key, members, k);
    if redundant == [] {
      NothingRedundant(db, key, members, k);
    }
  }

  lemma FirstLiveIsKeeper(db: Db, key: GroupKey, members: seq<string>, k: nat)
    requires IsMemberQuery(db, key, members) && k < |members| && Live(members[k]) && forall i :: 0 <= i < k ==> !Live(members[i])
    ensures IsKeeper(db, key, members[k])
  {
    assert members[k] in members;
    forall o | Member(db, key, o) && Live(o) && o != members[k] ensures Before(db, members[k], o) {
      var i :| 0 <= i < |members| && members[i] == o;
    }
  }

  lemma GroupHasTwo(db: Db, g: Group)
    requires IsGroup(db, g)
    ensures Member(db, g.key, g.keeper) && Member(db, g.key, g.redundant[0]) && g.redundant[0] != g.keeper
    ensures LegacyTwin(db, g.redundant[0])
  {
    assert g.redundant[0] in g.redundant;
  }

  lemma TooFew(db: Db, key: GroupKey, members: seq<string>)
    requires IsMemberQuery(db, key, members) && |members| < 2
    ensures forall g :: IsGroup(db, g) ==> g.key != key
  {
    forall g | IsGroup(db, g) ensures g.key != key {
      GroupHasTwo(db, g);
    }
  }

  lemma NoLive(db: Db, key: GroupKey, members: seq<string>)
    requires IsMemberQuery(db, key, members) && forall i :: 0 <= i < |members| ==> !Live(members[i])
    ensures forall g :: IsGroup(db, g) ==> g.key != key
  {
    forall g | IsGroup(db, g) ensures g.key != key {
      GroupHasTwo(db, g);
    }
  }

  lemma NothingRedundant(db: Db, key: GroupKey, members: seq<string>, k: nat)
    requires IsMemberQuery(db, key, members) && k < |members| && IsKeeper(db, key, members[k])
    requires forall o :: o in members && LegacyTwin(db, o) ==> o == members[k]
    ensures forall g :: IsGroup(db, g) ==> g.key != key
  {
    forall g | IsGroup(db, g) ensures g.key != key {
      GroupHasTwo(db, g);
      if g.key == key {
        KeeperUnique(db, key, g.keeper, members[k]);
      }
    }
  }

  /** What the GROUP BY ... HAVING COUNT(DISTINCT o.id) > 1 query returns. */
  ghost predicate IsKeyQuery(db: Db, keys: seq<GroupKey>) {
    && NoDup(keys)
    && forall key :: key in keys <==>
         !Blank(key.run) && exists a, b :: a != b && Member(db, key, a) && Member(db, key, b)
  }

  /** `groups` lists one group satisfying `ok` for each key of `keys` that has one. */
  ghost predicate GroupsAmong(ok: Group -> bool, groups: seq<Group>, keys: seq<GroupKey>) {
    && (forall g :: g in groups ==> ok(g) && g.key in keys)
    && (forall i, j :: 0 <= i < j < |groups| ==> groups[i].key != groups[j].key)
    && (forall g :: ok(g) && g.key in keys ==> exists h :: h in groups && h.key == g.key)
  }

  lemma GroupsStep(ok: Group -> bool, groups: seq<Group>, keys: seq<GroupKey>, key: GroupKey, more: seq<Group>)
    requires GroupsAmong(ok, groups, keys) && key !in keys
    requires |more| <= 1 && (forall g :: g in more ==> ok(g) && g.key == key)
    requires more == [] ==> forall g :: ok(g) ==> g.key != key
    ensures GroupsAmong(ok, groups + more, keys + [key])
  {
    var all := groups + more;
    forall g | ok(g) && g.key in keys + [key] ensures exists h :: h in all && h.key == g.key {
      if g.key in keys {
        var h :| h in groups && h.key == g.key;
        assert h in all;
      } else {
        assert more[0] in more && more[0] in all;
      }
    }
    forall i, j | 0 <= i < j < |all| ensures all[i].key != all[j].key {
      assert all[i] in groups && (all[j] in groups || all[j] in more);
    }
  }

  lemma AllKeysSearched(db: Db, keys: seq<GroupKey>, groups: seq<Group>)
    requires IsKeyQuery(db, keys) && GroupsAmong(DuplicateGroup(db), groups, keys)
    ensures IsGroups(db, groups)
  {
    forall g | DuplicateGroup(db)(g) ensures g.key in keys {
      GroupHasTwo(db, g);
    }
  }

  /** One key of the search: at most one group, and none only if the key has none. */
  method SearchKey(db: Db, key: GroupKey, members: seq<string>) returns (more: seq<Group>)
    requires IsMemberQuery(db, key, members) && !Blank(key.run)
    ensures |more| <= 1 && forall g :: g in more ==> DuplicateGroup(db)(g) && g.key == key
    ensures more == [] ==> forall g :: DuplicateGroup(db)(g) ==> g.key != key
  {
    var l := LoadDedupGroupMembers(db, key, members);
    more := if l.redundant == [] then [] else [Group(key, l.keeper, l.redundant)];
  }

  method FindDuplicateEvidenceGroups(db: Db, keys: seq<GroupKey>, query: GroupKey -> seq<string>) returns (groups: seq<Group>)
    requires IsKeyQuery(db, keys) && forall key :: IsMemberQuery(db, key, query(key))
    ensures IsGroups(db, groups)
  {
    groups := [];
    var i := 0;
    while i < |keys|
      invariant 0 <= i <= |keys| && GroupsAmong(DuplicateGroup(db), groups, keys[..i])
    {
      assert keys[i] in keys;
      var more := SearchKey(db, keys[i], query(keys[i]));
      GroupsStep(DuplicateGroup(db), groups, keys[..i], keys[i], more);
      assert keys[..i + 1] == keys[..i] + [keys[i]];
      groups := groups + more;
      i := i + 1;
    }
    assert keys[..i] == keys;
    AllKeysSearched(db, keys, groups);
  }
}
