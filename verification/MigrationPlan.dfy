/**
 The migration planner: the loops that read the legacy store, group it with the
 union-find and file every row under its owner, proved to compute exactly the
 ownership of MigrationOwnership.
 */
module MigrationPlan {
  import opened Basics
  import opened ComponentLinker
  import opened RowMove
  import opened MigrationOwnership
  import opened MigrationHistory

  // ----- filing rows under persons -----

  type Buckets = map<string, seq<string>>
  type Tally = map<string, nat>

  function At(b: Buckets, p: string): seq<string> { if p in b then b[p] else [] }
  function File(b: Buckets, p: string, id: string): Buckets { b[p := At(b, p) + [id]] }
  function CountAt(c: Tally, p: string): nat { if p in c then c[p] else 0 }
  function Bump(c: Tally, p: string, n: nat): Tally { c[p := CountAt(c, p) + n] }

  /** `b` lists each owned element of `done` once, under its owner. */
  ghost predicate Filed(b: Buckets, own: string -> string, done: set<string>) {
    && "" !in b
    && (forall p :: p != "" ==> NoDup(At(b, p)))
    && (forall p, id :: p != "" ==> (id in At(b, p) <==> id in done && own(id) == p))
  }

  /** How many elements of `done` satisfy `has`. */
  ghost function CountOf<K(!new)>(done: set<K>, has: K -> bool): nat { |set k | k in done && has(k)| }

  lemma CountIs<K(!new)>(done: set<K>, has: K -> bool, those: set<K>)
    requires forall k :: k in those <==> k in done && has(k)
    ensures CountOf(done, has) == |those|
  {
    assert those == set k | k in done && has(k);
  }

  lemma CountMore<K(!new)>(done: set<K>, more: set<K>, has: K -> bool)
    requires more !! done && ((forall k :: k in more ==> has(k)) || (forall k :: k in more ==> !has(k)))
    ensures CountOf(done + more, has) == CountOf(done, has) + if exists k :: k in more && has(k) then |more| else 0
  {
    var a, all := set k | k in done && has(k), set k | k in done + more && has(k);
    if exists k :: k in more && has(k) {
      assert all == a + more;
    } else {
      assert all == a;
    }
  }

  ghost function OwnedBy<K(!new)>(own: K -> string, p: string): K -> bool { k => own(k) == p }

  /** `c` counts, for each person, the owned elements of `done`. */
  ghost predicate Tallied<K(!new)>(c: Tally, own: K -> string, done: set<K>) {
    && "" !in c
    && forall p :: p != "" ==> CountAt(c, p) == CountOf(done, OwnedBy(own, p))
  }

  lemma FileStep(b: Buckets, own: string -> string, done: set<string>, id: string)
    requires Filed(b, own, done) && id !in done
    ensures Filed(if own(id) == "" then b else File(b, own(id), id), own, done + {id})
  {
    var q := own(id);
    if q != "" {
      var b' := File(b, q, id);
      assert At(b', q) == At(b, q) + [id] && id !in At(b, q);
      forall p, x | p != "" ensures x in At(b', p) <==> x in done + {id} && own(x) == p {
        if p != q {
          assert At(b', p) == At(b, p);
        }
      }
      forall p | p != "" ensures NoDup(At(b', p)) {
        if p != q {
          assert At(b', p) == At(b, p);
        }
      }
    }
  }

  lemma TallyStep<K(!new)>(c: Tally, own: K -> string, done: set<K>, more: set<K>, q: string)
    requires Tallied(c, own, done) && more !! done && forall k :: k in more ==> own(k) == q
    ensures Tallied(if q == "" then c else Bump(c, q, |more|), own, done + more)
  {
    forall p | p != ""
      ensures CountOf(done + more, OwnedBy(own, p)) == CountOf(done, OwnedBy(own, p)) + if p == q then |more| else 0
    {
      CountMore(done, more, OwnedBy(own, p));
      assert p == q && more != {} ==> exists k :: k in more && OwnedBy(own, p)(k);
    }
  }

  // ----- facts -----

  ghost function FactOwnerIn(s: Store, rp: RunPerson): string -> string {
    id => if id in s.facts then PersonOf(rp, s.facts[id].run) else ""
  }

  ghost function WithoutRun(s: Store): string -> bool { id => id in s.facts && s.facts[id].run == "" }
  ghost function Unresolved(s: Store, rp: RunPerson): string -> bool {
    id => id in s.facts && s.facts[id].run != "" && PersonOf(rp, s.facts[id].run) == ""
  }

  datatype FactPlan = FactPlan(filed: Buckets, noRun: nat, unresolved: nat)

  function RouteFact(f: FactPlan, rp: RunPerson, id: string, run: string): FactPlan {
    if run == "" then f.(noRun := f.noRun + 1)
    else if PersonOf(rp, run) == "" then f.(unresolved := f.unresolved + 1)
    else f.(filed := File(f.filed, PersonOf(rp, run), id))
  }

  /** The facts in `done` are filed, and the ones without a run or a person are counted. */
  ghost predicate FactsPlanned(s: Store, rp: RunPerson, f: FactPlan, done: set<string>) {
    && Filed(f.filed, FactOwnerIn(s, rp), done)
    && f.noRun == CountOf(done, WithoutRun(s))
    && f.unresolved == CountOf(done, Unresolved(s, rp))
  }

  lemma FactStep(s: Store, rp: RunPerson, f: FactPlan, done: set<string>, id: string)
    requires FactsPlanned(s, rp, f, done) && id in s.facts && id !in done
    ensures FactsPlanned(s, rp, RouteFact(f, rp, id, s.facts[id].run), done + {id})
  {
    FileStep(f.filed, FactOwnerIn(s, rp), done, id);
    CountMore(done, {id}, WithoutRun(s));
    CountMore(done, {id}, Unresolved(s, rp));
  }

  lemma EmptyFactPlan(s: Store, rp: RunPerson)
    ensures FactsPlanned(s, rp, FactPlan(map[], 0, 0), {})
  {
    CountIs({}, WithoutRun(s), {});
    CountIs({}, Unresolved(s, rp), {});
  }

  lemma OneDone<K>(all: set<K>, todo: set<K>, k: K)
    ensures all - {} == all
    ensures k in todo && todo <= all ==> all - (todo - {k}) == all - todo + {k} && todo - {k} < todo
  {
  }

  method PlanFacts(s: Store, rp: RunPerson) returns (f: FactPlan)
    ensures FactsPlanned(s, rp, f, s.facts.Keys)
  {
    f := FactPlan(map[], 0, 0);
    var todo := s.facts.Keys;
    ghost var done: set<string> := {};
    EmptyFactPlan(s, rp);
    while todo != {}
      invariant done == s.facts.Keys - todo && todo <= s.facts.Keys
      invariant FactsPlanned(s, rp, f, done)
      decreases todo
    {
      var id :| id in todo;
      FactStep(s, rp, f, done, id);
      OneDone(s.facts.Keys, todo, id);
      f := RouteFact(f, rp, id, s.facts[id].run);
      todo, done := todo - {id}, done + {id};
    }
    OneDone(s.facts.Keys, {}, "");
  }

  // ----- the component graph -----

  function NodesOf(s: Store): set<Node> {
    (set k | k in s.evidence :: Memory(k.memory)) + (set k | k in s.evidence :: Node.Observation(k.observation))
    + (set id | id in s.canonicals :: Memory(id))
  }

  /** The linker has joined the ends of exactly the evidence rows in `done`. */
  ghost predicate EvidenceLinked(links: Links, nodes: set<Node>, b: Buckets, done: set<EvidenceKey>) {
    && links == (set k | k in done :: (Memory(k.memory), Node.Observation(k.observation)))
    && nodes == (set k | k in done :: Memory(k.memory)) + (set k | k in done :: Node.Observation(k.observation))
    && forall m :: |At(b, m)| == CountOf(done, CitedBy(m))
  }

  lemma EvidenceStep(links: Links, nodes: set<Node>, b: Buckets, done: set<EvidenceKey>, k: EvidenceKey)
    requires EvidenceLinked(links, nodes, b, done) && k !in done
    ensures EvidenceLinked(links + {(Memory(k.memory), Node.Observation(k.observation))},
                           nodes + {Memory(k.memory), Node.Observation(k.observation)},
                           File(b, k.memory, k.observation), done + {k})
  {
    OneMoreRow(b, done, k);
  }

  lemma NoEvidenceYet()
    ensures EvidenceLinked({}, {}, map[], {})
  {
    forall m ensures |At(map[], m)| == CountOf({}, CitedBy(m)) {
      CountIs({}, CitedBy(m), {});
    }
  }

  lemma AllEvidenceLinked(s: Store, links: Links, nodes: set<Node>, b: Buckets, done: set<EvidenceKey>)
    requires EvidenceLinked(links, nodes, b, done) && done == s.evidence.Keys - {}
    ensures links == LinksOf(s)
    ensures nodes == (set k | k in s.evidence :: Memory(k.memory)) + (set k | k in s.evidence :: Node.Observation(k.observation))
    ensures forall m :: |At(b, m)| == CountOf(s.evidence.Keys, CitedBy(m))
  {
    assert done == s.evidence.Keys;
  }

  /** The evidence links as edges, every canonical touched, the classes read off. */
  method GroupComponents(s: Store) returns (groups: map<Node, seq<Node>>, evidenceByMemory: Buckets)
    ensures IsGrouping(groups, NodesOf(s), LinksOf(s))
    ensures forall m :: |At(evidenceByMemory, m)| == CountOf(s.evidence.Keys, CitedBy(m))
  {
    var links := new Linker();
    evidenceByMemory := map[];
    var todo := s.evidence.Keys;
    ghost var done: set<EvidenceKey> := {};
    NoEvidenceYet();
    while todo != {}
      invariant links.Valid() && fresh(links)
      invariant done == s.evidence.Keys - todo && todo <= s.evidence.Keys
      invariant EvidenceLinked(links.links, links.parent.Keys, evidenceByMemory, done)
      decreases todo
    {
      var k :| k in todo;
      EvidenceStep(links.links, links.parent.Keys, evidenceByMemory, done, k);
      OneDone(s.evidence.Keys, todo, k);
      evidenceByMemory := File(evidenceByMemory, k.memory, k.observation);
      links.Union(Memory(k.memory), Node.Observation(k.observation));
      todo, done := todo - {k}, done + {k};
    }
    AllEvidenceLinked(s, links.links, links.parent.Keys, evidenceByMemory, done);
    TouchCanonicals(links, s);
    groups := links.Components();
  }

  /** A canonical with no evidence is its own component. */
  method TouchCanonicals(links: Linker, s: Store)
    requires links.Valid()
    requires links.parent.Keys == (set k | k in s.evidence :: Memory(k.memory)) + (set k | k in s.evidence :: Node.Observation(k.observation))
    modifies links
    ensures links.Valid() && links.links == old(links.links) && links.parent.Keys == NodesOf(s)
  {
    var ids := s.canonicals.Keys;
    ghost var base, seen := links.parent.Keys, {};
    while ids != {}
      invariant links.Valid() && links.links == old(links.links)
      invariant seen == s.canonicals.Keys - ids && ids <= s.canonicals.Keys
      invariant links.parent.Keys == base + set id | id in seen :: Memory(id)
      decreases ids
    {
      var id :| id in ids;
      links.Touch(Memory(id));
      ids, seen := ids - {id}, seen + {id};
    }
    assert seen == s.canonicals.Keys;
  }

  ghost function CitedBy(m: string): EvidenceKey -> bool { (k: EvidenceKey) => k.memory == m }

  lemma OneMoreRow(b: Buckets, done: set<EvidenceKey>, k: EvidenceKey)
    requires k !in done && forall m :: |At(b, m)| == CountOf(done, CitedBy(m))
    ensures forall m :: |At(File(b, k.memory, k.observation), m)| == CountOf(done + {k}, CitedBy(m))
  {
    forall m ensures |At(File(b, k.memory, k.observation), m)| == CountOf(done + {k}, CitedBy(m)) {
      CountMore(done, {k}, CitedBy(m));
    }
  }

  // ----- attributing components -----

  /** One component, as the planner classifies it. */
  datatype Component = Component(canonicals: seq<string>, observations: seq<string>, dangling: bool)

  function Classify(s: Store, c: Component, n: Node): Component {
    if !Present(s, n) then c.(dangling := true)
    else if n.Memory? then c.(canonicals := c.canonicals + [n.id])
    else c.(observations := c.observations + [n.id])
  }

  ghost predicate Classified(s: Store, c: Component, nodes: seq<Node>) {
    && (c.dangling <==> exists n :: n in nodes && !Present(s, n))
    && (forall id :: id in c.canonicals <==> Memory(id) in nodes && Present(s, Memory(id)))
    && (forall id :: id in c.observations <==> Node.Observation(id) in nodes && Present(s, Node.Observation(id)))
    && NoDup(c.canonicals) && NoDup(c.observations)
  }

  lemma ClassifyStep(s: Store, c: Component, nodes: seq<Node>, n: Node)
    requires Classified(s, c, nodes) && n !in nodes
    ensures Classified(s, Classify(s, c, n), nodes + [n])
  {
    assert forall x :: x in nodes + [n] <==> x in nodes || x == n;
  }

  method ClassifyComponent(s: Store, nodes: seq<Node>) returns (c: Component)
    requires NoDup(nodes)
    ensures Classified(s, c, nodes)
  {
    c := Component([], [], false);
    var i := 0;
    while i < |nodes|
      invariant 0 <= i <= |nodes| && Classified(s, c, nodes[..i])
    {
      ClassifyStep(s, c, nodes[..i], nodes[i]);
      assert nodes[..i] + [nodes[i]] == nodes[..i + 1];
      c := Classify(s, c, nodes[i]);
      i := i + 1;
    }
    assert nodes[..i] == nodes;
  }

  /** The component is structurally complete and all its observations resolve to `p`. */
  ghost predicate BelongsTo(s: Store, rp: RunPerson, c: Component, p: string) {
    && !c.dangling && c.canonicals != [] && c.observations != []
    && forall id :: id in c.observations ==> id in s.observations && PersonOf(rp, s.observations[id].run) == p
  }

  /** `person` is the one the component belongs to, "" when there is none. */
  ghost predicate IsDecision(s: Store, rp: RunPerson, c: Component, person: string) {
    if person != "" then BelongsTo(s, rp, c, person) else forall p :: p != "" ==> !BelongsTo(s, rp, c, p)
  }

  method ResolveComponent(s: Store, rp: RunPerson, c: Component) returns (person: string)
    requires forall id :: id in c.observations ==> id in s.observations
    ensures IsDecision(s, rp, c, person)
  {
    if c.dangling || c.canonicals == [] || c.observations == [] {
      return "";
    }
    person := "";
    var i := 0;
    while i < |c.observations|
      invariant 0 <= i <= |c.observations| && (person == "" <==> i == 0)
      invariant forall j :: 0 <= j < i ==> PersonOf(rp, s.observations[c.observations[j]].run) == person
    {
      assert c.observations[i] in c.observations;
      var p := PersonOf(rp, s.observations[c.observations[i]].run);
      if p == "" || (person != "" && p != person) {
        assert c.observations[0] in c.observations;
        return "";
      }
      person := p;
      i := i + 1;
    }
  }

  lemma GroupIsComponent(s: Store, groups: map<Node, seq<Node>>, r: Node, n: Node, m: Node)
    requires IsGrouping(groups, NodesOf(s), LinksOf(s)) && r in groups && n in groups[r]
    ensures Reaches(s, n, m) <==> m in groups[r]
  {
    if Reaches(s, n, m) {
      if m != n {
        ReachingOtherIsLinked(s, n, m);
      }
      assert m in NodesOf(s);
      var q :| q in groups && m in groups[q];
    }
  }

  /** What the planner decides for a component is the owner of each of its nodes. */
  lemma ComponentOwner(s: Store, rp: RunPerson, groups: map<Node, seq<Node>>, r: Node, c: Component, person: string, n: Node)
    requires IsGrouping(groups, NodesOf(s), LinksOf(s)) && r in groups && n in groups[r]
    requires Classified(s, c, groups[r])
    requires IsDecision(s, rp, c, person)
    ensures Owner(s, rp, n) == person
  {
    var comp := groups[r];
    forall m ensures Reaches(s, n, m) <==> m in comp {
      GroupIsComponent(s, groups, r, n, m);
    }
    assert n.Observation? ==> Linked(s, n) by {
      assert n in NodesOf(s);
    }
    var p := Owner(s, rp, n);
    OwnerIsUnique(s, rp, n, p);
    OwnerIsUnique(s, rp, n, person);
    if person != "" {
      assert Memory(c.canonicals[0]) in comp && Node.Observation(c.observations[0]) in comp;
      assert Reaches(s, n, Memory(c.canonicals[0])) && Reaches(s, n, Node.Observation(c.observations[0]));
      forall m | Reaches(s, n, m) ensures Fits(s, rp, m, person) {
        if m.Observation? {
          assert Present(s, m) && m.id in c.observations;
        }
      }
    } else if p != "" {
      ComponentFits(s, rp, comp, c, n, p);
    }
  }

  lemma ComponentFits(s: Store, rp: RunPerson, comp: seq<Node>, c: Component, n: Node, p: string)
    requires Classified(s, c, comp) && Resolves(s, rp, n, p) && forall m :: Reaches(s, n, m) <==> m in comp
    ensures BelongsTo(s, rp, c, p)
  {
    forall m | m in comp ensures Fits(s, rp, m, p) {
      assert Reaches(s, n, m);
    }
    var o :| Reaches(s, n, o) && o.Observation?;
    var m :| Reaches(s, n, m) && m.Memory?;
    assert o.id in c.observations && m.id in c.canonicals;
    forall id | id in c.observations ensures PersonOf(rp, s.observations[id].run) == p {
      assert Fits(s, rp, Node.Observation(id), p);
    }
  }

  // ----- filing whole components -----

  ghost function MemoryOwnerIn(s: Store, rp: RunPerson): string -> string { id => Owner(s, rp, Memory(id)) }
  ghost function ObservationOwnerIn(s: Store, rp: RunPerson): string -> string { id => Owner(s, rp, Node.Observation(id)) }
  ghost function EvidenceOwnerIn(s: Store, rp: RunPerson): EvidenceKey -> string { (k: EvidenceKey) => Owner(s, rp, Memory(k.memory)) }
  ghost function EventOwnerIn(s: Store, rp: RunPerson): string -> string {
    id => if id in s.events then Owner(s, rp, Memory(s.events[id].memory)) else ""
  }

  function RowsOf(s: Store, ids: set<string>): set<EvidenceKey> { set k | k in s.evidence && k.memory in ids }

  /** The planner's running result for canonicals and evidence. */
  datatype CanonicalPlan = CanonicalPlan(filed: Buckets, evidence: Tally, owners: map<string, string>)

  function RouteCanonical(c: CanonicalPlan, id: string, person: string, rows: nat): CanonicalPlan {
    CanonicalPlan(File(c.filed, person, id), Bump(c.evidence, person, rows), c.owners[id := person])
  }

  /** The canonicals `ids`, their evidence rows and their owner table are planned. */
  ghost predicate CanonicalsPlanned(s: Store, own: string -> string, ownRow: EvidenceKey -> string, c: CanonicalPlan, ids: set<string>) {
    && Filed(c.filed, own, ids)
    && Tallied(c.evidence, ownRow, RowsOf(s, ids))
    && (forall id :: id in c.owners <==> id in ids && own(id) != "")
    && (forall id :: id in c.owners ==> c.owners[id] == own(id))
  }

  lemma RowsSplit(s: Store, ids: set<string>, id: string)
    requires id !in ids
    ensures RowsOf(s, ids + {id}) == RowsOf(s, ids) + RowsOf(s, {id}) && RowsOf(s, {id}) !! RowsOf(s, ids)
    ensures |RowsOf(s, {id})| == CountOf(s.evidence.Keys, CitedBy(id))
    ensures forall k :: k in RowsOf(s, {id}) ==> k in s.evidence && k.memory == id
  {
    CountIs(s.evidence.Keys, CitedBy(id), RowsOf(s, {id}));
  }

  lemma RowTallyStep(s: Store, own: string -> string, ownRow: EvidenceKey -> string, t: Tally, ids: set<string>, id: string, rows: nat)
    requires Tallied(t, ownRow, RowsOf(s, ids)) && id !in ids
    requires forall k :: k in s.evidence ==> ownRow(k) == own(k.memory)
    requires rows == CountOf(s.evidence.Keys, CitedBy(id))
    ensures Tallied(if own(id) == "" then t else Bump(t, own(id), rows), ownRow, RowsOf(s, ids + {id}))
  {
    RowsSplit(s, ids, id);
    TallyStep(t, ownRow, RowsOf(s, ids), RowsOf(s, {id}), own(id));
  }

  lemma CanonicalStep(s: Store, own: string -> string, ownRow: EvidenceKey -> string, c: CanonicalPlan, ids: set<string>, id: string, rows: nat)
    requires CanonicalsPlanned(s, own, ownRow, c, ids) && id !in ids
    requires forall k :: k in s.evidence ==> ownRow(k) == own(k.memory)
    requires rows == CountOf(s.evidence.Keys, CitedBy(id))
    ensures CanonicalsPlanned(s, own, ownRow, if own(id) == "" then c else RouteCanonical(c, id, own(id), rows), ids + {id})
  {
    FileStep(c.filed, own, ids, id);
    RowTallyStep(s, own, ownRow, c.evidence, ids, id, rows);
  }

  method FileCanonicals(s: Store, c0: CanonicalPlan, list: seq<string>, person: string, evidenceByMemory: Buckets,
                        ghost own: string -> string, ghost ownRow: EvidenceKey -> string, ghost ids: set<string>)
    returns (c: CanonicalPlan)
    requires CanonicalsPlanned(s, own, ownRow, c0, ids)
    requires forall k :: k in s.evidence ==> ownRow(k) == own(k.memory)
    requires forall m :: |At(evidenceByMemory, m)| == CountOf(s.evidence.Keys, CitedBy(m))
    requires NoDup(list) && forall id :: id in list ==> id !in ids && own(id) == person
    ensures CanonicalsPlanned(s, own, ownRow, c, ids + Elements(list))
  {
    c := c0;
    var i := 0;
    assert ids + Elements(list[..0]) == ids;
    while i < |list|
      invariant 0 <= i <= |list|
      invariant CanonicalsPlanned(s, own, ownRow, c, ids + Elements(list[..i]))
    {
      var id := list[i];
      ListStep(list, i);
      assert own(id) == person;
      CanonicalStep(s, own, ownRow, c, ids + Elements(list[..i]), id, |At(evidenceByMemory, id)|);
      assert ids + Elements(list[..i]) + {id} == ids + Elements(list[..i + 1]);
      c := if person == "" then c else RouteCanonical(c, id, person, |At(evidenceByMemory, id)|);
      i := i + 1;
    }
    assert list[..i] == list;
  }

  lemma ListStep(list: seq<string>, i: int)
    requires NoDup(list) && 0 <= i < |list|
    ensures list[i] in list && list[i] !in list[..i] && Elements(list[..i + 1]) == Elements(list[..i]) + {list[i]}
  {
    assert list[..i + 1] == list[..i] + [list[i]];
  }

  lemma NoDupConcat(a: seq<string>, b: seq<string>)
    requires NoDup(a) && NoDup(b) && forall x :: x in b ==> x !in a
    ensures NoDup(a + b)
  {
    forall i, j | 0 <= i < j < |a + b| ensures (a + b)[i] != (a + b)[j] {
      if i < |a| <= j {
        assert a[i] in a && b[j - |a|] in b;
      }
    }
  }

  lemma {:induction false} FileAll(b: Buckets, own: string -> string, done: set<string>, list: seq<string>, person: string)
    requires Filed(b, own, done) && NoDup(list) && forall id :: id in list ==> id !in done && own(id) == person
    ensures Filed(if person == "" then b else b[person := At(b, person) + list], own, done + Elements(list))
  {
    if person != "" {
      var b' := b[person := At(b, person) + list];
      forall p, x | p != "" ensures x in At(b', p) <==> x in done + Elements(list) && own(x) == p {
        if p != person {
          assert At(b', p) == At(b, p);
        }
      }
      NoDupConcat(At(b, person), list);
      forall p | p != "" ensures NoDup(At(b', p)) {
        if p != person {
          assert At(b', p) == At(b, p);
        }
      }
    }
  }

  // ----- all components -----

  /** Node owners, row owners and observation owners, as the planner must find them. */
  datatype Truth = Truth(memory: string -> string, row: EvidenceKey -> string, observation: string -> string)

  ghost function TruthOf(s: Store, rp: RunPerson): Truth {
    Truth(MemoryOwnerIn(s, rp), EvidenceOwnerIn(s, rp), ObservationOwnerIn(s, rp))
  }

  datatype GraphPlan = GraphPlan(canonicals: CanonicalPlan, observations: Buckets, lostCanonicals: nat, lostObservations: nat)

  ghost function Unowned(own: string -> string): string -> bool { id => own(id) == "" }

  /** Only observations that reference a run count as unresolved. */
  ghost function LostObservation(s: Store, own: string -> string): string -> bool {
    id => id in s.observations && s.observations[id].run != "" && own(id) == ""
  }

  ghost predicate GraphPlanned(s: Store, t: Truth, g: GraphPlan, doneC: set<string>, doneO: set<string>) {
    && CanonicalsPlanned(s, t.memory, t.row, g.canonicals, doneC)
    && Filed(g.observations, t.observation, doneO)
    && g.lostCanonicals == CountOf(doneC, Unowned(t.memory))
    && g.lostObservations == CountOf(doneO, LostObservation(s, t.observation))
  }

  /** One more listed element counts exactly if it has the property. */
  lemma LostStep(list: seq<string>, i: nat, done: set<string>, has: string -> bool)
    requires NoDup(list) && i < |list| && list[i] !in done
    ensures list[i] in list
    ensures CountOf(done + Elements(list[..i + 1]), has) == CountOf(done + Elements(list[..i]), has) + if has(list[i]) then 1 else 0
  {
    ListStep(list, i);
    CountMore(done + Elements(list[..i]), {list[i]}, has);
    assert done + Elements(list[..i]) + {list[i]} == done + Elements(list[..i + 1]);
  }

  method CountLost(s: Store, list: seq<string>, ghost own: string -> string, ghost done: set<string>) returns (n: nat)
    requires NoDup(list) && forall id :: id in list ==> id in s.observations && id !in done && own(id) == ""
    ensures CountOf(done + Elements(list), LostObservation(s, own)) == CountOf(done, LostObservation(s, own)) + n
  {
    n := 0;
    var i := 0;
    assert done + Elements(list[..0]) == done;
    while i < |list|
      invariant 0 <= i <= |list|
      invariant CountOf(done + Elements(list[..i]), LostObservation(s, own)) == CountOf(done, LostObservation(s, own)) + n
    {
      LostStep(list, i, done, LostObservation(s, own));
      if s.observations[list[i]].run != "" {
        n := n + 1;
      }
      i := i + 1;
    }
    assert list[..i] == list;
  }

  lemma CountList(done: set<string>, list: seq<string>, has: string -> bool)
    requires NoDup(list) && forall id :: id in list ==> id !in done
    requires (forall id :: id in list ==> has(id)) || (forall id :: id in list ==> !has(id))
    ensures CountOf(done + Elements(list), has)
         == CountOf(done, has) + if exists id :: id in list && has(id) then |list| else 0
  {
    ListSize(list);
    CountMore(done, Elements(list), has);
  }

  lemma {:induction false} ListSize(list: seq<string>)
    requires NoDup(list)
    ensures |Elements(list)| == |list|
  {
    if list != [] {
      var n := |list| - 1;
      ListSize(list[..n]);
      ListStep(list, n);
      assert list[..n + 1] == list;
    }
  }

  method FileComponent(s: Store, g0: GraphPlan, c: Component, person: string, evidenceByMemory: Buckets,
                       ghost t: Truth, ghost doneC: set<string>, ghost doneO: set<string>)
    returns (g: GraphPlan)
    requires GraphPlanned(s, t, g0, doneC, doneO)
    requires forall k :: k in s.evidence ==> t.row(k) == t.memory(k.memory)
    requires forall m :: |At(evidenceByMemory, m)| == CountOf(s.evidence.Keys, CitedBy(m))
    requires NoDup(c.canonicals) && forall id :: id in c.canonicals ==> id !in doneC && t.memory(id) == person
    requires NoDup(c.observations)
    requires forall id :: id in c.observations ==> id in s.observations && id !in doneO && t.observation(id) == person
    ensures GraphPlanned(s, t, g, doneC + Elements(c.canonicals), doneO + Elements(c.observations))
  {
    var canonicals := FileCanonicals(s, g0.canonicals, c.canonicals, person, evidenceByMemory, t.memory, t.row, doneC);
    FileAll(g0.observations, t.observation, doneO, c.observations, person);
    CountList(doneC, c.canonicals, Unowned(t.memory));
    if person != "" {
      CountList(doneO, c.observations, LostObservation(s, t.observation));
      g := GraphPlan(canonicals, g0.observations[person := At(g0.observations, person) + c.observations],
                     g0.lostCanonicals, g0.lostObservations);
    } else {
      var lost := CountLost(s, c.observations, t.observation, doneO);
      g := GraphPlan(canonicals, g0.observations, g0.lostCanonicals + |c.canonicals|, g0.lostObservations + lost);
      assert c.canonicals != [] ==> c.canonicals[0] in c.canonicals && Unowned(t.memory)(c.canonicals[0]);
    }
  }

  /** `doneC` and `doneO` are the existing ids in the groups outside `todo`. */
  ghost predicate CoveredBy(s: Store, groups: map<Node, seq<Node>>, todo: set<Node>, doneC: set<string>, doneO: set<string>) {
    && (forall id :: id in doneC ==> id in s.canonicals && exists r :: r in groups && r !in todo && Memory(id) in groups[r])
    && (forall id :: id in doneO ==> id in s.observations && exists r :: r in groups && r !in todo && Node.Observation(id) in groups[r])
    && (forall r, id :: r in groups && r !in todo && Memory(id) in groups[r] && id in s.canonicals ==> id in doneC)
    && (forall r, id :: r in groups && r !in todo && Node.Observation(id) in groups[r] && id in s.observations ==> id in doneO)
  }

  lemma CoverStep(s: Store, groups: map<Node, seq<Node>>, todo: set<Node>, doneC: set<string>, doneO: set<string>, r: Node, c: Component)
    requires CoveredBy(s, groups, todo, doneC, doneO) && r in todo && r in groups
    requires IsGrouping(groups, NodesOf(s), LinksOf(s)) && Classified(s, c, groups[r])
    ensures CoveredBy(s, groups, todo - {r}, doneC + Elements(c.canonicals), doneO + Elements(c.observations))
    ensures forall id :: id in c.canonicals ==> id !in doneC
    ensures forall id :: id in c.observations ==> id !in doneO && id in s.observations
  {
    forall id | id in c.canonicals ensures id !in doneC {
      if id in doneC {
        var q :| q in groups && q !in todo && Memory(id) in groups[q];
        ConnectedRefl(LinksOf(s), Memory(id));
      }
    }
    forall id | id in c.observations ensures id !in doneO {
      if id in doneO {
        var q :| q in groups && q !in todo && Node.Observation(id) in groups[q];
        ConnectedRefl(LinksOf(s), Node.Observation(id));
      }
    }
  }

  function LinkedObservations(s: Store): set<string> { set k | k in s.evidence && k.observation in s.observations :: k.observation }

  lemma AllCovered(s: Store, groups: map<Node, seq<Node>>, doneC: set<string>, doneO: set<string>)
    requires CoveredBy(s, groups, {}, doneC, doneO) && IsGrouping(groups, NodesOf(s), LinksOf(s))
    ensures doneC == s.canonicals.Keys && doneO == LinkedObservations(s)
  {
    forall id | id in s.canonicals ensures id in doneC {
      assert Memory(id) in NodesOf(s);
    }
    forall id | id in LinkedObservations(s) ensures id in doneO {
      assert Node.Observation(id) in NodesOf(s);
    }
    forall id | id in doneO ensures id in LinkedObservations(s) {
      assert Node.Observation(id) in NodesOf(s);
    }
  }

  method AttributeComponents(s: Store, rp: RunPerson, groups: map<Node, seq<Node>>, evidenceByMemory: Buckets)
    returns (g: GraphPlan)
    requires IsGrouping(groups, NodesOf(s), LinksOf(s))
    requires forall m :: |At(evidenceByMemory, m)| == CountOf(s.evidence.Keys, CitedBy(m))
    ensures GraphPlanned(s, TruthOf(s, rp), g, s.canonicals.Keys, LinkedObservations(s))
  {
    g := GraphPlan(CanonicalPlan(map[], map[], map[]), map[], 0, 0);
    ghost var t, doneC: set<string>, doneO: set<string> := TruthOf(s, rp), {}, {};
    EmptyGraphPlanned(s, t);
    var todo := groups.Keys;
    while todo != {}
      invariant todo <= groups.Keys && CoveredBy(s, groups, todo, doneC, doneO)
      invariant GraphPlanned(s, t, g, doneC, doneO)
      decreases todo
    {
      var r :| r in todo;
      var c := ClassifyComponent(s, groups[r]);
      CoverStep(s, groups, todo, doneC, doneO, r, c);
      var person := ResolveComponent(s, rp, c);
      OwnersFound(s, rp, groups, r, c, person);
      g := FileComponent(s, g, c, person, evidenceByMemory, t, doneC, doneO);
      todo, doneC, doneO := todo - {r}, doneC + Elements(c.canonicals), doneO + Elements(c.observations);
    }
    AllCovered(s, groups, doneC, doneO);
  }

  lemma OwnersFound(s: Store, rp: RunPerson, groups: map<Node, seq<Node>>, r: Node, c: Component, person: string)
    requires IsGrouping(groups, NodesOf(s), LinksOf(s)) && r in groups && Classified(s, c, groups[r]) && IsDecision(s, rp, c, person)
    ensures forall id :: id in c.canonicals ==> TruthOf(s, rp).memory(id) == person
    ensures forall id :: id in c.observations ==> TruthOf(s, rp).observation(id) == person
    ensures forall k :: k in s.evidence ==> TruthOf(s, rp).row(k) == TruthOf(s, rp).memory(k.memory)
  {
    forall id | id in c.canonicals ensures TruthOf(s, rp).memory(id) == person {
      ComponentOwner(s, rp, groups, r, c, person, Memory(id));
    }
    forall id | id in c.observations ensures TruthOf(s, rp).observation(id) == person {
      ComponentOwner(s, rp, groups, r, c, person, Node.Observation(id));
    }
  }

  lemma EmptyGraphPlanned(s: Store, t: Truth)
    ensures GraphPlanned(s, t, GraphPlan(CanonicalPlan(map[], map[], map[]), map[], 0, 0), {}, {})
  {
    assert RowsOf(s, {}) == {};
    forall p | p != "" ensures CountOf({}, OwnedBy(t.row, p)) == 0 {
      CountIs({}, OwnedBy(t.row, p), {});
    }
  }

  // ----- orphan observations and events -----

  function RouteOrphan(g: GraphPlan, rp: RunPerson, id: string, run: string): GraphPlan {
    if run == "" then g
    else if PersonOf(rp, run) == "" then g.(lostObservations := g.lostObservations + 1)
    else g.(observations := File(g.observations, PersonOf(rp, run), id))
  }

  lemma OrphanStep(s: Store, rp: RunPerson, t: Truth, g: GraphPlan, doneC: set<string>, doneO: set<string>, id: string)
    requires GraphPlanned(s, t, g, doneC, doneO) && id in s.observations && id !in doneO
    requires t.observation(id) == PersonOf(rp, s.observations[id].run)
    ensures GraphPlanned(s, t, RouteOrphan(g, rp, id, s.observations[id].run), doneC, doneO + {id})
  {
    FileStep(g.observations, t.observation, doneO, id);
    CountMore(doneO, {id}, LostObservation(s, t.observation));
  }

  lemma OrphanOwner(s: Store, rp: RunPerson, id: string)
    requires id in s.observations && id !in LinkedObservations(s)
    ensures TruthOf(s, rp).observation(id) == PersonOf(rp, s.observations[id].run)
  {
    var n, p := Node.Observation(id), PersonOf(rp, s.observations[id].run);
    assert !Linked(s, n);
    OwnerIsUnique(s, rp, n, p);
    OwnerIsUnique(s, rp, n, Owner(s, rp, n));
  }

  method AttributeOrphans(s: Store, rp: RunPerson, g0: GraphPlan) returns (g: GraphPlan)
    requires GraphPlanned(s, TruthOf(s, rp), g0, s.canonicals.Keys, LinkedObservations(s))
    ensures GraphPlanned(s, TruthOf(s, rp), g, s.canonicals.Keys, s.observations.Keys)
  {
    g := g0;
    var linked := LinkedObservations(s);
    ghost var t := TruthOf(s, rp);
    var todo := s.observations.Keys - linked;
    assert s.observations.Keys - todo == linked;
    while todo != {}
      invariant todo <= s.observations.Keys - linked
      invariant GraphPlanned(s, t, g, s.canonicals.Keys, s.observations.Keys - todo)
      decreases todo
    {
      var id :| id in todo;
      OrphanOwner(s, rp, id);
      OrphanStep(s, rp, t, g, s.canonicals.Keys, s.observations.Keys - todo, id);
      assert s.observations.Keys - todo + {id} == s.observations.Keys - (todo - {id});
      g := RouteOrphan(g, rp, id, s.observations[id].run);
      todo := todo - {id};
    }
    assert s.observations.Keys - todo == s.observations.Keys;
  }

  function PersonIn(owners: map<string, string>, memory: string): string { if memory in owners then owners[memory] else "" }

  function RouteEvent(c: Tally, person: string): Tally { if person == "" then c else Bump(c, person, 1) }

  lemma NoneTallied(own: string -> string)
    ensures Tallied(map[], own, {})
  {
    forall p ensures CountOf({}, OwnedBy(own, p)) == 0 {
      CountIs({}, OwnedBy(own, p), {});
    }
  }

  lemma EventStep(c: Tally, own: string -> string, all: set<string>, todo: set<string>, id: string)
    requires Tallied(c, own, all - todo) && id in todo && todo <= all
    ensures Tallied(RouteEvent(c, own(id)), own, all - (todo - {id}))
  {
    OneDone(all, todo, id);
    TallyStep(c, own, all - todo, {id}, own(id));
  }

  /** Counts events by the person their canonical is planned for. */
  method TallyEvents(events: map<string, Event>, owners: map<string, string>, ghost own: string -> string) returns (c: Tally)
    requires forall id :: id in events ==> own(id) == PersonIn(owners, events[id].memory)
    ensures Tallied(c, own, events.Keys)
  {
    c := map[];
    NoneTallied(own);
    var todo := events.Keys;
    assert events.Keys - todo == {};
    while todo != {}
      invariant todo <= events.Keys && Tallied(c, own, events.Keys - todo)
      decreases todo
    {
      var id :| id in todo;
      EventStep(c, own, events.Keys, todo, id);
      c := RouteEvent(c, PersonIn(owners, events[id].memory));
      todo := todo - {id};
    }
    assert events.Keys - todo == events.Keys;
  }

  method CountEvents(s: Store, rp: RunPerson, owners: map<string, string>) returns (c: Tally)
    requires forall id :: id in owners <==> id in s.canonicals && Owner(s, rp, Memory(id)) != ""
    requires forall id :: id in owners ==> owners[id] == Owner(s, rp, Memory(id))
    ensures Tallied(c, EventOwnerIn(s, rp), s.events.Keys)
  {
    forall id | id in s.events ensures EventOwnerIn(s, rp)(id) == PersonIn(owners, s.events[id].memory) {
      EventPerson(s, rp, owners, id);
    }
    c := TallyEvents(s.events, owners, EventOwnerIn(s, rp));
  }

  lemma EventPerson(s: Store, rp: RunPerson, owners: map<string, string>, id: string)
    requires forall id :: id in owners <==> id in s.canonicals && Owner(s, rp, Memory(id)) != ""
    requires forall id :: id in owners ==> owners[id] == Owner(s, rp, Memory(id))
    requires id in s.events
    ensures EventOwnerIn(s, rp)(id) == if s.events[id].memory in owners then owners[s.events[id].memory] else ""
  {
    var m := s.events[id].memory;
    if m !in owners && Owner(s, rp, Memory(m)) != "" {
      OwnedIsPresent(s, rp, Memory(m));
    }
  }

  // ----- the plan -----

  datatype Plan = Plan(facts: FactPlan, graph: GraphPlan, events: Tally)

  /** The plan lists and counts exactly what each person owns, and what nobody does. */
  ghost predicate IsPlan(s: Store, rp: RunPerson, plan: Plan) {
    && FactsPlanned(s, rp, plan.facts, s.facts.Keys)
    && GraphPlanned(s, TruthOf(s, rp), plan.graph, s.canonicals.Keys, s.observations.Keys)
    && Tallied(plan.events, EventOwnerIn(s, rp), s.events.Keys)
  }

  method PlanMemoryMigration(s: Store, rp: RunPerson) returns (plan: Plan)
    ensures IsPlan(s, rp, plan)
  {
    var facts := PlanFacts(s, rp);
    var groups, evidenceByMemory := GroupComponents(s);
    var g := AttributeComponents(s, rp, groups, evidenceByMemory);
    g := AttributeOrphans(s, rp, g);
    var events := CountEvents(s, rp, g.canonicals.owners);
    plan := Plan.Plan(facts, g, events);
  }

  function PlannedIds(plan: Plan, p: string): Ids {
    Ids(Elements(At(plan.facts.filed, p)), Elements(At(plan.graph.canonicals.filed, p)), Elements(At(plan.graph.observations, p)))
  }

  /** The numbers the dry run reports for `p`. */
  function PlannedCounts(plan: Plan, p: string): Counts {
    Counts(|At(plan.facts.filed, p)|, |At(plan.graph.canonicals.filed, p)|, |At(plan.graph.observations, p)|,
           CountAt(plan.graph.canonicals.evidence, p), CountAt(plan.events, p))
  }

  lemma FiledSize<V>(b: Buckets, own: string -> string, t: map<string, V>, col: (string, V) -> string, p: string)
    requires Filed(b, own, t.Keys) && p != "" && forall id :: id in t ==> own(id) == col(id, t[id])
    ensures |At(b, p)| == |Selected(t, col, {p})|
  {
    ListSize(At(b, p));
    assert Elements(At(b, p)) == Selected(t, col, {p}).Keys;
  }

  lemma TalliedSize<K(!new), V>(c: Tally, own: K -> string, t: map<K, V>, col: (K, V) -> string, p: string)
    requires Tallied(c, own, t.Keys) && p != "" && forall k :: k in t ==> own(k) == col(k, t[k])
    ensures CountAt(c, p) == |Selected(t, col, {p})|
  {
    CountIs(t.Keys, OwnedBy(own, p), Selected(t, col, {p}).Keys);
  }

  /** The planned ids of `p` are those `p` owns. */
  lemma PlannedIdsAreOwned(s: Store, rp: RunPerson, plan: Plan, p: string)
    requires IsPlan(s, rp, plan) && p != ""
    ensures PlannedIds(plan, p) == OwnedIds(s, rp, p)
  {
    FiledIds(plan.facts.filed, FactOwnerIn(s, rp), s.facts.Keys, p, OwnedIds(s, rp, p).facts);
    FiledIds(plan.graph.canonicals.filed, MemoryOwnerIn(s, rp), s.canonicals.Keys, p, OwnedIds(s, rp, p).canonicals);
    FiledIds(plan.graph.observations, ObservationOwnerIn(s, rp), s.observations.Keys, p, OwnedIds(s, rp, p).observations);
  }

  lemma FiledIds(b: Buckets, own: string -> string, done: set<string>, p: string, ids: set<string>)
    requires Filed(b, own, done) && p != "" && forall id :: id in ids <==> id in done && own(id) == p
    ensures Elements(At(b, p)) == ids
  {
  }

  /** The counts the dry run reports for `p` are the sizes of `p`'s part of the store. */
  lemma PlannedCountsAreSizes(s: Store, rp: RunPerson, plan: Plan, p: string)
    requires IsPlan(s, rp, plan) && p != ""
    ensures PlannedCounts(plan, p) == Size(Part(s, rp, {p}))
  {
    var own := Owners(s, rp);
    FiledSize(plan.facts.filed, FactOwnerIn(s, rp), s.facts, FactOwner(rp), p);
    FiledSize(plan.graph.canonicals.filed, MemoryOwnerIn(s, rp), s.canonicals, CanonicalOwner(own), p);
    FiledSize(plan.graph.observations, ObservationOwnerIn(s, rp), s.observations, ObservationOwner(own), p);
    OwnedRowsCovered(s, rp, plan.graph.canonicals.evidence, p);
    TalliedSize(plan.events, EventOwnerIn(s, rp), s.events, EventOwner(own), p);
  }

  lemma OwnedRowsCovered(s: Store, rp: RunPerson, c: Tally, p: string)
    requires Tallied(c, EvidenceOwnerIn(s, rp), RowsOf(s, s.canonicals.Keys)) && p != ""
    ensures CountAt(c, p) == |Selected(s.evidence, EvidenceOwner(Owners(s, rp)), {p})|
  {
    var mine := Selected(s.evidence, EvidenceOwner(Owners(s, rp)), {p});
    forall k | k in mine ensures k.memory in s.canonicals {
      OwnedIsPresent(s, rp, Memory(k.memory));
    }
    CountIs(RowsOf(s, s.canonicals.Keys), OwnedBy(EvidenceOwnerIn(s, rp), p), mine.Keys);
  }
}
