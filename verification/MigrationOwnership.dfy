/**
 Who owns which legacy row: the declarative meaning of the migration plan, and
 the facts about it that make the move relation-safe and resumable.
 */
module MigrationOwnership {
  import opened ComponentLinker
  import opened RowMove

  datatype Fact = Fact(run: string, body: string)
  datatype Observation = Observed(run: string, body: string)
  datatype EvidenceKey = EvidenceKey(memory: string, observation: string, relation: string)
  datatype Event = Event(memory: string, body: string)

  /** One memory.db: the five migrated tables, keyed by primary key; run ids are trimmed. */
  datatype Store = Store(facts: map<string, Fact>,
                         canonicals: map<string, string>,
                         observations: map<string, Observation>,
                         evidence: map<EvidenceKey, string>,
                         events: map<string, Event>)

  type RunPerson = map<string, string>

  /** The person a run resolves to; "" when there is no run or no person. */
  function PersonOf(rp: RunPerson, run: string): string {
    if run != "" && run in rp then rp[run] else ""
  }

  function LinksOf(s: Store): Links {
    set k | k in s.evidence :: (Memory(k.memory), Node.Observation(k.observation))
  }

  predicate Present(s: Store, n: Node) {
    match n
    case Memory(id) => id in s.canonicals
    case Observation(id) => id in s.observations
  }

  predicate Linked(s: Store, n: Node) {
    exists k :: k in s.evidence && (n == Memory(k.memory) || n == Node.Observation(k.observation))
  }

  /** `n` reaches `m` over evidence rows. */
  ghost predicate Reaches(s: Store, n: Node, m: Node) {
    Connected(LinksOf(s), n, m)
  }

  /** One member of a resolving component: it exists and, if an observation, its run is `person`'s. */
  predicate Fits(s: Store, rp: RunPerson, m: Node, person: string) {
    Present(s, m) && (m.Observation? ==> PersonOf(rp, s.observations[m.id].run) == person)
  }

  /** The whole component of `n` is structurally complete and belongs to one person. */
  ghost predicate Resolves(s: Store, rp: RunPerson, n: Node, person: string) {
    && (forall m :: Reaches(s, n, m) ==> Fits(s, rp, m, person))
    && (exists m :: Reaches(s, n, m) && m.Observation?)
    && (exists m :: Reaches(s, n, m) && m.Memory?)
  }

  /** An observation no evidence row cites is attributed on its own. */
  ghost predicate Owns(s: Store, rp: RunPerson, n: Node, person: string) {
    && person != ""
    && if n.Observation? && !Linked(s, n) then Fits(s, rp, n, person) else Resolves(s, rp, n, person)
  }

  /** The owner of a node, "" when the node stays in the legacy partition. */
  ghost function Owner(s: Store, rp: RunPerson, n: Node): string {
    if exists p :: Owns(s, rp, n, p) then var p :| Owns(s, rp, n, p); p else ""
  }

  lemma OwnerIsUnique(s: Store, rp: RunPerson, n: Node, p: string)
    ensures p != "" ==> (Owner(s, rp, n) == p <==> Owns(s, rp, n, p))
  {
    if Owns(s, rp, n, p) {
      var q := Owner(s, rp, n);
      assert Owns(s, rp, n, q);
      if !(n.Observation? && !Linked(s, n)) {
        var m :| Reaches(s, n, m) && m.Observation?;
        assert Fits(s, rp, m, p) && Fits(s, rp, m, q);
      }
    }
  }

  /** An owned node exists in the store. */
  lemma OwnedIsPresent(s: Store, rp: RunPerson, n: Node)
    requires Owner(s, rp, n) != ""
    ensures Present(s, n)
  {
    OwnerIsUnique(s, rp, n, Owner(s, rp, n));
    ConnectedRefl(LinksOf(s), n);
    assert Reaches(s, n, n);
  }

  lemma ResolvesAcross(s: Store, rp: RunPerson, n: Node, m: Node, p: string)
    requires Reaches(s, n, m) && Resolves(s, rp, n, p)
    ensures Resolves(s, rp, m, p)
  {
    var l := LinksOf(s);
    ConnectedSym(l, n, m);
    forall x | Reaches(s, m, x) ensures Fits(s, rp, x, p) {
      ConnectedTrans(l, n, m, x);
      assert Reaches(s, n, x);
    }
    var o :| Reaches(s, n, o) && o.Observation?;
    var c :| Reaches(s, n, c) && c.Memory?;
    ConnectedTrans(l, m, n, o);
    ConnectedTrans(l, m, n, c);
    assert Reaches(s, m, o) && Reaches(s, m, c);
  }

  lemma ReachingOtherIsLinked(s: Store, n: Node, m: Node)
    requires Reaches(s, n, m) && n != m
    ensures Linked(s, n) && Linked(s, m)
  {
    var c :| ChainBetween(LinksOf(s), c, n, m);
    assert Joined(LinksOf(s), c[0], c[1]);
    assert Joined(LinksOf(s), c[|c| - 2], c[|c| - 1]);
  }

  /** A component is owned whole: connected nodes have the same owner. */
  lemma OwnerConstantOnComponent(s: Store, rp: RunPerson, n: Node, m: Node)
    requires Reaches(s, n, m)
    ensures Owner(s, rp, n) == Owner(s, rp, m)
  {
    if n != m {
      ReachingOtherIsLinked(s, n, m);
      ConnectedSym(LinksOf(s), n, m);
      forall p | p != "" ensures Owns(s, rp, n, p) <==> Owns(s, rp, m, p) {
        if Resolves(s, rp, n, p) { ResolvesAcross(s, rp, n, m, p); }
        if Resolves(s, rp, m, p) { ResolvesAcross(s, rp, m, n, p); }
      }
      var p, q := Owner(s, rp, n), Owner(s, rp, m);
      OwnerIsUnique(s, rp, n, p);
      OwnerIsUnique(s, rp, m, p);
      OwnerIsUnique(s, rp, m, q);
      OwnerIsUnique(s, rp, n, q);
    }
  }

  lemma EvidenceEndpointsReach(s: Store, k: EvidenceKey)
    requires k in s.evidence
    ensures Reaches(s, Memory(k.memory), Node.Observation(k.observation))
    ensures Reaches(s, Node.Observation(k.observation), Memory(k.memory))
  {
    assert (Memory(k.memory), Node.Observation(k.observation)) in LinksOf(s);
    ConnectedStep(LinksOf(s), Memory(k.memory), Node.Observation(k.observation));
    ConnectedStep(LinksOf(s), Node.Observation(k.observation), Memory(k.memory));
  }

  // ----- the rows that go and the rows that stay -----

  // The owner of each kind of row, under a node owner `own`.  Evidence and events
  // follow their canonical memory.
  function FactOwner(rp: RunPerson): (string, Fact) -> string { (id, f: Fact) => PersonOf(rp, f.run) }
  function CanonicalOwner(own: Node -> string): (string, string) -> string { (id, _) => own(Memory(id)) }
  function ObservationOwner(own: Node -> string): (string, Observation) -> string { (id, _) => own(Node.Observation(id)) }
  function EvidenceOwner(own: Node -> string): (EvidenceKey, string) -> string { (k: EvidenceKey, _) => own(Memory(k.memory)) }
  function EventOwner(own: Node -> string): (string, Event) -> string { (_, e: Event) => own(Memory(e.memory)) }

  /** Everything `who` own under `own`. */
  function PartBy(s: Store, rp: RunPerson, own: Node -> string, who: set<string>): Store {
    Store(Selected(s.facts, FactOwner(rp), who), Selected(s.canonicals, CanonicalOwner(own), who),
          Selected(s.observations, ObservationOwner(own), who), Selected(s.evidence, EvidenceOwner(own), who),
          Selected(s.events, EventOwner(own), who))
  }

  /** Everything else. */
  function RestBy(s: Store, rp: RunPerson, own: Node -> string, who: set<string>): Store {
    Store(Others(s.facts, FactOwner(rp), who), Others(s.canonicals, CanonicalOwner(own), who),
          Others(s.observations, ObservationOwner(own), who), Others(s.evidence, EvidenceOwner(own), who),
          Others(s.events, EventOwner(own), who))
  }

  ghost function Owners(s: Store, rp: RunPerson): Node -> string { n => Owner(s, rp, n) }

  /** The rows `who` own, and the rows that stay when they have left. */
  ghost function Part(s: Store, rp: RunPerson, who: set<string>): Store { PartBy(s, rp, Owners(s, rp), who) }
  ghost function Rest(s: Store, rp: RunPerson, who: set<string>): Store { RestBy(s, rp, Owners(s, rp), who) }

  lemma RestLinks(s: Store, rp: RunPerson, who: set<string>)
    ensures LinksOf(Rest(s, rp, who)) <= LinksOf(s)
  {
    forall l | l in LinksOf(Rest(s, rp, who)) ensures l in LinksOf(s) {
      var k :| k in Rest(s, rp, who).evidence && l == (Memory(k.memory), Node.Observation(k.observation));
      assert k in s.evidence;
    }
  }

  /** A chain that starts at a node which stays never uses a row that goes. */
  lemma {:induction false} ChainStays(s: Store, rp: RunPerson, who: set<string>, c: seq<Node>)
    requires IsChain(LinksOf(s), c) && Owner(s, rp, c[0]) !in who
    ensures IsChain(LinksOf(Rest(s, rp, who)), c)
  {
    var l := LinksOf(s);
    var s' := Rest(s, rp, who);
    forall i, j | 0 <= i && j == i + 1 && j < |c| ensures Joined(LinksOf(s'), c[i], c[j]) {
      assert Joined(l, c[i], c[j]);
      var k :| k in s.evidence && (Memory(k.memory), Node.Observation(k.observation)) in {(c[i], c[j]), (c[j], c[i])};
      assert ChainBetween(l, c[..j], c[0], c[i]);
      OwnerConstantOnComponent(s, rp, c[0], c[i]);
      EvidenceEndpointsReach(s, k);
      OwnerConstantOnComponent(s, rp, Node.Observation(k.observation), Memory(k.memory));
      assert k in s'.evidence;
      assert (Memory(k.memory), Node.Observation(k.observation)) in LinksOf(s');
    }
  }

  lemma ReachStays(s: Store, rp: RunPerson, who: set<string>, n: Node, m: Node)
    requires Owner(s, rp, n) !in who
    ensures Reaches(Rest(s, rp, who), n, m) <==> Reaches(s, n, m)
  {
    var s' := Rest(s, rp, who);
    RestLinks(s, rp, who);
    if Reaches(s', n, m) {
      ConnectedMono(LinksOf(s'), LinksOf(s), n, m);
    }
    if Reaches(s, n, m) {
      var c :| ChainBetween(LinksOf(s), c, n, m);
      ChainStays(s, rp, who, c);
      assert ChainBetween(LinksOf(s'), c, n, m);
    }
  }

  lemma LinkedStays(s: Store, rp: RunPerson, who: set<string>, n: Node)
    requires Owner(s, rp, n) !in who
    ensures Linked(Rest(s, rp, who), n) <==> Linked(s, n)
  {
    if Linked(s, n) {
      var k :| k in s.evidence && (n == Memory(k.memory) || n == Node.Observation(k.observation));
      EvidenceEndpointsReach(s, k);
      OwnerConstantOnComponent(s, rp, Node.Observation(k.observation), Memory(k.memory));
      assert k in Rest(s, rp, who).evidence;
    }
    if Linked(Rest(s, rp, who), n) {
      var k :| k in Rest(s, rp, who).evidence && (n == Memory(k.memory) || n == Node.Observation(k.observation));
      assert k in s.evidence;
    }
  }

  lemma FitsStays(s: Store, rp: RunPerson, who: set<string>, m: Node, p: string)
    requires Owner(s, rp, m) !in who
    ensures Fits(Rest(s, rp, who), rp, m, p) <==> Fits(s, rp, m, p)
  {
  }

  lemma ResolvesStays(s: Store, rp: RunPerson, who: set<string>, n: Node, p: string)
    requires Owner(s, rp, n) !in who
    ensures Resolves(Rest(s, rp, who), rp, n, p) <==> Resolves(s, rp, n, p)
  {
    var s' := Rest(s, rp, who);
    forall m ensures Reaches(s', n, m) <==> Reaches(s, n, m) {
      ReachStays(s, rp, who, n, m);
    }
    forall m | Reaches(s, n, m) ensures Fits(s', rp, m, p) <==> Fits(s, rp, m, p) {
      OwnerConstantOnComponent(s, rp, n, m);
      FitsStays(s, rp, who, m, p);
    }
  }

  /**
   Re-planning after any set of persons has left: every node that stayed still has
   exactly the owner it had at the start.
   */
  lemma ReplanKeepsOwner(s: Store, rp: RunPerson, who: set<string>, n: Node)
    requires Owner(s, rp, n) !in who
    ensures Owner(Rest(s, rp, who), rp, n) == Owner(s, rp, n)
  {
    var s' := Rest(s, rp, who);
    forall p ensures Owns(s', rp, n, p) <==> Owns(s, rp, n, p) {
      LinkedStays(s, rp, who, n);
      ResolvesStays(s, rp, who, n, p);
      FitsStays(s, rp, who, n, p);
    }
    var p, q := Owner(s, rp, n), Owner(s', rp, n);
    OwnerIsUnique(s, rp, n, p);
    OwnerIsUnique(s', rp, n, p);
    OwnerIsUnique(s', rp, n, q);
    OwnerIsUnique(s, rp, n, q);
  }

  /** A node whose owner has left is gone: re-planning gives it to nobody. */
  lemma ReplanForgetsMoved(s: Store, rp: RunPerson, who: set<string>, n: Node)
    requires Owner(s, rp, n) in who && Owner(s, rp, n) != ""
    ensures Owner(Rest(s, rp, who), rp, n) == ""
  {
    var s' := Rest(s, rp, who);
    assert !Present(s', n);
    if Owner(s', rp, n) != "" {
      OwnedIsPresent(s', rp, n);
    }
  }

  /** Re-planning gives the unmoved persons exactly their original rows. */
  lemma ReplanSamePart(s: Store, rp: RunPerson, gone: set<string>, who: set<string>)
    requires "" !in gone && "" !in who && gone !! who
    ensures Part(Rest(s, rp, gone), rp, who) == Part(s, rp, who)
  {
    var s' := Rest(s, rp, gone);
    forall n ensures Owner(s', rp, n) in who <==> Owner(s, rp, n) in who {
      if Owner(s, rp, n) in gone {
        ReplanForgetsMoved(s, rp, gone, n);
      } else {
        ReplanKeepsOwner(s, rp, gone, n);
      }
    }
    SamePartTables(s, rp, Owners(s, rp), Owners(s', rp), gone, who);
  }

  lemma SamePartTables(s: Store, rp: RunPerson, own: Node -> string, own': Node -> string, gone: set<string>, who: set<string>)
    requires gone !! who
    requires forall n :: own'(n) in who <==> own(n) in who
    ensures PartBy(RestBy(s, rp, own, gone), rp, own', who) == PartBy(s, rp, own, who)
  {
    SelectedOfOthers(s.facts, FactOwner(rp), FactOwner(rp), gone, who);
    SelectedOfOthers(s.canonicals, CanonicalOwner(own), CanonicalOwner(own'), gone, who);
    SelectedOfOthers(s.observations, ObservationOwner(own), ObservationOwner(own'), gone, who);
    forall k | k in s.evidence
      ensures EvidenceOwner(own')(k, s.evidence[k]) in who <==> EvidenceOwner(own)(k, s.evidence[k]) in who
    {
      assert own'(Memory(k.memory)) in who <==> own(Memory(k.memory)) in who;
    }
    forall id | id in s.events
      ensures EventOwner(own')(id, s.events[id]) in who <==> EventOwner(own)(id, s.events[id]) in who
    {
      assert own'(Memory(s.events[id].memory)) in who <==> own(Memory(s.events[id].memory)) in who;
    }
    SelectedOfOthers(s.evidence, EvidenceOwner(own), EvidenceOwner(own'), gone, who);
    SelectedOfOthers(s.events, EventOwner(own), EventOwner(own'), gone, who);
  }

  const EMPTY := Store(map[], map[], map[], map[], map[])

  lemma NobodyOwns(s: Store, rp: RunPerson, own: Node -> string, who: set<string>)
    requires forall id :: id in s.facts ==> PersonOf(rp, s.facts[id].run) !in who
    requires forall n :: own(n) !in who
    ensures PartBy(s, rp, own, who) == EMPTY
  {
    assert Selected(s.facts, FactOwner(rp), who) == map[];
    assert Selected(s.canonicals, CanonicalOwner(own), who) == map[];
    assert Selected(s.observations, ObservationOwner(own), who) == map[];
    forall k | k in s.evidence ensures EvidenceOwner(own)(k, s.evidence[k]) !in who {
      assert own(Memory(k.memory)) !in who;
    }
    forall id | id in s.events ensures EventOwner(own)(id, s.events[id]) !in who {
      assert own(Memory(s.events[id].memory)) !in who;
    }
    assert Selected(s.evidence, EvidenceOwner(own), who) == map[];
    assert Selected(s.events, EventOwner(own), who) == map[];
  }

  /** Persons already moved own nothing any more. */
  lemma ReplanEmptyPart(s: Store, rp: RunPerson, gone: set<string>, who: set<string>)
    requires "" !in gone && who <= gone
    ensures Part(Rest(s, rp, gone), rp, who) == EMPTY
  {
    var s' := Rest(s, rp, gone);
    forall n ensures Owners(s', rp)(n) !in who {
      if Owner(s, rp, n) in gone {
        ReplanForgetsMoved(s, rp, gone, n);
      } else {
        ReplanKeepsOwner(s, rp, gone, n);
      }
    }
    NobodyOwns(s', rp, Owners(s', rp), who);
  }

  /** Leaving in two rounds is leaving at once. */
  lemma RestOfRest(s: Store, rp: RunPerson, gone: set<string>, who: set<string>)
    requires "" !in gone && "" !in who
    ensures Rest(Rest(s, rp, gone), rp, who) == Rest(s, rp, gone + who)
  {
    var s' := Rest(s, rp, gone);
    forall n | Owner(s, rp, n) !in gone ensures Owner(s', rp, n) == Owner(s, rp, n) {
      ReplanKeepsOwner(s, rp, gone, n);
    }
    RestOfRestTables(s, rp, Owners(s, rp), Owners(s', rp), gone, who);
  }

  lemma RestOfRestTables(s: Store, rp: RunPerson, own: Node -> string, own': Node -> string, gone: set<string>, who: set<string>)
    requires forall n :: own(n) !in gone ==> own'(n) == own(n)
    ensures RestBy(RestBy(s, rp, own, gone), rp, own', who) == RestBy(s, rp, own, gone + who)
  {
    OthersOfOthers(s.facts, FactOwner(rp), FactOwner(rp), gone, who);
    OthersOfOthers(s.canonicals, CanonicalOwner(own), CanonicalOwner(own'), gone, who);
    OthersOfOthers(s.observations, ObservationOwner(own), ObservationOwner(own'), gone, who);
    forall k | k in s.evidence && EvidenceOwner(own)(k, s.evidence[k]) !in gone
      ensures EvidenceOwner(own')(k, s.evidence[k]) == EvidenceOwner(own)(k, s.evidence[k])
    {
      assert own'(Memory(k.memory)) == own(Memory(k.memory));
    }
    forall id | id in s.events && EventOwner(own)(id, s.events[id]) !in gone
      ensures EventOwner(own')(id, s.events[id]) == EventOwner(own)(id, s.events[id])
    {
      assert own'(Memory(s.events[id].memory)) == own(Memory(s.events[id].memory));
    }
    OthersOfOthers(s.evidence, EvidenceOwner(own), EvidenceOwner(own'), gone, who);
    OthersOfOthers(s.events, EventOwner(own), EventOwner(own'), gone, who);
  }

  /** Both ends of an evidence row and the row itself go together or stay together. */
  lemma NoRelationSplit(s: Store, rp: RunPerson, who: set<string>, k: EvidenceKey)
    requires k in s.evidence && k.memory in s.canonicals && k.observation in s.observations && "" !in who
    ensures var part, rest := Part(s, rp, who), Rest(s, rp, who);
            || (k in part.evidence && k.memory in part.canonicals && k.observation in part.observations
                && k !in rest.evidence && k.memory !in rest.canonicals && k.observation !in rest.observations)
            || (k in rest.evidence && k.memory in rest.canonicals && k.observation in rest.observations
                && k !in part.evidence && k.memory !in part.canonicals && k.observation !in part.observations)
  {
    EvidenceEndpointsReach(s, k);
    OwnerConstantOnComponent(s, rp, Memory(k.memory), Node.Observation(k.observation));
  }

  /** One missing endpoint, or observations of two persons, keeps the whole component. */
  lemma BrokenComponentStays(s: Store, rp: RunPerson, n: Node, m: Node, o: Node)
    requires Reaches(s, n, m) && Reaches(s, n, o) && Linked(s, n)
    requires || !Present(s, m)
             || (m.Observation? && o.Observation? && Present(s, m) && Present(s, o)
                 && PersonOf(rp, s.observations[m.id].run) != PersonOf(rp, s.observations[o.id].run))
             || (m.Observation? && Present(s, m) && PersonOf(rp, s.observations[m.id].run) == "")
    ensures Owner(s, rp, n) == ""
  {
    var p := Owner(s, rp, n);
    OwnerIsUnique(s, rp, n, p);
    assert p == "" || !Fits(s, rp, m, p) || !Fits(s, rp, o, p);
  }
}
