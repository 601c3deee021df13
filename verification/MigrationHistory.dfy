/**
 Applying a migration plan: what one person's transaction does, and what every
 history of runs, crashes and retries can leave behind.
 */
module MigrationHistory {
  import opened ComponentLinker
  import opened RowMove
  import opened MigrationOwnership

  const LEGACY_PARTITION := "default"

  /** The ids a person's plan lists. */
  datatype Ids = Ids(facts: set<string>, canonicals: set<string>, observations: set<string>)

  function ById<V>(): (string, V) -> string { (id, _) => id }
  function EvidenceMemory(): (EvidenceKey, string) -> string { (k: EvidenceKey, _) => k.memory }
  function EventMemory(): (string, Event) -> string { (_, e: Event) => e.memory }

  /** The rows of `src` that a plan listing `ids` moves. */
  function Picked(src: Store, ids: Ids): Store {
    Store(Selected(src.facts, ById(), ids.facts), Selected(src.canonicals, ById(), ids.canonicals),
          Selected(src.observations, ById(), ids.observations), Selected(src.evidence, EvidenceMemory(), ids.canonicals),
          Selected(src.events, EventMemory(), ids.canonicals))
  }

  function Minus(src: Store, rows: Store): Store {
    Store(Delete(src.facts, rows.facts), Delete(src.canonicals, rows.canonicals), Delete(src.observations, rows.observations),
          Delete(src.evidence, rows.evidence), Delete(src.events, rows.events))
  }

  /** INSERT OR IGNORE of `rows` into `dst`. */
  function Onto(rows: Store, dst: Store): Store {
    Store(InsertOrIgnore(rows.facts, dst.facts), InsertOrIgnore(rows.canonicals, dst.canonicals),
          InsertOrIgnore(rows.observations, dst.observations), InsertOrIgnore(rows.evidence, dst.evidence),
          InsertOrIgnore(rows.events, dst.events))
  }

  datatype Counts = Counts(facts: nat, canonicals: nat, observations: nat, evidence: nat, events: nat)

  function Size(s: Store): Counts {
    Counts(|s.facts|, |s.canonicals|, |s.observations|, |s.evidence|, |s.events|)
  }

  /** The ids of everything `p` owns. */
  ghost function OwnedIds(s: Store, rp: RunPerson, p: string): Ids { OwnedIdsBy(s, rp, Owners(s, rp), p) }

  function OwnedIdsBy(s: Store, rp: RunPerson, own: Node -> string, p: string): Ids {
    Ids(set id | id in s.facts && PersonOf(rp, s.facts[id].run) == p,
        set id | id in s.canonicals && own(Memory(id)) == p,
        set id | id in s.observations && own(Node.Observation(id)) == p)
  }

  // ----- a stale plan still moves exactly the person's rows -----

  lemma SameSelection<K, V>(t: map<K, V>, a: (K, V) -> string, b: (K, V) -> string, x: set<string>, y: set<string>)
    requires forall k :: k in t ==> (a(k, t[k]) in x <==> b(k, t[k]) in y)
    ensures Selected(t, a, x) == Selected(t, b, y)
  {
  }

  lemma DeleteSelected<K, V>(t: map<K, V>, col: (K, V) -> string, gone: set<string>, p: string)
    ensures Delete(Others(t, col, gone), Selected(Others(t, col, gone), col, {p})) == Others(t, col, gone + {p})
  {
  }

  /** Ids that agree with an owner function on the rows present pick exactly that owner's rows. */
  lemma PickedIsPartBy(src: Store, rp: RunPerson, own: Node -> string, ids: Ids, p: string)
    requires forall id :: id in src.facts ==> (id in ids.facts <==> PersonOf(rp, src.facts[id].run) == p)
    requires forall id :: id in src.canonicals ==> (id in ids.canonicals <==> own(Memory(id)) == p)
    requires forall id :: id in src.observations ==> (id in ids.observations <==> own(Node.Observation(id)) == p)
    requires forall k :: k in src.evidence ==> (k.memory in ids.canonicals <==> own(Memory(k.memory)) == p)
    requires forall id :: id in src.events ==>
               (src.events[id].memory in ids.canonicals <==> own(Memory(src.events[id].memory)) == p)
    ensures Picked(src, ids) == PartBy(src, rp, own, {p})
  {
    SameSelection(src.facts, ById(), FactOwner(rp), ids.facts, {p});
    SameSelection(src.canonicals, ById(), CanonicalOwner(own), ids.canonicals, {p});
    SameSelection(src.observations, ById(), ObservationOwner(own), ids.observations, {p});
    SameSelection(src.evidence, EvidenceMemory(), EvidenceOwner(own), ids.canonicals, {p});
    SameSelection(src.events, EventMemory(), EventOwner(own), ids.canonicals, {p});
  }

  /**
   A plan made before some persons left (`planned`) still picks, from the store as
   it is now (`gone` have left), exactly what `p` owned at the start.
   */
  lemma StalePlanPicks(s0: Store, rp: RunPerson, planned: set<string>, gone: set<string>, p: string)
    requires "" !in gone && p != "" && planned <= gone
    ensures Picked(Rest(s0, rp, gone), OwnedIds(Rest(s0, rp, planned), rp, p))
         == PartBy(Rest(s0, rp, gone), rp, Owners(s0, rp), {p})
  {
    var plan := Rest(s0, rp, planned);
    forall n | Owner(s0, rp, n) !in gone
      ensures Owners(plan, rp)(n) == Owners(s0, rp)(n) && (Owner(s0, rp, n) == p ==> Present(s0, n))
    {
      ReplanKeepsOwner(s0, rp, planned, n);
      if Owner(s0, rp, n) == p {
        OwnedIsPresent(s0, rp, n);
      }
    }
    StaleIdsPick(s0, rp, Owners(s0, rp), Owners(plan, rp), planned, gone, p);
  }

  lemma StaleIdsPick(s0: Store, rp: RunPerson, own: Node -> string, own': Node -> string, planned: set<string>, gone: set<string>, p: string)
    requires planned <= gone
    requires forall n :: own(n) !in gone ==> own'(n) == own(n)
    requires forall n :: own(n) !in gone && own(n) == p ==> Present(s0, n)
    ensures Picked(RestBy(s0, rp, own, gone), OwnedIdsBy(RestBy(s0, rp, own, planned), rp, own', p))
         == PartBy(RestBy(s0, rp, own, gone), rp, own, {p})
  {
    var src, ids := RestBy(s0, rp, own, gone), OwnedIdsBy(RestBy(s0, rp, own, planned), rp, own', p);
    forall m | own(Memory(m)) !in gone ensures m in ids.canonicals <==> own(Memory(m)) == p {
      assert own(Memory(m)) == p ==> Present(s0, Memory(m));
    }
    PickedIsPartBy(src, rp, own, ids, p);
  }

  lemma MinusPart(s: Store, rp: RunPerson, who: set<string>, p: string)
    ensures Minus(Rest(s, rp, who), PartBy(Rest(s, rp, who), rp, Owners(s, rp), {p})) == Rest(s, rp, who + {p})
  {
    var own := Owners(s, rp);
    DeleteSelected(s.facts, FactOwner(rp), who, p);
    DeleteSelected(s.canonicals, CanonicalOwner(own), who, p);
    DeleteSelected(s.observations, ObservationOwner(own), who, p);
    DeleteSelected(s.evidence, EvidenceOwner(own), who, p);
    DeleteSelected(s.events, EventOwner(own), who, p);
  }

  lemma FillTable<K, V>(t: map<K, V>, col: (K, V) -> string, gone: set<string>, copied: set<string>, p: string, d: map<K, V>)
    requires p in gone ==> p in copied
    ensures InsertOrIgnore(Selected(Others(t, col, gone), col, {p}), InsertOrIgnore(Selected(t, col, copied), d))
         == InsertOrIgnore(Selected(t, col, copied + {p}), d)
  {
  }

  lemma FillTarget(s: Store, rp: RunPerson, gone: set<string>, copied: set<string>, p: string, d: Store)
    requires p in gone ==> p in copied
    ensures Onto(PartBy(Rest(s, rp, gone), rp, Owners(s, rp), {p}), Onto(Part(s, rp, copied), d))
         == Onto(Part(s, rp, copied + {p}), d)
  {
    var own := Owners(s, rp);
    FillTable(s.facts, FactOwner(rp), gone, copied, p, d.facts);
    FillTable(s.canonicals, CanonicalOwner(own), gone, copied, p, d.canonicals);
    FillTable(s.observations, ObservationOwner(own), gone, copied, p, d.observations);
    FillTable(s.evidence, EvidenceOwner(own), gone, copied, p, d.evidence);
    FillTable(s.events, EventOwner(own), gone, copied, p, d.events);
  }

  // ----- histories -----

  /** The legacy partition and every person database, by cleaned path. */
  datatype World = World(source: Store, targets: map<string, Store>)

  function TargetAt(w: World, path: string): Store {
    if path in w.targets then w.targets[path] else EMPTY
  }

  /** How one person's transaction over two database files can end. */
  datatype Outcome = Committed | CopyLanded | RolledBack

  /** A run starts by planning; then it tries persons one by one. */
  datatype Step = Plan | Try(person: string, outcome: Outcome)

  datatype State = State(world: World, planned: Store)

  /** The two guards of the apply loop: real persons, and never the source file itself. */
  predicate Allowed(place: string -> string, p: string) {
    p != "" && p != LEGACY_PARTITION && place(p) != place(LEGACY_PARTITION)
  }

  ghost function MovePerson(w: World, rows: Store, path: string, outcome: Outcome): World {
    var landed := w.targets[path := Onto(rows, TargetAt(w, path))];
    match outcome
    case Committed => World(Minus(w.source, rows), landed)
    case CopyLanded => World(w.source, landed)
    case RolledBack => w
  }

  ghost function Next(rp: RunPerson, place: string -> string, st: State, step: Step): State {
    match step
    case Plan => State(st.world, st.world.source)
    case Try(p, outcome) =>
      if Allowed(place, p) then
        State(MovePerson(st.world, Picked(st.world.source, OwnedIds(st.planned, rp, p)), place(p), outcome), st.planned)
      else
        st
  }

  ghost function Run(rp: RunPerson, place: string -> string, w: World, steps: seq<Step>): State {
    if steps == [] then State(w, w.source)
    else Next(rp, place, Run(rp, place, w, steps[..|steps| - 1]), steps[|steps| - 1])
  }

  /** The persons whose rows have left the source, and those whose rows have landed at a target. */
  function MovedBy(place: string -> string, steps: seq<Step>): (who: set<string>)
    ensures forall p :: p in who <==> Try(p, Committed) in steps && Allowed(place, p)
  {
    if steps == [] then {} else
    var last, sofar := steps[|steps| - 1], MovedBy(place, steps[..|steps| - 1]);
    assert steps == steps[..|steps| - 1] + [last];
    if last.Try? && Allowed(place, last.person) && last.outcome.Committed? then sofar + {last.person} else sofar
  }

  function CopiedBy(place: string -> string, steps: seq<Step>): (who: set<string>)
    ensures forall p :: p in who <==> (Try(p, Committed) in steps || Try(p, CopyLanded) in steps) && Allowed(place, p)
  {
    if steps == [] then {} else
    var last, sofar := steps[|steps| - 1], CopiedBy(place, steps[..|steps| - 1]);
    assert steps == steps[..|steps| - 1] + [last];
    if last.Try? && Allowed(place, last.person) && !last.outcome.RolledBack? then sofar + {last.person} else sofar
  }

  function AtPath(place: string -> string, who: set<string>, path: string): set<string> {
    set p | p in who && place(p) == path
  }

  /**
   `moved` have left the source, `copied` have landed at their own targets, every
   other row is where it was, and no row already at a target was replaced.
   */
  ghost predicate Reached(rp: RunPerson, place: string -> string, w0: World, w: World, copied: set<string>, moved: set<string>) {
    ReachedBy(Leaving(w0.source, rp), Landing(w0.source, rp), place, w0, w, copied, moved)
  }

  ghost function Leaving(s: Store, rp: RunPerson): set<string> -> Store { who => Rest(s, rp, who) }
  ghost function Landing(s: Store, rp: RunPerson): set<string> -> Store { who => Part(s, rp, who) }

  ghost predicate ReachedBy(rest: set<string> -> Store, part: set<string> -> Store, place: string -> string,
                            w0: World, w: World, copied: set<string>, moved: set<string>) {
    && w.source == rest(moved)
    && forall path :: TargetAt(w, path) == Onto(part(AtPath(place, copied, path)), TargetAt(w0, path))
  }

  lemma TargetAfterMove(part: set<string> -> Store, place: string -> string, w0: World, w: World, w': World,
                        copied: set<string>, p: string, rows: Store, path: string)
    requires TargetAt(w, path) == Onto(part(AtPath(place, copied, path)), TargetAt(w0, path))
    requires w'.targets == w.targets[place(p) := Onto(rows, TargetAt(w, place(p)))]
    requires Onto(rows, Onto(part(AtPath(place, copied, place(p))), TargetAt(w0, place(p))))
          == Onto(part(AtPath(place, copied, place(p)) + {p}), TargetAt(w0, place(p)))
    ensures TargetAt(w', path) == Onto(part(AtPath(place, copied + {p}, path)), TargetAt(w0, path))
  {
    if path == place(p) {
      assert AtPath(place, copied + {p}, path) == AtPath(place, copied, path) + {p};
    } else {
      assert AtPath(place, copied + {p}, path) == AtPath(place, copied, path);
    }
  }

  lemma MoveKeepsReachedBy(rest: set<string> -> Store, part: set<string> -> Store, place: string -> string,
                           w0: World, w: World, copied: set<string>, moved: set<string>, p: string, rows: Store, outcome: Outcome)
    requires ReachedBy(rest, part, place, w0, w, copied, moved)
    requires Minus(rest(moved), rows) == rest(moved + {p})
    requires Onto(rows, Onto(part(AtPath(place, copied, place(p))), TargetAt(w0, place(p))))
          == Onto(part(AtPath(place, copied, place(p)) + {p}), TargetAt(w0, place(p)))
    ensures ReachedBy(rest, part, place, w0, MovePerson(w, rows, place(p), outcome),
                      if outcome.RolledBack? then copied else copied + {p}, if outcome.Committed? then moved + {p} else moved)
  {
    if !outcome.RolledBack? {
      var w' := MovePerson(w, rows, place(p), outcome);
      forall path ensures TargetAt(w', path) == Onto(part(AtPath(place, copied + {p}, path)), TargetAt(w0, path)) {
        TargetAfterMove(part, place, w0, w, w', copied, p, rows, path);
      }
    }
  }

  lemma TryKeepsReached(rp: RunPerson, place: string -> string, w0: World, w: World, copied: set<string>, moved: set<string>,
                        planned: set<string>, p: string, outcome: Outcome)
    requires Reached(rp, place, w0, w, copied, moved)
    requires planned <= moved <= copied && "" !in copied && p != ""
    ensures var w' := MovePerson(w, Picked(w.source, OwnedIds(Rest(w0.source, rp, planned), rp, p)), place(p), outcome);
            Reached(rp, place, w0, w', if outcome.RolledBack? then copied else copied + {p},
                    if outcome.Committed? then moved + {p} else moved)
  {
    var s := w0.source;
    var rows := PartBy(Rest(s, rp, moved), rp, Owners(s, rp), {p});
    var here := AtPath(place, copied, place(p));
    StalePlanPicks(s, rp, planned, moved, p);
    MoveKeepsReachedBy(Leaving(s, rp), Landing(s, rp), place, w0, w, copied, moved, p, rows, outcome) by {
      MinusPart(s, rp, moved, p);
      FillTarget(s, rp, moved, here, p, TargetAt(w0, place(p)));
    }
  }

  /** One step, from a state that a history has reached. */
  lemma NextKeepsReached(rp: RunPerson, place: string -> string, w0: World, st: State, copied: set<string>, moved: set<string>,
                         planned: set<string>, step: Step) returns (planned': set<string>)
    requires Reached(rp, place, w0, st.world, copied, moved) && st.planned == Rest(w0.source, rp, planned)
    requires planned <= moved <= copied && "" !in copied
    ensures var st', allowed := Next(rp, place, st, step), step.Try? && Allowed(place, step.person);
            var moved' := if allowed && step.outcome.Committed? then moved + {step.person} else moved;
            && Reached(rp, place, w0, st'.world, if allowed && !step.outcome.RolledBack? then copied + {step.person} else copied, moved')
            && st'.planned == Rest(w0.source, rp, planned') && planned' <= moved'
  {
    planned' := planned;
    match step
    case Plan => planned' := moved;
    case Try(p, outcome) =>
      if Allowed(place, p) {
        TryKeepsReached(rp, place, w0, st.world, copied, moved, planned, p, outcome);
      }
  }

  lemma {:induction false} HistoryReached(rp: RunPerson, place: string -> string, w0: World, steps: seq<Step>) returns (planned: set<string>)
    ensures var st := Run(rp, place, w0, steps);
            && Reached(rp, place, w0, st.world, CopiedBy(place, steps), MovedBy(place, steps))
            && st.planned == Rest(w0.source, rp, planned) && planned <= MovedBy(place, steps)
  {
    if steps == [] {
      planned := {};
      NothingReached(rp, place, w0);
    } else {
      var last, front := steps[|steps| - 1], steps[..|steps| - 1];
      var before := HistoryReached(rp, place, w0, front);
      planned := NextKeepsReached(rp, place, w0, Run(rp, place, w0, front), CopiedBy(place, front), MovedBy(place, front), before, last);
    }
  }

  lemma NobodyLeft<K, V>(t: map<K, V>, col: (K, V) -> string, d: map<K, V>)
    ensures Others(t, col, {}) == t && InsertOrIgnore(Selected(t, col, {}), d) == d
  {
    assert Selected(t, col, {}) == map[];
  }

  lemma NothingMoved(s: Store, rp: RunPerson, own: Node -> string, d: Store)
    ensures RestBy(s, rp, own, {}) == s && Onto(PartBy(s, rp, own, {}), d) == d
  {
    NobodyLeft(s.facts, FactOwner(rp), d.facts);
    NobodyLeft(s.canonicals, CanonicalOwner(own), d.canonicals);
    NobodyLeft(s.observations, ObservationOwner(own), d.observations);
    NobodyLeft(s.evidence, EvidenceOwner(own), d.evidence);
    NobodyLeft(s.events, EventOwner(own), d.events);
  }

  lemma NothingReached(rp: RunPerson, place: string -> string, w0: World)
    ensures Rest(w0.source, rp, {}) == w0.source
    ensures Reached(rp, place, w0, w0, {}, {})
  {
    var s, own := w0.source, Owners(w0.source, rp);
    NothingMoved(s, rp, own, EMPTY);
    forall path ensures TargetAt(w0, path) == Onto(Landing(s, rp)(AtPath(place, {}, path)), TargetAt(w0, path)) {
      assert AtPath(place, {}, path) == {};
      NothingMoved(s, rp, own, TargetAt(w0, path));
    }
  }

  // ----- what every history guarantees -----

  predicate KeysWithin(a: Store, b: Store) {
    && a.facts.Keys <= b.facts.Keys && a.canonicals.Keys <= b.canonicals.Keys && a.observations.Keys <= b.observations.Keys
    && a.evidence.Keys <= b.evidence.Keys && a.events.Keys <= b.events.Keys
  }

  predicate KeysApart(a: Store, b: Store) {
    && a.facts.Keys !! b.facts.Keys && a.canonicals.Keys !! b.canonicals.Keys && a.observations.Keys !! b.observations.Keys
    && a.evidence.Keys !! b.evidence.Keys && a.events.Keys !! b.events.Keys
  }

  lemma PartWithin(s: Store, rp: RunPerson, p: string, who: set<string>)
    requires p in who
    ensures KeysWithin(Part(s, rp, {p}), Part(s, rp, who))
    ensures KeysApart(Part(s, rp, {p}), Rest(s, rp, who))
  {
  }

  lemma PartApart(s: Store, rp: RunPerson, p: string, who: set<string>)
    requires p !in who
    ensures KeysApart(Part(s, rp, {p}), Part(s, rp, who))
  {
  }

  lemma OntoKeys(rows: Store, dst: Store, some: Store)
    ensures KeysWithin(some, rows) ==> KeysWithin(some, Onto(rows, dst))
    ensures KeysApart(some, rows) && KeysApart(some, dst) ==> KeysApart(some, Onto(rows, dst))
  {
  }

  /** In every table of a target: what was there is unchanged, and free keys got the rows of `who`. */
  ghost predicate ArrivedIn(s: Store, rp: RunPerson, own: Node -> string, who: set<string>, before: Store, after: Store) {
    && Arrived(before.facts, after.facts, s.facts, FactOwner(rp), who)
    && Arrived(before.canonicals, after.canonicals, s.canonicals, CanonicalOwner(own), who)
    && Arrived(before.observations, after.observations, s.observations, ObservationOwner(own), who)
    && Arrived(before.evidence, after.evidence, s.evidence, EvidenceOwner(own), who)
    && Arrived(before.events, after.events, s.events, EventOwner(own), who)
  }

  ghost predicate LeftFrom(s: Store, rp: RunPerson, own: Node -> string, who: set<string>, after: Store) {
    && Left(s.facts, after.facts, FactOwner(rp), who)
    && Left(s.canonicals, after.canonicals, CanonicalOwner(own), who)
    && Left(s.observations, after.observations, ObservationOwner(own), who)
    && Left(s.evidence, after.evidence, EvidenceOwner(own), who)
    && Left(s.events, after.events, EventOwner(own), who)
  }

  lemma OntoArrives(s: Store, rp: RunPerson, own: Node -> string, who: set<string>, dst: Store)
    ensures ArrivedIn(s, rp, own, who, dst, Onto(PartBy(s, rp, own, who), dst))
  {
    InsertedArrive(s.facts, FactOwner(rp), who, dst.facts);
    InsertedArrive(s.canonicals, CanonicalOwner(own), who, dst.canonicals);
    InsertedArrive(s.observations, ObservationOwner(own), who, dst.observations);
    InsertedArrive(s.evidence, EvidenceOwner(own), who, dst.evidence);
    InsertedArrive(s.events, EventOwner(own), who, dst.events);
  }

  lemma RestLeaves(s: Store, rp: RunPerson, own: Node -> string, who: set<string>)
    ensures LeftFrom(s, rp, own, who, RestBy(s, rp, own, who))
  {
    DeletedLeave(s.facts, FactOwner(rp), who);
    DeletedLeave(s.canonicals, CanonicalOwner(own), who);
    DeletedLeave(s.observations, ObservationOwner(own), who);
    DeletedLeave(s.evidence, EvidenceOwner(own), who);
    DeletedLeave(s.events, EventOwner(own), who);
  }

  /**
   Row by row, for every history and every path: no row already at a target is ever
   replaced, a copied person's row takes its key there if that was free, with its source
   value, nothing else arrives, and exactly the moved persons' rows have left the source.
   */
  lemma HistoryRowByRow(rp: RunPerson, place: string -> string, w0: World, steps: seq<Step>, path: string)
    ensures var w, own := Run(rp, place, w0, steps).world, Owners(w0.source, rp);
            && ArrivedIn(w0.source, rp, own, AtPath(place, CopiedBy(place, steps), path), TargetAt(w0, path), TargetAt(w, path))
            && LeftFrom(w0.source, rp, own, MovedBy(place, steps), w.source)
  {
    var s, own := w0.source, Owners(w0.source, rp);
    var _ := HistoryReached(rp, place, w0, steps);
    OntoArrives(s, rp, own, AtPath(place, CopiedBy(place, steps), path), TargetAt(w0, path));
    RestLeaves(s, rp, own, MovedBy(place, steps));
  }

  /**
   Conservation: a moved person's rows have left the source and are all at that
   person's target; no other target gained one of their keys.
   */
  lemma MovedRowsLandOnce(rp: RunPerson, place: string -> string, w0: World, steps: seq<Step>, p: string, elsewhere: string)
    requires p in MovedBy(place, steps) && elsewhere != place(p)
    requires KeysApart(Part(w0.source, rp, {p}), TargetAt(w0, elsewhere))
    ensures var w, mine := Run(rp, place, w0, steps).world, Part(w0.source, rp, {p});
            && KeysApart(mine, w.source)
            && KeysWithin(mine, TargetAt(w, place(p)))
            && KeysApart(mine, TargetAt(w, elsewhere))
  {
    var w, s := Run(rp, place, w0, steps).world, w0.source;
    var copied, moved := CopiedBy(place, steps), MovedBy(place, steps);
    var _ := HistoryReached(rp, place, w0, steps);
    PartWithin(s, rp, p, moved);
    PartWithin(s, rp, p, AtPath(place, copied, place(p)));
    OntoKeys(Part(s, rp, AtPath(place, copied, place(p))), TargetAt(w0, place(p)), Part(s, rp, {p}));
    PartApart(s, rp, p, AtPath(place, copied, elsewhere));
    OntoKeys(Part(s, rp, AtPath(place, copied, elsewhere)), TargetAt(w0, elsewhere), Part(s, rp, {p}));
  }

  /** No history touches the source file as a target, and nobody without a name nor the legacy partition is ever moved. */
  lemma SourceFileIsNoTarget(rp: RunPerson, place: string -> string, w0: World, steps: seq<Step>, p: string)
    ensures TargetAt(Run(rp, place, w0, steps).world, place(LEGACY_PARTITION)) == TargetAt(w0, place(LEGACY_PARTITION))
    ensures p in CopiedBy(place, steps) || p in MovedBy(place, steps) ==> p != "" && p != "default" && place(p) != place("default")
  {
    var path := place(LEGACY_PARTITION);
    var _ := HistoryReached(rp, place, w0, steps);
    assert AtPath(place, CopiedBy(place, steps), path) == {};
    NothingMoved(w0.source, rp, Owners(w0.source, rp), TargetAt(w0, path));
  }

  /** A person the run did not commit keeps every row in the source, unchanged. */
  lemma UnmovedRowsStay(rp: RunPerson, place: string -> string, w0: World, steps: seq<Step>, p: string)
    requires p !in MovedBy(place, steps)
    ensures var now := Run(rp, place, w0, steps).world.source;
            PartBy(now, rp, Owners(w0.source, rp), {p}) == Part(w0.source, rp, {p})
  {
    var _ := HistoryReached(rp, place, w0, steps);
    SamePartTables(w0.source, rp, Owners(w0.source, rp), Owners(w0.source, rp), MovedBy(place, steps), {p});
  }

  predicate HasRelation(s: Store, k: EvidenceKey) {
    k in s.evidence && k.memory in s.canonicals && k.observation in s.observations
  }

  /** After every history, an evidence row with both ends has both ends beside it in one database. */
  lemma RelationsStayWhole(rp: RunPerson, place: string -> string, w0: World, steps: seq<Step>, k: EvidenceKey)
    requires HasRelation(w0.source, k)
    ensures var w, p := Run(rp, place, w0, steps).world, Owner(w0.source, rp, Memory(k.memory));
            if p in MovedBy(place, steps) then HasRelation(TargetAt(w, place(p)), k) else HasRelation(w.source, k)
  {
    var s, moved := w0.source, MovedBy(place, steps);
    var p := Owner(s, rp, Memory(k.memory));
    var _ := HistoryReached(rp, place, w0, steps);
    EvidenceEndpointsReach(s, k);
    OwnerConstantOnComponent(s, rp, Memory(k.memory), Node.Observation(k.observation));
    if p in moved {
      assert HasRelation(Part(s, rp, AtPath(place, CopiedBy(place, steps), place(p))), k);
    } else {
      assert HasRelation(Rest(s, rp, moved), k);
    }
  }

  /** Every person with something to move has been moved. */
  ghost predicate Finished(rp: RunPerson, place: string -> string, s: Store, moved: set<string>) {
    forall p {:trigger p in moved} :: Allowed(place, p) && Part(s, rp, {p}) != EMPTY ==> p in moved
  }

  lemma SameByOwner<K, V>(t: map<K, V>, col: (K, V) -> string, a: set<string>, b: set<string>)
    requires forall p :: Selected(t, col, {p}) != map[] ==> (p in a <==> p in b)
    ensures Selected(t, col, a) == Selected(t, col, b) && Others(t, col, a) == Others(t, col, b)
  {
    forall k | k in t ensures col(k, t[k]) in a <==> col(k, t[k]) in b {
      assert k in Selected(t, col, {col(k, t[k])});
    }
  }

  lemma SameOwnersSameRows(s: Store, rp: RunPerson, a: set<string>, b: set<string>)
    requires forall p :: Part(s, rp, {p}) != EMPTY ==> (p in a <==> p in b)
    ensures Part(s, rp, a) == Part(s, rp, b) && Rest(s, rp, a) == Rest(s, rp, b)
  {
    var own := Owners(s, rp);
    forall p ensures Selected(s.facts, FactOwner(rp), {p}) != map[] ==> Part(s, rp, {p}) != EMPTY { }
    SameByOwner(s.facts, FactOwner(rp), a, b);
    SameByOwner(s.canonicals, CanonicalOwner(own), a, b);
    SameByOwner(s.observations, ObservationOwner(own), a, b);
    SameByOwner(s.evidence, EvidenceOwner(own), a, b);
    SameByOwner(s.events, EventOwner(own), a, b);
  }

  /**
   Resumability: however often runs were interrupted, and in whatever order persons
   were tried, two histories that both finish end in the same databases.
   */
  lemma FinishedHistoriesAgree(rp: RunPerson, place: string -> string, w0: World, one: seq<Step>, two: seq<Step>, path: string)
    requires Finished(rp, place, w0.source, MovedBy(place, one)) && Finished(rp, place, w0.source, MovedBy(place, two))
    ensures var a, b := Run(rp, place, w0, one).world, Run(rp, place, w0, two).world;
            a.source == b.source && TargetAt(a, path) == TargetAt(b, path)
  {
    var s := w0.source;
    var _ := HistoryReached(rp, place, w0, one);
    var _ := HistoryReached(rp, place, w0, two);
    SameOwnersSameRows(s, rp, MovedBy(place, one), MovedBy(place, two));
    SameOwnersSameRows(s, rp, AtPath(place, CopiedBy(place, one), path), AtPath(place, CopiedBy(place, two), path));
  }

  /** Once a history has finished, planning again lists nothing for any person but the legacy partition. */
  lemma FinishedRunMovesNothing(rp: RunPerson, place: string -> string, w0: World, steps: seq<Step>, p: string)
    requires Finished(rp, place, w0.source, MovedBy(place, steps)) && Allowed(place, p)
    ensures var src := Run(rp, place, w0, steps).world.source;
            Part(src, rp, {p}) == EMPTY && Picked(src, OwnedIds(src, rp, p)) == EMPTY
  {
    var s, moved := w0.source, MovedBy(place, steps);
    var src := Run(rp, place, w0, steps).world.source;
    var _ := HistoryReached(rp, place, w0, steps);
    if p in moved {
      ReplanEmptyPart(s, rp, moved, {p});
    } else {
      ReplanSamePart(s, rp, moved, {p});
    }
    FreshPlanPicks(src, rp, p);
  }

  lemma FreshPlanPicks(s: Store, rp: RunPerson, p: string)
    requires p != ""
    ensures Picked(s, OwnedIds(s, rp, p)) == Part(s, rp, {p})
  {
    NothingMoved(s, rp, Owners(s, rp), EMPTY);
    StalePlanPicks(s, rp, {}, {}, p);
  }
}
