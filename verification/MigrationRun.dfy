/** The migrate-memory command: one transaction per person, and the apply loop over persons. */
module MigrationRun {
  import opened RowMove
  import opened MigrationOwnership
  import opened MigrationHistory
  import opened MigrationPlan

  /** One person's five chunked moves are one move of the picked rows; the counts are what left the source. */
  method MigrateOnePerson(src: Store, dst: Store, plan: Plan, p: string) returns (src': Store, dst': Store, moved: Counts)
    ensures var rows := Picked(src, PlannedIds(plan, p));
            src' == Minus(src, rows) && dst' == Onto(rows, dst) && moved == Size(rows)
  {
    var facts, canonicals := At(plan.facts.filed, p), At(plan.graph.canonicals.filed, p);
    var f, f', nf := MoveRowsByKey(src.facts, dst.facts, ById(), facts);
    var c, c', nc := MoveRowsByKey(src.canonicals, dst.canonicals, ById(), canonicals);
    var o, o', no := MoveRowsByKey(src.observations, dst.observations, ById(), At(plan.graph.observations, p));
    var e, e', ne := MoveRowsByKey(src.evidence, dst.evidence, EvidenceMemory(), canonicals);
    var v, v', nv := MoveRowsByKey(src.events, dst.events, EventMemory(), canonicals);
    src', dst', moved := Store(f, c, o, e, v), Store(f', c', o', e', v'), Counts(nf, nc, no, ne, nv);
  }

  function Persons(plan: Plan): set<string> {
    plan.facts.filed.Keys + plan.graph.canonicals.filed.Keys + plan.graph.observations.Keys
    + plan.graph.canonicals.evidence.Keys + plan.events.Keys
  }

  lemma PersonsAreOwners(s: Store, rp: RunPerson, plan: Plan, p: string)
    requires IsPlan(s, rp, plan) && p != "" && p !in Persons(plan)
    ensures Part(s, rp, {p}) == EMPTY
  {
    PlannedCountsAreSizes(s, rp, plan, p);
    SizeZero(Part(s, rp, {p}));
  }

  lemma SizeZero(s: Store)
    requires Size(s) == Counts(0, 0, 0, 0, 0)
    ensures s == EMPTY
  {
    assert s.facts == map[] && s.canonicals == map[] && s.observations == map[] && s.evidence == map[] && s.events == map[];
  }

  /** While `p` has not been moved, its planned ids pick exactly its part, whoever else has left. */
  lemma PlanStillPicks(rp: RunPerson, place: string -> string, w: World, steps: seq<Step>, plan: Plan, p: string)
    requires IsPlan(w.source, rp, plan) && p != "" && p !in MovedBy(place, steps)
    requires Run(rp, place, w, steps).planned == w.source
    ensures var now := Run(rp, place, w, steps).world;
            && Picked(now.source, PlannedIds(plan, p)) == Picked(now.source, OwnedIds(w.source, rp, p))
            && Size(Picked(now.source, PlannedIds(plan, p))) == PlannedCounts(plan, p)
  {
    var moved := MovedBy(place, steps);
    PlannedIdsAreOwned(w.source, rp, plan, p);
    PlannedCountsAreSizes(w.source, rp, plan, p);
    var _ := HistoryReached(rp, place, w, steps);
    NothingMoved(w.source, rp, Owners(w.source, rp), EMPTY);
    StalePlanPicks(w.source, rp, {}, moved, p);
    SamePartTables(w.source, rp, Owners(w.source, rp), Owners(w.source, rp), moved, {p});
  }

  /** One pass of the apply loop body for a person who has not been moved yet. */
  method ApplyPerson(w0: World, rp: RunPerson, place: string -> string, plan: Plan, w: World, ghost steps: seq<Step>, p: string, outcome: Outcome)
    returns (w': World, moved: Counts)
    requires IsPlan(w0.source, rp, plan) && Allowed(place, p) && p !in MovedBy(place, steps)
    requires Run(rp, place, w0, steps) == State(w, w0.source)
    ensures Run(rp, place, w0, steps + [Try(p, outcome)]) == State(w', w0.source)
    ensures moved == PlannedCounts(plan, p)
  {
    var src, dst, n := MigrateOnePerson(w.source, TargetAt(w, place(p)), plan, p);
    moved := n;
    match outcome {
      case Committed => w' := World(src, w.targets[place(p) := dst]);
      case CopyLanded => w' := World(w.source, w.targets[place(p) := dst]);
      case RolledBack => w' := w;
    }
    PlanStillPicks(rp, place, w0, steps, plan, p);
    OneMoreStep(rp, place, w0, steps, Try(p, outcome));
  }

  lemma OneMoreStep(rp: RunPerson, place: string -> string, w: World, steps: seq<Step>, step: Step)
    ensures Run(rp, place, w, steps + [step]) == Next(rp, place, Run(rp, place, w, steps), step)
  {
    assert (steps + [step])[..|steps|] == steps;
  }

  lemma MovedByStep(place: string -> string, steps: seq<Step>, p: string, outcome: Outcome)
    requires Allowed(place, p)
    ensures MovedBy(place, steps + [Try(p, outcome)])
         == if outcome.Committed? then MovedBy(place, steps) + {p} else MovedBy(place, steps)
  {
    assert (steps + [Try(p, outcome)])[..|steps|] == steps;
  }

  datatype Report = Report(persons: map<string, Counts>, plan: Plan)

  function PlannedReport(plan: Plan): map<string, Counts> {
    map p | p in Persons(plan) :: PlannedCounts(plan, p)
  }

  predicate Skipped(p: string) { p == "" || p == LEGACY_PARTITION }

  /**
   One transaction per person; anything but a commit stops the run.  The reported
   counts of what moved are the planned ones.
   */
  method ApplyPlan(w: World, rp: RunPerson, place: string -> string, outcome: string -> Outcome, plan: Plan, planned: map<string, Counts>)
    returns (w': World, persons: map<string, Counts>, ok: bool, ghost steps: seq<Step>)
    requires IsPlan(w.source, rp, plan) && forall p :: p in planned ==> planned[p] == PlannedCounts(plan, p)
    ensures Run(rp, place, w, steps) == State(w', w.source)
    ensures persons == planned
    ensures ok ==> forall p :: p in planned && !Skipped(p) ==> p in MovedBy(place, steps)
    ensures !ok ==> exists p :: p in planned && p != "" && p != "default" && (place(p) == place("default") || !outcome(p).Committed?)
  {
    w', persons, ok, steps := w, planned, true, [];
    var todo := planned.Keys;
    while todo != {}
      invariant todo <= planned.Keys && persons == planned
      invariant Run(rp, place, w, steps) == State(w', w.source)
      invariant forall p :: p in MovedBy(place, steps) ==> p in planned && p !in todo
      invariant forall p :: p in planned && p !in todo && !Skipped(p) ==> p in MovedBy(place, steps)
      decreases todo
    {
      var p :| p in todo;
      todo := todo - {p};
      if !Skipped(p) {
        if place(p) == place(LEGACY_PARTITION) {
          ok := false;
          return;
        }
        var now, moved := ApplyPerson(w, rp, place, plan, w', steps, p, outcome(p));
        MovedByStep(place, steps, p, outcome(p));
        w', steps := now, steps + [Try(p, outcome(p))];
        if !outcome(p).Committed? {
          ok := false;
          return;
        }
        SameEntry(persons, p, moved);
        persons := persons[p := moved];
      }
    }
  }

  lemma SameEntry(m: map<string, Counts>, p: string, c: Counts)
    requires p in m && m[p] == c
    ensures m[p := c] == m
  {
  }

  /**
   Plan once, then apply.  `outcome` says how each person's transaction ends and
   `steps` is the history this run adds, so everything proved of histories holds of
   it; a run without error leaves nothing for a later one.
   */
  method RunMemoryMigration(w: World, rp: RunPerson, place: string -> string, outcome: string -> Outcome, apply: bool)
    returns (w': World, report: Report, ok: bool, ghost steps: seq<Step>)
    ensures IsPlan(w.source, rp, report.plan) && report.persons == PlannedReport(report.plan)
    ensures w' == Run(rp, place, w, steps).world
    ensures !apply ==> ok && w' == w
    ensures ok && apply ==> Finished(rp, place, w.source, MovedBy(place, steps))
    ensures !ok ==> exists p :: p in report.persons && p != "" && p != "default" && (place(p) == place("default") || !outcome(p).Committed?)
  {
    var plan := PlanMemoryMigration(w.source, rp);
    report := Report(PlannedReport(plan), plan);
    w', ok, steps := w, true, [];
    if apply {
      var persons;
      w', persons, ok, steps := ApplyPlan(w, rp, place, outcome, plan, PlannedReport(plan));
      report := Report(persons, plan);
      if ok {
        forall p | Allowed(place, p) && Part(w.source, rp, {p}) != EMPTY ensures p in MovedBy(place, steps) {
          if p !in Persons(plan) {
            PersonsAreOwners(w.source, rp, plan, p);
          }
        }
      }
    }
  }
}
