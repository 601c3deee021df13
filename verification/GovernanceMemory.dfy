/**
 When a complete governance pass really left the memory alone: merges are one
 transaction, archiving is not, so exactly the archive decisions matter.
 */
module GovernanceMemory {
  import opened Basics
  import opened Governance
  import opened GovernanceGuarantees

  type Perform = (Memory, Write) -> Written

  /** What archiving may take: the named rows that are active and not guarded (pinned or confirmed by the user). */
  function Takeable(memory: Memory, ids: seq<string>, guarded: set<string>): set<string> { Elements(ids) * memory.Keys - guarded }

  /** Some of the rows are gone and nothing else changed. */
  predicate Took(before: Memory, after: Memory, rows: set<string>) {
    && after.Keys <= before.Keys <= after.Keys + rows
    && forall id :: id in after ==> after[id] == before[id]
  }

  /** A failing merge leaves the memory as it was, being one transaction; a failing archive took some of its rows. */
  ghost predicate Fails(perform: Perform, guarded: set<string>) {
    forall m: Memory, w: Write :: !perform(m, w).ok ==> FailedAs(m, w, perform(m, w).memory, guarded)
  }

  predicate FailedAs(before: Memory, w: Write, after: Memory, guarded: set<string>) {
    match w
    case Merge(_, _) => after == before
    case Archive(ids) => Took(before, after, Takeable(before, ids, guarded))
  }

  /** The store behind a pass: its writes and its cap enforcer. */
  function Over(o: Oracle, perform: Perform, caps: Memory -> Caps): Oracle { o.(perform := perform, caps := caps) }

  // ----- what does not depend on the store -----

  predicate ValidArchive(cfg: Config, o: Oracle, clusters: seq<Cluster>, memory: Memory, guarded: set<string>, c: Cluster, d: Decision) {
    && Valid(clusters, c, d) && ApplyGate(cfg, o, c, d).Pass? && ApplyGate(cfg, o, c, d).write.Archive?
    && Takeable(memory, ApplyGate(cfg, o, c, d).write.archived, guarded) != {}
  }

  /** A cluster on the backlog whose decision passes validation and gate as an archive of some row it can take. */
  predicate Archives(cfg: Config, o: Oracle, clusters: seq<Cluster>, st: State, guarded: set<string>, c: Cluster) {
    && Key(cfg, c.id) !in st.judged && o.answer(c.id).Judged?
    && ValidArchive(cfg, o, clusters, st.memory, guarded, c, o.answer(c.id).decision)
  }

  /** The same steps up to memory, applied flag and entries. */
  predicate SameSteps(a: Progress, b: Progress) {
    a.judged == b.judged && a.attempted == b.attempted && a.processed == b.processed && a.failures == b.failures && a.stop == b.stop
  }

  lemma ConcludeSameSteps(cfg: Config, o: Oracle, o': Oracle, clusters: seq<Cluster>, a: Progress, b: Progress, c: Cluster, d: Decision)
    requires SameSteps(a, b) && o'.records(c.id) == o.records(c.id)
    ensures SameSteps(Conclude(cfg, o, clusters, a, c, d), Conclude(cfg, o', clusters, b, c, d))
  {
  }

  lemma VisitSameSteps(cfg: Config, o: Oracle, o': Oracle, clusters: seq<Cluster>, a: Progress, b: Progress, c: Cluster)
    requires SameSteps(a, b) && o'.answer(c.id) == o.answer(c.id) && o'.cancelled(c.id) == o.cancelled(c.id) && o'.records(c.id) == o.records(c.id)
    ensures SameSteps(Visit(cfg, o, clusters, a, c), Visit(cfg, o', clusters, b, c))
  {
    if o.answer(c.id).Judged? {
      ConcludeSameSteps(cfg, o, o', clusters, a, b, c, o.answer(c.id).decision);
    }
  }

  /** Which clusters a pass visits, and how it stops, does not depend on the store. */
  lemma {:induction false} SameVisits(cfg: Config, o: Oracle, o': Oracle, clusters: seq<Cluster>, memory: Memory, judged: set<string>, todo: seq<Cluster>)
    requires o' == Over(o, o'.perform, o'.caps)
    ensures SameSteps(VisitAll(cfg, o, clusters, Start(memory, judged), todo), VisitAll(cfg, o', clusters, Start(memory, judged), todo))
  {
    if todo != [] {
      var front, c := todo[..|todo| - 1], todo[|todo| - 1];
      SameVisits(cfg, o, o', clusters, memory, judged, front);
      VisitSameSteps(cfg, o, o', clusters, VisitAll(cfg, o, clusters, Start(memory, judged), front),
                     VisitAll(cfg, o', clusters, Start(memory, judged), front), c);
    }
  }

  // ----- which passes get through -----

  /** The pass gets through its backlog: every cluster on it is judged and checkpointed. */
  predicate Settles(cfg: Config, o: Oracle, clusters: seq<Cluster>, st: State) {
    var before, pr := Unjudged(cfg, clusters, st.judged), VisitAll(cfg, o, clusters, Start(st.memory, st.judged), clusters);
    before == 0 || (pr.stop != QuotaError && pr.stop != RecordError && pr.failures == 0 && before <= pr.processed)
  }

  /** The backlog fits the batch and nothing on it fails or is interrupted. */
  predicate Workable(cfg: Config, o: Oracle, clusters: seq<Cluster>, st: State) {
    Unjudged(cfg, clusters, st.judged) <= Batch(cfg) && SmoothFor(cfg, o, st.judged, clusters)
  }

  /** Within the batch, and whatever was checkpointed went smoothly. */
  ghost predicate Went(cfg: Config, o: Oracle, st: State, pr: Progress) {
    pr.processed <= pr.attempted <= Batch(cfg) && forall c: Cluster :: Key(cfg, c.id) in pr.judged ==> Key(cfg, c.id) in st.judged || Goes(o, c.id)
  }

  lemma VisitWent(cfg: Config, o: Oracle, clusters: seq<Cluster>, st: State, pr: Progress, c: Cluster)
    requires Went(cfg, o, st, pr)
    ensures Went(cfg, o, st, Visit(cfg, o, clusters, pr, c))
  {
    var pr' := Visit(cfg, o, clusters, pr, c);
    forall x: Cluster | Key(cfg, x.id) in pr'.judged ensures Key(cfg, x.id) in st.judged || Goes(o, x.id) {
      if Key(cfg, x.id) !in pr.judged {
        KeyInjective(cfg, x.id, c.id);
      }
    }
  }

  lemma {:induction false} VisitsWent(cfg: Config, o: Oracle, clusters: seq<Cluster>, st: State, todo: seq<Cluster>)
    ensures Went(cfg, o, st, VisitAll(cfg, o, clusters, Start(st.memory, st.judged), todo))
  {
    if todo != [] {
      VisitsWent(cfg, o, clusters, st, todo[..|todo| - 1]);
      VisitWent(cfg, o, clusters, st, VisitAll(cfg, o, clusters, Start(st.memory, st.judged), todo[..|todo| - 1]), todo[|todo| - 1]);
    }
  }

  /** A pass gets through exactly when its backlog is workable. */
  lemma SettlesExactly(cfg: Config, o: Oracle, clusters: seq<Cluster>, st: State)
    requires DistinctIds(clusters)
    ensures Settles(cfg, o, clusters, st) <==> Workable(cfg, o, clusters, st)
  {
    var pr := VisitAll(cfg, o, clusters, Start(st.memory, st.judged), clusters);
    NoneUnjudged(cfg, clusters, st.judged);
    if Workable(cfg, o, clusters, st) {
      VisitsSmoothly(cfg, o, clusters, st.memory, st.judged, clusters);
    } else if Settles(cfg, o, clusters, st) {
      VisitsSound(cfg, o, clusters, st, clusters);
      NoneUnjudged(cfg, clusters, pr.judged);
      VisitsWent(cfg, o, clusters, st, clusters);
    }
  }

  // ----- unchanged, when nothing is archived -----

  lemma TookNothing(before: Memory, after: Memory)
    requires Took(before, after, {})
    ensures after == before
  {
  }

  lemma DecideKeeps(cfg: Config, o: Oracle, clusters: seq<Cluster>, memory: Memory, guarded: set<string>, c: Cluster, d: Decision)
    requires Fails(o.perform, guarded) && (cfg.mode == Shadow || !ValidArchive(cfg, o, clusters, memory, guarded, c, d))
    ensures var (_, after, wrote) := Decide(cfg, o, clusters, memory, c, d); !wrote ==> after == memory
  {
    var (_, after, wrote) := Decide(cfg, o, clusters, memory, c, d);
    if Valid(clusters, c, d) && ApplyGate(cfg, o, c, d).Pass? && cfg.mode != Shadow && !wrote {
      assert FailedAs(memory, ApplyGate(cfg, o, c, d).write, after, guarded);
      if ApplyGate(cfg, o, c, d).write.Archive? {
        TookNothing(memory, after);
      }
    }
  }

  lemma VisitKeeps(cfg: Config, o: Oracle, clusters: seq<Cluster>, st: State, guarded: set<string>, pr: Progress, c: Cluster)
    requires Fails(o.perform, guarded) && st.judged <= pr.judged && (!pr.applied ==> pr.memory == st.memory)
    requires cfg.mode == Shadow || !Archives(cfg, o, clusters, st, guarded, c)
    ensures var pr' := Visit(cfg, o, clusters, pr, c); st.judged <= pr'.judged && (!pr'.applied ==> pr'.memory == st.memory)
  {
    if o.answer(c.id).Judged? && Key(cfg, c.id) !in pr.judged && !pr.applied {
      DecideKeeps(cfg, o, clusters, st.memory, guarded, c, o.answer(c.id).decision);
    }
  }

  lemma {:induction false} VisitsKeep(cfg: Config, o: Oracle, clusters: seq<Cluster>, st: State, guarded: set<string>, todo: seq<Cluster>)
    requires Fails(o.perform, guarded)
    requires cfg.mode == Shadow || forall c :: c in todo ==> !Archives(cfg, o, clusters, st, guarded, c)
    ensures var pr := VisitAll(cfg, o, clusters, Start(st.memory, st.judged), todo);
            st.judged <= pr.judged && (!pr.applied ==> pr.memory == st.memory)
  {
    if todo != [] {
      var front, c := todo[..|todo| - 1], todo[|todo| - 1];
      VisitsKeep(cfg, o, clusters, st, guarded, front);
      VisitKeeps(cfg, o, clusters, st, guarded, VisitAll(cfg, o, clusters, Start(st.memory, st.judged), front), c);
    }
  }

  /** With such a store, an honest enforcer and no such archive on the backlog, complete means unchanged. */
  lemma CompleteUnchanged(cfg: Config, o: Oracle, clusters: seq<Cluster>, st: State, guarded: set<string>)
    requires Fails(o.perform, guarded) && HonestCaps(o.caps)
    requires cfg.mode == Shadow || forall c :: c in clusters ==> !Archives(cfg, o, clusters, st, guarded, c)
    ensures var (st', r) := GovernancePass(cfg, o, clusters, st); r.Done? && r.complete ==> st'.memory == st.memory
  {
    VisitsKeep(cfg, o, clusters, st, guarded, clusters);
  }

  /** A pass that does not get through is not complete. */
  lemma UnsettledIsIncomplete(cfg: Config, o: Oracle, clusters: seq<Cluster>, st: State)
    ensures var (_, r) := GovernancePass(cfg, o, clusters, st); r.Done? && r.complete ==> Settles(cfg, o, clusters, st)
  {
  }

  // ----- changed, when something is -----

  /** The memory without the first named row that can be taken. */
  function WithoutFirst(memory: Memory, ids: seq<string>, guarded: set<string>): Memory {
    if ids == [] then memory
    else if ids[0] in memory && ids[0] !in guarded then memory - {ids[0]}
    else WithoutFirst(memory, ids[1..], guarded)
  }

  lemma {:induction false} FirstIsTaken(memory: Memory, ids: seq<string>, guarded: set<string>)
    ensures Took(memory, WithoutFirst(memory, ids, guarded), Takeable(memory, ids, guarded))
    ensures Takeable(memory, ids, guarded) != {} ==> WithoutFirst(memory, ids, guarded) != memory
  {
    if ids != [] {
      if ids[0] in memory && ids[0] !in guarded {
        assert ids[0] in Takeable(memory, ids, guarded) && ids[0] !in WithoutFirst(memory, ids, guarded);
      } else {
        FirstIsTaken(memory, ids[1..], guarded);
        assert Elements(ids) == Elements(ids[1..]) + {ids[0]};
        assert Takeable(memory, ids, guarded) == Takeable(memory, ids[1..], guarded);
      }
    }
  }

  /** A store whose writes all fail, an archive after its first row. */
  function Failing(guarded: set<string>): Perform {
    (m: Memory, w: Write) => Written(if w.Archive? then WithoutFirst(m, w.archived, guarded) else m, false)
  }

  function Idle(): Memory -> Caps { (m: Memory) => Caps(m, false, true) }

  lemma FailingFails(guarded: set<string>)
    ensures Fails(Failing(guarded), guarded) && HonestCaps(Idle())
  {
    forall m: Memory, w: Write ensures FailedAs(m, w, Failing(guarded)(m, w).memory, guarded) {
      if w.Archive? {
        FirstIsTaken(m, w.archived, guarded);
      }
    }
  }

  /** Nothing was written, rows only went, and once an archive was tried some did. */
  predicate Shrunk(cfg: Config, o: Oracle, clusters: seq<Cluster>, st: State, guarded: set<string>, todo: seq<Cluster>, pr: Progress) {
    && !pr.applied && st.judged <= pr.judged && Took(st.memory, pr.memory, st.memory.Keys)
    && forall c :: c in todo && Archives(cfg, o, clusters, st, guarded, c) && Key(cfg, c.id) in pr.judged ==> pr.memory != st.memory
  }

  lemma TookMore(a: Memory, b: Memory, c: Memory, rows: set<string>)
    requires Took(a, b, a.Keys) && Took(b, c, rows)
    ensures Took(a, c, a.Keys) && (c == a ==> b == a)
  {
  }

  lemma DecideShrinks(cfg: Config, o: Oracle, clusters: seq<Cluster>, st: State, memory: Memory, guarded: set<string>, c: Cluster, d: Decision)
    requires o.perform == Failing(guarded) && cfg.mode != Shadow && Took(st.memory, memory, st.memory.Keys)
    ensures var (_, after, wrote) := Decide(cfg, o, clusters, memory, c, d);
            && !wrote && Took(st.memory, after, st.memory.Keys) && (after == st.memory ==> memory == st.memory)
            && (ValidArchive(cfg, o, clusters, st.memory, guarded, c, d) ==> after != st.memory)
  {
    if Valid(clusters, c, d) && ApplyGate(cfg, o, c, d).Pass? && ApplyGate(cfg, o, c, d).write.Archive? {
      var ids := ApplyGate(cfg, o, c, d).write.archived;
      FirstIsTaken(memory, ids, guarded);
      TookMore(st.memory, memory, WithoutFirst(memory, ids, guarded), Takeable(memory, ids, guarded));
    }
  }

  lemma VisitTakes(cfg: Config, o: Oracle, clusters: seq<Cluster>, st: State, guarded: set<string>, c: Cluster, pr: Progress)
    requires !pr.applied && st.judged <= pr.judged && Took(st.memory, pr.memory, st.memory.Keys) && o.perform == Failing(guarded) && cfg.mode != Shadow
    ensures var pr' := Visit(cfg, o, clusters, pr, c);
            && !pr'.applied && pr.judged <= pr'.judged <= pr.judged + {Key(cfg, c.id)} && Took(st.memory, pr'.memory, st.memory.Keys)
            && (pr'.memory == st.memory ==> pr.memory == st.memory)
            && (Archives(cfg, o, clusters, st, guarded, c) && Key(cfg, c.id) in pr'.judged - pr.judged ==> pr'.memory != st.memory)
  {
    if o.answer(c.id).Judged? {
      DecideShrinks(cfg, o, clusters, st, pr.memory, guarded, c, o.answer(c.id).decision);
    }
  }

  lemma VisitShrinks(cfg: Config, o: Oracle, clusters: seq<Cluster>, st: State, guarded: set<string>, front: seq<Cluster>, c: Cluster, pr: Progress)
    requires Shrunk(cfg, o, clusters, st, guarded, front, pr) && o.perform == Failing(guarded) && cfg.mode != Shadow
    requires forall x :: x in front ==> x.id != c.id
    requires Key(cfg, c.id) in pr.judged ==> Key(cfg, c.id) in st.judged
    ensures Shrunk(cfg, o, clusters, st, guarded, front + [c], Visit(cfg, o, clusters, pr, c))
  {
    var pr' := Visit(cfg, o, clusters, pr, c);
    VisitTakes(cfg, o, clusters, st, guarded, c, pr);
    forall x | x in front + [c] && Archives(cfg, o, clusters, st, guarded, x) && Key(cfg, x.id) in pr'.judged ensures pr'.memory != st.memory {
      if x in front && Key(cfg, x.id) == Key(cfg, c.id) {
        KeyInjective(cfg, x.id, c.id);
      }
    }
  }

  lemma {:induction false} VisitsShrink(cfg: Config, o: Oracle, clusters: seq<Cluster>, st: State, guarded: set<string>, todo: seq<Cluster>)
    requires DistinctIds(todo) && o.perform == Failing(guarded) && cfg.mode != Shadow
    ensures Shrunk(cfg, o, clusters, st, guarded, todo, VisitAll(cfg, o, clusters, Start(st.memory, st.judged), todo))
  {
    if todo != [] {
      var front, c := todo[..|todo| - 1], todo[|todo| - 1];
      VisitsShrink(cfg, o, clusters, st, guarded, front);
      forall x | x in front ensures Key(cfg, x.id) != Key(cfg, c.id) {
        if Key(cfg, x.id) == Key(cfg, c.id) {
          KeyInjective(cfg, x.id, c.id);
        }
      }
      OnlyVisited(cfg, o, clusters, st.memory, st.judged, front, Key(cfg, c.id));
      VisitShrinks(cfg, o, clusters, st, guarded, front, c, VisitAll(cfg, o, clusters, Start(st.memory, st.judged), front));
      assert todo == front + [c];
    }
  }

  /** A pass against that store that gets through past such an archive is complete with a changed memory. */
  lemma ShrunkComplete(cfg: Config, o: Oracle, clusters: seq<Cluster>, st: State, guarded: set<string>, c: Cluster)
    requires DistinctIds(clusters) && Settles(cfg, o, clusters, st) && cfg.mode != Shadow && o.perform == Failing(guarded) && o.caps == Idle()
    requires c in clusters && Archives(cfg, o, clusters, st, guarded, c)
    ensures var (st', r) := GovernancePass(cfg, o, clusters, st); r.Done? && r.complete && st'.memory != st.memory
  {
    var pr := VisitAll(cfg, o, clusters, Start(st.memory, st.judged), clusters);
    NoneUnjudged(cfg, clusters, st.judged);
    VisitsSound(cfg, o, clusters, st, clusters);
    NoneUnjudged(cfg, clusters, pr.judged);
    VisitsShrink(cfg, o, clusters, st, guarded, clusters);
  }

  /** If such an archive is on the backlog of a pass that gets through, its half failure leaves a complete pass with a changed memory. */
  lemma CompleteChanged(cfg: Config, o: Oracle, clusters: seq<Cluster>, st: State, guarded: set<string>, c: Cluster)
    requires DistinctIds(clusters) && Settles(cfg, o, clusters, st) && cfg.mode != Shadow
    requires c in clusters && Archives(cfg, o, clusters, st, guarded, c)
    ensures var (st', r) := GovernancePass(cfg, Over(o, Failing(guarded), Idle()), clusters, st);
            r.Done? && r.complete && st'.memory != st.memory
  {
    var o' := Over(o, Failing(guarded), Idle());
    SameVisits(cfg, o, o', clusters, st.memory, st.judged, clusters);
    SameArchive(cfg, o, o', clusters, st, guarded, c);
    ShrunkComplete(cfg, o', clusters, st, guarded, c);
  }

  lemma SameArchive(cfg: Config, o: Oracle, o': Oracle, clusters: seq<Cluster>, st: State, guarded: set<string>, c: Cluster)
    requires o' == Over(o, o'.perform, o'.caps)
    ensures Archives(cfg, o, clusters, st, guarded, c) <==> Archives(cfg, o', clusters, st, guarded, c)
  {
  }

  // ----- exactly -----

  /** Against every store that fails this way and every honest enforcer, a complete pass leaves the memory as it was. */
  ghost predicate AlwaysUnchanged(cfg: Config, o: Oracle, clusters: seq<Cluster>, st: State, guarded: set<string>) {
    forall perform: Perform, caps: Memory -> Caps :: Fails(perform, guarded) && HonestCaps(caps) ==>
      var (st', r) := GovernancePass(cfg, Over(o, perform, caps), clusters, st);
      r.Done? && r.complete ==> st'.memory == st.memory
  }

  lemma AlwaysWhen(cfg: Config, o: Oracle, clusters: seq<Cluster>, st: State, guarded: set<string>)
    requires DistinctIds(clusters)
    requires cfg.mode == Shadow || !Workable(cfg, o, clusters, st) || forall c :: c in clusters ==> !Archives(cfg, o, clusters, st, guarded, c)
    ensures AlwaysUnchanged(cfg, o, clusters, st, guarded)
  {
    forall perform: Perform, caps: Memory -> Caps | Fails(perform, guarded) && HonestCaps(caps)
      ensures var (st', r) := GovernancePass(cfg, Over(o, perform, caps), clusters, st); r.Done? && r.complete ==> st'.memory == st.memory
    {
      var o' := Over(o, perform, caps);
      if cfg.mode == Shadow || Workable(cfg, o, clusters, st) {
        forall c | c in clusters ensures Archives(cfg, o, clusters, st, guarded, c) <==> Archives(cfg, o', clusters, st, guarded, c) {
          SameArchive(cfg, o, o', clusters, st, guarded, c);
        }
        CompleteUnchanged(cfg, o', clusters, st, guarded);
      } else {
        UnsettledIsIncomplete(cfg, o', clusters, st);
        SettlesExactly(cfg, o', clusters, st);
      }
    }
  }

  /**
   Over distinct ids, complete means unchanged against every such store exactly when the
   mode withholds writes, or the backlog is not workable in this pass, or no cluster on
   it has a decision that passes validation and gate as an archive of some active,
   unprotected row.
   */
  lemma CompleteUnchangedExactly(cfg: Config, o: Oracle, clusters: seq<Cluster>, st: State, guarded: set<string>)
    requires DistinctIds(clusters)
    ensures AlwaysUnchanged(cfg, o, clusters, st, guarded) <==>
              || cfg.mode == Shadow || !Workable(cfg, o, clusters, st)
              || forall c :: c in clusters ==> !Archives(cfg, o, clusters, st, guarded, c)
  {
    if cfg.mode == Shadow || !Workable(cfg, o, clusters, st) || forall c :: c in clusters ==> !Archives(cfg, o, clusters, st, guarded, c) {
      AlwaysWhen(cfg, o, clusters, st, guarded);
    } else {
      var c :| c in clusters && Archives(cfg, o, clusters, st, guarded, c);
      SettlesExactly(cfg, o, clusters, st);
      CompleteChanged(cfg, o, clusters, st, guarded, c);
      FailingFails(guarded);
    }
  }
}
