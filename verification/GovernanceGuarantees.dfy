/** What every governance pass, and every series of passes, guarantees. */
module GovernanceGuarantees {
  import opened Basics
  import opened SkillText
  import opened Governance

  // ----- complete -----

  /** A failing write leaves the memory as it was. */
  ghost predicate Atomic(o: Oracle) { forall m, w :: !o.perform(m, w).ok ==> o.perform(m, w).memory == m }

  /** The cap enforcer tells whether it changed anything. */
  ghost predicate HonestCaps(caps: Memory -> Caps) { forall m :: caps(m).fine ==> HonestAbout(caps(m), m) }

  predicate HonestAbout(c: Caps, before: Memory) { c.changed <==> c.after != before }

  predicate WroteNothing(entries: seq<Entry>) { forall e :: e in entries ==> !e.outcome.Applied? }

  /** Every checkpoint takes one cluster off the backlog, and comes from a judged answer. */
  ghost predicate Counted(cfg: Config, o: Oracle, clusters: seq<Cluster>, st: State, pr: Progress) {
    && st.judged <= pr.judged
    && Unjudged(cfg, clusters, pr.judged) + pr.processed <= Unjudged(cfg, clusters, st.judged)
    && (DistinctIds(clusters) ==> Unjudged(cfg, clusters, pr.judged) + pr.processed == Unjudged(cfg, clusters, st.judged))
  }

  ghost predicate Accounted(cfg: Config, o: Oracle, clusters: seq<Cluster>, st: State, pr: Progress) {
    && (forall c :: c in clusters && Key(cfg, c.id) in pr.judged - st.judged ==> o.answer(c.id).Judged?)
    && (pr.failures > 0 ==> exists c :: c in clusters && Key(cfg, c.id) !in st.judged && o.answer(c.id) == Failed)
  }

  /** Memory moves only with a write, and entries tell of every successful one. */
  ghost predicate Quiet(o: Oracle, st: State, pr: Progress) {
    && (!pr.applied ==> WroteNothing(pr.entries))
    && (pr.applied && pr.stop != RecordError ==> !WroteNothing(pr.entries))
    && (!pr.applied && Atomic(o) ==> pr.memory == st.memory)
  }

  lemma VisitCounted(cfg: Config, o: Oracle, clusters: seq<Cluster>, st: State, pr: Progress, c: Cluster)
    requires Counted(cfg, o, clusters, st, pr) && c in clusters
    ensures Counted(cfg, o, clusters, st, Visit(cfg, o, clusters, pr, c))
  {
    if Key(cfg, c.id) !in pr.judged {
      UnjudgedDrops(cfg, clusters, pr.judged, c);
    }
  }

  lemma VisitAccounted(cfg: Config, o: Oracle, clusters: seq<Cluster>, st: State, pr: Progress, c: Cluster)
    requires Accounted(cfg, o, clusters, st, pr) && c in clusters && st.judged <= pr.judged
    ensures Accounted(cfg, o, clusters, st, Visit(cfg, o, clusters, pr, c))
  {
    var pr' := Visit(cfg, o, clusters, pr, c);
    forall x | x in clusters && Key(cfg, x.id) in pr'.judged - st.judged ensures o.answer(x.id).Judged? {
      if Key(cfg, x.id) !in pr.judged {
        KeyInjective(cfg, x.id, c.id);
      }
    }
  }

  lemma NoteEntry(entries: seq<Entry>, e: Entry)
    ensures WroteNothing(entries + [e]) <==> WroteNothing(entries) && !e.outcome.Applied?
  {
    assert e in entries + [e];
    assert forall x :: x in entries ==> x in entries + [e];
  }

  lemma ConcludeQuiet(cfg: Config, o: Oracle, clusters: seq<Cluster>, st: State, pr: Progress, c: Cluster, d: Decision)
    requires Quiet(o, st, pr) && pr.stop == Going
    ensures Quiet(o, st, Conclude(cfg, o, clusters, pr, c, d))
  {
    var (entry, memory, wrote) := Decide(cfg, o, clusters, pr.memory, c, d);
    assert wrote <==> entry.outcome.Applied?;
    assert !wrote && Atomic(o) ==> memory == pr.memory;
    NoteEntry(pr.entries, entry);
  }

  lemma VisitQuiet(cfg: Config, o: Oracle, clusters: seq<Cluster>, st: State, pr: Progress, c: Cluster)
    requires Quiet(o, st, pr)
    ensures Quiet(o, st, Visit(cfg, o, clusters, pr, c))
  {
    if pr.stop == Going && o.answer(c.id).Judged? {
      ConcludeQuiet(cfg, o, clusters, st, pr, c, o.answer(c.id).decision);
    }
  }

  lemma {:induction false} VisitsSound(cfg: Config, o: Oracle, clusters: seq<Cluster>, st: State, todo: seq<Cluster>)
    requires forall c :: c in todo ==> c in clusters
    ensures var pr := VisitAll(cfg, o, clusters, Start(st.memory, st.judged), todo);
            Counted(cfg, o, clusters, st, pr) && Accounted(cfg, o, clusters, st, pr) && Quiet(o, st, pr)
  {
    if todo != [] {
      VisitsSound(cfg, o, clusters, st, todo[..|todo| - 1]);
      var pr, c := VisitAll(cfg, o, clusters, Start(st.memory, st.judged), todo[..|todo| - 1]), todo[|todo| - 1];
      VisitCounted(cfg, o, clusters, st, pr, c);
      VisitAccounted(cfg, o, clusters, st, pr, c);
      VisitQuiet(cfg, o, clusters, st, pr, c);
    }
  }

  /** Complete: every candidate is checkpointed and, where failing writes change nothing, so did the pass. */
  lemma CompleteMeansSettled(cfg: Config, o: Oracle, clusters: seq<Cluster>, st: State)
    ensures var (st', r) := GovernancePass(cfg, o, clusters, st);
            r.Done? && r.complete ==>
              && (forall c :: c in clusters ==> Key(cfg, c.id) in st'.judged)
              && r.remaining == 0 && r.reason == Complete
              && (Atomic(o) && HonestCaps(o.caps) ==> st'.memory == st.memory)
  {
    var (st', r) := GovernancePass(cfg, o, clusters, st);
    VisitsSound(cfg, o, clusters, st, clusters);
    NoneUnjudged(cfg, clusters, st'.judged);
  }

  /**
   With distinct ids, a shadow or merge-only pass that ends without error is
   complete exactly when every candidate is now checkpointed and no write succeeded.
   */
  lemma CompleteExactly(cfg: Config, o: Oracle, clusters: seq<Cluster>, st: State)
    requires DistinctIds(clusters) && cfg.mode != Full && Unjudged(cfg, clusters, st.judged) > 0
    ensures var (st', r) := GovernancePass(cfg, o, clusters, st);
            var entries := VisitAll(cfg, o, clusters, Start(st.memory, st.judged), clusters).entries;
            r.Done? ==> (r.complete <==> (forall c :: c in clusters ==> Key(cfg, c.id) in st'.judged) && WroteNothing(entries))
  {
    var (st', r) := GovernancePass(cfg, o, clusters, st);
    VisitsSound(cfg, o, clusters, st, clusters);
    NoneUnjudged(cfg, clusters, st'.judged);
  }

  /**
   Archiving is no transaction: if it fails half way, the pass counts it as no write
   and reports complete although the memory changed.
   */
  lemma CompleteCanHideAHalfWrite(cfg: Config, o: Oracle, c: Cluster, d: Decision, memory: Memory)
    requires cfg.mode == MergeOnly && Valid([c], c, d) && ApplyGate(cfg, o, c, d).Pass? && ApplyGate(cfg, o, c, d).write.Archive?
    requires o.answer(c.id) == Judged(d) && !o.cancelled(c.id) && o.records(c.id)
    requires var r := o.perform(memory, ApplyGate(cfg, o, c, d).write); !r.ok && r.memory != memory
    ensures var (st', r) := GovernancePass(cfg, o, [c], State(memory, {}));
            r.Done? && r.complete && st'.memory != memory
  {
    assert [c][..0] == [];
    assert VisitAll(cfg, o, [c], Start(memory, {}), [c][..0]) == Start(memory, {});
    assert Unjudged(cfg, [c][..0], {}) == 0;
  }

  /** How far a pass got and why it stopped, for a pass that had a backlog and did not err. */
  lemma VerdictTells(cfg: Config, o: Oracle, clusters: seq<Cluster>, st: State)
    requires DistinctIds(clusters) && Unjudged(cfg, clusters, st.judged) > 0
    ensures var (st', r) := GovernancePass(cfg, o, clusters, st);
            var pr, left := VisitAll(cfg, o, clusters, Start(st.memory, st.judged), clusters), Unjudged(cfg, clusters, st'.judged);
            r.Done? ==>
              && r.judgedNow == Unjudged(cfg, clusters, st.judged) - left
              && (!r.complete ==> r.remaining == if left == 0 then 1 else left)
              && (r.reason == Complete <==> r.complete)
              && (r.reason == MemoryChanged <==> !r.complete && left == 0)
              && (left > 0 ==>
                    && (r.reason == BatchFull <==> pr.stop == BatchLimit) && (r.reason == OutOfTime <==> pr.stop == Deadline)
                    && (r.reason == JudgeFailures <==> pr.stop == Going && pr.failures > 0))
  {
    VisitsSound(cfg, o, clusters, st, clusters);
    var pr := VisitAll(cfg, o, clusters, Start(st.memory, st.judged), clusters);
    FailedStayOpen(cfg, o, clusters, st, clusters);
    NoneUnjudged(cfg, clusters, pr.judged);
  }

  /** Why a walk over the backlog stopped, in terms of its inputs. */
  ghost predicate Stopped(cfg: Config, o: Oracle, judged: set<string>, todo: seq<Cluster>, pr: Progress) {
    match pr.stop
    case Going => true
    case BatchLimit => pr.attempted >= Batch(cfg)
    case Deadline => exists c :: c in todo && Key(cfg, c.id) !in judged && (o.cancelled(c.id) || o.answer(c.id) == Interrupted)
    case QuotaError => exists c :: c in todo && Key(cfg, c.id) !in judged && o.answer(c.id) == Quota
    case RecordError => exists c :: c in todo && Key(cfg, c.id) !in judged && o.answer(c.id).Judged? && !o.records(c.id)
  }

  lemma {:induction false} StopTells(cfg: Config, o: Oracle, clusters: seq<Cluster>, memory: Memory, judged: set<string>, todo: seq<Cluster>)
    ensures var pr := VisitAll(cfg, o, clusters, Start(memory, judged), todo); judged <= pr.judged && Stopped(cfg, o, judged, todo, pr)
  {
    if todo != [] {
      var front, c := todo[..|todo| - 1], todo[|todo| - 1];
      StopTells(cfg, o, clusters, memory, judged, front);
      assert c in todo && forall x :: x in front ==> x in todo;
    }
  }

  /** A pass errs only for a quota answer, a checkpoint that cannot be written, or a failing enforcer. */
  lemma ErrorTells(cfg: Config, o: Oracle, clusters: seq<Cluster>, st: State)
    requires GovernancePass(cfg, o, clusters, st).1 == Error
    ensures || (exists c :: c in clusters && Key(cfg, c.id) !in st.judged && (o.answer(c.id) == Quota || (o.answer(c.id).Judged? && !o.records(c.id))))
            || (cfg.mode == Full && exists m :: !o.caps(m).fine)
  {
    StopTells(cfg, o, clusters, st.memory, st.judged, clusters);
  }

  /** A cluster whose judge call failed is not checkpointed by that pass. */
  lemma FailedStayOpen(cfg: Config, o: Oracle, clusters: seq<Cluster>, st: State, todo: seq<Cluster>)
    requires forall c :: c in todo ==> c in clusters
    ensures var pr := VisitAll(cfg, o, clusters, Start(st.memory, st.judged), todo);
            pr.failures > 0 ==> exists c :: c in clusters && Key(cfg, c.id) !in pr.judged
  {
    var pr := VisitAll(cfg, o, clusters, Start(st.memory, st.judged), todo);
    VisitsSound(cfg, o, clusters, st, todo);
    if pr.failures > 0 {
      var c :| c in clusters && Key(cfg, c.id) !in st.judged && o.answer(c.id) == Failed;
      assert Key(cfg, c.id) !in pr.judged - st.judged;
    }
  }

  // ----- shadow and merge-only -----

  predicate Attempts(out: Outcome, w: Write) { out == Applied(w) || out == WriteFailed(w) }

  /** The same entry, where shadow withholds exactly the write the other one attempts. */
  ghost predicate SameEntry(s: Entry, m: Entry) {
    && s.id == m.id && s.action == m.action
    && (forall w :: s.outcome == WouldApply(w) <==> Attempts(m.outcome, w))
    && (s.outcome.WouldApply? || s.outcome == m.outcome)
  }

  ghost predicate SameEntries(s: seq<Entry>, m: seq<Entry>) {
    |s| == |m| && forall i :: 0 <= i < |s| ==> SameEntry(s[i], m[i])
  }

  ghost predicate SameProgress(s: Progress, m: Progress) {
    && SameEntries(s.entries, m.entries) && s.judged == m.judged && s.attempted == m.attempted
    && s.processed == m.processed && s.failures == m.failures && s.stop == m.stop && !s.applied
  }

  lemma DecideSame(cfg: Config, o: Oracle, clusters: seq<Cluster>, x: Memory, y: Memory, c: Cluster, d: Decision)
    ensures var (es, ms, ws) := Decide(cfg.(mode := Shadow), o, clusters, x, c, d);
            var (em, _, _) := Decide(cfg.(mode := MergeOnly), o, clusters, y, c, d);
            ms == x && !ws && SameEntry(es, em)
  {
    assert ApplyGate(cfg.(mode := Shadow), o, c, d) == ApplyGate(cfg.(mode := MergeOnly), o, c, d);
  }

  lemma EntriesGrow(s: seq<Entry>, m: seq<Entry>, es: Entry, em: Entry)
    requires SameEntries(s, m) && SameEntry(es, em)
    ensures SameEntries(s + [es], m + [em])
  {
  }

  lemma ConcludeSame(cfg: Config, o: Oracle, clusters: seq<Cluster>, s: Progress, m: Progress, c: Cluster, d: Decision)
    requires SameProgress(s, m)
    ensures var s' := Conclude(cfg.(mode := Shadow), o, clusters, s, c, d);
            SameProgress(s', Conclude(cfg.(mode := MergeOnly), o, clusters, m, c, d)) && s'.memory == s.memory
  {
    DecideSame(cfg, o, clusters, s.memory, m.memory, c, d);
    EntriesGrow(s.entries, m.entries, Decide(cfg.(mode := Shadow), o, clusters, s.memory, c, d).0,
                Decide(cfg.(mode := MergeOnly), o, clusters, m.memory, c, d).0);
  }

  lemma VisitSame(cfg: Config, o: Oracle, clusters: seq<Cluster>, s: Progress, m: Progress, c: Cluster)
    requires SameProgress(s, m)
    ensures var s' := Visit(cfg.(mode := Shadow), o, clusters, s, c);
            SameProgress(s', Visit(cfg.(mode := MergeOnly), o, clusters, m, c)) && s'.memory == s.memory
  {
    assert Batch(cfg.(mode := Shadow)) == Batch(cfg.(mode := MergeOnly)) && Key(cfg.(mode := Shadow), c.id) == Key(cfg.(mode := MergeOnly), c.id);
    if o.answer(c.id).Judged? && s.stop == Going {
      ConcludeSame(cfg, o, clusters, s, m, c, o.answer(c.id).decision);
    }
  }

  /** Shadow changes no memory and marks would-apply on exactly the clusters where merge-only attempts that same write. */
  lemma {:induction false} ShadowForetells(cfg: Config, o: Oracle, clusters: seq<Cluster>, memory: Memory, judged: set<string>, todo: seq<Cluster>)
    ensures var s := VisitAll(cfg.(mode := Shadow), o, clusters, Start(memory, judged), todo);
            var m := VisitAll(cfg.(mode := MergeOnly), o, clusters, Start(memory, judged), todo);
            SameProgress(s, m) && s.memory == memory
  {
    if todo != [] {
      var front, c := todo[..|todo| - 1], todo[|todo| - 1];
      ShadowForetells(cfg, o, clusters, memory, judged, front);
      VisitSame(cfg, o, clusters, VisitAll(cfg.(mode := Shadow), o, clusters, Start(memory, judged), front),
                VisitAll(cfg.(mode := MergeOnly), o, clusters, Start(memory, judged), front), c);
    }
  }

  /** A shadow pass leaves the memory alone and checkpoints what a merge-only pass would. */
  lemma ShadowPass(cfg: Config, o: Oracle, clusters: seq<Cluster>, st: State)
    ensures var (s, _) := GovernancePass(cfg.(mode := Shadow), o, clusters, st);
            var (m, _) := GovernancePass(cfg.(mode := MergeOnly), o, clusters, st);
            s.memory == st.memory && s.judged == m.judged
  {
    ShadowForetells(cfg, o, clusters, st.memory, st.judged, clusters);
    SameBacklog(cfg, cfg.(mode := Shadow), clusters, st.judged);
    SameBacklog(cfg, cfg.(mode := MergeOnly), clusters, st.judged);
  }

  lemma {:induction false} SameBacklog(cfg: Config, cfg': Config, clusters: seq<Cluster>, judged: set<string>)
    requires cfg.keyPrefix == cfg'.keyPrefix
    ensures Unjudged(cfg, clusters, judged) == Unjudged(cfg', clusters, judged)
  {
    if clusters != [] {
      SameBacklog(cfg, cfg', clusters[..|clusters| - 1], judged);
    }
  }

  // ----- how many passes -----

  /** The cluster is reached, judged and checkpointed. */
  predicate Goes(o: Oracle, id: string) { o.answer(id).Judged? && !o.cancelled(id) && o.records(id) }

  /** Nothing fails and nothing is interrupted. */
  ghost predicate Smooth(o: Oracle) { forall id :: Goes(o, id) }

  /** Nothing on the backlog fails or is interrupted. */
  predicate SmoothFor(cfg: Config, o: Oracle, judged: set<string>, todo: seq<Cluster>) {
    forall c :: c in todo && Key(cfg, c.id) !in judged ==> Goes(o, c.id)
  }

  /** After visiting a prefix smoothly, as many were judged as the prefix and the batch allow. */
  ghost predicate Smoothly(cfg: Config, judged: set<string>, todo: seq<Cluster>, pr: Progress) {
    && pr.processed == pr.attempted == Min(Batch(cfg), Unjudged(cfg, todo, judged))
    && pr.failures == 0 && (pr.stop == Going || pr.stop == BatchLimit)
    && (pr.stop == BatchLimit ==> pr.attempted == Batch(cfg))
  }

  /** Checkpoints are added for visited clusters only. */
  lemma {:induction false} OnlyVisited(cfg: Config, o: Oracle, clusters: seq<Cluster>, memory: Memory, judged: set<string>, todo: seq<Cluster>, k: string)
    requires forall c :: c in todo ==> Key(cfg, c.id) != k
    ensures k in VisitAll(cfg, o, clusters, Start(memory, judged), todo).judged <==> k in judged
  {
    if todo != [] {
      OnlyVisited(cfg, o, clusters, memory, judged, todo[..|todo| - 1], k);
    }
  }

  lemma VisitSmoothly(cfg: Config, o: Oracle, clusters: seq<Cluster>, judged: set<string>, front: seq<Cluster>, c: Cluster, pr: Progress)
    requires (Key(cfg, c.id) !in judged ==> Goes(o, c.id)) && Smoothly(cfg, judged, front, pr) && (Key(cfg, c.id) in pr.judged <==> Key(cfg, c.id) in judged)
    ensures Smoothly(cfg, judged, front + [c], Visit(cfg, o, clusters, pr, c))
  {
    assert (front + [c])[..|front|] == front;
  }

  lemma {:induction false} VisitsSmoothly(cfg: Config, o: Oracle, clusters: seq<Cluster>, memory: Memory, judged: set<string>, todo: seq<Cluster>)
    requires SmoothFor(cfg, o, judged, todo) && DistinctIds(todo)
    ensures Smoothly(cfg, judged, todo, VisitAll(cfg, o, clusters, Start(memory, judged), todo))
  {
    if todo != [] {
      var front, c := todo[..|todo| - 1], todo[|todo| - 1];
      VisitsSmoothly(cfg, o, clusters, memory, judged, front);
      forall x | x in front ensures Key(cfg, x.id) != Key(cfg, c.id) {
        if Key(cfg, x.id) == Key(cfg, c.id) {
          KeyInjective(cfg, x.id, c.id);
        }
      }
      OnlyVisited(cfg, o, clusters, memory, judged, front, Key(cfg, c.id));
      assert todo == front + [c];
      VisitSmoothly(cfg, o, clusters, judged, front, c, VisitAll(cfg, o, clusters, Start(memory, judged), front));
    }
  }

  lemma SmoothPass(cfg: Config, o: Oracle, clusters: seq<Cluster>, st: State)
    requires Smooth(o) && DistinctIds(clusters) && cfg.mode == Shadow
    ensures var (st', r) := GovernancePass(cfg, o, clusters, st);
            var n := Unjudged(cfg, clusters, st.judged);
            && r.Done? && (r.complete <==> n <= Batch(cfg)) && st'.memory == st.memory
            && Unjudged(cfg, clusters, st'.judged) == n - Min(Batch(cfg), n)
  {
    VisitsSmoothly(cfg, o, clusters, st.memory, st.judged, clusters);
    VisitsSound(cfg, o, clusters, st, clusters);
    ShadowForetells(cfg, o, clusters, st.memory, st.judged, clusters);
    assert cfg.(mode := Shadow) == cfg;
  }

  /** The state after k passes, each against its own answers. */
  function Passes(cfg: Config, o: nat -> Oracle, clusters: seq<Cluster>, st: State, k: nat): State {
    if k == 0 then st else GovernancePass(cfg, o(k - 1), clusters, Passes(cfg, o, clusters, st, k - 1)).0
  }

  function CeilDiv(n: nat, b: nat): nat
    requires b > 0
  {
    (n + b - 1) / b
  }

  lemma {:induction false} BacklogAfter(cfg: Config, o: nat -> Oracle, clusters: seq<Cluster>, st: State, k: nat)
    requires (forall i :: Smooth(o(i))) && DistinctIds(clusters) && cfg.mode == Shadow
    ensures var n, st' := Unjudged(cfg, clusters, st.judged), Passes(cfg, o, clusters, st, k);
            && st'.memory == st.memory
            && Unjudged(cfg, clusters, st'.judged) == if n <= k * Batch(cfg) then 0 else n - k * Batch(cfg)
  {
    if k > 0 {
      BacklogAfter(cfg, o, clusters, st, k - 1);
      SmoothPass(cfg, o(k - 1), clusters, Passes(cfg, o, clusters, st, k - 1));
      assert k * Batch(cfg) == (k - 1) * Batch(cfg) + Batch(cfg);
    }
  }

  /** Pass k + 1 over n unjudged clusters is complete exactly from the ceil(n / batch)-th pass on. */
  lemma ShadowFinishes(cfg: Config, o: nat -> Oracle, clusters: seq<Cluster>, st: State, k: nat)
    requires (forall i :: Smooth(o(i))) && DistinctIds(clusters) && cfg.mode == Shadow
    ensures var r := GovernancePass(cfg, o(k), clusters, Passes(cfg, o, clusters, st, k)).1;
            r.Done? && (r.complete <==> CeilDiv(Unjudged(cfg, clusters, st.judged), Batch(cfg)) <= k + 1)
  {
    BacklogAfter(cfg, o, clusters, st, k);
    SmoothPass(cfg, o(k), clusters, Passes(cfg, o, clusters, st, k));
    CeilCovers(Unjudged(cfg, clusters, st.judged), Batch(cfg), k + 1);
    assert (k + 1) * Batch(cfg) == k * Batch(cfg) + Batch(cfg);
  }

  lemma CeilCovers(n: nat, b: nat, m: nat)
    requires b > 0
    ensures n <= m * b <==> CeilDiv(n, b) <= m
  {
    var q := CeilDiv(n, b);
    assert q * b <= n + b - 1 < q * b + b;
    if q <= m {
      Monotone(q, m, b);
    } else {
      Monotone(m + 1, q, b);
      assert (m + 1) * b == m * b + b;
    }
  }

  lemma Monotone(x: nat, y: nat, b: nat)
    requires x <= y
    ensures x * b <= y * b
  {
  }

  // ----- what may be written -----

  /** A write on an unprotected cluster, naming its members only, with a member's own text or text that adds no token. */
  ghost predicate SafeWrite(o: Oracle, c: Cluster, w: Write) {
    && !c.guarded
    && match w
       case Merge(ids, text) => (forall id :: id in ids ==> id in MemberIds(c)) && (text in Texts(c) || !o.novel(text, Texts(c)))
       case Archive(ids) => forall id :: id in ids ==> id in MemberIds(c)
  }

  lemma {:induction false} FindsItself(clusters: seq<Cluster>, c: Cluster)
    requires DistinctIds(clusters) && c in clusters
    ensures Find(clusters, c.id) == [c]
  {
    if clusters[0] != c {
      assert c in clusters[1..];
      FindsItself(clusters[1..], c);
      var i :| 0 < i < |clusters| && clusters[i] == c;
    }
  }

  /** The text a reinforcement writes is a member's own, equal to the judge's up to case and spacing. */
  lemma {:induction false} VerbatimIsMember(normal: string -> string, canonical: string, members: seq<string>)
    ensures var r := VerbatimMember(normal, canonical, members);
            r != "" ==> r in members && normal(r) == normal(canonical) && normal(r) != ""
    ensures VerbatimMember(normal, canonical, members) == "" && normal("") == "" ==>
              normal(canonical) == "" || forall m :: m in members ==> normal(m) != normal(canonical)
  {
    if members != [] {
      VerbatimIsMember(normal, canonical, members[1..]);
    }
  }

  lemma GateIsSafe(cfg: Config, o: Oracle, clusters: seq<Cluster>, c: Cluster, d: Decision)
    requires DistinctIds(clusters) && c in clusters && Trim(c.id) == c.id
    requires Valid(clusters, c, d) && ApplyGate(cfg, o, c, d).Pass?
    ensures SafeWrite(o, c, ApplyGate(cfg, o, c, d).write)
    ensures d.action in {"MERGE", "REINFORCE", "ARCHIVE"} && (ApplyGate(cfg, o, c, d).write.Archive? <==> d.action == "ARCHIVE")
    ensures d.confidence >= if d.action == "MERGE" then MergeGate(cfg) else if d.action == "REINFORCE" then ReinforceGate(cfg) else ArchiveGate(cfg)
    ensures d.action == "REINFORCE" ==> ApplyGate(cfg, o, c, d).write.text in Texts(c)
  {
    FindsItself(clusters, c);
    VerbatimIsMember(o.normal, d.canonical, Texts(c));
  }

  /**
   Which decisions pass, and what they write: a merge of sufficient confidence that adds
   no token, a reinforcement of sufficient confidence that equals some member up to
   case and spacing, an archive of sufficient confidence, and nothing else. The write names
   the decision's members, or the whole cluster where it names fewer than two.
   */
  lemma GateExactly(cfg: Config, o: Oracle, c: Cluster, d: Decision)
    requires o.normal("") == ""
    ensures var gate := ApplyGate(cfg, o, c, d);
            var ids := if |d.memberIds| >= 2 then d.memberIds else seq(|c.members|, i requires 0 <= i < |c.members| => c.members[i].id);
            && (gate.Pass? ==> d.action in {"MERGE", "REINFORCE", "ARCHIVE"})
            && (d.action == "MERGE" ==>
                  if d.confidence >= (if cfg.mergeSetting > 0.0 then cfg.mergeSetting else 0.95) && !o.novel(d.canonical, Texts(c))
                  then gate == Pass(Merge(ids, d.canonical)) else gate == Refuse)
            && (d.action == "REINFORCE" ==>
                  if && d.confidence >= (if cfg.reinforceSetting > 0.0 then cfg.reinforceSetting else 0.90)
                     && o.normal(d.canonical) != "" && exists i :: 0 <= i < |c.members| && o.normal(c.members[i].content) == o.normal(d.canonical)
                  then gate.Pass? && gate.write.Merge? && gate.write.ids == ids && o.normal(gate.write.text) == o.normal(d.canonical) && gate.write.text in Texts(c)
                  else gate == Refuse)
            && (d.action == "ARCHIVE" ==>
                  if d.confidence >= (if cfg.archiveSetting > 0.0 then cfg.archiveSetting else 0.90) then gate == Pass(Archive(ids)) else gate == Refuse)
            && (d.action == "SUPERSEDE" ==> gate == Refuse) && (d.action == "KEEP" || d.action == "CONFLICT" ==> gate == Nothing)
  {
    VerbatimIsMember(o.normal, d.canonical, Texts(c));
    SomeTextMatches(o.normal, c, o.normal(d.canonical));
  }

  lemma SomeTextMatches(normal: string -> string, c: Cluster, wanted: string)
    ensures (exists i :: 0 <= i < |c.members| && normal(c.members[i].content) == wanted) <==> exists m :: m in Texts(c) && normal(m) == wanted
  {
    if i :| 0 <= i < |c.members| && normal(c.members[i].content) == wanted {
      assert Texts(c)[i] in Texts(c);
    }
    if m :| m in Texts(c) && normal(m) == wanted {
      var i :| 0 <= i < |c.members| && Texts(c)[i] == m;
    }
  }

  /** The decision cannot stand for the cluster. */
  predicate Unsound(c: Cluster, d: Decision) {
    || d.action !in {"KEEP", "MERGE", "REINFORCE", "SUPERSEDE", "CONFLICT", "ARCHIVE"}
    || d.confidence < 0.0 || d.confidence > 1.0
    || (c.guarded && d.action != "KEEP" && d.action != "CONFLICT")
    || ((d.action == "MERGE" || d.action == "REINFORCE" || d.action == "SUPERSEDE") && Trim(d.canonical) == "")
    || exists k :: 0 <= k < |d.memberIds| && Foreign(c, d.memberIds[k])
  }

  predicate Foreign(c: Cluster, id: string) { forall i :: 0 <= i < |c.members| ==> c.members[i].id != id }

  lemma UnsoundExactly(clusters: seq<Cluster>, c: Cluster, d: Decision)
    requires DistinctIds(clusters) && c in clusters && Trim(c.id) == c.id
    ensures Valid(clusters, c, d) <==> !Unsound(c, d)
  {
    FindsItself(clusters, c);
    MembersByIndex(c, d);
  }

  lemma {:induction false} NotFound(clusters: seq<Cluster>, id: string)
    requires forall x :: x in clusters ==> x.id != id
    ensures Find(clusters, id) == []
  {
    if clusters != [] {
      assert clusters[0] in clusters && forall x :: x in clusters[1..] ==> x in clusters;
      NotFound(clusters[1..], id);
    }
  }

  /** A cluster whose id loses its padding on the way back is not found again: its decision is set aside and the memory left alone. */
  lemma PaddedIdIsSetAside(cfg: Config, o: Oracle, clusters: seq<Cluster>, memory: Memory, c: Cluster, d: Decision)
    requires forall x :: x in clusters ==> x.id != Trim(c.id)
    ensures Decide(cfg, o, clusters, memory, c, d) == (Entry(c.id, "KEEP", Rejected), memory, false)
  {
    NotFound(clusters, Trim(c.id));
  }

  lemma ForeignIsNoMember(c: Cluster, id: string)
    ensures Foreign(c, id) <==> id !in MemberIds(c)
  {
    if id in MemberIds(c) {
      var i :| 0 <= i < |MemberIds(c)| && MemberIds(c)[i] == id;
      assert c.members[i].id == id;
    } else {
      forall i | 0 <= i < |c.members| ensures c.members[i].id != id {
        assert MemberIds(c)[i] in MemberIds(c);
      }
    }
  }

  lemma MembersByIndex(c: Cluster, d: Decision)
    ensures (forall id :: id in d.memberIds ==> id in MemberIds(c)) <==> !exists k :: 0 <= k < |d.memberIds| && Foreign(c, d.memberIds[k])
  {
    forall id ensures Foreign(c, id) <==> id !in MemberIds(c) {
      ForeignIsNoMember(c, id);
    }
  }

  /**
   What one decision does to the memory: an unsound one is set aside as KEEP, one that does
   not pass its gate is noted under its own action, and neither touches the memory; one
   that passes is withheld in shadow and otherwise written as the store answers.
   */
  lemma DecisionDoes(cfg: Config, o: Oracle, clusters: seq<Cluster>, memory: Memory, c: Cluster, d: Decision)
    requires DistinctIds(clusters) && c in clusters && Trim(c.id) == c.id
    ensures var (e, after, wrote) := Decide(cfg, o, clusters, memory, c, d);
            var gate := ApplyGate(cfg, o, c, d);
            && e.id == c.id && e.action == (if Unsound(c, d) then "KEEP" else d.action)
            && (Unsound(c, d) || !gate.Pass? || cfg.mode == Shadow ==> after == memory && !wrote)
            && (e.outcome == Rejected <==> Unsound(c, d) || gate == Refuse)
            && (!Unsound(c, d) && gate.Pass? && cfg.mode == Shadow ==> e.outcome == WouldApply(gate.write))
            && (!Unsound(c, d) && gate.Pass? && cfg.mode != Shadow ==>
                  && Written(after, wrote) == o.perform(memory, gate.write)
                  && e.outcome == if wrote then Applied(gate.write) else WriteFailed(gate.write))
  {
    UnsoundExactly(clusters, c, d);
  }

  ghost predicate SafeEntry(o: Oracle, clusters: seq<Cluster>, e: Entry) {
    forall w :: e.outcome == WouldApply(w) || Attempts(e.outcome, w) ==> exists c :: c in clusters && c.id == e.id && SafeWrite(o, c, w)
  }

  /** Every write of every pass, attempted or withheld, is safe for its own cluster. */
  lemma {:induction false} WritesAreSafe(cfg: Config, o: Oracle, clusters: seq<Cluster>, memory: Memory, judged: set<string>, todo: seq<Cluster>)
    requires DistinctIds(clusters) && (forall c :: c in clusters ==> Trim(c.id) == c.id) && forall c :: c in todo ==> c in clusters
    ensures forall e :: e in VisitAll(cfg, o, clusters, Start(memory, judged), todo).entries ==> SafeEntry(o, clusters, e)
  {
    if todo != [] {
      var front, c := todo[..|todo| - 1], todo[|todo| - 1];
      WritesAreSafe(cfg, o, clusters, memory, judged, front);
      var pr := VisitAll(cfg, o, clusters, Start(memory, judged), front);
      if o.answer(c.id).Judged? {
        var d := o.answer(c.id).decision;
        DecideSafe(cfg, o, clusters, pr.memory, c, d);
      }
    }
  }

  lemma DecideSafe(cfg: Config, o: Oracle, clusters: seq<Cluster>, memory: Memory, c: Cluster, d: Decision)
    requires DistinctIds(clusters) && c in clusters && Trim(c.id) == c.id
    ensures SafeEntry(o, clusters, Decide(cfg, o, clusters, memory, c, d).0)
  {
    if Valid(clusters, c, d) && ApplyGate(cfg, o, c, d).Pass? {
      GateIsSafe(cfg, o, clusters, c, d);
    }
  }
}
