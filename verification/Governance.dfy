/**
 One bounded governance pass over candidate clusters: judge, validate, gate,
 write or only report, checkpoint. The judge, the store's writes and the clock
 answer arbitrarily.
 */
module Governance {
  import opened SkillText

  datatype Member = Member(id: string, content: string)
  datatype Cluster = Cluster(id: string, members: seq<Member>, guarded: bool)
  datatype Decision = Decision(action: string, canonical: string, confidence: real, memberIds: seq<string>)

  datatype Mode = Shadow | MergeOnly | Full

  /** The settings as written: a value that is not positive means its default. */
  datatype Config = Config(mode: Mode, keyPrefix: string, batchSetting: int,
                           mergeSetting: real, reinforceSetting: real, archiveSetting: real)

  function Batch(cfg: Config): (b: nat)
    ensures b >= 1 && (b == cfg.batchSetting || (b == 8 && cfg.batchSetting <= 0))
  {
    if cfg.batchSetting > 0 then cfg.batchSetting else 8
  }
  function MergeGate(cfg: Config): real { if cfg.mergeSetting > 0.0 then cfg.mergeSetting else 0.95 }
  function ReinforceGate(cfg: Config): real { if cfg.reinforceSetting > 0.0 then cfg.reinforceSetting else 0.90 }
  function ArchiveGate(cfg: Config): real { if cfg.archiveSetting > 0.0 then cfg.archiveSetting else 0.90 }

  function Key(cfg: Config, id: string): string { cfg.keyPrefix + id }

  type Memory = map<string, string>

  datatype Write = Merge(ids: seq<string>, text: string) | Archive(archived: seq<string>)

  datatype Answer = Judged(decision: Decision) | Quota | Interrupted | Failed

  datatype Written = Written(memory: Memory, ok: bool)
  datatype Caps = Caps(after: Memory, changed: bool, fine: bool)

  /** Everything the pass cannot decide itself. A failing write may still have changed the memory. */
  datatype Oracle = Oracle(
    cancelled: string -> bool, answer: string -> Answer, perform: (Memory, Write) -> Written, records: string -> bool,
    caps: Memory -> Caps, normal: string -> string, novel: (string, seq<string>) -> bool)

  // ----- validation and gates -----

  function Find(clusters: seq<Cluster>, id: string): seq<Cluster> {
    if clusters == [] then [] else if clusters[0].id == id then [clusters[0]] else Find(clusters[1..], id)
  }

  const ACTIONS: set<string> := {"KEEP", "MERGE", "REINFORCE", "SUPERSEDE", "CONFLICT", "ARCHIVE"}

  function MemberIds(c: Cluster): seq<string> { seq(|c.members|, i requires 0 <= i < |c.members| => c.members[i].id) }
  function Texts(c: Cluster): seq<string> { seq(|c.members|, i requires 0 <= i < |c.members| => c.members[i].content) }

  predicate ValidFor(c: Cluster, d: Decision) {
    && d.action in ACTIONS && 0.0 <= d.confidence <= 1.0
    && (c.guarded ==> d.action == "KEEP" || d.action == "CONFLICT")
    && (d.action in {"MERGE", "REINFORCE", "SUPERSEDE"} ==> Trim(d.canonical) != "")
    && forall id :: id in d.memberIds ==> id in MemberIds(c)
  }

  /** The decision names the cluster it was asked about; the report is searched for that name. */
  predicate Valid(clusters: seq<Cluster>, c: Cluster, d: Decision) {
    var found := Find(clusters, Trim(c.id));
    found != [] && ValidFor(found[0], d)
  }

  function VerbatimMember(normal: string -> string, canonical: string, members: seq<string>): string {
    if members == [] || normal(canonical) == "" then ""
    else if normal(members[0]) == normal(canonical) then members[0]
    else VerbatimMember(normal, canonical, members[1..])
  }

  datatype Gate = Pass(write: Write) | Refuse | Nothing

  function WriteIds(c: Cluster, d: Decision): seq<string> { if |d.memberIds| < 2 then MemberIds(c) else d.memberIds }

  function ApplyGate(cfg: Config, o: Oracle, c: Cluster, d: Decision): Gate {
    if d.action == "MERGE" then
      if d.confidence < MergeGate(cfg) || o.novel(d.canonical, Texts(c)) then Refuse
      else Pass(Merge(WriteIds(c, d), d.canonical))
    else if d.action == "REINFORCE" then
      var text := VerbatimMember(o.normal, d.canonical, Texts(c));
      if d.confidence < ReinforceGate(cfg) || text == "" then Refuse else Pass(Merge(WriteIds(c, d), text))
    else if d.action == "ARCHIVE" then
      if d.confidence < ArchiveGate(cfg) then Refuse else Pass(Archive(WriteIds(c, d)))
    else if d.action == "SUPERSEDE" then Refuse
    else Nothing
  }

  // ----- one cluster -----

  datatype Outcome = Kept | Rejected | WouldApply(withheld: Write) | Applied(done: Write) | WriteFailed(tried: Write)
  datatype Entry = Entry(id: string, action: string, outcome: Outcome)

  datatype Stop = Going | BatchLimit | Deadline | QuotaError | RecordError

  datatype Progress = Progress(memory: Memory, judged: set<string>, entries: seq<Entry>, attempted: nat,
                               processed: nat, failures: nat, applied: bool, stop: Stop)

  /** What becomes of one decision: the entry, the memory after it, and whether a write succeeded. */
  function Decide(cfg: Config, o: Oracle, clusters: seq<Cluster>, memory: Memory, c: Cluster, d: Decision): (Entry, Memory, bool) {
    if !Valid(clusters, c, d) then (Entry(c.id, "KEEP", Rejected), memory, false)
    else match ApplyGate(cfg, o, c, d)
      case Refuse => (Entry(c.id, d.action, Rejected), memory, false)
      case Nothing => (Entry(c.id, d.action, Kept), memory, false)
      case Pass(w) =>
        if cfg.mode == Shadow then (Entry(c.id, d.action, WouldApply(w)), memory, false)
        else
          var r := o.perform(memory, w);
          (Entry(c.id, d.action, if r.ok then Applied(w) else WriteFailed(w)), r.memory, r.ok)
  }

  function Conclude(cfg: Config, o: Oracle, clusters: seq<Cluster>, pr: Progress, c: Cluster, d: Decision): Progress {
    var (entry, memory, wrote) := Decide(cfg, o, clusters, pr.memory, c, d);
    var pr' := pr.(memory := memory, applied := pr.applied || wrote, attempted := pr.attempted + 1);
    if !o.records(c.id) then pr'.(stop := RecordError)
    else pr'.(judged := pr.judged + {Key(cfg, c.id)}, processed := pr.processed + 1, entries := pr.entries + [entry])
  }

  function Visit(cfg: Config, o: Oracle, clusters: seq<Cluster>, pr: Progress, c: Cluster): Progress {
    if pr.stop != Going then pr
    else if pr.attempted >= Batch(cfg) then pr.(stop := BatchLimit)
    else if Key(cfg, c.id) in pr.judged then pr
    else if o.cancelled(c.id) then pr.(stop := Deadline)
    else match o.answer(c.id)
      case Quota => pr.(attempted := pr.attempted + 1, stop := QuotaError)
      case Interrupted => pr.(attempted := pr.attempted + 1, stop := Deadline)
      case Failed => pr.(attempted := pr.attempted + 1, failures := pr.failures + 1)
      case Judged(d) => Conclude(cfg, o, clusters, pr, c, d)
  }

  function Start(memory: Memory, judged: set<string>): Progress { Progress(memory, judged, [], 0, 0, 0, false, Going) }

  function VisitAll(cfg: Config, o: Oracle, clusters: seq<Cluster>, pr: Progress, todo: seq<Cluster>): Progress {
    if todo == [] then pr
    else Visit(cfg, o, clusters, VisitAll(cfg, o, clusters, pr, todo[..|todo| - 1]), todo[|todo| - 1])
  }

  function Unjudged(cfg: Config, clusters: seq<Cluster>, judged: set<string>): nat {
    if clusters == [] then 0
    else Unjudged(cfg, clusters[..|clusters| - 1], judged)
         + if Key(cfg, clusters[|clusters| - 1].id) in judged then 0 else 1
  }

  // ----- the whole pass -----

  datatype Reason = Complete | MemoryChanged | BacklogRemaining | BatchFull | OutOfTime | JudgeFailures

  datatype Result = Error | Done(complete: bool, remaining: nat, judgedNow: nat, reason: Reason)

  datatype State = State(memory: Memory, judged: set<string>)

  function StopReason(stop: Stop): Reason {
    if stop == BatchLimit then BatchFull else if stop == Deadline then OutOfTime else BacklogRemaining
  }

  /** The closing verdict of a pass that had a backlog. */
  function Verdict(before: nat, pr: Progress, changed: bool): Result {
    var left: nat := if before < pr.processed then 0 else before - pr.processed;
    if left == 0 && pr.failures == 0 && !changed then Done(true, 0, pr.processed, Complete)
    else if StopReason(pr.stop) == BacklogRemaining && pr.failures > 0 then Done(false, left, pr.processed, JudgeFailures)
    else if changed && left == 0 then Done(false, 1, pr.processed, MemoryChanged)
    else Done(false, left, pr.processed, StopReason(pr.stop))
  }

  function Caught(cfg: Config, o: Oracle, st: State): (State, Result) {
    if cfg.mode != Full then (st, Done(true, 0, 0, Complete))
    else
      var caps := o.caps(st.memory);
      (State(caps.after, st.judged),
       if !caps.fine then Error else if caps.changed then Done(false, 1, 0, MemoryChanged) else Done(true, 0, 0, Complete))
  }

  function Backlog(cfg: Config, o: Oracle, before: nat, pr: Progress): (State, Result) {
    if pr.stop == QuotaError || pr.stop == RecordError then (State(pr.memory, pr.judged), Error)
    else if cfg.mode != Full then (State(pr.memory, pr.judged), Verdict(before, pr, pr.applied))
    else
      var caps := o.caps(pr.memory);
      (State(caps.after, pr.judged), if caps.fine then Verdict(before, pr, pr.applied || caps.changed) else Error)
  }

  function GovernancePass(cfg: Config, o: Oracle, clusters: seq<Cluster>, st: State): (State, Result) {
    var before := Unjudged(cfg, clusters, st.judged);
    if before == 0 then Caught(cfg, o, st)
    else Backlog(cfg, o, before, VisitAll(cfg, o, clusters, Start(st.memory, st.judged), clusters))
  }

  // ----- the pass as the program runs it -----

  /** How listing memories and checkpoints went: failed, fewer than two memories, or ready. */
  datatype Listing = ListFails | TooFew | Ready

  class GovernanceStore {
    var memory: Memory
    var judged: set<string>

    constructor (memory: Memory, judged: set<string>)
      ensures this.memory == memory && this.judged == judged
    {
      this.memory, this.judged := memory, judged;
    }

    function Now(): State
      reads this
    {
      State(memory, judged)
    }

    method CountBacklog(cfg: Config, clusters: seq<Cluster>) returns (n: nat)
      ensures n == Unjudged(cfg, clusters, judged)
    {
      n := 0;
      for i := 0 to |clusters|
        invariant n == Unjudged(cfg, clusters[..i], judged)
      {
        assert clusters[..i + 1][..i] == clusters[..i];
        if Key(cfg, clusters[i].id) !in judged {
          n := n + 1;
        }
      }
      assert clusters[..|clusters|] == clusters;
    }

    /** Validates, gates and writes (or withholds) one decision. */
    method Apply(cfg: Config, o: Oracle, clusters: seq<Cluster>, c: Cluster, d: Decision) returns (entry: Entry, wrote: bool)
      modifies this`memory
      ensures (entry, memory, wrote) == Decide(cfg, o, clusters, old(memory), c, d)
    {
      wrote := false;
      if !Valid(clusters, c, d) {
        entry := Entry(c.id, "KEEP", Rejected);
      } else {
        var gate := ApplyGate(cfg, o, c, d);
        match gate {
          case Refuse => entry := Entry(c.id, d.action, Rejected);
          case Nothing => entry := Entry(c.id, d.action, Kept);
          case Pass(w) =>
            if cfg.mode == Shadow {
              entry := Entry(c.id, d.action, WouldApply(w));
            } else {
              var r := o.perform(memory, w);
              memory, wrote := r.memory, r.ok;
              entry := Entry(c.id, d.action, if wrote then Applied(w) else WriteFailed(w));
            }
        }
      }
    }

    method JudgeBacklog(cfg: Config, o: Oracle, clusters: seq<Cluster>) returns (pr: Progress)
      modifies this
      ensures pr == VisitAll(cfg, o, clusters, Start(old(memory), old(judged)), clusters)
      ensures memory == pr.memory && judged == pr.judged
    {
      ghost var s := Start(memory, judged);
      var entries, attempted: nat, processed: nat, failures: nat, applied, stop := [], 0, 0, 0, false, Going;
      var i := 0;
      while i < |clusters| && stop == Going
        invariant 0 <= i <= |clusters|
        invariant VisitAll(cfg, o, clusters, s, clusters[..i])
               == Progress(memory, judged, entries, attempted, processed, failures, applied, stop)
      {
        var c := clusters[i];
        assert clusters[..i + 1][..i] == clusters[..i];
        if attempted >= Batch(cfg) {
          stop := BatchLimit;
        } else if Key(cfg, c.id) !in judged {
          if o.cancelled(c.id) {
            stop := Deadline;
          } else {
            attempted := attempted + 1;
            match o.answer(c.id) {
              case Quota => stop := QuotaError;
              case Interrupted => stop := Deadline;
              case Failed => failures := failures + 1;
              case Judged(d) =>
                var entry, wrote := Apply(cfg, o, clusters, c, d);
                applied := applied || wrote;
                if o.records(c.id) {
                  judged := judged + {Key(cfg, c.id)};
                  processed, entries := processed + 1, entries + [entry];
                } else {
                  stop := RecordError;
                }
            }
          }
        }
        i := i + 1;
      }
      pr := Progress(memory, judged, entries, attempted, processed, failures, applied, stop);
      if i < |clusters| {
        StoppedStays(cfg, o, clusters, s, i);
      }
      assert clusters[..|clusters|] == clusters;
    }

    method RunGovernanceOnce(cfg: Config, o: Oracle, clusters: seq<Cluster>, start: Listing) returns (r: Result, entries: seq<Entry>)
      modifies this
      ensures start == Ready ==> (Now(), r) == GovernancePass(cfg, o, clusters, old(Now()))
      ensures start != Ready ==> Now() == old(Now()) && entries == [] && r == if start == TooFew then Done(true, 0, 0, Complete) else Error
    {
      entries := [];
      if start != Ready {
        r := if start == TooFew then Done(true, 0, 0, Complete) else Error;
        return;
      }
      var before := CountBacklog(cfg, clusters);
      if before == 0 {
        r := Done(true, 0, 0, Complete);
        if cfg.mode == Full {
          var caps := o.caps(memory);
          memory := caps.after;
          r := if !caps.fine then Error else if caps.changed then Done(false, 1, 0, MemoryChanged) else r;
        }
        return;
      }
      var pr := JudgeBacklog(cfg, o, clusters);
      entries := pr.entries;
      if pr.stop == QuotaError || pr.stop == RecordError {
        return Error, entries;
      }
      var changed := pr.applied;
      if cfg.mode == Full {
        var caps := o.caps(memory);
        memory := caps.after;
        if !caps.fine {
          return Error, entries;
        }
        changed := changed || caps.changed;
      }
      r := Verdict(before, pr, changed);
    }
  }

  lemma {:induction false} StoppedStays(cfg: Config, o: Oracle, clusters: seq<Cluster>, pr: Progress, i: nat)
    requires i <= |clusters| && VisitAll(cfg, o, clusters, pr, clusters[..i]).stop != Going
    ensures VisitAll(cfg, o, clusters, pr, clusters) == VisitAll(cfg, o, clusters, pr, clusters[..i])
  {
    StoppedStaysIn(cfg, o, clusters, clusters, pr, i);
  }

  lemma {:induction false} StoppedStaysIn(cfg: Config, o: Oracle, clusters: seq<Cluster>, todo: seq<Cluster>, pr: Progress, i: nat)
    requires i <= |todo| && VisitAll(cfg, o, clusters, pr, todo[..i]).stop != Going
    ensures VisitAll(cfg, o, clusters, pr, todo) == VisitAll(cfg, o, clusters, pr, todo[..i])
  {
    if i == |todo| {
      assert todo[..i] == todo;
    } else {
      var front := todo[..|todo| - 1];
      assert front[..i] == todo[..i];
      StoppedStaysIn(cfg, o, clusters, front, pr, i);
    }
  }

  // ----- complete means checkpointed and unchanged -----

  lemma KeyInjective(cfg: Config, a: string, b: string)
    requires Key(cfg, a) == Key(cfg, b)
    ensures a == b
  {
    assert a == Key(cfg, a)[|cfg.keyPrefix|..] && b == Key(cfg, b)[|cfg.keyPrefix|..];
  }

  predicate DistinctIds(clusters: seq<Cluster>) { forall i, j :: 0 <= i < j < |clusters| ==> clusters[i].id != clusters[j].id }

  lemma {:induction false} UnjudgedSame(cfg: Config, clusters: seq<Cluster>, judged: set<string>, key: string)
    requires forall c :: c in clusters ==> Key(cfg, c.id) != key
    ensures Unjudged(cfg, clusters, judged + {key}) == Unjudged(cfg, clusters, judged)
  {
    if clusters != [] {
      UnjudgedSame(cfg, clusters[..|clusters| - 1], judged, key);
    }
  }

  lemma {:induction false} UnjudgedShrinks(cfg: Config, clusters: seq<Cluster>, judged: set<string>, key: string)
    ensures Unjudged(cfg, clusters, judged + {key}) <= Unjudged(cfg, clusters, judged)
  {
    if clusters != [] {
      UnjudgedShrinks(cfg, clusters[..|clusters| - 1], judged, key);
    }
  }

  /** A new checkpoint takes its cluster off the backlog, and nothing else when ids are distinct. */
  lemma {:induction false} UnjudgedDrops(cfg: Config, clusters: seq<Cluster>, judged: set<string>, c: Cluster)
    requires c in clusters && Key(cfg, c.id) !in judged
    ensures Unjudged(cfg, clusters, judged + {Key(cfg, c.id)}) + 1 <= Unjudged(cfg, clusters, judged)
    ensures DistinctIds(clusters) ==> Unjudged(cfg, clusters, judged + {Key(cfg, c.id)}) + 1 == Unjudged(cfg, clusters, judged)
  {
    var front, last := clusters[..|clusters| - 1], clusters[|clusters| - 1];
    if last == c {
      UnjudgedShrinks(cfg, front, judged, Key(cfg, c.id));
      if DistinctIds(clusters) {
        forall x | x in front ensures Key(cfg, x.id) != Key(cfg, c.id) {
          if Key(cfg, x.id) == Key(cfg, c.id) {
            KeyInjective(cfg, x.id, c.id);
          }
        }
        UnjudgedSame(cfg, front, judged, Key(cfg, c.id));
      }
    } else {
      UnjudgedDrops(cfg, front, judged, c);
      if DistinctIds(clusters) && Key(cfg, last.id) == Key(cfg, c.id) {
        KeyInjective(cfg, last.id, c.id);
      }
    }
  }

  lemma {:induction false} NoneUnjudged(cfg: Config, clusters: seq<Cluster>, judged: set<string>)
    ensures Unjudged(cfg, clusters, judged) == 0 <==> forall c :: c in clusters ==> Key(cfg, c.id) in judged
  {
    if clusters != [] {
      var front, last := clusters[..|clusters| - 1], clusters[|clusters| - 1];
      assert clusters == front + [last];
      NoneUnjudged(cfg, front, judged);
    }
  }
}
