/**
 The probe lanes of model-change validation as a step machine: lanes run
 concurrently, each one probe at a time; outcomes pass through a bounded channel
 and are projected back onto the routes. Every schedule is a sequence of steps.
 */
module ModelChangeLanes {
  import opened Basics
  import opened ModelChange

  datatype Message = Message(target: nat, result: Result)

  /** What is fixed once the lanes start: recalled targets never enter a lane. */
  datatype Job = Job(routes: seq<string>, resolve: string -> Resolved, targets: seq<Target>, settled: map<nat, Result>,
                     recalled: map<nat, Result>, lanes: map<string, seq<nat>>, ttl: int)

  function Upto(n: nat): set<nat> { if n == 0 then {} else Upto(n - 1) + {n - 1} }

  lemma {:induction false} UptoIs(n: nat)
    ensures |Upto(n)| == n && forall t: nat :: t in Upto(n) <==> t < n
  {
    if n > 0 {
      UptoIs(n - 1);
    }
  }

  function All(job: Job): set<nat> { Upto(|job.targets|) }

  function LaneMembers(targets: seq<Target>, direct: set<nat>, upTo: nat, lane: string): set<nat>
    requires upTo <= |targets|
  {
    set t: nat | t < upTo && t !in direct && targets[t].lane == lane
  }

  /** Each lane lists its own targets in order; every target that was not recalled is in its lane. */
  ghost predicate IsLanes(targets: seq<Target>, direct: set<nat>, upTo: nat, lanes: map<string, seq<nat>>)
    requires upTo <= |targets|
  {
    && (forall l :: l in lanes ==> Rising(lanes[l]) && Elements(lanes[l]) == LaneMembers(targets, direct, upTo, l))
    && (forall t: nat :: t < upTo && t !in direct ==> targets[t].lane in lanes)
  }

  function Targets(channel: seq<Message>): seq<nat> { seq(|channel|, i requires 0 <= i < |channel| => channel[i].target) }

  /** The recalled targets in the channel, ready to be received. */
  ghost predicate IsPrefilled(recalled: map<nat, Result>, channel: seq<Message>) {
    && NoDup(Targets(channel)) && Elements(Targets(channel)) == recalled.Keys
    && (forall m :: m in channel ==> m.target in recalled && recalled[m.target] == m.result)
  }

  ghost predicate IsJob(job: Job) {
    && IsGrouped(job.routes, job.resolve, |job.routes|, job.targets, job.settled)
    && job.recalled.Keys <= All(job)
    && IsLanes(job.targets, job.recalled.Keys, |job.targets|, job.lanes)
  }

  // ----- before the lanes start -----

  lemma LaneMembersGrow(targets: seq<Target>, direct: set<nat>, t: nat, lane: string)
    requires t < |targets| && forall x :: x in direct ==> x < t
    ensures LaneMembers(targets, direct + {t}, t + 1, lane) == LaneMembers(targets, direct, t, lane)
    ensures LaneMembers(targets, direct, t + 1, lane)
         == LaneMembers(targets, direct, t, lane) + if targets[t].lane == lane then {t} else {}
  {
  }

  lemma SkipLane(targets: seq<Target>, direct: set<nat>, t: nat, lanes: map<string, seq<nat>>)
    requires t < |targets| && IsLanes(targets, direct, t, lanes) && forall x :: x in direct ==> x < t
    ensures IsLanes(targets, direct + {t}, t + 1, lanes)
  {
    forall l | l in lanes ensures Rising(lanes[l]) && Elements(lanes[l]) == LaneMembers(targets, direct + {t}, t + 1, l) {
      LaneMembersGrow(targets, direct, t, l);
    }
  }

  lemma JoinLane(targets: seq<Target>, direct: set<nat>, t: nat, lanes: map<string, seq<nat>>)
    requires t < |targets| && IsLanes(targets, direct, t, lanes) && forall x :: x in direct ==> x < t
    ensures var l := targets[t].lane;
            IsLanes(targets, direct, t + 1, lanes[l := (if l in lanes then lanes[l] else []) + [t]])
  {
    var own := targets[t].lane;
    var was := if own in lanes then lanes[own] else [];
    var lanes' := lanes[own := was + [t]];
    forall l | l in lanes' ensures Rising(lanes'[l]) && Elements(lanes'[l]) == LaneMembers(targets, direct, t + 1, l) {
      LaneMembersGrow(targets, direct, t, l);
      if l == own {
        assert Elements(was) == LaneMembers(targets, direct, t, own);
        ElementsGrow(was, t);
      }
    }
  }

  lemma Prefill(recalled: map<nat, Result>, channel: seq<Message>, t: nat, r: Result)
    requires IsPrefilled(recalled, channel) && t !in recalled
    ensures IsPrefilled(recalled[t := r], channel + [Message(t, r)])
  {
    assert Targets(channel + [Message(t, r)]) == Targets(channel) + [t];
    forall k | 0 <= k < |channel| ensures Targets(channel)[k] != t {
      assert Targets(channel)[k] in Elements(Targets(channel));
    }
    assert Elements(Targets(channel) + [t]) == Elements(Targets(channel)) + {t};
  }

  /** Target t was recalled exactly as the cache must answer at its time. */
  ghost predicate AnswersFor(events: seq<Event>, target: Target, now: int, ttl: int, recalled: map<nat, Result>, t: nat) {
    Evidence(events, target.evidence, now, ttl) == if t in recalled then Some(recalled[t]) else None
  }

  ghost predicate Recalls(events: seq<Event>, targets: seq<Target>, clock: seq<int>, ttl: int, recalled: map<nat, Result>, upTo: nat)
    requires upTo <= |targets| && |clock| == |targets|
  {
    (forall t :: t in recalled ==> t < upTo)
    && forall t: nat :: t < upTo ==> AnswersFor(events, targets[t], clock[t], ttl, recalled, t)
  }

  lemma RecallMore(events: seq<Event>, targets: seq<Target>, clock: seq<int>, ttl: int, recalled: map<nat, Result>, t: nat, hit: Option<Result>)
    requires t < |targets| == |clock| && Recalls(events, targets, clock, ttl, recalled, t)
    requires hit == Evidence(events, targets[t].evidence, clock[t], ttl)
    ensures Recalls(events, targets, clock, ttl, if hit.Some? then recalled[t := hit.value] else recalled, t + 1)
  {
    var recalled' := if hit.Some? then recalled[t := hit.value] else recalled;
    forall x: nat | x < t + 1 ensures AnswersFor(events, targets[x], clock[x], ttl, recalled', x) {
      if x < t {
        assert AnswersFor(events, targets[x], clock[x], ttl, recalled, x);
      }
    }
  }

  /** Recalls what it can and queues the rest in lanes; the channel has room for every target. */
  method OpenLanes(v: ModelChangeValidator, targets: seq<Target>, clock: seq<int>)
    returns (recalled: map<nat, Result>, channel: seq<Message>, lanes: map<string, seq<nat>>)
    requires v.Valid() && |clock| == |targets| && (forall i :: 0 <= i < |clock| ==> v.seen <= clock[i])
    requires forall i, j :: 0 <= i < j < |clock| ==> clock[i] <= clock[j]
    modifies v
    ensures v.Valid() && v.events == old(v.events)
    ensures IsLanes(targets, recalled.Keys, |targets|, lanes) && IsPrefilled(recalled, channel) && |channel| <= |targets|
    ensures Recalls(v.events, targets, clock, v.ttl, recalled, |targets|)
  {
    recalled, channel, lanes := map[], [], map[];
    var t := 0;
    while t < |targets|
      invariant 0 <= t <= |targets| && v.Valid() && v.events == old(v.events) && (t < |targets| ==> v.seen <= clock[t])
      invariant IsLanes(targets, recalled.Keys, t, lanes) && IsPrefilled(recalled, channel) && |channel| <= t
      invariant Recalls(v.events, targets, clock, v.ttl, recalled, t)
    {
      var hit := v.Recall(targets[t].evidence, clock[t]);
      RecallMore(v.events, targets, clock, v.ttl, recalled, t, hit);
      if hit.Some? {
        assert |channel| < |targets|;
        SkipLane(targets, recalled.Keys, t, lanes);
        Prefill(recalled, channel, t, hit.value);
        assert recalled[t := hit.value].Keys == recalled.Keys + {t};
        channel, recalled := channel + [Message(t, hit.value)], recalled[t := hit.value];
      } else {
        var l := targets[t].lane;
        JoinLane(targets, recalled.Keys, t, lanes);
        lanes := lanes[l := (if l in lanes then lanes[l] else []) + [t]];
      }
      t := t + 1;
    }
  }

  /** What the cache may answer: the latest passing result, if at most ttl old. */
  function Evidence(events: seq<Event>, key: string, now: int, ttl: int): Option<Result> {
    var latest := LatestPass(events, key);
    if latest.Some? && now - latest.value.at <= ttl then Some(latest.value.result.(reused := true)) else None
  }

  // ----- the machine -----

  /** The run and the evidence cache beside it; events is the cache's history and clock its latest time. */
  datatype State = State(begun: set<nat>, outcome: map<nat, Result>, sent: set<nat>, channel: seq<Message>,
                         taken: set<nat>, results: map<nat, Result>, cache: Cache)

  datatype Cache = Cache(passed: map<string, Remembered>, events: seq<Event>, clock: int)

  /** A reporting lane remembers its result before it sends it. */
  datatype Step = Begin(t: nat) | Report(t: nat, r: Result, now: int) | Send(t: nat) | Take

  predicate MyTurn(job: Job, s: State, t: nat)
    requires t < |job.targets|
  {
    var l := job.targets[t].lane;
    l in job.lanes && t in job.lanes[l] && forall x :: x in job.lanes[l] && x < t ==> x in s.sent
  }

  predicate Enabled(job: Job, s: State, step: Step) {
    match step
    case Begin(t) => t < |job.targets| && t !in s.begun && MyTurn(job, s, t)
    case Report(t, _, now) => t < |job.targets| && t in s.begun && t !in s.outcome && s.cache.clock <= now
    case Send(t) => t in s.outcome && t !in s.sent && |s.channel| < |job.targets|
    case Take => s.channel != []
  }

  /** Copies one outcome to every route that waits for it. */
  function Project(routes: seq<string>, results: map<nat, Result>, indices: seq<nat>, r: Result): map<nat, Result>
  {
    results + map i | i in indices && i < |routes| :: r.(route := routes[i])
  }

  function Reported(c: Cache, key: string, r: Result, now: int): Cache {
    Cache(Noting(c.passed, key, r, now), c.events + [Event(key, r, now)], now)
  }

  function Apply(job: Job, s: State, step: Step): State
    requires Enabled(job, s, step)
  {
    match step
    case Begin(t) => s.(begun := s.begun + {t})
    case Report(t, r, now) => s.(outcome := s.outcome[t := r], cache := Reported(s.cache, job.targets[t].evidence, r, now))
    case Send(t) => s.(sent := s.sent + {t}, channel := s.channel + [Message(t, s.outcome[t])])
    case Take =>
      var m := s.channel[0];
      s.(channel := s.channel[1..], taken := s.taken + {m.target},
         results := if m.target < |job.targets| then Project(job.routes, s.results, job.targets[m.target].indices, m.result) else s.results)
  }

  function Initial(job: Job, channel: seq<Message>, cache: Cache): State {
    State(job.recalled.Keys, job.recalled, job.recalled.Keys, channel, {}, job.settled, cache)
  }

  // ----- the invariant -----

  ghost predicate Staged(job: Job, s: State) {
    s.sent <= s.outcome.Keys && s.outcome.Keys <= s.begun && s.begun <= All(job)
  }

  /** Each sent target is in the channel once, or was taken. */
  ghost predicate Carried(s: State) {
    && NoDup(Targets(s.channel)) && Elements(Targets(s.channel)) == s.sent - s.taken && s.taken <= s.sent
    && (forall m :: m in s.channel ==> m.target in s.outcome && s.outcome[m.target] == m.result)
  }

  ghost predicate InTurn(job: Job, s: State) {
    && job.recalled.Keys <= s.sent
    && (forall t :: t in s.begun - job.recalled.Keys ==> t < |job.targets| && MyTurn(job, s, t))
  }

  /** What the results hold: settled routes, and the routes of taken targets with their own outcome. */
  ghost predicate Projected(job: Job, s: State) {
    && (forall i :: i in job.settled ==> i in s.results && s.results[i] == job.settled[i])
    && (forall t: nat, i: nat :: t < |job.targets| && i in job.targets[t].indices ==> Shown(job, s, t, i))
  }

  ghost predicate Shown(job: Job, s: State, t: nat, i: nat) {
    && (i in s.results <==> t in s.taken)
    && (t in s.taken && i < |job.routes| ==> t in s.outcome && s.results[i] == s.outcome[t].(route := job.routes[i]))
  }

  ghost predicate Sound(job: Job, c: Cache) { CacheSound(job.ttl, c.passed, c.events, c.clock) }

  /** Every outcome a lane reported is in the cache's history under its own evidence key. */
  ghost predicate Reports(job: Job, s: State) {
    forall t :: t in s.outcome && t !in job.recalled && t < |job.targets| ==> InHistory(s.cache.events, job.targets[t].evidence, s.outcome[t])
  }

  ghost predicate InHistory(events: seq<Event>, key: string, r: Result) {
    exists i :: 0 <= i < |events| && events[i].key == key && events[i].result == r
  }

  ghost predicate Inv(job: Job, s: State) {
    Staged(job, s) && Carried(s) && InTurn(job, s) && Projected(job, s) && Sound(job, s.cache) && Reports(job, s)
  }

  /** Every waiting route is in one target only, and no settled route is in any. */
  lemma OneTarget(job: Job, t: nat, i: nat)
    requires IsJob(job) && t < |job.targets| && i in job.targets[t].indices
    ensures i < |job.routes| && HasKey(job.resolve, job.routes[i], job.targets[t].key) && i !in job.settled
    ensures forall t': nat :: t' < |job.targets| && i in job.targets[t'].indices ==> t' == t
  {
    InTarget(job, t, i);
    forall t': nat | t' < |job.targets| && i in job.targets[t'].indices ensures t' == t {
      InTarget(job, t', i);
    }
  }

  lemma InTarget(job: Job, t: nat, i: nat)
    requires IsJob(job) && t < |job.targets| && i in job.targets[t].indices
    ensures i < |job.routes| && HasKey(job.resolve, job.routes[i], job.targets[t].key)
  {
    assert IsTarget(job.routes, job.resolve, |job.routes|, job.targets[t]);
    assert i in Elements(job.targets[t].indices);
  }

  lemma InitialInv(job: Job, channel: seq<Message>, cache: Cache)
    requires IsJob(job) && IsPrefilled(job.recalled, channel) && Sound(job, cache)
    ensures Inv(job, Initial(job, channel, cache))
  {
    var s := Initial(job, channel, cache);
    forall t: nat, i: nat | t < |job.targets| && i in job.targets[t].indices ensures Shown(job, s, t, i) {
      OneTarget(job, t, i);
    }
  }

  lemma BeginInv(job: Job, s: State, t: nat)
    requires Inv(job, s) && Enabled(job, s, Begin(t))
    ensures Inv(job, Apply(job, s, Begin(t)))
  {
    UptoIs(|job.targets|);
    var s' := Apply(job, s, Begin(t));
    forall x: nat, i: nat | x < |job.targets| && i in job.targets[x].indices ensures Shown(job, s', x, i) {
      assert Shown(job, s, x, i);
    }
    forall x | x in s'.begun - job.recalled.Keys ensures x < |job.targets| && MyTurn(job, s', x) {
      assert x in s.begun - job.recalled.Keys || x == t;
    }
  }

  lemma HistoryGrows(events: seq<Event>, e: Event, key: string, r: Result)
    ensures InHistory(events, key, r) ==> InHistory(events + [e], key, r)
    ensures InHistory(events + [e], e.key, e.result)
  {
    assert (events + [e])[|events|] == e;
    if InHistory(events, key, r) {
      var i :| 0 <= i < |events| && events[i].key == key && events[i].result == r;
      assert (events + [e])[i] == events[i];
    }
  }

  lemma ReportCache(job: Job, s: State, t: nat, r: Result, now: int)
    requires Inv(job, s) && Enabled(job, s, Report(t, r, now))
    ensures var s' := Apply(job, s, Report(t, r, now)); Sound(job, s'.cache) && Reports(job, s')
  {
    var s', e := Apply(job, s, Report(t, r, now)), Event(job.targets[t].evidence, r, now);
    NotingIsSound(job.ttl, s.cache.passed, s.cache.events, s.cache.clock, e.key, r, now);
    forall x | x in s'.outcome && x !in job.recalled && x < |job.targets|
      ensures InHistory(s'.cache.events, job.targets[x].evidence, s'.outcome[x])
    {
      HistoryGrows(s.cache.events, e, job.targets[x].evidence, s'.outcome[x]);
    }
  }

  lemma ReportInv(job: Job, s: State, t: nat, r: Result, now: int)
    requires Inv(job, s) && Enabled(job, s, Report(t, r, now))
    ensures Inv(job, Apply(job, s, Report(t, r, now)))
  {
    ReportCache(job, s, t, r, now);
    var s' := Apply(job, s, Report(t, r, now));
    forall x: nat, i: nat | x < |job.targets| && i in job.targets[x].indices ensures Shown(job, s', x, i) {
      assert Shown(job, s, x, i);
    }
    forall x | x in s'.begun - job.recalled.Keys ensures x < |job.targets| && MyTurn(job, s', x) {
      assert x in s.begun - job.recalled.Keys;
    }
  }

  lemma SendCarried(s: State, t: nat)
    requires Carried(s) && t in s.outcome && t !in s.sent
    ensures Carried(s.(sent := s.sent + {t}, channel := s.channel + [Message(t, s.outcome[t])]))
  {
    var m := Message(t, s.outcome[t]);
    assert Targets(s.channel + [m]) == Targets(s.channel) + [t];
    forall k | 0 <= k < |s.channel| ensures Targets(s.channel)[k] != t {
      assert Targets(s.channel)[k] in Elements(Targets(s.channel));
    }
    assert Elements(Targets(s.channel) + [t]) == Elements(Targets(s.channel)) + {t};
  }

  lemma SendInv(job: Job, s: State, t: nat)
    requires Inv(job, s) && Enabled(job, s, Send(t))
    ensures Inv(job, Apply(job, s, Send(t)))
  {
    SendCarried(s, t);
    var s' := Apply(job, s, Send(t));
    forall x: nat, i: nat | x < |job.targets| && i in job.targets[x].indices ensures Shown(job, s', x, i) {
      assert Shown(job, s, x, i);
    }
    forall x | x in s'.begun - job.recalled.Keys ensures x < |job.targets| && MyTurn(job, s', x) {
      assert x in s.begun - job.recalled.Keys;
    }
  }

  lemma HeadCarried(s: State)
    requires Carried(s) && s.channel != []
    ensures var m := s.channel[0];
            && m.target in s.sent && m.target !in s.taken && m.target in s.outcome && s.outcome[m.target] == m.result
            && Carried(s.(channel := s.channel[1..], taken := s.taken + {m.target}))
  {
    var m := s.channel[0];
    assert m in s.channel && Targets(s.channel)[0] == m.target;
    assert Targets(s.channel)[0] in Elements(Targets(s.channel));
    assert Targets(s.channel[1..]) == Targets(s.channel)[1..];
    TailElements(Targets(s.channel));
  }

  lemma TailElements(s: seq<nat>)
    requires s != [] && NoDup(s)
    ensures NoDup(s[1..]) && Elements(s[1..]) == Elements(s) - {s[0]}
  {
    assert s == [s[0]] + s[1..];
    assert s[0] !in s[1..];
  }

  /** Receiving fills exactly the routes of that target, none of which had a result before. */
  lemma TakeShows(job: Job, s: State, t: nat, i: nat)
    requires IsJob(job) && Inv(job, s) && Enabled(job, s, Take) && t < |job.targets| && i in job.targets[t].indices
    ensures Shown(job, Apply(job, s, Take), t, i)
    ensures t == s.channel[0].target ==> i !in s.results
  {
    assert Shown(job, s, t, i);
    HeadCarried(s);
    OneTarget(job, t, i);
    UptoIs(|job.targets|);
  }

  lemma TakeInv(job: Job, s: State)
    requires IsJob(job) && Inv(job, s) && Enabled(job, s, Take)
    ensures Inv(job, Apply(job, s, Take))
  {
    UptoIs(|job.targets|);
    HeadCarried(s);
    var s', m := Apply(job, s, Take), s.channel[0];
    forall i | i in job.settled ensures i in s'.results && s'.results[i] == job.settled[i] {
      if i in job.targets[m.target].indices {
        OneTarget(job, m.target, i);
      }
    }
    forall t: nat, i: nat | t < |job.targets| && i in job.targets[t].indices ensures Shown(job, s', t, i) {
      TakeShows(job, s, t, i);
    }
    forall x | x in s'.begun - job.recalled.Keys ensures x < |job.targets| && MyTurn(job, s', x) {
      assert x in s.begun - job.recalled.Keys;
    }
  }

  /** Every step keeps the invariant. */
  lemma StepInv(job: Job, s: State, step: Step)
    requires IsJob(job) && Inv(job, s) && Enabled(job, s, step)
    ensures Inv(job, Apply(job, s, step))
  {
    match step {
      case Begin(t) => BeginInv(job, s, t);
      case Report(t, r, now) => ReportInv(job, s, t, r, now);
      case Send(t) => SendInv(job, s, t);
      case Take => TakeInv(job, s);
    }
  }

  lemma ReportWeighs(job: Job, s: State, t: nat, r: Result, now: int)
    requires Enabled(job, s, Report(t, r, now))
    ensures Weight(Apply(job, s, Report(t, r, now))) == Weight(s) + 1
  {
    AddOne(s.outcome.Keys, t);
    assert s.outcome[t := r].Keys == s.outcome.Keys + {t};
  }

  lemma SendWeighs(job: Job, s: State, t: nat)
    requires Enabled(job, s, Send(t))
    ensures Weight(Apply(job, s, Send(t))) == Weight(s) + 1
  {
    AddOne(s.sent, t);
  }

  lemma TakeWeighs(job: Job, s: State)
    requires Enabled(job, s, Take) && s.channel[0].target !in s.taken
    ensures Weight(Apply(job, s, Take)) == Weight(s) + 1
  {
    AddOne(s.taken, s.channel[0].target);
  }

  /** Every step makes progress. */
  lemma StepWeighs(job: Job, s: State, step: Step)
    requires Enabled(job, s, step) && (step.Take? ==> s.channel[0].target !in s.taken)
    ensures Weight(Apply(job, s, step)) == Weight(s) + 1
  {
    match step {
      case Begin(t) => AddOne(s.begun, t);
      case Report(t, r, now) => ReportWeighs(job, s, t, r, now);
      case Send(t) => SendWeighs(job, s, t);
      case Take => TakeWeighs(job, s);
    }
  }

  lemma AddOne(s: set<nat>, x: nat)
    requires x !in s
    ensures |s + {x}| == |s| + 1
  {
  }

  /** How far the run is: every target begins, reports, is sent and is taken. */
  function Weight(s: State): nat { |s.begun| + |s.outcome.Keys| + |s.sent| + |s.taken| }

  // ----- what every schedule guarantees -----

  lemma SubsetSize(a: set<nat>, b: set<nat>)
    requires a <= b
    ensures |a| <= |b| && (|a| == |b| ==> a == b)
  {
    assert b == a + (b - a);
  }

  lemma {:induction false} SizeOfNoDup(s: seq<nat>)
    requires NoDup(s)
    ensures |Elements(s)| == |s|
  {
    if s != [] {
      TailElements(s);
      SizeOfNoDup(s[1..]);
    }
  }

  /** No sender ever blocks on the channel. */
  lemma NoSenderBlocks(job: Job, s: State, t: nat)
    requires Inv(job, s) && t in s.outcome && t !in s.sent
    ensures Enabled(job, s, Send(t))
  {
    UptoIs(|job.targets|);
    SizeOfNoDup(Targets(s.channel));
    SubsetSize(Elements(Targets(s.channel)), All(job) - {t});
  }

  /** No lane has two probes in flight. */
  lemma OneProbePerLane(job: Job, s: State, t: nat, t': nat)
    requires IsJob(job) && Inv(job, s) && t in s.begun - s.sent && t' in s.begun - s.sent
    requires t < |job.targets| && t' < |job.targets| && job.targets[t].lane == job.targets[t'].lane
    ensures t == t'
  {
    assert t in s.begun - job.recalled.Keys && t' in s.begun - job.recalled.Keys;
  }

  /** The first target of a lane that was not sent yet. */
  lemma {:induction false} FirstUnsent(lane: seq<nat>, sent: set<nat>) returns (t: nat)
    requires Rising(lane) && exists x :: x in lane && x !in sent
    ensures t in lane && t !in sent && forall x :: x in lane && x < t ==> x in sent
  {
    if lane[0] !in sent {
      t := lane[0];
    } else {
      assert lane == [lane[0]] + lane[1..];
      t := FirstUnsent(lane[1..], sent);
    }
  }

  /** Until every target is taken, some step can be made: no schedule gets stuck. */
  lemma NeverStuck(job: Job, s: State, r: Result) returns (step: Step)
    requires IsJob(job) && Inv(job, s) && s.taken != All(job)
    ensures Enabled(job, s, step)
  {
    UptoIs(|job.targets|);
    if s.channel != [] {
      return Take;
    }
    var t :| t in All(job) && t !in s.taken;
    assert t !in s.sent by {
      assert Elements(Targets(s.channel)) == {};
    }
    var l := job.targets[t].lane;
    assert l in job.lanes && t in LaneMembers(job.targets, job.recalled.Keys, |job.targets|, l);
    assert t in Elements(job.lanes[l]);
    var u := FirstUnsent(job.lanes[l], s.sent);
    assert u in Elements(job.lanes[l]);
    if u !in s.begun {
      step := Begin(u);
    } else if u !in s.outcome {
      step := Report(u, r, s.cache.clock);
    } else {
      NoSenderBlocks(job, s, u);
      step := Send(u);
    }
  }

  /** A schedule: each step enabled where it is made. */
  ghost predicate IsRun(job: Job, s: State, steps: seq<Step>)
    decreases |steps|
  {
    steps == [] || (Enabled(job, s, steps[0]) && IsRun(job, Apply(job, s, steps[0]), steps[1..]))
  }

  ghost function After(job: Job, s: State, steps: seq<Step>): State
    requires IsRun(job, s, steps)
    decreases |steps|
  {
    if steps == [] then s else After(job, Apply(job, s, steps[0]), steps[1..])
  }

  lemma {:induction false} RunInv(job: Job, s: State, steps: seq<Step>)
    requires IsJob(job) && Inv(job, s) && IsRun(job, s, steps)
    ensures Inv(job, After(job, s, steps)) && Weight(After(job, s, steps)) == Weight(s) + |steps|
    decreases |steps|
  {
    if steps != [] {
      StepInv(job, s, steps[0]);
      if s.channel != [] {
        HeadCarried(s);
      }
      StepWeighs(job, s, steps[0]);
      RunInv(job, Apply(job, s, steps[0]), steps[1..]);
    }
  }

  lemma WeightBounded(job: Job, s: State)
    requires Inv(job, s)
    ensures Weight(s) <= 4 * |job.targets|
  {
    UptoIs(|job.targets|);
    SubsetSize(s.begun, All(job));
    SubsetSize(s.outcome.Keys, All(job));
    SubsetSize(s.sent, All(job));
    SubsetSize(s.taken, All(job));
  }

  /** Every schedule ends: it has at most four steps per target. */
  lemma SchedulesEnd(job: Job, channel: seq<Message>, cache: Cache, steps: seq<Step>)
    requires IsJob(job) && IsPrefilled(job.recalled, channel) && Sound(job, cache) && IsRun(job, Initial(job, channel, cache), steps)
    ensures |steps| <= 4 * |job.targets|
  {
    InitialInv(job, channel, cache);
    RunInv(job, Initial(job, channel, cache), steps);
    WeightBounded(job, After(job, Initial(job, channel, cache), steps));
  }

  /** The one target a waiting route belongs to. */
  lemma TargetOf(job: Job, i: nat) returns (t: nat)
    requires IsJob(job) && i < |job.routes| && job.resolve(job.routes[i]).Probe?
    ensures t < |job.targets| && i in job.targets[t].indices && job.targets[t].key == job.resolve(job.routes[i]).key
  {
    assert HasTarget(job.targets, job.resolve(job.routes[i]).key);
    t :| 0 <= t < |job.targets| && job.targets[t].key == job.resolve(job.routes[i]).key;
    assert IsTarget(job.routes, job.resolve, |job.routes|, job.targets[t]);
    assert i in Waiting(job.routes, job.resolve, |job.routes|, job.targets[t].key);
    assert i in Elements(job.targets[t].indices);
  }

  /**
   When a schedule has taken every outcome, each route holds exactly one result at
   its own position: its settled one, or the outcome of its own probe key's target.
   */
  lemma EveryRouteGetsItsOwn(job: Job, channel: seq<Message>, cache: Cache, steps: seq<Step>, i: nat)
    requires IsJob(job) && IsPrefilled(job.recalled, channel) && Sound(job, cache) && IsRun(job, Initial(job, channel, cache), steps)
    requires After(job, Initial(job, channel, cache), steps).taken == All(job) && i < |job.routes|
    ensures var s, what := After(job, Initial(job, channel, cache), steps), job.resolve(job.routes[i]);
            && i in s.results
            && (what.Settled? ==> s.results[i] == what.result)
            && (what.Probe? ==> exists t: nat :: t < |job.targets| && job.targets[t].key == what.key && t in s.outcome
                                  && s.results[i] == s.outcome[t].(route := job.routes[i]))
  {
    InitialInv(job, channel, cache);
    RunInv(job, Initial(job, channel, cache), steps);
    var s := After(job, Initial(job, channel, cache), steps);
    UptoIs(|job.targets|);
    if job.resolve(job.routes[i]).Probe? {
      var t := TargetOf(job, i);
      assert Shown(job, s, t, i);
    } else {
      assert i in job.settled;
    }
  }

  /** The schedule reported this result for the target. */
  ghost predicate ReportedIn(steps: seq<Step>, t: nat, r: Result) { exists now :: Report(t, r, now) in steps }

  /** An outcome once there never changes, and no second report is made for it. */
  lemma {:induction false} OutcomeStays(job: Job, s: State, steps: seq<Step>, t: nat, r: Result)
    requires IsRun(job, s, steps) && t in s.outcome
    ensures t in After(job, s, steps).outcome && After(job, s, steps).outcome[t] == s.outcome[t] && !ReportedIn(steps, t, r)
    decreases |steps|
  {
    if steps != [] {
      OutcomeStays(job, Apply(job, s, steps[0]), steps[1..], t, r);
      assert forall x :: x in steps ==> x == steps[0] || x in steps[1..];
    }
  }

  /** A target's outcome is exactly what its own probe reported. */
  lemma {:induction false} OutcomeIsReported(job: Job, s: State, steps: seq<Step>, t: nat, r: Result)
    requires IsRun(job, s, steps) && t !in s.outcome
    ensures var s' := After(job, s, steps); t in s'.outcome && s'.outcome[t] == r <==> ReportedIn(steps, t, r)
    decreases |steps|
  {
    if steps != [] {
      var s' := Apply(job, s, steps[0]);
      assert forall x :: x in steps <==> x == steps[0] || x in steps[1..];
      if t in s'.outcome {
        OutcomeStays(job, s', steps[1..], t, r);
        assert steps[0].Report? && steps[0].t == t;
        if s'.outcome[t] == r {
          assert Report(t, r, steps[0].now) in steps;
        }
      } else {
        OutcomeIsReported(job, s', steps[1..], t, r);
        if now :| Report(t, r, now) in steps {
          assert Report(t, r, now) in steps[1..];
        }
        if now :| Report(t, r, now) in steps[1..] {
          assert Report(t, r, now) in steps;
        }
      }
    }
  }

  /**
   When a schedule has taken every outcome, each probed route holds, under its own name,
   what the cache recalled for its key or what the one probe of its key reported.
   */
  lemma EveryRouteHoldsItsProbe(job: Job, channel: seq<Message>, cache: Cache, steps: seq<Step>, i: nat)
    requires IsJob(job) && IsPrefilled(job.recalled, channel) && Sound(job, cache) && IsRun(job, Initial(job, channel, cache), steps)
    requires After(job, Initial(job, channel, cache), steps).taken == All(job) && i < |job.routes| && job.resolve(job.routes[i]).Probe?
    ensures var s, key := After(job, Initial(job, channel, cache), steps), job.resolve(job.routes[i]).key;
            && i in s.results
            && exists t: nat, r: Result :: t < |job.targets| && job.targets[t].key == key && s.results[i] == r.(route := job.routes[i])
                                   && (if t in job.recalled then r == job.recalled[t] else ReportedIn(steps, t, r))
  {
    var s0 := Initial(job, channel, cache);
    EveryRouteGetsItsOwn(job, channel, cache, steps, i);
    var s := After(job, s0, steps);
    var t: nat :| t < |job.targets| && job.targets[t].key == job.resolve(job.routes[i]).key && t in s.outcome
                  && s.results[i] == s.outcome[t].(route := job.routes[i]);
    if t in job.recalled {
      OutcomeStays(job, s0, steps, t, s.outcome[t]);
    } else {
      OutcomeIsReported(job, s0, steps, t, s.outcome[t]);
    }
  }

  /**
   Whatever the schedule, the cache the lanes leave behind is sound, its history only
   grew, and every outcome a lane reported is in it: what a later recall finds for a
   key is the latest passing report, from this run or before.
   */
  lemma LanesLeaveASoundCache(job: Job, channel: seq<Message>, cache: Cache, steps: seq<Step>)
    requires IsJob(job) && IsPrefilled(job.recalled, channel) && Sound(job, cache) && IsRun(job, Initial(job, channel, cache), steps)
    ensures var s := After(job, Initial(job, channel, cache), steps);
            Sound(job, s.cache) && Reports(job, s) && cache.events <= s.cache.events && cache.clock <= s.cache.clock
  {
    InitialInv(job, channel, cache);
    RunInv(job, Initial(job, channel, cache), steps);
    HistoryOnlyGrows(job, Initial(job, channel, cache), steps);
  }

  lemma {:induction false} HistoryOnlyGrows(job: Job, s: State, steps: seq<Step>)
    requires IsRun(job, s, steps)
    ensures s.cache.events <= After(job, s, steps).cache.events && s.cache.clock <= After(job, s, steps).cache.clock
    decreases |steps|
  {
    if steps != [] {
      HistoryOnlyGrows(job, Apply(job, s, steps[0]), steps[1..]);
    }
  }
}
