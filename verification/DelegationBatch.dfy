/**
 One batch of sub-agents as a step machine: goroutines take a semaphore slot, run,
 write their own result slot and leave. Every interleaving is a sequence of steps.
 */
module DelegationBatch {
  import opened Basics
  import opened Delegation

  datatype Outcome = HostStopped | Answered(response: string) | FailedWith(error: string)

  /** Where a task's goroutine is; the slot is held from Running until Wrote is left. */
  datatype Phase = Unspawned | Waiting | Running | Wrote | Released | Gone

  datatype State = State(phase: seq<Phase>, sem: nat, results: seq<Option<Outcome>>, running: set<nat>, spawned: nat, stopped: bool)

  datatype Step = Spawn | Acquire(i: nat) | Refuse(i: nat) | Finish(i: nat, r: Outcome) | Release(i: nat) | Leave(i: nat) | Stop

  predicate At(s: State, i: nat, p: Phase) { i < |s.phase| && s.phase[i] == p }

  predicate Enabled(cap: nat, s: State, step: Step) {
    match step
    case Spawn => s.spawned < |s.phase|
    case Acquire(i) => At(s, i, Waiting) && s.sem < cap
    case Refuse(i) => At(s, i, Waiting) && s.stopped && i < |s.results|
    case Finish(i, _) => At(s, i, Running) && i < |s.results|
    case Release(i) => At(s, i, Wrote) && s.sem > 0
    case Leave(i) => At(s, i, Released)
    case Stop => !s.stopped
  }

  function Apply(cap: nat, s: State, step: Step): State
    requires Enabled(cap, s, step)
  {
    match step
    case Spawn => s.(phase := s.phase[s.spawned := Waiting], running := s.running + {s.spawned}, spawned := s.spawned + 1)
    case Acquire(i) => s.(phase := s.phase[i := Running], sem := s.sem + 1)
    case Refuse(i) => s.(phase := s.phase[i := Released], results := s.results[i := Some(HostStopped)])
    case Finish(i, r) => s.(phase := s.phase[i := Wrote], results := s.results[i := Some(r)])
    case Release(i) => s.(phase := s.phase[i := Released], sem := s.sem - 1)
    case Leave(i) => s.(phase := s.phase[i := Gone], running := s.running - {i})
    case Stop => s.(stopped := true)
  }

  function Initial(n: nat): State {
    State(seq(n, i => Unspawned), 0, seq(n, i => None), {}, 0, false)
  }

  // ----- the invariant -----

  predicate Holds(p: Phase) { p == Running || p == Wrote }
  predicate HasResult(p: Phase) { p == Wrote || p == Released || p == Gone }

  /** How many goroutines hold a slot. */
  function Slots(phase: seq<Phase>): nat {
    if phase == [] then 0 else Slots(phase[..|phase| - 1]) + if Holds(phase[|phase| - 1]) then 1 else 0
  }

  ghost predicate Slotted(s: State, i: nat)
    requires i < |s.phase| == |s.results|
  {
    && (s.results[i].Some? <==> HasResult(s.phase[i]))
    && (i in s.running <==> s.phase[i] != Unspawned && s.phase[i] != Gone)
    && (i < s.spawned <==> s.phase[i] != Unspawned)
  }

  ghost predicate Inv(cap: nat, n: nat, s: State) {
    && |s.phase| == |s.results| == n && s.spawned <= n
    && s.sem == Slots(s.phase) && s.sem <= cap
    && (forall i: nat :: i < n ==> Slotted(s, i))
    && (forall i :: i in s.running ==> i < n)
  }

  lemma {:induction false} SlotsUpdate(phase: seq<Phase>, i: nat, p: Phase)
    requires i < |phase|
    ensures Slots(phase[i := p]) + (if Holds(phase[i]) then 1 else 0) == Slots(phase) + if Holds(p) then 1 else 0
  {
    var phase' := phase[i := p];
    var front, front' := phase[..|phase| - 1], phase'[..|phase| - 1];
    if i == |phase| - 1 {
      assert front == front';
    } else {
      SlotsUpdate(front, i, p);
      assert front' == front[i := p];
    }
  }

  lemma {:induction false} NoSlots(n: nat)
    ensures Slots(seq(n, i => Unspawned)) == 0
  {
    if n > 0 {
      NoSlots(n - 1);
      var s: seq<Phase>, f: seq<Phase> := seq(n, i => Unspawned), seq(n - 1, i => Unspawned);
      assert s[..n - 1] == f;
    }
  }

  lemma InitialInv(cap: nat, n: nat)
    ensures Inv(cap, n, Initial(n))
  {
    NoSlots(n);
  }

  /** The one goroutine a step moves. */
  function Mover(s: State, step: Step): nat {
    match step
    case Spawn => s.spawned
    case Acquire(i) => i
    case Refuse(i) => i
    case Finish(i, _) => i
    case Release(i) => i
    case Leave(i) => i
    case Stop => 0
  }

  lemma OthersSlotted(cap: nat, n: nat, s: State, step: Step, k: nat)
    requires Inv(cap, n, s) && Enabled(cap, s, step) && k < n && k != Mover(s, step) && !step.Stop?
    ensures Slotted(Apply(cap, s, step), k)
  {
    assert Slotted(s, k);
  }

  lemma MoverSlotted(cap: nat, n: nat, s: State, step: Step)
    requires Inv(cap, n, s) && Enabled(cap, s, step) && !step.Stop?
    ensures Mover(s, step) < n && Slotted(Apply(cap, s, step), Mover(s, step))
  {
    assert Slotted(s, Mover(s, step));
  }

  /** Every step keeps the invariant. */
  lemma StepInv(cap: nat, n: nat, s: State, step: Step)
    requires Inv(cap, n, s) && Enabled(cap, s, step)
    ensures Inv(cap, n, Apply(cap, s, step))
  {
    var s' := Apply(cap, s, step);
    if step.Stop? {
      forall k: nat | k < n ensures Slotted(s', k) {
        assert Slotted(s, k);
      }
    } else {
      var i := Mover(s, step);
      MoverSlotted(cap, n, s, step);
      assert Slotted(s, i);
      SlotsUpdate(s.phase, i, s'.phase[i]);
      forall k: nat | k < n && k != i ensures Slotted(s', k) {
        OthersSlotted(cap, n, s, step, k);
      }
    }
  }

  // ----- progress -----

  function Rank(p: Phase): nat {
    match p
    case Unspawned => 0
    case Waiting => 1
    case Running => 2
    case Wrote => 3
    case Released => 4
    case Gone => 5
  }

  function Total(phase: seq<Phase>): nat {
    if phase == [] then 0 else Total(phase[..|phase| - 1]) + Rank(phase[|phase| - 1])
  }

  lemma {:induction false} TotalUpdate(phase: seq<Phase>, i: nat, p: Phase)
    requires i < |phase|
    ensures Total(phase[i := p]) + Rank(phase[i]) == Total(phase) + Rank(p)
  {
    var phase' := phase[i := p];
    var front, front' := phase[..|phase| - 1], phase'[..|phase| - 1];
    if i == |phase| - 1 {
      assert front == front';
    } else {
      TotalUpdate(front, i, p);
      assert front' == front[i := p];
    }
  }

  lemma {:induction false} TotalBounded(phase: seq<Phase>)
    ensures Total(phase) <= 5 * |phase|
    ensures Total(phase) == 5 * |phase| <==> forall i :: 0 <= i < |phase| ==> phase[i] == Gone
  {
    if phase != [] {
      TotalBounded(phase[..|phase| - 1]);
      assert forall i :: 0 <= i < |phase| - 1 ==> phase[..|phase| - 1][i] == phase[i];
    }
  }

  function Weight(s: State): nat { Total(s.phase) + if s.stopped then 1 else 0 }

  lemma StepWeighs(cap: nat, n: nat, s: State, step: Step)
    requires Inv(cap, n, s) && Enabled(cap, s, step)
    ensures Weight(Apply(cap, s, step)) > Weight(s)
  {
    if !step.Stop? {
      var i := Mover(s, step);
      assert i < n && Slotted(s, i);
      TotalUpdate(s.phase, i, Apply(cap, s, step).phase[i]);
    }
  }

  lemma {:induction false} SomeHolder(phase: seq<Phase>) returns (i: nat)
    requires Slots(phase) > 0
    ensures i < |phase| && Holds(phase[i])
  {
    if Holds(phase[|phase| - 1]) {
      i := |phase| - 1;
    } else {
      i := SomeHolder(phase[..|phase| - 1]);
    }
  }

  /** Until every goroutine has left, one of them can move: the semaphore never locks the batch up. */
  lemma NeverStuck(cap: nat, n: nat, s: State, i: nat, r: Outcome) returns (step: Step)
    requires Inv(cap, n, s) && cap >= 1 && i < n && s.phase[i] != Gone
    ensures Enabled(cap, s, step) && !step.Stop?
  {
    assert Slotted(s, i);
    match s.phase[i] {
      case Unspawned => step := Spawn;
      case Waiting =>
        if s.sem < cap {
          step := Acquire(i);
        } else {
          var k := SomeHolder(s.phase);
          step := if s.phase[k] == Running then Finish(k, r) else Release(k);
        }
      case Running => step := Finish(i, r);
      case Wrote =>
        SlotsUpdate(s.phase, i, Gone);
        step := Release(i);
      case Released => step := Leave(i);
    }
  }

  // ----- what every interleaving guarantees -----

  ghost predicate IsRun(cap: nat, s: State, steps: seq<Step>)
    decreases |steps|
  {
    steps == [] || (Enabled(cap, s, steps[0]) && IsRun(cap, Apply(cap, s, steps[0]), steps[1..]))
  }

  ghost function After(cap: nat, s: State, steps: seq<Step>): State
    requires IsRun(cap, s, steps)
    decreases |steps|
  {
    if steps == [] then s else After(cap, Apply(cap, s, steps[0]), steps[1..])
  }

  lemma {:induction false} RunInv(cap: nat, n: nat, s: State, steps: seq<Step>)
    requires Inv(cap, n, s) && IsRun(cap, s, steps)
    ensures Inv(cap, n, After(cap, s, steps)) && Weight(After(cap, s, steps)) >= Weight(s) + |steps|
    decreases |steps|
  {
    if steps != [] {
      StepInv(cap, n, s, steps[0]);
      StepWeighs(cap, n, s, steps[0]);
      RunInv(cap, n, Apply(cap, s, steps[0]), steps[1..]);
    }
  }

  /** Every interleaving ends: at most five steps per task and one stop. */
  lemma InterleavingsEnd(cap: nat, n: nat, steps: seq<Step>)
    requires IsRun(cap, Initial(n), steps)
    ensures |steps| <= 5 * n + 1
  {
    InitialInv(cap, n);
    RunInv(cap, n, Initial(n), steps);
    TotalBounded(After(cap, Initial(n), steps).phase);
  }

  function RunningSet(phase: seq<Phase>): set<nat> { set i: nat | i < |phase| && phase[i] == Running }

  lemma {:induction false} RunningWithinSlots(phase: seq<Phase>)
    ensures |RunningSet(phase)| <= Slots(phase)
  {
    if phase != [] {
      var front, p := phase[..|phase| - 1], phase[|phase| - 1];
      RunningWithinSlots(front);
      assert RunningSet(phase) == RunningSet(front) + if p == Running then {|phase| - 1} else {};
    }
  }

  /** At most cap sub-agents run at any moment. */
  lemma AtMostCap(cap: nat, n: nat, steps: seq<Step>)
    requires IsRun(cap, Initial(n), steps)
    ensures |RunningSet(After(cap, Initial(n), steps).phase)| <= cap
  {
    InitialInv(cap, n);
    RunInv(cap, n, Initial(n), steps);
    RunningWithinSlots(After(cap, Initial(n), steps).phase);
  }

  /** A result slot is written once: no later step changes it. */
  lemma {:induction false} ResultsStay(cap: nat, n: nat, s: State, steps: seq<Step>, i: nat)
    requires Inv(cap, n, s) && IsRun(cap, s, steps) && i < n && s.results[i].Some?
    ensures |After(cap, s, steps).results| == n && After(cap, s, steps).results[i] == s.results[i]
    decreases |steps|
  {
    if steps != [] {
      var s' := Apply(cap, s, steps[0]);
      assert Slotted(s, i);
      StepInv(cap, n, s, steps[0]);
      ResultsStay(cap, n, s', steps[1..], i);
    }
  }

  /** A step of the run wrote this outcome to slot i: the sub-agent finished with it, or the stopped host refused it. */
  predicate WroteIn(steps: seq<Step>, i: nat, r: Outcome) { Finish(i, r) in steps || (Refuse(i) in steps && r == HostStopped) }

  lemma {:induction false} NoSecondWrite(cap: nat, n: nat, s: State, steps: seq<Step>, i: nat, r: Outcome)
    requires Inv(cap, n, s) && IsRun(cap, s, steps) && i < n && s.results[i].Some?
    ensures !WroteIn(steps, i, r)
    decreases |steps|
  {
    if steps != [] {
      assert Slotted(s, i);
      StepInv(cap, n, s, steps[0]);
      NoSecondWrite(cap, n, Apply(cap, s, steps[0]), steps[1..], i, r);
      assert forall x :: x in steps ==> x == steps[0] || x in steps[1..];
    }
  }

  /** A slot holds exactly the outcome its own sub-agent finished with, or the refusal of a stopped host. */
  lemma {:induction false} ResultIsItsOwn(cap: nat, n: nat, s: State, steps: seq<Step>, i: nat, r: Outcome)
    requires Inv(cap, n, s) && IsRun(cap, s, steps) && i < n && s.results[i].None?
    ensures |After(cap, s, steps).results| == n && (After(cap, s, steps).results[i] == Some(r) <==> WroteIn(steps, i, r))
    decreases |steps|
  {
    if steps != [] {
      var s' := Apply(cap, s, steps[0]);
      StepInv(cap, n, s, steps[0]);
      assert forall x :: x in steps <==> x == steps[0] || x in steps[1..];
      if s'.results[i].Some? {
        ResultsStay(cap, n, s', steps[1..], i);
        NoSecondWrite(cap, n, s', steps[1..], i, r);
      } else {
        ResultIsItsOwn(cap, n, s', steps[1..], i, r);
      }
    }
  }

  /** The same over a whole batch from its beginning. */
  lemma BatchResults(cap: nat, n: nat, steps: seq<Step>, i: nat, r: Outcome)
    requires IsRun(cap, Initial(n), steps) && i < n
    ensures |After(cap, Initial(n), steps).results| == n
    ensures After(cap, Initial(n), steps).results[i] == Some(r) <==> WroteIn(steps, i, r)
  {
    InitialInv(cap, n);
    ResultIsItsOwn(cap, n, Initial(n), steps, i, r);
  }

  /** When every goroutine has left, each index has its result, no slot is held and nothing is registered as running. */
  lemma FinishedBatch(cap: nat, n: nat, steps: seq<Step>)
    requires IsRun(cap, Initial(n), steps)
    requires forall i :: 0 <= i < n ==> At(After(cap, Initial(n), steps), i, Gone)
    ensures var s := After(cap, Initial(n), steps);
            |s.results| == n && (forall i :: 0 <= i < n ==> s.results[i].Some?) && s.running == {} && s.sem == 0
  {
    InitialInv(cap, n);
    RunInv(cap, n, Initial(n), steps);
    var s := After(cap, Initial(n), steps);
    forall i: nat | i < n ensures s.results[i].Some? && i !in s.running {
      assert Slotted(s, i) && At(s, i, Gone);
    }
    assert forall i :: 0 <= i < |s.phase| && At(s, i, Gone) ==> !Holds(s.phase[i]);
    if s.sem > 0 {
      var _ := SomeHolder(s.phase);
    }
  }

  lemma TwoRunning(phase: seq<Phase>, i: nat, j: nat)
    requires i < j < |phase| && phase[i] == Running && phase[j] == Running
    ensures |RunningSet(phase)| >= 2
  {
    assert {i, j} <= RunningSet(phase);
    assert RunningSet(phase) == {i, j} + (RunningSet(phase) - {i, j});
  }

  /**
   Whenever two sub-agents of a batch overlap, every tool either can reach, through
   any nesting, is a built-in read of the root.
   */
  lemma OverlapMeansReads(root: Backend, cfg: Config, specs: seq<seq<string>>, depth: nat, steps: seq<Step>, i: nat, j: nat,
                          hops: seq<seq<string>>, k: nat, name: string)
    requires root.Dispatcher? && i < j < |specs|
    requires var cap := Concurrency(root, cfg, specs, depth);
             && IsRun(cap, Initial(|specs|), steps)
             && At(After(cap, Initial(|specs|), steps), i, Running) && At(After(cap, Initial(|specs|), steps), j, Running)
    requires hops != [] && (hops[0] == specs[i] || hops[0] == specs[j]) && IsNest(root, LimitsOf(cfg).depth, depth, hops) && k < |hops|
    requires var b := HopBackend(root, LimitsOf(cfg).depth, depth, hops, k); name in Names(b) && !b.tools[name].quarantined
    ensures name in READS && name in root.tools && root.tools[name].builtin
  {
    var limits, cap := LimitsOf(cfg), Concurrency(root, cfg, specs, depth);
    AtMostCap(cap, |specs|, steps);
    TwoRunning(After(cap, Initial(|specs|), steps).phase, i, j);
    assert Reader(root, limits.depth, depth)(specs[i]) && Reader(root, limits.depth, depth)(specs[j]);
    ReadOnlyReach(root, limits.depth, depth, hops, k, name);
  }
}
