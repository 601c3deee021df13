/** The systemd and the launchd controller as the program runs them; what the service manager answers is arbitrary. */
module ServiceControllers {
  import opened Basics
  import opened SkillText
  import opened ServiceReplace
  import opened ServiceRuns

  /** What the n-th call answers: the status it sees, whether asking fails, whether a command succeeds. */
  datatype World = World(stopped: nat -> bool, fails: nat -> bool, ok: nat -> bool)

  /** A systemd unit is stopped when it is not found, inactive or failed. */
  predicate SystemdStopped(fold: char -> char, load: string, active: string) {
    var l, a := Lower(fold, Trim(load)), Lower(fold, Trim(active));
    l == "not-found" || a == "inactive" || a == "failed"
  }

  /** Which states count as stopped, in whatever case and padding they are printed. */
  lemma SystemdStates(fold: char -> char, load: string, active: string)
    ensures Lower(fold, Trim(active)) in {"inactive", "failed"} ==> SystemdStopped(fold, load, active)
    ensures Lower(fold, Trim(load)) == "not-found" ==> SystemdStopped(fold, load, active)
    ensures Lower(fold, Trim(load)) != "not-found" && Lower(fold, Trim(active)) in {"active", "activating", "reloading", "deactivating"} ==>
              !SystemdStopped(fold, load, active)
  {
  }

  function SystemdWorld(fold: char -> char, load: nat -> string, active: nat -> string, fails: nat -> bool, ok: nat -> bool): World {
    World((n: nat) => SystemdStopped(fold, load(n), active(n)), fails, ok)
  }

  /** A launchd job is stopped when it is not loaded. */
  function LaunchdWorld(loaded: nat -> bool, fails: nat -> bool, ok: nat -> bool): World { World((n: nat) => !loaded(n), fails, ok) }

  /** Every event so far is what the world answered. */
  ghost predicate FitsAll(w: World, s: seq<Event>) { forall k: nat :: k < |s| ==> Fits(s[k], w.stopped(k), w.fails(k), w.ok(k)) }

  class ServiceManager {
    const proves: bool
    var trace: seq<Event>

    constructor (proves: bool)
      ensures this.proves == proves && trace == []
    {
      this.proves, trace := proves, [];
    }

    /** Issues a command, or asks, and notes what came back. */
    method Log(w: World, e: Event)
      requires FitsAll(w, trace) && Fits(e, w.stopped(|trace|), w.fails(|trace|), w.ok(|trace|))
      modifies this
      ensures trace == old(trace) + [e] && FitsAll(w, trace)
    {
      trace := trace + [e];
    }

    /** Asks for the status. */
    method Inspect(w: World) returns (e: Event)
      requires FitsAll(w, trace)
      modifies this
      ensures (e.Saw? || e == Unseen) && trace == old(trace) + [e] && FitsAll(w, trace)
    {
      e := if w.fails(|trace|) then Unseen else Saw(w.stopped(|trace|));
      Log(w, e);
    }

    /** Proves absence where a proof is configured. */
    method ProveAbsent(w: World) returns (ok: bool)
      requires FitsAll(w, trace)
      modifies this
      ensures trace == old(trace) + (if proves then [AbsenceProof(ok)] else []) && (!proves ==> ok) && FitsAll(w, trace)
    {
      ok := true;
      if proves {
        ok := w.ok(|trace|);
        Log(w, AbsenceProof(ok));
      }
    }
  }

  // ----- stopping -----

  /** Looks that saw the service running, each followed by a pause. */
  function Rounds(n: nat): seq<Event> { if n == 0 then [] else [Saw(false), Paused(true)] + Rounds(n - 1) }

  lemma {:induction false} RoundsGrow(n: nat)
    ensures Rounds(n) + [Saw(false), Paused(true)] == Rounds(n + 1)
  {
    if n > 0 {
      RoundsGrow(n - 1);
    }
  }

  lemma {:induction false} WaitsAfterRounds(n: nat, s: seq<Event>, polls: nat, ok: bool)
    requires Waits(s, polls, ok)
    ensures Waits(Rounds(n) + s, n + polls, ok)
  {
    var all := Rounds(n) + s;
    if n == 0 {
      assert all == s;
    } else {
      WaitsAfterRounds(n - 1, s, polls, ok);
      assert all[0] == Saw(false) && all[1] == Paused(true) && all[2..] == Rounds(n - 1) + s;
    }
  }

  lemma LastLook(n: nat, e: Event, left: nat)
    requires e == Unseen || e == Saw(true) || (e == Saw(false) && left == 0)
    ensures Waits(Rounds(n) + [e], n + left, e == Saw(true))
  {
    WaitsAfterRounds(n, [e], left, e == Saw(true));
  }

  lemma PauseFails(n: nat, left: nat)
    requires left > 0
    ensures Waits(Rounds(n) + [Saw(false), Paused(false)], n + left, false)
  {
    WaitsAfterRounds(n, [Saw(false), Paused(false)], left, false);
  }

  /** Waits for the service to stop; polls is how often the deadline still allows another look. */
  method AwaitStopped(m: ServiceManager, w: World, polls: nat) returns (ok: bool, ghost wait: seq<Event>)
    requires FitsAll(w, m.trace)
    modifies m
    ensures FitsAll(w, m.trace) && m.trace == old(m.trace) + wait && Waits(wait, polls, ok)
  {
    var left := polls;
    wait := [];
    while true
      invariant FitsAll(w, m.trace) && m.trace == old(m.trace) + wait && 0 <= left <= polls && wait == Rounds(polls - left)
      decreases left
    {
      var e := m.Inspect(w);
      if e == Unseen || e == Saw(true) || left == 0 {
        LastLook(polls - left, e, left);
        return e == Saw(true), wait + [e];
      }
      var paused := w.ok(|m.trace|);
      m.Log(w, Paused(paused));
      if !paused {
        PauseFails(polls - left, left);
        return false, wait + [e, Paused(false)];
      }
      RoundsGrow(polls - left);
      wait, left := wait + [e, Paused(true)], left - 1;
    }
  }

  lemma StopsThenWaits(head: seq<Event>, wait: seq<Event>, polls: nat, ok: bool)
    requires Waits(wait, polls, ok)
    requires head == [Saw(true)] || head == [Saw(false), StopIssued(true)] || head == [Saw(false), StopIssued(false), Saw(true)]
    ensures Stops(head + wait, polls, ok)
  {
    assert (head + wait)[|head|..] == wait;
  }

  /** Stops a running service. */
  method StopExisting(m: ServiceManager, w: World, polls: nat) returns (ok: bool)
    requires m.trace == []
    modifies m
    ensures FitsAll(w, m.trace) && Stops(m.trace, polls, ok)
  {
    var e := m.Inspect(w);
    if e == Unseen {
      return false;
    }
    if e == Saw(false) {
      var issued := w.ok(|m.trace|);
      m.Log(w, StopIssued(issued));
      if !issued {
        e := m.Inspect(w);
        if e != Saw(true) {
          return false;
        }
      }
    }
    ghost var head, wait := m.trace, [];
    ok, wait := AwaitStopped(m, w, polls);
    StopsThenWaits(head, wait, polls, ok);
  }

  // ----- starting -----

  /** One start, and one retry if the service is seen stopped and proven absent again. */
  method StartOnceOrTwice(m: ServiceManager, w: World) returns (ok: bool, ghost up: seq<Event>)
    requires FitsAll(w, m.trace)
    modifies m
    ensures FitsAll(w, m.trace) && m.trace == old(m.trace) + up && StartsUp(m.proves, up, ok)
  {
    ok := w.ok(|m.trace|);
    m.Log(w, Started(ok));
    up := [Started(ok)];
    if ok {
      return;
    }
    var e := m.Inspect(w);
    up := up + [e];
    if e != Saw(true) {
      return;
    }
    var absent := m.ProveAbsent(w);
    ghost var retry := if m.proves then [AbsenceProof(absent)] else [];
    if absent {
      ok := w.ok(|m.trace|);
      m.Log(w, Started(ok));
      retry := retry + [Started(ok)];
    }
    RetryParts(m.proves, up, retry, ok);
    up := up + retry;
  }

  lemma RetryParts(proves: bool, head: seq<Event>, retry: seq<Event>, ok: bool)
    requires head == [Started(false), Saw(true)]
    requires retry == (if proves then [AbsenceProof(true)] else []) + [Started(ok)] || (proves && retry == [AbsenceProof(false)] && !ok)
    ensures StartsUp(proves, head + retry, ok)
  {
    assert (head + retry)[2..] == retry;
    if proves && retry[0].ok {
      assert retry[1..] == [Started(ok)];
    }
  }

  // ----- the whole replacement -----

  /** The stop and, if that worked, the proof. */
  method ClearTheWay(m: ServiceManager, w: World, polls: nat) returns (ok: bool, ghost stop: seq<Event>, ghost proof: seq<Event>)
    requires m.trace == []
    modifies m
    ensures FitsAll(w, m.trace) && m.trace == stop + proof
    ensures ok ==> Stops(stop, polls, true) && proof == if m.proves then [AbsenceProof(true)] else []
    ensures !ok ==> forall systemd :: Replaces(m.proves, systemd, Parts(stop, proof, []), polls, false)
  {
    ok := StopExisting(m, w, polls);
    stop, proof := m.trace, [];
    if ok {
      ok := m.ProveAbsent(w);
      proof := if m.proves then [AbsenceProof(ok)] else [];
    }
  }

  /** Reloads the units and starts. */
  method StartUnit(m: ServiceManager, w: World) returns (ok: bool, ghost launch: seq<Event>)
    requires FitsAll(w, m.trace)
    modifies m
    ensures FitsAll(w, m.trace) && m.trace == old(m.trace) + launch && Launches(m.proves, true, launch, ok)
  {
    ok := w.ok(|m.trace|);
    m.Log(w, Reloaded(ok));
    launch := [Reloaded(ok)];
    if ok {
      ghost var up;
      ok, up := StartOnceOrTwice(m, w);
      launch := launch + up;
      assert launch[1..] == up;
    }
  }

  /** Bootstraps and kicks. */
  method StartJob(m: ServiceManager, w: World) returns (ok: bool, ghost launch: seq<Event>)
    requires FitsAll(w, m.trace)
    modifies m
    ensures FitsAll(w, m.trace) && m.trace == old(m.trace) + launch && Launches(m.proves, false, launch, ok)
  {
    ok, launch := StartOnceOrTwice(m, w);
    if ok {
      ghost var up := launch;
      ok := w.ok(|m.trace|);
      m.Log(w, Kicked(ok));
      launch := launch + [Kicked(ok)];
      assert launch[..|launch| - 1] == up;
    }
  }

  /** How a replacement ended, as the protocol sees it. */
  ghost predicate Ended(proves: bool, systemd: bool, trace: seq<Event>, polls: nat, ok: bool) {
    && Reached(proves, trace).Some? && (ok <==> if systemd then Reached(proves, trace).value.Up? else Reached(proves, trace).value.Live?)
    && (!ok ==> GaveUp(trace, polls))
  }

  lemma ReplacementEnds(proves: bool, systemd: bool, p: Parts, polls: nat, ok: bool)
    requires Replaces(proves, systemd, p, polls, ok)
    ensures Ended(proves, systemd, Whole(p), polls, ok)
  {
    ReplacementFollows(proves, systemd, p, polls, ok);
    if !ok {
      ReplacementGivesUp(proves, systemd, p, polls);
    }
  }

  /**
   systemd: success is reported exactly when the last start succeeded. The run has the
   shape of a replacement, and every event is what the unit's states and the commands gave.
   */
  method ReplaceSystemd(m: ServiceManager, fold: char -> char, load: nat -> string, active: nat -> string,
                        fails: nat -> bool, works: nat -> bool, polls: nat) returns (ok: bool, ghost parts: Parts)
    requires m.trace == []
    modifies m
    ensures m.trace == Whole(parts) && Replaces(m.proves, true, parts, polls, ok)
    ensures forall k: nat :: k < |m.trace| ==> Fits(m.trace[k], SystemdStopped(fold, load(k), active(k)), fails(k), works(k))
    ensures Ended(m.proves, true, m.trace, polls, ok)
  {
    var w := SystemdWorld(fold, load, active, fails, works);
    ghost var stop, proof, launch := [], [], [];
    ok, stop, proof := ClearTheWay(m, w, polls);
    if ok {
      ok, launch := StartUnit(m, w);
    }
    parts := Parts(stop, proof, launch);
    ReplacementEnds(m.proves, true, parts, polls, ok);
  }

  /** launchd: success is reported exactly when the last bootstrap and then the kickstart succeeded. */
  method ReplaceLaunchd(m: ServiceManager, loaded: nat -> bool, fails: nat -> bool, works: nat -> bool, polls: nat)
    returns (ok: bool, ghost parts: Parts)
    requires m.trace == []
    modifies m
    ensures m.trace == Whole(parts) && Replaces(m.proves, false, parts, polls, ok)
    ensures forall k: nat :: k < |m.trace| ==> Fits(m.trace[k], !loaded(k), fails(k), works(k))
    ensures Ended(m.proves, false, m.trace, polls, ok)
  {
    var w := LaunchdWorld(loaded, fails, works);
    ghost var stop, proof, launch := [], [], [];
    ok, stop, proof := ClearTheWay(m, w, polls);
    if ok {
      ok, launch := StartJob(m, w);
    }
    parts := Parts(stop, proof, launch);
    ReplacementEnds(m.proves, false, parts, polls, ok);
  }
}
