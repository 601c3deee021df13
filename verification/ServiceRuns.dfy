/**
 The exact shape of a replacement: stop, wait, prove absent, start, with one safe retry.
 Every run of this shape follows the protocol, tells a running service to stop once, and
 succeeds when the service manager does what it is told.
 */
module ServiceRuns {
  import opened Basics
  import opened ServiceReplace

  // ----- the shape -----

  /** Looking until stopped, with at most `polls` pauses in between. */
  predicate Waits(s: seq<Event>, polls: nat, ok: bool)
    decreases polls
  {
    |s| > 0 && match s[0]
      case Unseen => |s| == 1 && !ok
      case Saw(stopped) =>
        if stopped then |s| == 1 && ok
        else if polls == 0 then |s| == 1 && !ok
        else |s| > 1 && s[1].Paused? && if s[1].ok then Waits(s[2..], polls - 1, ok) else |s| == 2 && !ok
      case _ => false
  }

  /** A look; a running service is told to stop, and where that fails it must be seen stopped all the same; then the wait. */
  predicate Stops(s: seq<Event>, polls: nat, ok: bool) {
    |s| > 0 && match s[0]
      case Unseen => |s| == 1 && !ok
      case Saw(stopped) =>
        if stopped then Waits(s[1..], polls, ok)
        else
          |s| > 1 && s[1].StopIssued? &&
          if s[1].ok then Waits(s[2..], polls, ok)
          else |s| > 2 && if s[2] == Saw(true) then Waits(s[3..], polls, ok) else NotStopped(s[2]) && |s| == 3 && !ok
      case _ => false
  }

  predicate NotStopped(e: Event) { e == Saw(false) || e == Unseen }

  /** A start, and after a failed one a look, the proof where one is configured, and a second start. */
  predicate StartsUp(proves: bool, s: seq<Event>, ok: bool) {
    |s| > 0 && s[0].Started? &&
    if s[0].ok then |s| == 1 && ok
    else |s| > 1 && if s[1] == Saw(true) then Retries(proves, s[2..], ok) else NotStopped(s[1]) && |s| == 2 && !ok
  }

  predicate Retries(proves: bool, s: seq<Event>, ok: bool) {
    if proves then |s| > 0 && s[0].AbsenceProof? && if s[0].ok then s[1..] == [Started(ok)] else |s| == 1 && !ok
    else s == [Started(ok)]
  }

  /** systemd reloads its units and starts; launchd bootstraps and, if that worked, kicks. */
  predicate Launches(proves: bool, systemd: bool, s: seq<Event>, ok: bool) {
    if systemd then |s| > 0 && s[0].Reloaded? && if s[0].ok then StartsUp(proves, s[1..], ok) else |s| == 1 && !ok
    else (StartsUp(proves, s, false) && !ok) || (|s| > 0 && StartsUp(proves, s[..|s| - 1], true) && s[|s| - 1] == Kicked(ok))
  }

  /** The parts of a run, in order. */
  datatype Parts = Parts(stop: seq<Event>, proof: seq<Event>, launch: seq<Event>)

  function Whole(p: Parts): seq<Event> { p.stop + p.proof + p.launch }

  predicate Replaces(proves: bool, systemd: bool, p: Parts, polls: nat, ok: bool) {
    || (Stops(p.stop, polls, false) && p.proof == [] && p.launch == [] && !ok)
    || (Stops(p.stop, polls, true) && proves && p.proof == [AbsenceProof(false)] && p.launch == [] && !ok)
    || (Stops(p.stop, polls, true) && p.proof == (if proves then [AbsenceProof(true)] else []) && Launches(proves, systemd, p.launch, ok))
  }

  /** The event is what the service manager answered. */
  predicate Fits(e: Event, stopped: bool, fails: bool, works: bool) {
    match e
    case Saw(seen) => !fails && seen == stopped
    case Unseen => fails
    case StopIssued(ok) => ok == works
    case Paused(ok) => ok == works
    case AbsenceProof(ok) => ok == works
    case Reloaded(ok) => ok == works
    case Started(ok) => ok == works
    case Kicked(ok) => ok == works
  }

  // ----- every run follows the protocol -----

  function From(proves: bool, p: Phase, s: seq<Event>): Option<Phase>
    decreases |s|
  {
    if s == [] then Some(p)
    else
      var next := Advance(proves, p, s[0]);
      if next.None? then None else From(proves, next.value, s[1..])
  }

  lemma {:induction false} FromAppend(proves: bool, p: Phase, a: seq<Event>, b: seq<Event>)
    requires From(proves, p, a).Some?
    ensures From(proves, p, a + b) == From(proves, From(proves, p, a).value, b)
    decreases |a|
  {
    if a == [] {
      assert a + b == b;
    } else {
      assert (a + b)[1..] == a[1..] + b;
      FromAppend(proves, Advance(proves, p, a[0]).value, a[1..], b);
    }
  }

  lemma {:induction false} ReachedFrom(proves: bool, s: seq<Event>)
    requires From(proves, Looking(0), s).Some?
    ensures Reached(proves, s) == From(proves, Looking(0), s)
  {
    if s != [] {
      var front, last := s[..|s| - 1], s[|s| - 1];
      assert s == front + [last];
      PrefixFrom(proves, Looking(0), front, [last]);
      ReachedFrom(proves, front);
      FromAppend(proves, Looking(0), front, [last]);
    }
  }

  lemma {:induction false} PrefixFrom(proves: bool, p: Phase, a: seq<Event>, b: seq<Event>)
    requires From(proves, p, a + b).Some?
    ensures From(proves, p, a).Some?
    decreases |a|
  {
    if a != [] {
      assert (a + b)[1..] == a[1..] + b;
      PrefixFrom(proves, Advance(proves, p, a[0]).value, a[1..], b);
    }
  }

  lemma {:induction false} WaitsFollows(proves: bool, p: Phase, s: seq<Event>, polls: nat, ok: bool)
    requires Waits(s, polls, ok) && (p == Looking(0) || p == Seen(0))
    ensures From(proves, p, s) == Some(if ok then Seen(0) else Looking(0))
    decreases polls
  {
    if |s| == 1 {
      assert s[1..] == [];
    } else {
      FromTwo(proves, p, s);
      if s[1].ok {
        WaitsFollows(proves, Looking(0), s[2..], polls - 1, ok);
      } else {
        assert s[2..] == [];
      }
    }
  }

  lemma FromTwo(proves: bool, p: Phase, s: seq<Event>)
    requires |s| >= 2 && Advance(proves, p, s[0]).Some? && Advance(proves, Advance(proves, p, s[0]).value, s[1]).Some?
    ensures From(proves, p, s) == From(proves, Advance(proves, Advance(proves, p, s[0]).value, s[1]).value, s[2..])
  {
    assert s[1..][1..] == s[2..];
  }

  lemma StopsFollows(proves: bool, s: seq<Event>, polls: nat, ok: bool)
    requires Stops(s, polls, ok)
    ensures From(proves, Looking(0), s) == Some(if ok then Seen(0) else Looking(0))
  {
    if s[0] == Unseen {
      assert s[1..] == [];
    } else if s[0] == Saw(true) {
      WaitsFollows(proves, Seen(0), s[1..], polls, ok);
    } else {
      FromTwo(proves, Looking(0), s);
      if s[1].ok {
        WaitsFollows(proves, Looking(0), s[2..], polls, ok);
      } else {
        assert s[2..][0] == s[2] && s[2..][1..] == s[3..];
        if s[2] == Saw(true) {
          WaitsFollows(proves, Seen(0), s[3..], polls, ok);
        } else {
          assert s[3..] == [];
        }
      }
    }
  }

  function Ready(proves: bool, n: nat): Phase { if proves then Cleared(n) else Seen(n) }

  lemma RetriesFollows(proves: bool, s: seq<Event>, ok: bool)
    requires Retries(proves, s, ok)
    ensures From(proves, Seen(1), s) == Some(if ok then Up(2) else if proves && |s| == 1 then Over(1) else Looking(2))
  {
    if proves && s[0].ok {
      FromTwo(proves, Seen(1), s);
      assert s[1] == s[1..][0] && s[2..] == [];
    } else {
      assert s[1..] == [];
    }
  }

  lemma StartsUpFollows(proves: bool, s: seq<Event>, ok: bool)
    requires StartsUp(proves, s, ok)
    ensures var q := From(proves, Ready(proves, 0), s); q.Some? && (ok <==> q.value.Up?) && !q.value.Live?
  {
    if |s| == 1 {
      assert s[1..] == [];
    } else {
      FromTwo(proves, Ready(proves, 0), s);
      if s[1] == Saw(true) {
        RetriesFollows(proves, s[2..], ok);
      } else {
        assert s[2..] == [];
      }
    }
  }

  lemma LaunchesFollows(proves: bool, systemd: bool, s: seq<Event>, ok: bool)
    requires Launches(proves, systemd, s, ok)
    ensures var q := From(proves, Ready(proves, 0), s); q.Some? && (ok <==> if systemd then q.value.Up? else q.value.Live?)
  {
    if systemd {
      if s[0].ok {
        StartsUpFollows(proves, s[1..], ok);
      } else {
        assert s[1..] == [];
      }
    } else if StartsUp(proves, s, false) && !ok {
      StartsUpFollows(proves, s, false);
    } else {
      var front := s[..|s| - 1];
      StartsUpFollows(proves, front, true);
      FromAppend(proves, Ready(proves, 0), front, [Kicked(ok)]);
      assert s == front + [Kicked(ok)] && [Kicked(ok)][1..] == [];
    }
  }

  lemma AfterStop(proves: bool, stop: seq<Event>, rest: seq<Event>, polls: nat, ok: bool)
    requires Stops(stop, polls, ok) && From(proves, if ok then Seen(0) else Looking(0), rest).Some?
    ensures Reached(proves, stop + rest) == From(proves, if ok then Seen(0) else Looking(0), rest)
  {
    StopsFollows(proves, stop, polls, ok);
    FromAppend(proves, Looking(0), stop, rest);
    ReachedFrom(proves, stop + rest);
  }

  /** Every replacement is a run of the protocol, and succeeds exactly in its final phase. */
  lemma ReplacementFollows(proves: bool, systemd: bool, p: Parts, polls: nat, ok: bool)
    requires Replaces(proves, systemd, p, polls, ok)
    ensures var q := Reached(proves, Whole(p)); q.Some? && (ok <==> if systemd then q.value.Up? else q.value.Live?)
  {
    assert Whole(p) == p.stop + (p.proof + p.launch);
    if p.proof == [] && p.launch == [] {
      assert p.proof + p.launch == [];
      AfterStop(proves, p.stop, [], polls, false);
    } else {
      ProofFollows(proves, systemd, p, polls, ok);
      AfterStop(proves, p.stop, p.proof + p.launch, polls, true);
    }
  }

  lemma ProofFollows(proves: bool, systemd: bool, p: Parts, polls: nat, ok: bool)
    requires Replaces(proves, systemd, p, polls, ok) && Stops(p.stop, polls, true) && (p.proof != [] || p.launch != [])
    ensures var q := From(proves, Seen(0), p.proof + p.launch); q.Some? && (ok <==> if systemd then q.value.Up? else q.value.Live?)
  {
    if p.proof == [] {
      assert p.proof + p.launch == p.launch;
      LaunchesFollows(proves, systemd, p.launch, ok);
    } else {
      assert (p.proof + p.launch)[1..] == p.launch;
      if p.launch != [] {
        LaunchesFollows(proves, systemd, p.launch, ok);
      }
    }
  }

  // ----- a running service is told to stop, once -----

  predicate NoStop(s: seq<Event>) { forall k :: 0 <= k < |s| ==> !s[k].StopIssued? }

  lemma {:induction false} WaitsHasNoStop(s: seq<Event>, polls: nat, ok: bool)
    requires Waits(s, polls, ok)
    ensures NoStop(s)
    decreases polls
  {
    if |s| > 2 {
      WaitsHasNoStop(s[2..], polls - 1, ok);
      assert s == [s[0], s[1]] + s[2..];
    }
  }

  lemma StopsOnce(s: seq<Event>, polls: nat, ok: bool)
    requires Stops(s, polls, ok)
    ensures forall k :: 0 <= k < |s| ==> (s[k].StopIssued? <==> k == 1 && s[0] == Saw(false))
    ensures s[0] == Saw(false) ==> |s| > 1
  {
    if s[0] == Saw(true) {
      WaitsHasNoStop(s[1..], polls, ok);
      assert s == [s[0]] + s[1..];
    } else if s[0] == Saw(false) {
      if s[1].ok {
        WaitsHasNoStop(s[2..], polls, ok);
        assert s == [s[0], s[1]] + s[2..];
      } else if s[2] == Saw(true) {
        WaitsHasNoStop(s[3..], polls, ok);
        assert s == [s[0], s[1], s[2]] + s[3..];
      }
    }
  }

  lemma StartsUpHasNoStop(proves: bool, s: seq<Event>, ok: bool)
    requires StartsUp(proves, s, ok)
    ensures NoStop(s)
  {
    if |s| > 2 {
      assert s == [s[0], s[1]] + s[2..];
      if proves && s[2..][0].ok {
        assert s[2..] == [s[2..][0]] + s[2..][1..];
      }
    }
  }

  lemma LaunchesHasNoStop(proves: bool, systemd: bool, s: seq<Event>, ok: bool)
    requires Launches(proves, systemd, s, ok)
    ensures NoStop(s)
  {
    if systemd {
      assert s == [s[0]] + s[1..];
      if s[0].ok {
        StartsUpHasNoStop(proves, s[1..], ok);
      }
    } else if StartsUp(proves, s, false) && !ok {
      StartsUpHasNoStop(proves, s, false);
    } else {
      StartsUpHasNoStop(proves, s[..|s| - 1], true);
      assert s == s[..|s| - 1] + [Kicked(ok)];
    }
  }

  /** The first event is a look. A service seen running is told to stop next, and only then; one seen stopped never is. */
  lemma StopIsIssuedExactly(proves: bool, systemd: bool, p: Parts, polls: nat, ok: bool)
    requires Replaces(proves, systemd, p, polls, ok)
    ensures var s := Whole(p);
            && |s| > 0 && (s[0] == Saw(true) || s[0] == Saw(false) || s[0] == Unseen)
            && (s[0] == Saw(false) ==> |s| > 1)
            && forall k :: 0 <= k < |s| ==> (s[k].StopIssued? <==> k == 1 && s[0] == Saw(false))
  {
    var stopped := Stops(p.stop, polls, true) && (p.proof != [] || p.launch != []);
    StopsOnce(p.stop, polls, stopped);
    if p.launch != [] {
      LaunchesHasNoStop(proves, systemd, p.launch, ok);
    }
    var s, n := Whole(p), |p.stop|;
    forall k | 0 <= k < |s| ensures s[k].StopIssued? <==> k == 1 && s[0] == Saw(false) {
      if k >= n {
        assert s[k] in p.proof || s[k] in p.launch;
      }
    }
  }

  // ----- giving up -----

  lemma {:induction false} PausesAppend(a: seq<Event>, b: seq<Event>)
    ensures Pauses(a + b) == Pauses(a) + Pauses(b) && ServiceReplace.Starts(a + b) == ServiceReplace.Starts(a) + ServiceReplace.Starts(b)
  {
    if b == [] {
      assert a + b == a;
    } else {
      PausesAppend(a, b[..|b| - 1]);
      assert (a + b)[..|a + b| - 1] == a + b[..|b| - 1];
    }
  }

  lemma CountOne(a: Event)
    ensures Pauses([a]) == (if a.Paused? then 1 else 0) && ServiceReplace.Starts([a]) == if a.Started? then 1 else 0
  {
    assert [a][..0] == [];
  }

  lemma CountTwo(a: Event, b: Event)
    ensures Pauses([a, b]) == (if a.Paused? then 1 else 0) + (if b.Paused? then 1 else 0)
    ensures ServiceReplace.Starts([a, b]) == (if a.Started? then 1 else 0) + (if b.Started? then 1 else 0)
    ensures Pauses([a]) == (if a.Paused? then 1 else 0) && ServiceReplace.Starts([a]) == if a.Started? then 1 else 0
  {
    CountOne(a);
    CountOne(b);
    PausesAppend([a], [b]);
    assert [a] + [b] == [a, b];
  }

  /** A wait that fails ends without an answer, with a failed pause, or on a running service after every pause was used. */
  lemma {:induction false} WaitsItOut(s: seq<Event>, polls: nat, ok: bool)
    requires Waits(s, polls, ok)
    ensures ServiceReplace.Starts(s) == 0
    ensures !ok ==> s[|s| - 1] == Unseen || s[|s| - 1] == Paused(false) || (s[|s| - 1] == Saw(false) && Pauses(s) == polls)
    decreases polls
  {
    if |s| == 1 {
      CountTwo(s[0], s[0]);
      assert s == [s[0]];
    } else {
      CountTwo(s[0], s[1]);
      assert s == [s[0], s[1]] + s[2..];
      PausesAppend([s[0], s[1]], s[2..]);
      if s[1].ok {
        WaitsItOut(s[2..], polls - 1, ok);
      } else {
        assert s[2..] == [];
      }
    }
  }

  lemma WaitAfter(head: seq<Event>, s: seq<Event>, polls: nat, ok: bool)
    requires head != [] && Waits(s, polls, ok) && Pauses(head) == 0 && ServiceReplace.Starts(head) == 0
    ensures ServiceReplace.Starts(head + s) == 0 && (!ok ==> GaveUp(head + s, polls))
  {
    WaitsItOut(s, polls, ok);
    PausesAppend(head, s);
    assert (head + s)[|head + s| - 1] == s[|s| - 1];
  }

  lemma StopGivesUp(s: seq<Event>, polls: nat, ok: bool)
    requires Stops(s, polls, ok)
    ensures ServiceReplace.Starts(s) == 0 && (!ok ==> GaveUp(s, polls))
  {
    CountTwo(s[0], s[0]);
    if s[0] == Unseen {
      assert s == [s[0]];
    } else if s[0] == Saw(true) {
      assert s == [s[0]] + s[1..];
      WaitAfter([s[0]], s[1..], polls, ok);
    } else {
      CountTwo(s[0], s[1]);
      if s[1].ok {
        assert s == [s[0], s[1]] + s[2..];
        WaitAfter([s[0], s[1]], s[2..], polls, ok);
      } else {
        CountTwo(s[2], s[2]);
        PausesAppend([s[0], s[1]], [s[2]]);
        assert [s[0], s[1], s[2]] == [s[0], s[1]] + [s[2]] && s == [s[0], s[1], s[2]] + s[3..];
        if s[2] == Saw(true) {
          WaitAfter([s[0], s[1], s[2]], s[3..], polls, ok);
        } else {
          assert s[3..] == [] && s == [s[0], s[1]] + [s[2]];
        }
      }
    }
  }

  /** How a start that fails ends: a failed second start, or something that keeps it from being tried. */
  predicate StartGaveUp(s: seq<Event>) {
    |s| > 0 && var last := s[|s| - 1];
    || last == Unseen || last == AbsenceProof(false) || (last == Started(false) && ServiceReplace.Starts(s) == 2)
    || (last == Saw(false) && |s| > 1 && s[|s| - 2] == Started(false))
  }

  lemma StartGivesUp(proves: bool, s: seq<Event>)
    requires StartsUp(proves, s, false)
    ensures StartGaveUp(s)
  {
    if s[1] == Saw(true) {
      var rest := s[2..];
      assert s == [s[0], s[1]] + rest && s[|s| - 1] == rest[|rest| - 1];
      CountTwo(s[0], s[1]);
      PausesAppend([s[0], s[1]], rest);
      CountTwo(rest[0], Started(false));
      if proves && rest[0].ok {
        assert rest == [rest[0]] + rest[1..] && rest == [rest[0], Started(false)];
      }
    }
  }

  lemma GaveUpAfter(head: seq<Event>, s: seq<Event>, polls: nat)
    requires StartGaveUp(s) && ServiceReplace.Starts(head) == 0
    ensures GaveUp(head + s, polls)
  {
    PausesAppend(head, s);
    var whole := head + s;
    assert whole[|whole| - 1] == s[|s| - 1] && (|s| > 1 ==> whole[|whole| - 2] == s[|s| - 2]);
  }

  lemma LaunchGivesUp(proves: bool, systemd: bool, head: seq<Event>, s: seq<Event>, polls: nat)
    requires Launches(proves, systemd, s, false) && ServiceReplace.Starts(head) == 0
    ensures GaveUp(head + s, polls)
  {
    assert (head + s)[|head + s| - 1] == s[|s| - 1];
    if systemd {
      if s[0].ok {
        StartGivesUp(proves, s[1..]);
        CountTwo(s[0], s[0]);
        PausesAppend(head, [s[0]]);
        GaveUpAfter(head + [s[0]], s[1..], polls);
        assert head + s == head + [s[0]] + s[1..];
      }
    } else if StartsUp(proves, s, false) {
      StartGivesUp(proves, s);
      GaveUpAfter(head, s, polls);
    }
  }

  /** A replacement that fails says why. */
  lemma ReplacementGivesUp(proves: bool, systemd: bool, p: Parts, polls: nat)
    requires Replaces(proves, systemd, p, polls, false)
    ensures GaveUp(Whole(p), polls)
  {
    var stopped := Stops(p.stop, polls, true) && (p.proof != [] || p.launch != []);
    StopGivesUp(p.stop, polls, stopped);
    if !stopped {
      assert Whole(p) == p.stop;
    } else if p.launch == [] {
      assert Whole(p)[|Whole(p)| - 1] == AbsenceProof(false);
    } else {
      CountTwo(AbsenceProof(true), AbsenceProof(true));
      PausesAppend(p.stop, p.proof);
      LaunchGivesUp(proves, systemd, p.stop + p.proof, p.launch, polls);
    }
  }

  // ----- an ordinary upgrade -----

  /** Every command works and asking never fails. */
  predicate Works(e: Event) {
    match e
    case Saw(_) => true
    case Unseen => false
    case StopIssued(ok) => ok
    case Paused(ok) => ok
    case AbsenceProof(ok) => ok
    case Reloaded(ok) => ok
    case Started(ok) => ok
    case Kicked(ok) => ok
  }

  /** Everything works, and whatever is seen after the first two events is a stopped service. */
  predicate Ordinary(s: seq<Event>) { forall k :: 0 <= k < |s| ==> Works(s[k]) && (k >= 2 ==> s[k] != Saw(false)) }

  /** Seen stopped at first and running at the next look. */
  predicate ComesBack(s: seq<Event>) { |s| > 1 && s[0] == Saw(true) && s[1] == Saw(false) }

  lemma LaunchSucceeds(proves: bool, systemd: bool, s: seq<Event>, ok: bool)
    requires Launches(proves, systemd, s, ok) && forall k :: 0 <= k < |s| ==> Works(s[k])
    ensures ok
  {
    if !systemd && !(StartsUp(proves, s, false) && !ok) {
      assert Works(s[|s| - 1]);
    } else if systemd && s[0].ok {
      assert Works(s[1..][0]) by { assert s[1..][0] == s[1]; }
    }
  }

  /**
   A replacement succeeds when every command works and the service is stopped once told:
   a running one is seen stopped after the stop, a stopped one stays stopped.
   */
  lemma OrdinaryUpgradeSucceeds(proves: bool, systemd: bool, p: Parts, polls: nat, ok: bool)
    requires Replaces(proves, systemd, p, polls, ok) && Ordinary(Whole(p)) && !ComesBack(p.stop)
    ensures ok
  {
    var s, n := Whole(p), |p.stop|;
    assert forall k :: 0 <= k < n ==> s[k] == p.stop[k];
    assert p.proof != [] ==> s[n] == p.proof[0] && Works(s[n]);
    if p.launch != [] {
      var m := n + |p.proof|;
      forall k | 0 <= k < |p.launch| ensures Works(p.launch[k]) {
        assert s[m + k] == p.launch[k];
      }
      LaunchSucceeds(proves, systemd, p.launch, ok);
    } else if p.proof == [] && Stops(p.stop, polls, false) {
      StopSucceeds(p.stop, polls);
    }
  }

  lemma StopSucceeds(s: seq<Event>, polls: nat)
    requires Stops(s, polls, false) && Ordinary(s)
    ensures ComesBack(s)
  {
    assert |s| > 1 ==> s[1..][0] == s[1];
    assert |s| > 2 ==> s[2..][0] == s[2] && Works(s[2]);
  }
}
