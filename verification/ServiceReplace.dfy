/**
 Replacing the personal background service: the abstract protocol that the systemd and
 the launchd controller follow, and what every run it allows guarantees.
 */
module ServiceReplace {
  import opened Basics

  /** What a controller does and what comes back. A start is systemd's enable --now or launchd's bootstrap. */
  datatype Event =
    | Saw(stopped: bool)
    | Unseen
    | StopIssued(ok: bool)
    | Paused(ok: bool)
    | AbsenceProof(ok: bool)
    | Reloaded(ok: bool)
    | Started(ok: bool)
    | Kicked(ok: bool)

  // ----- the abstract protocol -----

  /** starts counts the starts issued so far. */
  datatype Phase = Looking(starts: nat) | Seen(starts: nat) | Cleared(starts: nat) | Up(starts: nat) | Live(starts: nat) | Over(starts: nat)

  /** The next phase, or nothing when the protocol forbids the event; proves: an absence proof is configured. */
  function Advance(proves: bool, p: Phase, e: Event): Option<Phase> {
    match (p, e)
    case (Looking(n), Saw(stopped)) => Some(if stopped then Seen(n) else Looking(n))
    case (Looking(n), Unseen) => Some(Looking(n))
    case (Looking(n), StopIssued(_)) => if n == 0 then Some(Looking(n)) else None
    case (Looking(n), Paused(_)) => Some(Looking(n))
    case (Seen(n), Saw(stopped)) => Some(if stopped then Seen(n) else Looking(n))
    case (Seen(n), Unseen) => Some(Looking(n))
    case (Seen(n), AbsenceProof(ok)) => if proves then Some(if ok then Cleared(n) else Over(n)) else None
    case (Seen(n), Reloaded(ok)) => if proves then None else Some(if ok then Seen(n) else Over(n))
    case (Seen(n), Started(ok)) => if proves || n >= 2 then None else Some(if ok then Up(n + 1) else Looking(n + 1))
    case (Cleared(n), Reloaded(ok)) => Some(if ok then Cleared(n) else Over(n))
    case (Cleared(n), Started(ok)) => if n >= 2 then None else Some(if ok then Up(n + 1) else Looking(n + 1))
    case (Up(n), Kicked(ok)) => Some(if ok then Live(n) else Over(n))
    case _ => None
  }

  /** Where a trace leads, or nothing when it breaks the protocol. */
  function Reached(proves: bool, trace: seq<Event>): Option<Phase> {
    if trace == [] then Some(Looking(0))
    else
      var before := Reached(proves, trace[..|trace| - 1]);
      if before.None? then None else Advance(proves, before.value, trace[|trace| - 1])
  }

  // ----- what the protocol guarantees -----

  function Starts(trace: seq<Event>): nat {
    if trace == [] then 0 else Starts(trace[..|trace| - 1]) + if trace[|trace| - 1].Started? then 1 else 0
  }

  function Pauses(trace: seq<Event>): nat {
    if trace == [] then 0 else Pauses(trace[..|trace| - 1]) + if trace[|trace| - 1].Paused? then 1 else 0
  }

  /** Why a replacement gives up: what was asked failed, a second start failed, or the service still runs when it may not be waited for. */
  predicate GaveUp(trace: seq<Event>, polls: nat) {
    |trace| > 0 && match trace[|trace| - 1]
      case Unseen => true
      case Paused(ok) => !ok
      case AbsenceProof(ok) => !ok
      case Reloaded(ok) => !ok
      case Kicked(ok) => !ok
      case Started(ok) => !ok && Starts(trace) == 2
      case Saw(stopped) => !stopped && |trace| > 1
          && (trace[|trace| - 2] == StopIssued(false) || trace[|trace| - 2] == Started(false) || Pauses(trace) == polls)
      case StopIssued(_) => false
  }

  predicate NoStartBetween(trace: seq<Event>, j: nat, k: nat) { forall i :: j < i < k && i < |trace| ==> !trace[i].Started? }

  /** The service was seen stopped at j, with no start since. */
  predicate SeenAt(trace: seq<Event>, j: nat, k: nat) {
    j < k <= |trace| && trace[j] == Saw(true) && NoStartBetween(trace, j, k)
  }

  /** A start at the end of this trace would be safe. */
  ghost predicate Clear(proves: bool, trace: seq<Event>, k: nat) {
    exists j: nat :: SeenAt(trace, j, k) && (proves ==> exists p :: j < p < k && trace[p] == AbsenceProof(true))
  }

  ghost predicate Sound(proves: bool, trace: seq<Event>, p: Phase) {
    && p.starts == Starts(trace) <= 2
    && (p.Seen? ==> exists j: nat :: SeenAt(trace, j, |trace|))
    && (p.Seen? && !proves ==> Clear(proves, trace, |trace|))
    && (p.Cleared? ==> Clear(proves, trace, |trace|))
    && (p.Up? ==> |trace| > 0 && trace[|trace| - 1] == Started(true))
    && (p.Live? ==> |trace| > 1 && trace[|trace| - 1] == Kicked(true) && trace[|trace| - 2] == Started(true))
  }

  lemma SeenStays(trace: seq<Event>, e: Event, j: nat)
    requires SeenAt(trace, j, |trace|) && !e.Started?
    ensures SeenAt(trace + [e], j, |trace| + 1)
  {
  }

  lemma ClearStays(proves: bool, trace: seq<Event>, e: Event)
    requires Clear(proves, trace, |trace|) && !e.Started?
    ensures Clear(proves, trace + [e], |trace| + 1)
  {
    var j: nat :| SeenAt(trace, j, |trace|) && (proves ==> exists p :: j < p < |trace| && trace[p] == AbsenceProof(true));
    SeenStays(trace, e, j);
    if proves {
      var p :| j < p < |trace| && trace[p] == AbsenceProof(true);
      assert (trace + [e])[p] == AbsenceProof(true);
    }
  }

  lemma StepSound(proves: bool, trace: seq<Event>, p: Phase, e: Event)
    requires Sound(proves, trace, p) && Advance(proves, p, e).Some?
    ensures Sound(proves, trace + [e], Advance(proves, p, e).value)
  {
    var trace' := trace + [e];
    assert trace'[..|trace|] == trace;
    if e == Saw(true) {
      assert SeenAt(trace', |trace|, |trace'|);
    } else if p.Seen? && e == AbsenceProof(true) {
      var j: nat :| SeenAt(trace, j, |trace|);
      SeenStays(trace, e, j);
      assert trace'[|trace|] == AbsenceProof(true);
    } else if (p.Cleared? || p.Seen?) && e == Reloaded(true) {
      ClearStays(proves, trace, e);
      if p.Seen? {
        var j: nat :| SeenAt(trace, j, |trace|);
        SeenStays(trace, e, j);
      }
    }
  }

  lemma {:induction false} ReachedSound(proves: bool, trace: seq<Event>)
    requires Reached(proves, trace).Some?
    ensures Sound(proves, trace, Reached(proves, trace).value)
  {
    if trace != [] {
      var front := trace[..|trace| - 1];
      ReachedSound(proves, front);
      StepSound(proves, front, Reached(proves, front).value, trace[|trace| - 1]);
      assert trace == front + [trace[|trace| - 1]];
    }
  }

  lemma {:induction false} PrefixReached(proves: bool, trace: seq<Event>, k: nat)
    requires Reached(proves, trace).Some? && k <= |trace|
    ensures Reached(proves, trace[..k]).Some?
  {
    if k == |trace| {
      assert trace[..k] == trace;
    } else {
      var front := trace[..|trace| - 1];
      PrefixReached(proves, front, k);
      assert front[..k] == trace[..k];
    }
  }

  /**
   In every run the protocol allows, each start follows an inspect that saw the
   service stopped and then (where configured) a successful absence proof, with no
   start in between; and there are at most two starts.
   */
  lemma StartsAreSafe(proves: bool, trace: seq<Event>, k: nat)
    requires Reached(proves, trace).Some? && k < |trace| && trace[k].Started?
    ensures Clear(proves, trace, k) && Starts(trace) <= 2
  {
    ReachedSound(proves, trace);
    PrefixReached(proves, trace, k + 1);
    var front := trace[..k];
    assert trace[..k + 1][..k] == front;
    ReachedSound(proves, front);
    ClearInWhole(proves, trace, k);
  }

  lemma ClearInWhole(proves: bool, trace: seq<Event>, k: nat)
    requires k <= |trace| && Clear(proves, trace[..k], k)
    ensures Clear(proves, trace, k)
  {
    var front := trace[..k];
    var j: nat :| SeenAt(front, j, k) && (proves ==> exists p :: j < p < k && front[p] == AbsenceProof(true));
    assert SeenAt(trace, j, k);
  }

  /** What the final phase says about the trace: success means the last start, and launchd's kickstart, succeeded. */
  lemma SuccessMeans(proves: bool, trace: seq<Event>)
    requires Reached(proves, trace).Some?
    ensures var p := Reached(proves, trace).value;
            && p.starts == Starts(trace) <= 2
            && (p.Up? ==> |trace| > 0 && trace[|trace| - 1] == Started(true))
            && (p.Live? ==> |trace| > 1 && trace[|trace| - 1] == Kicked(true) && trace[|trace| - 2] == Started(true))
  {
    ReachedSound(proves, trace);
  }

  /** A start is retried only after it failed: no start follows a successful one. */
  lemma NothingAfterSuccess(proves: bool, trace: seq<Event>, i: nat, k: nat)
    requires Reached(proves, trace).Some? && i < k < |trace| && trace[i] == Started(true)
    ensures trace[k].Kicked? && k == i + 1
  {
    PrefixReached(proves, trace, k + 1);
    UpAfter(proves, trace, i, k);
  }

  lemma {:induction false} UpAfter(proves: bool, trace: seq<Event>, i: nat, k: nat)
    requires i < k < |trace| && trace[i] == Started(true) && Reached(proves, trace[..k + 1]).Some?
    ensures k == i + 1 && trace[k].Kicked?
    ensures var p := Reached(proves, trace[..k + 1]).value; p.Live? || p.Over?
  {
    assert trace[..k + 1][..k] == trace[..k];
    if k == i + 1 {
      assert trace[..k][..i] == trace[..i];
    } else {
      UpAfter(proves, trace, i, k - 1);
    }
  }
}
