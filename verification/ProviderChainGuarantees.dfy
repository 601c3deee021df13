/** What every walk over the provider chain guarantees, and when a caller retries its failure. */
module ProviderChainGuarantees {
  import opened Basics
  import opened ProviderChain

  // ----- what every walk keeps -----

  predicate Last(ch: Chain, req: Request, index: nat) { req.attempt <= 1 || index + 1 == |ch.providers| }

  /** A position is called with its own budget, or skipped. */
  predicate GoodCall(ch: Chain, req: Request, index: nat, t: Turn)
    requires index < |ch.providers|
  {
    t.calls == if t.visit == Skipped then [] else [Call(index, Sent(req.maxTokens, ch.providers[index]))]
  }

  predicate Routed(ch: Chain, index: nat) { index < |ch.providers| && ch.control && ch.providers[index].route != "" }

  /** At most one circuit effect, on a routed position: closing on success, anything else on failure. */
  predicate GoodEffects(ch: Chain, index: nat, t: Turn) {
    && |t.circuit| <= 1
    && (forall e :: e in t.circuit ==> e.index == index && Routed(ch, index) && if e.Closed? then t.visit == Succeeded else t.visit.Failed?)
    && (t.visit == Succeeded && Routed(ch, index) ==> t.circuit == [Closed(index)])
  }

  /** The walk ends on an answer or a cancellation and otherwise leaves a note. */
  predicate GoodEnd(ch: Chain, req: Request, index: nat, t: Turn) {
    && (t.note.Some? <==> t.done.None?)
    && match t.visit
       case Skipped => t.done.None?
       case Succeeded => t.done.Some? && t.done.value.Response? && Usable(t.done.value.body)
       case CutShort =>
         if Last(ch, req, index) then t.done.Some? && t.done.value.Response? && !Usable(t.done.value.body) && t.done.value.body.truncated
         else t.done.None?
       case Failed(_) => t.done in {None, Some(Cancelled)}
  }

  /** Everything the theorems need to know about one position's turn. */
  predicate GoodTurn(ch: Chain, req: Request, index: nat, t: Turn)
    requires index < |ch.providers|
  {
    GoodCall(ch, req, index, t) && GoodEffects(ch, index, t) && GoodEnd(ch, req, index, t)
  }

  lemma TurnsAreGood(ch: Chain, req: Request, w: World, index: nat)
    requires index < |ch.providers|
    ensures GoodTurn(ch, req, index, Turns(ch, req, w)(index))
  {
  }

  /** The calls so far: in order of position, each position at most once, each with that position's own budget. */
  ghost predicate Orderly(ch: Chain, req: Request, wk: Walk) {
    |wk.trace| <= |ch.providers| && CallsFit(ch, req, wk.trace, wk.calls) && CallsRise(wk.calls) && VisitsCalled(wk.trace, wk.calls)
  }

  predicate Fits(ch: Chain, req: Request, trace: seq<Visit>, call: Call) {
    && call.index < |trace| && call.index < |ch.providers| && trace[call.index] != Skipped
    && call.tokens == Sent(req.maxTokens, ch.providers[call.index])
  }

  predicate CallsFit(ch: Chain, req: Request, trace: seq<Visit>, calls: seq<Call>) {
    forall k :: 0 <= k < |calls| ==> Fits(ch, req, trace, calls[k])
  }

  predicate CallsRise(calls: seq<Call>) { forall j, k :: 0 <= j < k < |calls| ==> calls[j].index < calls[k].index }

  predicate VisitsCalled(trace: seq<Visit>, calls: seq<Call>) {
    forall i :: 0 <= i < |trace| && trace[i] != Skipped ==> exists k :: 0 <= k < |calls| && calls[k].index == i
  }

  /** Where the walk ended, and why it went on before. */
  ghost predicate Told(ch: Chain, req: Request, wk: Walk) {
    && (forall i :: 0 <= i < |wk.trace| - 1 ==> GoesOn(ch, req, wk.trace[i], i))
    && (wk.done.None? ==> forall i :: 0 <= i < |wk.trace| ==> GoesOn(ch, req, wk.trace[i], i))
    && (wk.done.Some? ==> |wk.trace| > 0 && match wk.done.value
          case Response(b) => AnsweredBy(ch, req, wk.trace, b)
          case Cancelled => wk.trace[|wk.trace| - 1].Failed?
          case Unavailable(_) => false)
  }

  /** A position the walk may go past. */
  predicate GoesOn(ch: Chain, req: Request, v: Visit, index: nat) {
    v == Skipped || v.Failed? || (v == CutShort && !Last(ch, req, index))
  }

  /** The last visited position gave this body: usable, or truncated and empty where that may be handed back. */
  predicate AnsweredBy(ch: Chain, req: Request, trace: seq<Visit>, b: Body)
    requires |trace| > 0
  {
    if Usable(b) then trace[|trace| - 1] == Succeeded
    else trace[|trace| - 1] == CutShort && b.truncated && Last(ch, req, |trace| - 1)
  }

  /** Circuit effects name only positions that succeeded or failed, at most one each, in order. */
  ghost predicate Honest(ch: Chain, wk: Walk) {
    && (forall k :: 0 <= k < |wk.circuit| ==> Earned(ch, wk.trace, wk.circuit[k]))
    && (forall j, k :: 0 <= j < k < |wk.circuit| ==> wk.circuit[j].index < wk.circuit[k].index)
    && (forall i :: 0 <= i < |wk.trace| && wk.trace[i] == Succeeded && Routed(ch, i) ==> Closed(i) in wk.circuit)
  }

  predicate Earned(ch: Chain, trace: seq<Visit>, e: Effect) {
    e.index < |trace| && Routed(ch, e.index) && if e.Closed? then trace[e.index] == Succeeded else trace[e.index].Failed?
  }

  ghost predicate Counted(wk: Walk) {
    && (wk.anyRetryable <==> Failed(true) in wk.trace)
    && (wk.done.None? ==> |wk.failures| == |wk.trace| && (wk.last.Some? <==> |wk.trace| > 0))
  }

  lemma OneMoreVisit(trace: seq<Visit>, calls: seq<Call>, v: Visit, more: seq<Call>)
    requires VisitsCalled(trace, calls) && (v != Skipped ==> |more| == 1 && more[0].index == |trace|)
    ensures VisitsCalled(trace + [v], calls + more)
  {
    var calls' := calls + more;
    forall i | 0 <= i < |trace| + 1 && (trace + [v])[i] != Skipped ensures exists k :: 0 <= k < |calls'| && calls'[k].index == i {
      if i < |trace| {
        var k :| 0 <= k < |calls| && calls[k].index == i;
        assert calls'[k].index == i;
      } else {
        assert calls'[|calls|].index == i;
      }
    }
  }

  lemma OneMoreCall(ch: Chain, req: Request, trace: seq<Visit>, calls: seq<Call>, v: Visit, more: seq<Call>)
    requires CallsFit(ch, req, trace, calls) && CallsRise(calls) && |trace| < |ch.providers|
    requires more == if v == Skipped then [] else [Call(|trace|, Sent(req.maxTokens, ch.providers[|trace|]))]
    ensures CallsFit(ch, req, trace + [v], calls + more) && CallsRise(calls + more)
  {
    forall k | 0 <= k < |calls| ensures Fits(ch, req, trace + [v], calls[k]) && calls[k].index < |trace| {
      assert Fits(ch, req, trace, calls[k]);
    }
  }

  lemma StepOrderly(ch: Chain, req: Request, wk: Walk, t: Turn)
    requires Orderly(ch, req, wk) && |wk.trace| < |ch.providers| && GoodCall(ch, req, |wk.trace|, t)
    ensures Orderly(ch, req, Take(wk, t))
  {
    OneMoreVisit(wk.trace, wk.calls, t.visit, t.calls);
    OneMoreCall(ch, req, wk.trace, wk.calls, t.visit, t.calls);
  }

  lemma StepTold(ch: Chain, req: Request, wk: Walk, t: Turn)
    requires Told(ch, req, wk) && wk.done.None? && |wk.trace| < |ch.providers| && GoodEnd(ch, req, |wk.trace|, t)
    ensures Told(ch, req, Take(wk, t))
  {
    var wk' := Take(wk, t);
    assert wk'.trace == wk.trace + [t.visit] && wk'.done == t.done;
    forall i | 0 <= i < |wk.trace| ensures GoesOn(ch, req, wk'.trace[i], i) {
      assert wk'.trace[i] == wk.trace[i];
    }
  }

  lemma StepHonest(ch: Chain, wk: Walk, t: Turn)
    requires Honest(ch, wk) && GoodEffects(ch, |wk.trace|, t)
    ensures Honest(ch, Take(wk, t))
  {
    var wk' := Take(wk, t);
    assert wk'.trace == wk.trace + [t.visit] && wk'.circuit == wk.circuit + t.circuit;
    forall k | 0 <= k < |wk'.circuit| ensures Earned(ch, wk'.trace, wk'.circuit[k]) {
      if k < |wk.circuit| {
        assert Earned(ch, wk.trace, wk.circuit[k]);
      } else {
        assert wk'.circuit[k] in t.circuit;
      }
    }
    assert forall e :: e in wk.circuit ==> e in wk'.circuit;
  }

  lemma StepCounted(ch: Chain, req: Request, wk: Walk, t: Turn)
    requires Counted(wk) && wk.done.None? && GoodEnd(ch, req, |wk.trace|, t)
    ensures Counted(Take(wk, t))
  {
    assert Take(wk, t).trace == wk.trace + [t.visit];
    assert t.visit in wk.trace + [t.visit];
  }

  lemma {:induction false} WalkLength(turn: nat -> Turn, n: nat)
    ensures var wk := WalkBy(turn, n); |wk.trace| <= n && (wk.done.None? ==> |wk.trace| == n)
  {
    if n > 0 {
      WalkLength(turn, n - 1);
    }
  }

  lemma {:induction false} WalkOrderly(ch: Chain, req: Request, turn: nat -> Turn, n: nat)
    requires n <= |ch.providers| && forall i: nat :: i < n ==> GoodCall(ch, req, i, turn(i))
    ensures Orderly(ch, req, WalkBy(turn, n))
  {
    if n > 0 {
      WalkOrderly(ch, req, turn, n - 1);
      WalkLength(turn, n - 1);
      if WalkBy(turn, n - 1).done.None? {
        StepOrderly(ch, req, WalkBy(turn, n - 1), turn(n - 1));
      }
    }
  }

  lemma {:induction false} WalkTold(ch: Chain, req: Request, turn: nat -> Turn, n: nat)
    requires n <= |ch.providers| && forall i: nat :: i < n ==> GoodEnd(ch, req, i, turn(i))
    ensures Told(ch, req, WalkBy(turn, n)) && Counted(WalkBy(turn, n))
  {
    if n > 0 {
      WalkTold(ch, req, turn, n - 1);
      WalkLength(turn, n - 1);
      if WalkBy(turn, n - 1).done.None? {
        StepTold(ch, req, WalkBy(turn, n - 1), turn(n - 1));
        StepCounted(ch, req, WalkBy(turn, n - 1), turn(n - 1));
      }
    }
  }

  lemma {:induction false} WalkHonest(ch: Chain, turn: nat -> Turn, n: nat)
    requires forall i: nat :: i < n ==> GoodEffects(ch, i, turn(i))
    ensures Honest(ch, WalkBy(turn, n))
  {
    if n > 0 {
      WalkHonest(ch, turn, n - 1);
      WalkLength(turn, n - 1);
      if WalkBy(turn, n - 1).done.None? {
        StepHonest(ch, WalkBy(turn, n - 1), turn(n - 1));
      }
    }
  }

  lemma WalkKeeps(ch: Chain, req: Request, turn: nat -> Turn, n: nat)
    requires n <= |ch.providers| && forall i: nat :: i < n ==> GoodTurn(ch, req, i, turn(i))
    ensures var wk := WalkBy(turn, n);
            && Orderly(ch, req, wk) && Told(ch, req, wk) && Honest(ch, wk) && Counted(wk)
            && |wk.trace| <= n && (wk.done.None? ==> |wk.trace| == n)
  {
    WalkLength(turn, n);
    WalkOrderly(ch, req, turn, n);
    WalkTold(ch, req, turn, n);
    WalkHonest(ch, turn, n);
  }

  /**
   One Chat call visits positions in order and calls each provider at most once,
   with that position's own budget; circuit effects belong to positions that
   succeeded or failed.
   */
  lemma ChatKeeps(ch: Chain, req: Request, w: World)
    ensures var wk := WalkAll(ch, req, w);
            && Orderly(ch, req, wk) && Told(ch, req, wk) && Honest(ch, wk) && Counted(wk)
            && (wk.done.None? ==> |wk.trace| == |ch.providers|)
  {
    forall i: nat | i < |ch.providers| ensures GoodTurn(ch, req, i, Turns(ch, req, w)(i)) {
      TurnsAreGood(ch, req, w, i);
    }
    WalkKeeps(ch, req, Turns(ch, req, w), |ch.providers|);
  }

  /**
   An answer from position i: every earlier position was circuit-open, failed, or
   was cut short on a later contract attempt; a usable answer closes its circuit,
   a truncated empty one leaves its circuit untouched.
   */
  lemma AnswerMeans(ch: Chain, req: Request, w: World, b: Body)
    requires AnswerOf(WalkAll(ch, req, w)) == Response(b)
    ensures var wk := WalkAll(ch, req, w);
            && 0 < |wk.trace| <= |ch.providers|
            && var i := |wk.trace| - 1;
            && (forall j :: 0 <= j < i ==> GoesOn(ch, req, wk.trace[j], j))
            && (Usable(b) ==> wk.trace[i] == Succeeded && (Routed(ch, i) ==> Closed(i) in wk.circuit))
            && (!Usable(b) ==> wk.trace[i] == CutShort && b.truncated && Last(ch, req, i) && forall e :: e in wk.circuit ==> e.index < i)
  {
    ChatKeeps(ch, req, w);
    var wk := WalkAll(ch, req, w);
    forall e | e in wk.circuit && !Usable(b) ensures e.index < |wk.trace| - 1 {
      var k :| 0 <= k < |wk.circuit| && wk.circuit[k] == e;
      assert Earned(ch, wk.trace, wk.circuit[k]);
    }
  }

  /** The aggregate error: every position was passed, and it is marked exactly when no called one failed retryably. */
  lemma AggregateMeans(ch: Chain, req: Request, w: World, a: Aggregate)
    requires AnswerOf(WalkAll(ch, req, w)) == Unavailable(a)
    ensures var wk := WalkAll(ch, req, w);
            && |wk.trace| == |ch.providers| == |a.failures|
            && (forall j :: 0 <= j < |wk.trace| ==> GoesOn(ch, req, wk.trace[j], j))
            && (a.marked <==> ch.providers != [] && Failed(true) !in wk.trace)
            && (a.last.Some? <==> ch.providers != [])
  {
    ChatKeeps(ch, req, w);
  }

  // ----- what a circuit effect says -----

  lemma {:induction false} EffectsOfTurns(turn: nat -> Turn, n: nat, e: Effect)
    requires forall i: nat, x :: i < n && x in turn(i).circuit ==> x.index == i
    ensures var wk := WalkBy(turn, n); e in wk.circuit <==> e.index < |wk.trace| && e in turn(e.index).circuit
  {
    if n > 0 {
      EffectsOfTurns(turn, n - 1, e);
      WalkLength(turn, n - 1);
      var wk, t := WalkBy(turn, n - 1), turn(n - 1);
      assert e in wk.circuit + t.circuit <==> e in wk.circuit || e in t.circuit;
    }
  }

  /**
   A circuit opens for quota exactly at visited, called positions whose provider
   reported quota, and for length only where the provider itself reported an error:
   no body it returned, truncated or not, ever opens its circuit. A probe is put off
   exactly where a probing position fails in any other way.
   */
  lemma CircuitTells(ch: Chain, req: Request, w: World, i: nat)
    requires i < |ch.providers|
    ensures var wk, reply := WalkAll(ch, req, w), ReplyAt(ch, req, w, i);
            && (OpenedForQuota(i) in wk.circuit <==>
                  i < |wk.trace| && Routed(ch, i) && Allowed(ch, w, i) && reply.Fault? && reply.error.kind == Quota)
            && (OpenedForLength(i) in wk.circuit <==>
                  i < |wk.trace| && Routed(ch, i) && Allowed(ch, w, i) && reply.Fault? && reply.error.kind == EmptyResponse && reply.error.atLength)
            && (Closed(i) in wk.circuit <==>
                  i < |wk.trace| && Routed(ch, i) && Allowed(ch, w, i) && reply.Answered? && Usable(reply.body))
            && (ProbeDeferred(i) in wk.circuit <==>
                  i < |wk.trace| && Routed(ch, i) && Allowed(ch, w, i) && w.gate(i).probe && FailsOtherwise(reply))
  {
    var turn := Turns(ch, req, w);
    forall k: nat, x | k < |ch.providers| && x in turn(k).circuit ensures x.index == k {
      TurnsAreGood(ch, req, w, k);
    }
    EffectsOfTurns(turn, |ch.providers|, OpenedForQuota(i));
    EffectsOfTurns(turn, |ch.providers|, OpenedForLength(i));
    EffectsOfTurns(turn, |ch.providers|, Closed(i));
    EffectsOfTurns(turn, |ch.providers|, ProbeDeferred(i));
    EffectsFromInputs(ch, req, w, i);
  }

  /** A failure that opens no circuit: no usable and no truncated body, and neither quota nor a stop for length. */
  predicate FailsOtherwise(reply: Reply) {
    match reply
    case NoBody => true
    case Answered(b) => !Usable(b) && !b.truncated
    case Fault(e) => e.kind != Quota && !(e.kind == EmptyResponse && e.atLength)
  }

  lemma EffectsFromInputs(ch: Chain, req: Request, w: World, i: nat)
    requires i < |ch.providers|
    ensures var effects, reply := Turns(ch, req, w)(i).circuit, ReplyAt(ch, req, w, i);
            var called := Routed(ch, i) && Allowed(ch, w, i);
            && (OpenedForQuota(i) in effects <==> called && reply.Fault? && reply.error.kind == Quota)
            && (OpenedForLength(i) in effects <==> called && reply.Fault? && reply.error.kind == EmptyResponse && reply.error.atLength)
            && (Closed(i) in effects <==> called && reply.Answered? && Usable(reply.body))
            && (ProbeDeferred(i) in effects <==> called && w.gate(i).probe && FailsOtherwise(reply))
  {
  }

  // ----- how a caller classifies the aggregate -----

  /** The aggregate wraps the last error, so the retry policy reads that error's kind and the whole text. */
  predicate CallerRetries(texts: Texts, wording: string -> bool, a: Aggregate) {
    !a.marked && Retryable(wording, if a.last.Some? then a.last.value.kind else Unknown, texts.render(a.failures, a.last))
  }

  // What each position answers, read off the inputs.

  function ReplyAt(ch: Chain, req: Request, w: World, i: nat): Reply
    requires i < |ch.providers|
  {
    w.reply(i, Sent(req.maxTokens, ch.providers[i]))
  }

  /** The position is passed: its circuit is open, or it fails without a cancellation, or it is cut short where that is not handed back. */
  predicate Passed(ch: Chain, req: Request, w: World, i: nat)
    requires i < |ch.providers|
  {
    var reply := ReplyAt(ch, req, w, i);
    !Allowed(ch, w, i)
    || (!(reply.Answered? && Usable(reply.body)) && if IsCutShort(reply) then !Last(ch, req, i) else !w.cancelled(i))
  }

  /** The position is called and fails with a retryable error. */
  predicate FailsRetryably(ch: Chain, req: Request, w: World, i: nat)
    requires i < |ch.providers|
  {
    var reply := ReplyAt(ch, req, w, i);
    var e := CallError(ch.texts, ch.providers[i], reply);
    Allowed(ch, w, i) && !(reply.Answered? && Usable(reply.body)) && !IsCutShort(reply) && Retryable(w.wording, e.kind, e.text)
  }

  /** The note a passed position leaves. */
  function NoteAt(ch: Chain, req: Request, w: World, i: nat): Note
    requires i < |ch.providers|
  {
    var c, reply := ch.providers[i], ReplyAt(ch, req, w, i);
    if !Allowed(ch, w, i) then OpenNote(ch.texts, c, w.gate(i).open)
    else NoteOf(c, if IsCutShort(reply) then CutError(ch.texts, c) else CallError(ch.texts, c, reply))
  }

  function Lines(ch: Chain, req: Request, w: World): seq<string> {
    seq(|ch.providers|, i requires 0 <= i < |ch.providers| => NoteAt(ch, req, w, i).line)
  }

  /** The turn of a position, in terms of the inputs. */
  ghost predicate Reads(ch: Chain, req: Request, w: World, i: nat, t: Turn)
    requires i < |ch.providers|
  {
    && (t.done.None? <==> Passed(ch, req, w, i))
    && (if t.done.None? then t.note == Some(NoteAt(ch, req, w, i)) else t.note.None? && !t.done.value.Unavailable?)
    && (t.visit == Failed(true) <==> FailsRetryably(ch, req, w, i))
  }

  lemma TurnFromInputs(ch: Chain, req: Request, w: World, i: nat)
    requires i < |ch.providers|
    ensures Reads(ch, req, w, i, Turns(ch, req, w)(i))
  {
  }

  /** The walk so far, in terms of the turns so far. */
  ghost predicate Collected(turn: nat -> Turn, n: nat, wk: Walk) {
    && (wk.done.None? <==> forall i: nat :: i < n ==> turn(i).done.None?)
    && (wk.done.Some? ==> exists i: nat :: i < n && turn(i).done == wk.done)
    && (wk.done.None? ==> |wk.failures| == n && (wk.anyRetryable <==> exists i: nat :: i < n && turn(i).visit == Failed(true)))
    && (wk.done.None? ==> forall i: nat :: i < n ==> turn(i).note.Some? && wk.failures[i] == turn(i).note.value.line)
    && (wk.done.None? && n > 0 ==> wk.last == Some(turn(n - 1).note.value.error))
  }

  /** While nothing has ended the walk, its list is the notes of all positions so far and its last error the newest note's. */
  lemma {:induction false} WalkCollects(turn: nat -> Turn, n: nat)
    requires forall i: nat :: i < n ==> (turn(i).note.Some? <==> turn(i).done.None?)
    ensures Collected(turn, n, WalkBy(turn, n))
  {
    if n > 0 {
      WalkCollects(turn, n - 1);
    }
  }

  lemma CollectedFromInputs(ch: Chain, req: Request, w: World, turn: nat -> Turn, wk: Walk)
    requires ch.providers != [] && Collected(turn, |ch.providers|, wk)
    requires forall i: nat :: i < |ch.providers| ==> Reads(ch, req, w, i, turn(i))
    ensures wk.done.None? <==> forall i: nat :: i < |ch.providers| ==> Passed(ch, req, w, i)
    ensures wk.done.Some? ==> !wk.done.value.Unavailable?
    ensures wk.done.None? ==> wk.failures == Lines(ch, req, w) && wk.last == Some(NoteAt(ch, req, w, |ch.providers| - 1).error)
    ensures wk.done.None? ==> (wk.anyRetryable <==> exists i: nat :: i < |ch.providers| && FailsRetryably(ch, req, w, i))
  {
    forall i: nat | i < |ch.providers|
      ensures turn(i).done.None? <==> Passed(ch, req, w, i)
      ensures turn(i).visit == Failed(true) <==> FailsRetryably(ch, req, w, i)
    {
      assert Reads(ch, req, w, i, turn(i));
    }
    if wk.anyRetryable && wk.done.None? {
      var i: nat :| i < |ch.providers| && turn(i).visit == Failed(true);
      assert FailsRetryably(ch, req, w, i);
    }
    if wk.done.Some? {
      var i: nat :| i < |ch.providers| && turn(i).done == wk.done;
      assert Reads(ch, req, w, i, turn(i));
    }
  }

  /** A walk over a non-empty chain ends unavailable exactly when every position is passed; then its list and last error are the inputs' own. */
  lemma UnavailableExactly(ch: Chain, req: Request, w: World)
    requires ch.providers != []
    ensures var answer, n := AnswerOf(WalkAll(ch, req, w)), |ch.providers|;
            && (answer.Unavailable? <==> forall i: nat :: i < n ==> Passed(ch, req, w, i))
            && (answer.Unavailable? ==>
                  && answer.error.failures == Lines(ch, req, w)
                  && answer.error.last == Some(NoteAt(ch, req, w, n - 1).error)
                  && (answer.error.marked <==> !exists i: nat :: i < n && FailsRetryably(ch, req, w, i)))
  {
    var turn, n := Turns(ch, req, w), |ch.providers|;
    forall i: nat | i < n ensures Reads(ch, req, w, i, turn(i)) {
      TurnFromInputs(ch, req, w, i);
    }
    WalkCollects(turn, n);
    CollectedFromInputs(ch, req, w, turn, WalkBy(turn, n));
  }

  /**
   When the caller retries, over the inputs: every position is passed, some called
   position fails retryably, and the last position's own error is not of a fatal kind
   (or, when unclassified, the joined text is not of fatal wording).
   */
  lemma CallerRetriesExactly(ch: Chain, req: Request, w: World)
    requires ch.providers != []
    ensures var answer, n := AnswerOf(WalkAll(ch, req, w)), |ch.providers|;
            var last := NoteAt(ch, req, w, n - 1).error;
            answer.Unavailable? && CallerRetries(ch.texts, w.wording, answer.error) <==>
              && (forall i: nat :: i < n ==> Passed(ch, req, w, i))
              && (exists i: nat :: i < n && FailsRetryably(ch, req, w, i))
              && Retryable(w.wording, last.kind, ch.texts.render(Lines(ch, req, w), Some(last)))
  {
    UnavailableExactly(ch, req, w);
  }

  /** What a passed position leaves in the failure list: its slot, the provider's own error under the position's route, or why there was none. */
  lemma NoteTells(ch: Chain, req: Request, w: World, i: nat)
    requires i < |ch.providers| && Passed(ch, req, w, i)
    ensures var note, c, reply := NoteAt(ch, req, w, i), ch.providers[i], ReplyAt(ch, req, w, i);
            if !Allowed(ch, w, i) then note == Note(c.slot + ": " + ch.texts.open, w.gate(i).open)
            else if reply.Fault? then note == Note(c.slot + ": " + reply.error.text, Error(reply.error.kind, reply.error.text, c.route, reply.error.atLength))
            else
              && note.error.kind == EmptyResponse && note.error.route == c.route && note.line == c.slot + ": " + note.error.text
              && note.error.text == (if note.error.atLength then ch.texts.cut else ch.texts.empty)
              && (note.error.atLength <==> reply.Answered? && reply.body.truncated)
  {
  }

  /** A fatal last error ends the retries whatever its wording; a transient one lets them go on if anything called failed retryably. */
  lemma LastKindDecides(ch: Chain, req: Request, w: World)
    requires ch.providers != [] && forall i: nat :: i < |ch.providers| ==> Passed(ch, req, w, i)
    ensures var answer, kind := AnswerOf(WalkAll(ch, req, w)), NoteAt(ch, req, w, |ch.providers| - 1).error.kind;
            && answer.Unavailable?
            && (kind in {Quota, Auth, Billing, InvalidRequest} ==> !CallerRetries(ch.texts, w.wording, answer.error))
            && (kind in {RateLimit, Transient, EmptyResponse} ==>
                  (CallerRetries(ch.texts, w.wording, answer.error) <==> exists i: nat :: i < |ch.providers| && FailsRetryably(ch, req, w, i)))
            && (kind == Unknown && CallerRetries(ch.texts, w.wording, answer.error) ==>
                  w.wording(ch.texts.render(answer.error.failures, answer.error.last)))
  {
    CallerRetriesExactly(ch, req, w);
    UnavailableExactly(ch, req, w);
  }

  /** So a retryable failure is lost when a later position is merely waiting for its quota probe. */
  lemma RetryableFailureCanBeLost(ch: Chain, req: Request, w: World)
    requires |ch.providers| == 2 && ch.control && ch.providers[0].route != "" && ch.providers[1].route != ""
    requires w.gate(0).allowed && !w.gate(1).allowed && !w.gate(1).lookupFails && w.gate(1).open.kind == Quota
    requires forall tokens :: w.reply(0, tokens).Fault? && w.reply(0, tokens).error.kind == Transient
    requires !w.cancelled(0)
    ensures var wk := WalkAll(ch, req, w);
            Failed(true) in wk.trace && AnswerOf(wk).Unavailable? && !CallerRetries(ch.texts, w.wording, AnswerOf(wk).error)
  {
    var turn := Turns(ch, req, w);
    assert WalkBy(turn, 1) == Step(START, turn(0));
    assert turn(0).visit == Failed(true) && turn(0).done == None;
    assert turn(1).visit == Skipped && turn(1).done == None && turn(1).note.value.error.kind == Quota;
    var one := WalkBy(turn, 1);
    var two := WalkBy(turn, 2);
    assert two == Step(one, turn(1));
    assert one.trace == [Failed(true)] && two.trace[0] == Failed(true);
    assert two.last.value.kind == Quota;
  }
}
