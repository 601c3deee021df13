/** What a walk over the provider chain visits and answers, read off the inputs alone. */
module ProviderChainAnswers {
  import opened Basics
  import opened SkillText
  import opened ProviderChain
  import opened ProviderChainGuarantees

  /** The position is called and its own reply is the answer: usable, or truncated and empty where that is handed back. */
  predicate Answers(ch: Chain, req: Request, w: World, i: nat, b: Body)
    requires i < |ch.providers|
  {
    && Allowed(ch, w, i) && ReplyAt(ch, req, w, i) == Answered(b)
    && (Trim(b.content) != "" || b.tools > 0 || (b.truncated && Last(ch, req, i)))
  }

  /** The position is called and fails, and the caller has gone away meanwhile. */
  predicate Cancels(ch: Chain, req: Request, w: World, i: nat)
    requires i < |ch.providers|
  {
    var reply := ReplyAt(ch, req, w, i);
    Allowed(ch, w, i) && w.cancelled(i) && (reply.Answered? ==> Trim(reply.body.content) == "" && reply.body.tools == 0 && !reply.body.truncated)
  }

  /** The chain keeps circuits, the position has a route, its circuit could be looked up, and it is open. */
  predicate Blocked(ch: Chain, w: World, i: nat)
    requires i < |ch.providers|
  {
    ch.control && ch.providers[i].route != "" && !w.gate(i).lookupFails && !w.gate(i).allowed
  }

  /** What a visit to the position amounts to. */
  ghost predicate VisitIs(ch: Chain, req: Request, w: World, i: nat, v: Visit)
    requires i < |ch.providers|
  {
    var reply := ReplyAt(ch, req, w, i);
    && (v == Skipped <==> Blocked(ch, w, i))
    && (v == Succeeded <==> !Blocked(ch, w, i) && reply.Answered? && (Trim(reply.body.content) != "" || reply.body.tools > 0))
    && (v == CutShort <==> Allowed(ch, w, i) && IsCutShort(reply))
    && (v == Failed(true) <==> FailsRetryably(ch, req, w, i))
  }

  ghost predicate Ends(ch: Chain, req: Request, w: World, i: nat, t: Turn)
    requires i < |ch.providers|
  {
    && (t.done.None? <==> Passed(ch, req, w, i)) && VisitIs(ch, req, w, i, t.visit)
    && (forall b :: t.done == Some(Response(b)) <==> Answers(ch, req, w, i, b))
    && (t.done == Some(Cancelled) <==> Cancels(ch, req, w, i))
  }

  lemma TurnEnds(ch: Chain, req: Request, w: World, i: nat)
    requires i < |ch.providers|
    ensures Ends(ch, req, w, i, Turns(ch, req, w)(i))
  {
  }

  /** The walk has the first ending turn's answer, and its trace is the turns up to there. */
  ghost predicate StopsAtFirst(turn: nat -> Turn, n: nat, wk: Walk) {
    && |wk.trace| <= n
    && (forall i: nat :: i < |wk.trace| ==> wk.trace[i] == turn(i).visit)
    && (forall i: nat :: i + 1 < |wk.trace| ==> turn(i).done.None?)
    && (if wk.done.None? then |wk.trace| == n && forall i: nat :: i < n ==> turn(i).done.None?
        else |wk.trace| > 0 && turn(|wk.trace| - 1).done == wk.done)
  }

  lemma {:induction false} WalkStopsAtFirst(turn: nat -> Turn, n: nat)
    ensures StopsAtFirst(turn, n, WalkBy(turn, n))
  {
    if n > 0 {
      WalkStopsAtFirst(turn, n - 1);
    }
  }

  /** Every earlier position is passed. */
  ghost predicate Comes(ch: Chain, req: Request, w: World, i: nat)
    requires i < |ch.providers|
  {
    forall j: nat :: j < i ==> Passed(ch, req, w, j)
  }

  /** What each turn does, as a fact about a whole list of turns. */
  ghost predicate AllEnd(ch: Chain, req: Request, w: World, turn: nat -> Turn) {
    forall j: nat :: j < |ch.providers| ==> Ends(ch, req, w, j, turn(j))
  }

  lemma TurnsEnd(ch: Chain, req: Request, w: World)
    ensures AllEnd(ch, req, w, Turns(ch, req, w))
  {
    forall j: nat | j < |ch.providers| ensures Ends(ch, req, w, j, Turns(ch, req, w)(j)) {
      TurnEnds(ch, req, w, j);
    }
  }

  lemma VisitedComes(ch: Chain, req: Request, w: World, turn: nat -> Turn, wk: Walk, i: nat)
    requires AllEnd(ch, req, w, turn) && StopsAtFirst(turn, |ch.providers|, wk) && i < |wk.trace|
    ensures Comes(ch, req, w, i) && VisitIs(ch, req, w, i, wk.trace[i])
  {
    forall j: nat | j < i ensures Passed(ch, req, w, j) {
      assert turn(j).done.None? && Ends(ch, req, w, j, turn(j));
    }
    assert Ends(ch, req, w, i, turn(i));
  }

  lemma ComesVisited(ch: Chain, req: Request, w: World, turn: nat -> Turn, wk: Walk, i: nat)
    requires AllEnd(ch, req, w, turn) && StopsAtFirst(turn, |ch.providers|, wk) && i < |ch.providers| && Comes(ch, req, w, i)
    ensures i < |wk.trace| && (wk.done.Some? && !Passed(ch, req, w, i) ==> i == |wk.trace| - 1)
    ensures wk.done.None? ==> Passed(ch, req, w, i)
  {
    var n := |wk.trace|;
    if wk.done.Some? {
      assert Ends(ch, req, w, n - 1, turn(n - 1));
      assert !Passed(ch, req, w, n - 1);
    }
    assert Ends(ch, req, w, i, turn(i));
  }

  /** The positions visited are those all of whose predecessors are passed; those called are the visited ones with a closed circuit. */
  lemma VisitedExactly(ch: Chain, req: Request, w: World, i: nat)
    requires i < |ch.providers|
    ensures var wk := WalkAll(ch, req, w);
            && (i < |wk.trace| <==> Comes(ch, req, w, i))
            && (i < |wk.trace| ==> VisitIs(ch, req, w, i, wk.trace[i]))
            && ((exists k :: 0 <= k < |wk.calls| && wk.calls[k].index == i) <==> Comes(ch, req, w, i) && Allowed(ch, w, i))
  {
    var turn, wk := Turns(ch, req, w), WalkAll(ch, req, w);
    TurnsEnd(ch, req, w);
    WalkStopsAtFirst(turn, |ch.providers|);
    if i < |wk.trace| {
      VisitedComes(ch, req, w, turn, wk, i);
    }
    if Comes(ch, req, w, i) {
      ComesVisited(ch, req, w, turn, wk, i);
    }
    ChatKeeps(ch, req, w);
    CalledVisited(ch, req, wk, i);
  }

  lemma CalledVisited(ch: Chain, req: Request, wk: Walk, i: nat)
    requires Orderly(ch, req, wk)
    ensures (exists k :: 0 <= k < |wk.calls| && wk.calls[k].index == i) <==> i < |wk.trace| && wk.trace[i] != Skipped
  {
    if k :| 0 <= k < |wk.calls| && wk.calls[k].index == i {
      assert Fits(ch, req, wk.trace, wk.calls[k]);
    }
  }

  /** The first position that is not passed decides. */
  lemma Decides(ch: Chain, req: Request, w: World, turn: nat -> Turn, wk: Walk, i: nat)
    requires AllEnd(ch, req, w, turn) && StopsAtFirst(turn, |ch.providers|, wk)
    requires i < |ch.providers| && Comes(ch, req, w, i) && !Passed(ch, req, w, i)
    ensures wk.done.Some? && wk.done == turn(i).done && Ends(ch, req, w, i, turn(i))
  {
    ComesVisited(ch, req, w, turn, wk, i);
  }

  lemma DecidedBy(ch: Chain, req: Request, w: World, turn: nat -> Turn, wk: Walk) returns (i: nat)
    requires AllEnd(ch, req, w, turn) && StopsAtFirst(turn, |ch.providers|, wk) && wk.done.Some?
    ensures i < |ch.providers| && Comes(ch, req, w, i) && wk.done == turn(i).done && Ends(ch, req, w, i, turn(i))
  {
    i := |wk.trace| - 1;
    VisitedComes(ch, req, w, turn, wk, i);
  }

  /**
   The answer, exactly: a body is returned when it is the own reply of the first position
   that is not passed, and the walk is cancelled when that position fails for a caller
   who has gone away. With UnavailableExactly this determines every answer.
   */
  lemma AnswerExactly(ch: Chain, req: Request, w: World, b: Body)
    ensures var answer := AnswerOf(WalkAll(ch, req, w));
            && (answer == Response(b) <==> exists i: nat :: i < |ch.providers| && Comes(ch, req, w, i) && Answers(ch, req, w, i, b))
            && (answer == Cancelled <==> exists i: nat :: i < |ch.providers| && Comes(ch, req, w, i) && Cancels(ch, req, w, i))
  {
    var turn, wk := Turns(ch, req, w), WalkAll(ch, req, w);
    TurnsEnd(ch, req, w);
    WalkStopsAtFirst(turn, |ch.providers|);
    if wk.done.Some? {
      var i := DecidedBy(ch, req, w, turn, wk);
    }
    if i: nat :| i < |ch.providers| && Comes(ch, req, w, i) && Answers(ch, req, w, i, b) {
      Decides(ch, req, w, turn, wk, i);
    }
    if i: nat :| i < |ch.providers| && Comes(ch, req, w, i) && Cancels(ch, req, w, i) {
      Decides(ch, req, w, turn, wk, i);
    }
  }
}
