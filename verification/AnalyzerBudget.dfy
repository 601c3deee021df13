/**
 The post-run analyzer's two-attempt output contract on top of the provider chain:
 one budget, and at most one larger one.
 */
module AnalyzerBudget {
  import opened Basics
  import opened SkillText
  import opened ProviderChain
  import opened ProviderChainGuarantees
  import opened ProviderChainAnswers

  const SINGLE_DEFAULT := 4096
  const PER_BATCH_RUN := 1280
  const BATCH_DEFAULT := 16384

  /** The configured budgets; a value that is not positive means the default. */
  datatype Analyzer = Analyzer(maxTokens: int, batchMaxTokens: int)

  function SingleMax(a: Analyzer): int { if a.maxTokens > 0 then a.maxTokens else SINGLE_DEFAULT }
  function BatchLimit(a: Analyzer): int { if a.batchMaxTokens > 0 then a.batchMaxTokens else BATCH_DEFAULT }

  function BatchFirst(a: Analyzer, runs: nat): int {
    var tokens := PER_BATCH_RUN * runs;
    var floor := if tokens < SingleMax(a) then SingleMax(a) else tokens;
    if floor > BatchLimit(a) then BatchLimit(a) else floor
  }

  /** The budgets a role resolves to: its own limit or the default, within the route's ceiling if that is known. */
  function OutputContract(roleMax: Option<int>, routeMax: Option<int>): (r: (int, int))
    ensures 0 < r.0 <= r.1
    ensures roleMax.Some? && routeMax.Some? && routeMax.value > 0 ==> r.1 <= routeMax.value && r.0 == Min(if roleMax.value > 0 then roleMax.value else SINGLE_DEFAULT, routeMax.value)
    ensures roleMax.None? || (roleMax.value <= 0 && (routeMax.None? || routeMax.value <= 0)) ==> r == (SINGLE_DEFAULT, BATCH_DEFAULT)
    ensures r.1 == r.0 || r.1 <= BATCH_DEFAULT
    ensures roleMax.Some? && roleMax.value > 0 && (routeMax.None? || routeMax.value <= 0 || roleMax.value <= routeMax.value) ==> r.0 == roleMax.value
    ensures r.1 < BATCH_DEFAULT ==> routeMax.Some? && r.1 == routeMax.value
  {
    if roleMax.None? then (SINGLE_DEFAULT, BATCH_DEFAULT)
    else
      var wanted := if roleMax.value > 0 then roleMax.value else SINGLE_DEFAULT;
      var capped := routeMax.Some? && routeMax.value > 0;
      var single := if capped then Min(wanted, routeMax.value) else wanted;
      var batch := if capped then Min(BATCH_DEFAULT, routeMax.value) else BATCH_DEFAULT;
      (single, if batch < single then single else batch)
  }

  // ----- the contract loop -----

  predicate Fulfils(decodes: string -> bool, b: Body) { Trim(b.content) != "" && decodes(b.content) && !b.truncated }

  /** Whether a first answer asks for a larger budget rather than an error. */
  predicate AsksForMore(decodes: string -> bool, b: Body) {
    if Trim(b.content) == "" then b.truncated else !(decodes(b.content) && !b.truncated)
  }

  datatype Outcome = Analysed(content: string) | ChainError(answer: Answer) | ContractError | ContractBlocked | NothingToDo

  function Judge(decodes: string -> bool, answer: Answer): Outcome {
    if !answer.Response? then ChainError(answer)
    else if Fulfils(decodes, answer.body) then Analysed(answer.body.content)
    else ContractError
  }

  predicate GoesAgain(decodes: string -> bool, first: int, limit: int, answer: Answer) {
    answer.Response? && AsksForMore(decodes, answer.body) && first < limit
  }

  function Larger(first: int, limit: int): int { Min(first * 2, limit) }

  /** The walks of one analysis and its outcome. */
  datatype Run = Run(walks: seq<Walk>, outcome: Outcome)

  function Contract(ch: Chain, first: int, limit: int, world: nat -> World, decodes: string -> bool): Run {
    var one := WalkAll(ch, Request(first, 1), world(0));
    if !GoesAgain(decodes, first, limit, AnswerOf(one)) then Run([one], Judge(decodes, AnswerOf(one)))
    else
      var two := WalkAll(ch, Request(Larger(first, limit), 2), world(1));
      Run([one, two], Judge(decodes, AnswerOf(two)))
  }

  function CallsOf(walks: seq<Walk>): seq<Call> {
    if walks == [] then [] else CallsOf(walks[..|walks| - 1]) + walks[|walks| - 1].calls
  }

  lemma CallsAppend(walks: seq<Walk>, wk: Walk)
    ensures CallsOf(walks + [wk]) == CallsOf(walks) + wk.calls
  {
    assert (walks + [wk])[..|walks|] == walks;
  }

  lemma ContractSettled(ch: Chain, first: int, limit: int, world: nat -> World, decodes: string -> bool, one: Walk)
    requires one == WalkAll(ch, Request(first, 1), world(0)) && !GoesAgain(decodes, first, limit, AnswerOf(one))
    ensures Contract(ch, first, limit, world, decodes) == Run([one], Judge(decodes, AnswerOf(one)))
  {
  }

  lemma ContractRepeated(ch: Chain, first: int, limit: int, world: nat -> World, decodes: string -> bool, one: Walk, two: Walk)
    requires one == WalkAll(ch, Request(first, 1), world(0)) && GoesAgain(decodes, first, limit, AnswerOf(one))
    requires two == WalkAll(ch, Request(Larger(first, limit), 2), world(1))
    ensures Contract(ch, first, limit, world, decodes) == Run([one, two], Judge(decodes, AnswerOf(two)))
  {
  }

  method FulfilContract(chain: MaintenanceChain, first: int, limit: int, world: nat -> World, decodes: string -> bool)
    returns (r: Outcome, ghost walks: seq<Walk>)
    modifies chain
    ensures Run(walks, r) == Contract(chain.chain, first, limit, world, decodes)
    ensures chain.calls == old(chain.calls) + CallsOf(walks)
  {
    walks := [];
    ghost var one := START;
    var maxTokens, attempt := first, 0;
    while attempt < 2
      invariant 0 <= attempt <= 1 && |walks| == attempt
      invariant chain.calls == old(chain.calls) + CallsOf(walks)
      invariant attempt == 0 ==> maxTokens == first
      invariant attempt == 1 ==> walks == [one] && one == WalkAll(chain.chain, Request(first, 1), world(0))
      invariant attempt == 1 ==> maxTokens == Larger(first, limit) && GoesAgain(decodes, first, limit, AnswerOf(one))
    {
      var answer, wk := chain.Chat(Request(maxTokens, attempt + 1), world(attempt));
      CallsAppend(walks, wk);
      Assoc(old(chain.calls), CallsOf(walks), wk.calls);
      walks := walks + [wk];
      var settled := Settle(decodes, answer, attempt == 0 && maxTokens < limit);
      if settled.Some? {
        if attempt == 0 {
          ContractSettled(chain.chain, first, limit, world, decodes, wk);
        } else {
          ContractRepeated(chain.chain, first, limit, world, decodes, one, wk);
        }
        return settled.value, walks;
      }
      one := wk;
      maxTokens, attempt := Min(maxTokens * 2, limit), attempt + 1;
    }
    r := ContractError;
  }

  /** Reads one answer: an outcome, or nothing when a larger budget is to be tried. */
  method Settle(decodes: string -> bool, answer: Answer, mayGrow: bool) returns (r: Option<Outcome>)
    ensures r == if mayGrow && answer.Response? && AsksForMore(decodes, answer.body) then None else Some(Judge(decodes, answer))
  {
    if !answer.Response? {
      return Some(ChainError(answer));
    }
    var b := answer.body;
    if Trim(b.content) == "" {
      if b.truncated && mayGrow {
        return None;
      }
      return Some(ContractError);
    }
    if decodes(b.content) && !b.truncated {
      return Some(Analysed(b.content));
    }
    if mayGrow {
      return None;
    }
    r := Some(ContractError);
  }

  method Analyze(a: Analyzer, chain: MaintenanceChain, claimed: bool, world: nat -> World, decodes: string -> bool)
    returns (r: Outcome, ghost walks: seq<Walk>)
    modifies chain
    ensures Run(walks, r) == if claimed then Contract(chain.chain, SingleMax(a), BatchLimit(a), world, decodes) else Run([], ContractBlocked)
    ensures chain.calls == old(chain.calls) + CallsOf(walks)
  {
    if !claimed {
      return ContractBlocked, [];
    }
    r, walks := FulfilContract(chain, SingleMax(a), BatchLimit(a), world, decodes);
  }

  /** What a batch amounts to: nothing, the single analysis (claimed a second time), or the batch contract. */
  function BatchRun(a: Analyzer, ch: Chain, runs: nat, claimed: bool, claimedAgain: bool, world: nat -> World, decodes: string -> bool): Run {
    if !claimed then Run([], ContractBlocked)
    else if runs == 0 then Run([], NothingToDo)
    else if runs == 1 then
      if claimedAgain then Contract(ch, SingleMax(a), BatchLimit(a), world, decodes) else Run([], ContractBlocked)
    else Contract(ch, BatchFirst(a, runs), BatchLimit(a), world, decodes)
  }

  method AnalyzeBatch(a: Analyzer, chain: MaintenanceChain, runs: nat, claimed: bool, claimedAgain: bool, world: nat -> World, decodes: string -> bool)
    returns (r: Outcome, ghost walks: seq<Walk>)
    modifies chain
    ensures Run(walks, r) == BatchRun(a, chain.chain, runs, claimed, claimedAgain, world, decodes)
    ensures chain.calls == old(chain.calls) + CallsOf(walks)
  {
    if !claimed {
      return ContractBlocked, [];
    }
    if runs == 0 {
      return NothingToDo, [];
    }
    if runs == 1 {
      r, walks := Analyze(a, chain, claimedAgain, world, decodes);
      return;
    }
    r, walks := FulfilContract(chain, BatchFirst(a, runs), BatchLimit(a), world, decodes);
  }

  /** One run gets the single budget; more get their share each, at least the single budget and within the limit. */
  function FirstBudget(a: Analyzer, runs: nat): int {
    var single, limit := if a.maxTokens > 0 then a.maxTokens else 4096, if a.batchMaxTokens > 0 then a.batchMaxTokens else 16384;
    if runs <= 1 then single else Min(limit, if 1280 * runs > single then 1280 * runs else single)
  }

  predicate StartsWith(ch: Chain, wk: Walk, budget: int, w: World) { wk == WalkAll(ch, Request(budget, 1), w) }

  /** Whatever the batch, at most two chain walks are made, and none without a claim. */
  lemma BatchMakesAtMostTwoWalks(a: Analyzer, ch: Chain, runs: nat, claimed: bool, claimedAgain: bool, world: nat -> World, decodes: string -> bool)
    ensures var run := BatchRun(a, ch, runs, claimed, claimedAgain, world, decodes);
            && |run.walks| <= 2 && (!claimed || runs == 0 ==> run.walks == [])
            && (run.walks == [] ==> run.outcome == if claimed && runs == 0 then NothingToDo else ContractBlocked)
            && (run.walks != [] ==> claimed && runs > 0 && (runs == 1 ==> claimedAgain) && StartsWith(ch, run.walks[0], FirstBudget(a, runs), world(0)))
            && WithinCeilings(ch, CallsOf(run.walks))
  {
    NeverAboveCeiling(ch, SingleMax(a), BatchLimit(a), world, decodes);
    NeverAboveCeiling(ch, BatchFirst(a, runs), BatchLimit(a), world, decodes);
  }

  // ----- what holds across both layers -----

  lemma FirstBudgetsPositive(a: Analyzer, runs: nat)
    ensures SingleMax(a) > 0 && 0 < BatchFirst(a, runs) <= BatchLimit(a)
    ensures BatchFirst(a, runs) <= SingleMax(a) || BatchFirst(a, runs) <= PER_BATCH_RUN * runs
    ensures BatchFirst(a, runs) < BatchLimit(a) ==> BatchFirst(a, runs) >= SingleMax(a) && BatchFirst(a, runs) >= PER_BATCH_RUN * runs
  {
  }

  /** At most two chain calls; the second has a strictly larger budget: twice the first, or the batch limit if that is less. */
  lemma AtMostTwoBudgets(ch: Chain, first: int, limit: int, world: nat -> World, decodes: string -> bool)
    requires first > 0
    ensures var run := Contract(ch, first, limit, world, decodes);
            && 1 <= |run.walks| <= 2 && run.walks[0] == WalkAll(ch, Request(first, 1), world(0))
            && (|run.walks| == 2 ==> (exists larger :: first < larger <= limit && larger <= first * 2 && (larger == limit || larger == first * 2) && run.walks[1] == WalkAll(ch, Request(larger, 2), world(1))))
  {
    var one := WalkAll(ch, Request(first, 1), world(0));
    if GoesAgain(decodes, first, limit, AnswerOf(one)) {
      assert first < Larger(first, limit) <= limit;
    }
  }

  /**
   What an analysis comes to, read off its walks: it is repeated exactly when the first
   answer is a body that is empty and truncated, or not empty and either truncated or not
   decodable, and there is room for a larger budget. The last walk then decides.
   */
  lemma OutcomeExactly(ch: Chain, first: int, limit: int, world: nat -> World, decodes: string -> bool, content: string)
    ensures var run := Contract(ch, first, limit, world, decodes);
            && var one := AnswerOf(WalkAll(ch, Request(first, 1), world(0)));
            && (|run.walks| == 2 <==>
                  && first < limit && one.Response?
                  && (Trim(one.body.content) == "" ==> one.body.truncated)
                  && (Trim(one.body.content) != "" ==> one.body.truncated || !decodes(one.body.content)))
            && var last := AnswerOf(run.walks[|run.walks| - 1]);
            && (run.outcome == Analysed(content) <==>
                  last.Response? && last.body.content == content && Trim(content) != "" && decodes(content) && !last.body.truncated)
            && (run.outcome == ChainError(last) <==> !last.Response?)
            && (run.outcome == ContractError <==>
                  last.Response? && (Trim(last.body.content) == "" || last.body.truncated || !decodes(last.body.content)))
  {
  }

  /** The request and the world of the walk that decides. */
  function Deciding(first: int, limit: int, world: nat -> World, repeated: bool): (Request, World) {
    if repeated then (Request(Min(first * 2, limit), 2), world(1)) else (Request(first, 1), world(0))
  }

  /** An analysis succeeds with exactly the content some provider itself returned, whole and decodable, after all before it were passed. */
  lemma AnalysedExactly(ch: Chain, first: int, limit: int, world: nat -> World, decodes: string -> bool, content: string)
    ensures var run := Contract(ch, first, limit, world, decodes);
            var (req, w) := Deciding(first, limit, world, |run.walks| == 2);
            run.outcome == Analysed(content) <==>
              exists i: nat, b :: i < |ch.providers| && Comes(ch, req, w, i) && Answers(ch, req, w, i, b)
                                  && b.content == content && Trim(content) != "" && decodes(content) && !b.truncated
  {
    var run := Contract(ch, first, limit, world, decodes);
    var (req, w) := Deciding(first, limit, world, |run.walks| == 2);
    OutcomeExactly(ch, first, limit, world, decodes, content);
    assert run.walks[|run.walks| - 1] == WalkAll(ch, req, w);
    if run.outcome == Analysed(content) {
      AnswerExactly(ch, req, w, AnswerOf(WalkAll(ch, req, w)).body);
    }
    if i: nat, b :| i < |ch.providers| && Comes(ch, req, w, i) && Answers(ch, req, w, i, b)
                    && b.content == content && Trim(content) != "" && decodes(content) && !b.truncated {
      AnswerExactly(ch, req, w, b);
    }
  }

  predicate InCeiling(ch: Chain, call: Call) {
    call.index < |ch.providers| && (ch.providers[call.index].ceiling > 0 ==> call.tokens <= ch.providers[call.index].ceiling)
  }

  ghost predicate WithinCeilings(ch: Chain, calls: seq<Call>) {
    forall k :: 0 <= k < |calls| ==> InCeiling(ch, calls[k])
  }

  lemma WalkWithinCeilings(ch: Chain, req: Request, w: World)
    ensures WithinCeilings(ch, WalkAll(ch, req, w).calls)
  {
    ChatKeeps(ch, req, w);
    var wk := WalkAll(ch, req, w);
    forall k | 0 <= k < |wk.calls| ensures InCeiling(ch, wk.calls[k]) {
      SentWithinCeiling(req.maxTokens, req.maxTokens + 1, ch.providers[wk.calls[k].index]);
    }
  }

  /** No route is ever sent more than its own positive ceiling, on either attempt. */
  lemma NeverAboveCeiling(ch: Chain, first: int, limit: int, world: nat -> World, decodes: string -> bool)
    ensures WithinCeilings(ch, CallsOf(Contract(ch, first, limit, world, decodes).walks))
  {
    var run := Contract(ch, first, limit, world, decodes);
    var one := WalkAll(ch, Request(first, 1), world(0));
    WalkWithinCeilings(ch, Request(first, 1), world(0));
    assert CallsOf([one][..0]) == [] && CallsOf([one]) == one.calls;
    if |run.walks| == 2 {
      WalkWithinCeilings(ch, Request(Larger(first, limit), 2), world(1));
      assert run.walks[..1] == [one];
    }
  }

  /** The position that cut the first attempt short. */
  function CutAt(wk: Walk): int { |wk.trace| - 1 }

  /**
   After a truncated empty answer no fallback is consulted until the larger budget
   has been tried: the first attempt stopped at that position, and any later
   position the second attempt calls comes after that position was itself skipped
   by its circuit or called again, with a larger budget or at its ceiling.
   */
  lemma LargerBudgetBeforeFallback(ch: Chain, first: int, limit: int, world: nat -> World, decodes: string -> bool, b: Body)
    requires 0 < first < limit
    requires AnswerOf(WalkAll(ch, Request(first, 1), world(0))) == Response(b) && !Usable(b)
    ensures var run := Contract(ch, first, limit, world, decodes);
            && |run.walks| == 2
            && var one, two, p := run.walks[0], run.walks[1], CutAt(run.walks[0]);
            && 0 <= p < |ch.providers| && (forall k :: 0 <= k < |one.calls| ==> one.calls[k].index <= p)
            && (forall k :: 0 <= k < |two.calls| && two.calls[k].index > p ==> TriedLarger(ch, first, two, p))
  {
    var one, larger := WalkAll(ch, Request(first, 1), world(0)), Larger(first, limit);
    var two := WalkAll(ch, Request(larger, 2), world(1));
    AnswerMeans(ch, Request(first, 1), world(0), b);
    ChatKeeps(ch, Request(first, 1), world(0));
    ChatKeeps(ch, Request(larger, 2), world(1));
    ContractRepeated(ch, first, limit, world, decodes, one, two);
    LaterCallsPassed(ch, first, larger, two, CutAt(one));
  }

  lemma LaterCallsPassed(ch: Chain, first: int, larger: int, two: Walk, p: int)
    requires Orderly(ch, Request(larger, 2), two) && first < larger && 0 <= p < |ch.providers|
    ensures forall k :: 0 <= k < |two.calls| && two.calls[k].index > p ==> TriedLarger(ch, first, two, p)
  {
    forall k | 0 <= k < |two.calls| && two.calls[k].index > p ensures TriedLarger(ch, first, two, p) {
      PassedWithMore(ch, first, larger, two, p);
    }
  }

  /** Position p was visited before anything later: skipped, or called with more than the first budget sent, or at its ceiling. */
  ghost predicate TriedLarger(ch: Chain, first: int, two: Walk, p: int) {
    && 0 <= p < |two.trace| && p < |ch.providers|
    && (two.trace[p] == Skipped || exists k :: 0 <= k < |two.calls| && SentMore(ch.providers[p], first, two.calls[k], p))
  }

  predicate SentMore(c: Candidate, first: int, call: Call, p: int) {
    call.index == p && (call.tokens > Sent(first, c) || call.tokens == c.ceiling)
  }

  lemma PassedWithMore(ch: Chain, first: int, larger: int, two: Walk, p: int)
    requires Orderly(ch, Request(larger, 2), two) && first < larger && 0 <= p < |two.trace|
    ensures TriedLarger(ch, first, two, p)
  {
    if two.trace[p] != Skipped {
      var k :| 0 <= k < |two.calls| && two.calls[k].index == p;
      SentWithinCeiling(first, larger, ch.providers[p]);
      assert SentMore(ch.providers[p], first, two.calls[k], p);
    }
  }
}
