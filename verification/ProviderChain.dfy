/**
 The maintenance provider chain: positions are tried in order, each at most once,
 with circuit effects. Circuits, providers and cancellation answer arbitrarily.
 */
module ProviderChain {
  import opened Basics
  import opened SkillText

  datatype Kind = Unknown | Quota | RateLimit | Auth | Billing | InvalidRequest | Transient | EmptyResponse

  /** A classified provider error; atLength: it stopped for length. */
  datatype Error = Error(kind: Kind, text: string, route: string, atLength: bool)

  /** The retry policy: by kind, and by wording for errors no adapter classified. */
  predicate Retryable(wording: string -> bool, kind: Kind, text: string) {
    match kind
    case Quota | Auth | Billing | InvalidRequest => false
    case RateLimit | Transient | EmptyResponse => true
    case Unknown => wording(text)
  }

  datatype Body = Body(content: string, tools: nat, truncated: bool)

  predicate Usable(b: Body) { Trim(b.content) != "" || b.tools > 0 }

  datatype Reply = Answered(body: Body) | NoBody | Fault(error: Error)

  /** One chain position: its physical route (empty when it has none), output ceiling and reasoning headroom. */
  datatype Candidate = Candidate(slot: string, route: string, ceiling: int, headroom: nat)

  datatype Request = Request(maxTokens: int, attempt: int)

  datatype Gate = Gate(lookupFails: bool, allowed: bool, probe: bool, open: Error)

  datatype World = World(gate: nat -> Gate, reply: (nat, int) -> Reply, cancelled: nat -> bool, wording: string -> bool)

  // ----- the budget one position is sent -----

  function WithHeadroom(tokens: int, c: Candidate): int { if tokens <= 0 then tokens else tokens + c.headroom }

  function Bound(tokens: int, c: Candidate): int { if c.ceiling <= 0 || tokens <= c.ceiling then tokens else c.ceiling }

  function Sent(tokens: int, c: Candidate): int { Bound(WithHeadroom(tokens, c), c) }

  /**
   No route is sent more than its own positive ceiling, and a larger request is never
   sent smaller. A bounded request gets the route's whole headroom unless the ceiling
   cuts it; an unbounded one stays unbounded.
   */
  lemma SentWithinCeiling(tokens: int, larger: int, c: Candidate)
    requires tokens < larger
    ensures c.ceiling > 0 ==> Sent(tokens, c) <= c.ceiling
    ensures tokens <= 0 ==> Sent(tokens, c) == tokens
    ensures tokens > 0 ==> Sent(tokens, c) <= tokens + c.headroom && (Sent(tokens, c) == tokens + c.headroom || Sent(tokens, c) == c.ceiling > 0)
    ensures Sent(tokens, c) < Sent(larger, c) || (c.ceiling > 0 && Sent(tokens, c) == Sent(larger, c) == c.ceiling)
  {
  }

  // ----- walking the chain -----

  datatype Effect = Closed(index: nat) | OpenedForQuota(index: nat) | OpenedForLength(index: nat) | ProbeDeferred(index: nat)

  datatype Call = Call(index: nat, tokens: int)

  /** What happened at a visited position. */
  datatype Visit = Skipped | Succeeded | CutShort | Failed(retryable: bool)

  datatype Answer = Response(body: Body) | Cancelled | Unavailable(error: Aggregate)

  datatype Aggregate = Aggregate(marked: bool, failures: seq<string>, last: Option<Error>)

  datatype Walk = Walk(trace: seq<Visit>, calls: seq<Call>, circuit: seq<Effect>, failures: seq<string>,
                       last: Option<Error>, anyRetryable: bool, done: Option<Answer>)

  /** How an open circuit, a cut-short or empty body and a whole failed walk are worded. */
  datatype Texts = Texts(open: string, cut: string, empty: string, render: (seq<string>, Option<Error>) -> string)

  function CallError(texts: Texts, c: Candidate, reply: Reply): Error {
    match reply
    case Fault(e) => e.(route := c.route)
    case Answered(b) => Error(EmptyResponse, texts.empty, c.route, b.truncated)
    case NoBody => Error(EmptyResponse, texts.empty, c.route, false)
  }

  function FailureEffects(control: bool, c: Candidate, index: nat, e: Error, probe: bool): seq<Effect> {
    if !control || c.route == "" then []
    else if e.kind == Quota then [OpenedForQuota(index)]
    else if e.kind == EmptyResponse && e.atLength then [OpenedForLength(index)]
    else if probe then [ProbeDeferred(index)]
    else []
  }

  function SuccessEffects(control: bool, c: Candidate, index: nat): seq<Effect> {
    if !control || c.route == "" then [] else [Closed(index)]
  }

  /** The positions, whether circuits are kept, and the fixed message texts. */
  datatype Chain = Chain(providers: seq<Candidate>, control: bool, texts: Texts)

  predicate Allowed(ch: Chain, w: World, index: nat)
    requires index < |ch.providers|
  {
    !ch.control || ch.providers[index].route == "" || w.gate(index).lookupFails || w.gate(index).allowed
  }

  predicate Probing(ch: Chain, w: World, index: nat)
    requires index < |ch.providers|
  {
    ch.control && ch.providers[index].route != "" && w.gate(index).probe
  }

  predicate IsCutShort(r: Reply) { r.Answered? && !Usable(r.body) && r.body.truncated }

  function CutError(texts: Texts, c: Candidate): Error { Error(EmptyResponse, texts.cut, c.route, true) }

  /** What one position adds to the walk; note is its line in the failure list, if it has one. */
  datatype Turn = Turn(visit: Visit, calls: seq<Call>, circuit: seq<Effect>, note: Option<Note>, done: Option<Answer>)
  datatype Note = Note(line: string, error: Error)

  function NoteOf(c: Candidate, e: Error): Note { Note(c.slot + ": " + e.text, e) }
  function OpenNote(texts: Texts, c: Candidate, e: Error): Note { Note(c.slot + ": " + texts.open, e) }

  /** A truncated empty body: handed back on a first attempt or from the last position, otherwise passed over. */
  function CutTurn(ch: Chain, req: Request, index: nat, calls: seq<Call>, b: Body): Turn
    requires index < |ch.providers|
  {
    var c := ch.providers[index];
    if req.attempt <= 1 || index == |ch.providers| - 1 then Turn(CutShort, calls, [], None, Some(Response(b)))
    else Turn(CutShort, calls, [], Some(NoteOf(c, CutError(ch.texts, c))), None)
  }

  function FailTurn(ch: Chain, w: World, index: nat, calls: seq<Call>, e: Error): Turn
    requires index < |ch.providers|
  {
    var c := ch.providers[index];
    Turn(Failed(Retryable(w.wording, e.kind, e.text)), calls,
         FailureEffects(ch.control, c, index, e, Probing(ch, w, index)),
         if w.cancelled(index) then None else Some(NoteOf(c, e)),
         if w.cancelled(index) then Some(Cancelled) else None)
  }

  function TurnAt(ch: Chain, req: Request, w: World, index: nat): Turn
    requires index < |ch.providers|
  {
    var c := ch.providers[index];
    if !Allowed(ch, w, index) then Turn(Skipped, [], [], Some(OpenNote(ch.texts, c, w.gate(index).open)), None)
    else
      var tokens := Sent(req.maxTokens, c);
      var reply := w.reply(index, tokens);
      var calls := [Call(index, tokens)];
      if reply.Answered? && Usable(reply.body) then
        Turn(Succeeded, calls, SuccessEffects(ch.control, c, index), None, Some(Response(reply.body)))
      else if IsCutShort(reply) then CutTurn(ch, req, index, calls, reply.body)
      else FailTurn(ch, w, index, calls, CallError(ch.texts, c, reply))
  }

  function Noted(wk: Walk, t: Turn): Walk {
    if t.note.Some? then wk.(failures := wk.failures + [t.note.value.line], last := Some(t.note.value.error)) else wk
  }

  function Take(wk: Walk, t: Turn): Walk {
    Noted(wk.(trace := wk.trace + [t.visit], calls := wk.calls + t.calls, circuit := wk.circuit + t.circuit,
              anyRetryable := wk.anyRetryable || t.visit == Failed(true), done := t.done), t)
  }

  const START := Walk([], [], [], [], None, false, None)

  /** The walk over the first n positions, given what each position would do if consulted. */
  function WalkBy(turn: nat -> Turn, n: nat): Walk {
    if n == 0 then START else Step(WalkBy(turn, n - 1), turn(n - 1))
  }

  function Step(wk: Walk, t: Turn): Walk { if wk.done.Some? then wk else Take(wk, t) }

  function Turns(ch: Chain, req: Request, w: World): nat -> Turn {
    (index: nat) => if index < |ch.providers| then TurnAt(ch, req, w, index) else Turn(Skipped, [], [], None, None)
  }

  function WalkAll(ch: Chain, req: Request, w: World): Walk { WalkBy(Turns(ch, req, w), |ch.providers|) }

  function Combined(wk: Walk): Aggregate { Aggregate(!wk.anyRetryable && |wk.failures| > 0, wk.failures, wk.last) }

  function AnswerOf(wk: Walk): Answer { if wk.done.Some? then wk.done.value else Unavailable(Combined(wk)) }

  // ----- the chain as the program runs it -----

  class MaintenanceChain {
    const chain: Chain
    var circuit: seq<Effect>
    var calls: seq<Call>

    constructor (chain: Chain)
      ensures this.chain == chain && circuit == [] && calls == []
    {
      this.chain, circuit, calls := chain, [], [];
    }

    method Chat(req: Request, w: World) returns (r: Answer, ghost wk: Walk)
      modifies this
      ensures wk == WalkAll(chain, req, w) && r == AnswerOf(wk)
      ensures circuit == old(circuit) + wk.circuit && calls == old(calls) + wk.calls
    {
      r, wk := WalkPositions(Turns(chain, req, w), |chain.providers|);
    }

    /** The loop over positions, whatever each position does when it is consulted. */
    method WalkPositions(turn: nat -> Turn, n: nat) returns (r: Answer, ghost wk: Walk)
      modifies this
      ensures wk == WalkBy(turn, n) && r == AnswerOf(wk)
      ensures circuit == old(circuit) + wk.circuit && calls == old(calls) + wk.calls
    {
      var failures, last, anyRetryable, done := [], None, false, None;
      wk := START;
      var index := 0;
      while index < n && done.None?
        invariant 0 <= index <= n && wk == WalkBy(turn, index)
        invariant failures == wk.failures && last == wk.last && anyRetryable == wk.anyRetryable && done == wk.done
        invariant circuit == old(circuit) + wk.circuit && calls == old(calls) + wk.calls
      {
        var t := turn(index);
        Assoc(old(circuit), wk.circuit, t.circuit);
        Assoc(old(calls), wk.calls, t.calls);
        circuit, calls := circuit + t.circuit, calls + t.calls;
        anyRetryable, done := anyRetryable || t.visit == Failed(true), t.done;
        if t.note.Some? {
          last, failures := Some(t.note.value.error), failures + [t.note.value.line];
        }
        wk := Take(wk, t);
        index := index + 1;
      }
      if done.Some? {
        DoneStays(turn, index, n);
        r := done.value;
      } else {
        r := Unavailable(Aggregate(!anyRetryable && |failures| > 0, failures, last));
      }
    }
  }

  lemma Assoc<T>(a: seq<T>, b: seq<T>, c: seq<T>)
    ensures a + b + c == a + (b + c)
  {
  }

  lemma {:induction false} DoneStays(turn: nat -> Turn, n: nat, m: nat)
    requires n <= m && WalkBy(turn, n).done.Some?
    ensures WalkBy(turn, m) == WalkBy(turn, n)
  {
    if n < m {
      DoneStays(turn, n, m - 1);
    }
  }
}
