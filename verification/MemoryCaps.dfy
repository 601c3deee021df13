/**
 The cap enforcer of memory governance: over-age rows go first, then each
 workspace's overflow, then the global overflow, always weakest first.
 */
module MemoryCaps {
  import opened Basics

  type Id = string

  /** A canonical memory as the enforcer reads it; times and ages are in nanoseconds. */
  datatype Row = Row(pinned: bool, confirmed: bool, scope: string, confidence: real,
                     created: int, verified: int, accessed: int)

  predicate Guarded(r: Row) { r.pinned || r.confirmed }

  function Freshness(r: Row): int {
    var t := if r.verified > r.created then r.verified else r.created;
    if r.accessed > t then r.accessed else t
  }

  /** Unscored rows count as neutral. */
  function Stored(confidence: real): real { if confidence <= 0.0 then 0.5 else confidence }

  function WithFloor(s: real, eff: real): real { if eff < 0.2 * s then 0.2 * s else eff }

  /** Time decay with a floor; halving gives the share left at an age. */
  function EffectiveConfidence(halving: int -> real, stored: real, age: int): real {
    if age <= 0 then Stored(stored) else WithFloor(Stored(stored), Stored(stored) * halving(age))
  }

  /** Freshness is the latest of the three times. */
  lemma FreshnessIsLatest(r: Row)
    ensures Freshness(r) in {r.created, r.verified, r.accessed}
    ensures Freshness(r) >= r.created && Freshness(r) >= r.verified && Freshness(r) >= r.accessed
  {
  }

  /** Decay only lowers a confidence, never below a fifth of it; an unscored row counts as 0.5. */
  lemma DecayIsBounded(halving: int -> real, stored: real, age: int)
    requires 0.0 <= halving(age) <= 1.0
    ensures var s, eff := if stored <= 0.0 then 0.5 else stored, EffectiveConfidence(halving, stored, age);
            && 0.2 * s <= eff <= s && (age <= 0 ==> eff == s)
            && (age > 0 && halving(age) >= 0.2 ==> eff == s * halving(age))
            && (age > 0 && halving(age) <= 0.2 ==> eff == 0.2 * s)
  {
    var s, h := Stored(stored), halving(age);
    assert s > 0.0;
    var eff := Scale(s, h);
    FloorBounds(s, eff);
  }

  lemma FloorBounds(s: real, eff: real)
    requires s > 0.0 && eff <= s
    ensures 0.2 * s <= WithFloor(s, eff) <= s && (eff >= 0.2 * s ==> WithFloor(s, eff) == eff) && (eff <= 0.2 * s ==> WithFloor(s, eff) == 0.2 * s)
  {
  }

  lemma Scale(s: real, h: real) returns (eff: real)
    requires s > 0.0 && 0.0 <= h <= 1.0
    ensures eff == s * h && eff <= s && (h >= 0.2 ==> eff >= 0.2 * s) && (h <= 0.2 ==> eff <= 0.2 * s)
  {
    eff := s * h;
    NonNegative(s, 1.0 - h);
    if h >= 0.2 {
      NonNegative(s, h - 0.2);
    }
    if h <= 0.2 {
      NonNegative(s, 0.2 - h);
    }
  }

  lemma NonNegative(a: real, b: real)
    requires a >= 0.0 && b >= 0.0
    ensures a * b >= 0.0
  {
  }

  /** The settings as written; values that are not positive mean the defaults (or no workspace cap). */
  datatype Config = Config(maxActiveGlobal: int, maxActivePerWorkspace: int, archiveAfter: int)

  const DAY := 24 * 3600 * 1_000_000_000

  /** What one pass decides by, fixed for its whole duration. */
  datatype Policy = Policy(guarded: Id -> bool, overAge: Id -> bool, scope: Id -> string, strength: Id -> real,
                           cap: int, maxActive: nat)

  function PolicyOf(cfg: Config, info: Id -> Row, halving: int -> real, now: int): Policy {
    var limit := if cfg.archiveAfter > 0 then cfg.archiveAfter else 180 * DAY;
    Policy(
      x => Guarded(info(x)),
      x => now - Freshness(info(x)) > limit,
      x => info(x).scope,
      x => EffectiveConfidence(halving, info(x).confidence, now - Freshness(info(x))),
      cfg.maxActivePerWorkspace,
      if cfg.maxActiveGlobal <= 0 then 120 else cfg.maxActiveGlobal)
  }

  // ----- what a pass may do -----

  predicate IsWorkspace(scope: string) { "workspace:" <= scope }

  function Open(p: Policy, active: set<Id>): set<Id> { set x | x in active && !p.guarded(x) }
  function Stale(p: Policy, active: set<Id>): set<Id> { set x | x in active && !p.guarded(x) && p.overAge(x) }
  function InScope(p: Policy, active: set<Id>, scope: string): set<Id> {
    set x | x in active && !p.guarded(x) && p.scope(x) == scope
  }

  function Overflow(n: int, size: nat): nat { if n <= 0 then 0 else if n <= size then n else size }

  /** gone are the overflow weakest of items, or all of them when there are fewer. */
  ghost predicate WeakestCut(strength: Id -> real, items: set<Id>, overflow: int, gone: set<Id>) {
    && gone <= items && |gone| == Overflow(overflow, |items|)
    && forall x, y :: x in gone && y in items - gone ==> strength(x) <= strength(y)
  }

  /** One workspace cut down to its cap. */
  ghost predicate ScopeCut(p: Policy, before: set<Id>, after: set<Id>, scope: string) {
    var items := InScope(p, before, scope);
    WeakestCut(p.strength, items, |items| - p.cap, items - after)
  }

  /** The workspace stage: every workspace scope is cut, nothing else changes. */
  ghost predicate WorkspaceStage(p: Policy, before: set<Id>, after: set<Id>) {
    if p.cap > 0 then
      && after <= before
      && (forall x :: x in before - after ==> !p.guarded(x) && IsWorkspace(p.scope(x)))
      && (forall scope :: IsWorkspace(scope) ==> ScopeCut(p, before, after, scope))
    else after == before
  }

  ghost predicate GlobalStage(p: Policy, before: set<Id>, after: set<Id>) {
    && after <= before
    && WeakestCut(p.strength, Open(p, before), |before| - p.maxActive, before - after)
  }

  /** A whole pass without store errors; middle is the state between the workspace stage and the global one. */
  ghost predicate Capped(p: Policy, before: set<Id>, middle: set<Id>, after: set<Id>) {
    WorkspaceStage(p, before - Stale(p, before), middle) && GlobalStage(p, middle, after)
  }

  // ----- weakest first -----

  predicate Rising(strength: Id -> real, s: seq<Id>) {
    forall i, j :: 0 <= i < j < |s| ==> strength(s[i]) <= strength(s[j])
  }

  /** Puts x before the first element that is not weaker. */
  function Insert(strength: Id -> real, x: Id, s: seq<Id>): seq<Id> {
    if s == [] then [x] else if strength(s[0]) < strength(x) then [s[0]] + Insert(strength, x, s[1..]) else [x] + s
  }

  function Sorted(strength: Id -> real, s: seq<Id>): seq<Id> {
    if s == [] then [] else Insert(strength, s[0], Sorted(strength, s[1..]))
  }

  lemma {:induction false} InsertAdds(strength: Id -> real, x: Id, s: seq<Id>)
    ensures multiset(Insert(strength, x, s)) == multiset(s) + multiset{x}
  {
    if s != [] {
      assert s == [s[0]] + s[1..];
      InsertAdds(strength, x, s[1..]);
    }
  }

  lemma {:induction false} InsertRises(strength: Id -> real, x: Id, s: seq<Id>)
    requires Rising(strength, s)
    ensures Rising(strength, Insert(strength, x, s))
  {
    if s != [] && strength(s[0]) < strength(x) {
      InsertRises(strength, x, s[1..]);
      var t := Insert(strength, x, s[1..]);
      InsertAdds(strength, x, s[1..]);
      forall y | y in t ensures strength(s[0]) <= strength(y) {
        assert y in multiset(t);
      }
    }
  }

  /** The stable sort gives a rising permutation. */
  lemma {:induction false} SortedSorts(strength: Id -> real, s: seq<Id>)
    ensures multiset(Sorted(strength, s)) == multiset(s) && Rising(strength, Sorted(strength, s))
  {
    if s != [] {
      assert s == [s[0]] + s[1..];
      SortedSorts(strength, s[1..]);
      InsertAdds(strength, s[0], Sorted(strength, s[1..]));
      InsertRises(strength, s[0], Sorted(strength, s[1..]));
    }
  }

  function OfStrength(strength: Id -> real, s: seq<Id>, v: real): seq<Id> {
    if s == [] then [] else (if strength(s[0]) == v then [s[0]] else []) + OfStrength(strength, s[1..], v)
  }

  lemma {:induction false} InsertStable(strength: Id -> real, x: Id, s: seq<Id>, v: real)
    requires Rising(strength, s)
    ensures OfStrength(strength, Insert(strength, x, s), v) == (if strength(x) == v then [x] else []) + OfStrength(strength, s, v)
  {
    if s == [] || strength(s[0]) >= strength(x) {
      OneMoreOfStrength(strength, x, s, v);
      assert s == [] ==> [x] + s == [x];
    } else {
      var rest := s[1..];
      assert s == [s[0]] + rest;
      InsertStable(strength, x, rest, v);
      OneMoreOfStrength(strength, s[0], Insert(strength, x, rest), v);
      OneMoreOfStrength(strength, s[0], rest, v);
      OneIsNone(if strength(s[0]) == v then [s[0]] else [], if strength(x) == v then [x] else [], OfStrength(strength, rest, v));
    }
  }

  lemma OneIsNone(a: seq<Id>, b: seq<Id>, rest: seq<Id>)
    requires a == [] || b == []
    ensures a + (b + rest) == b + (a + rest)
  {
  }

  lemma OneMoreOfStrength(strength: Id -> real, x: Id, s: seq<Id>, v: real)
    ensures OfStrength(strength, [x] + s, v) == (if strength(x) == v then [x] else []) + OfStrength(strength, s, v)
  {
    assert ([x] + s)[1..] == s;
  }

  /** Rows of equal strength keep the order in which the store listed them. */
  lemma {:induction false} SortedIsStable(strength: Id -> real, s: seq<Id>, v: real)
    ensures OfStrength(strength, Sorted(strength, s), v) == OfStrength(strength, s, v)
  {
    if s != [] {
      SortedIsStable(strength, s[1..], v);
      SortedSorts(strength, s[1..]);
      InsertStable(strength, s[0], Sorted(strength, s[1..]), v);
    }
  }

  lemma SamePermutation(s: seq<Id>, t: seq<Id>)
    requires multiset(s) == multiset(t)
    ensures |s| == |t| && Elements(s) == Elements(t) && (NoDup(s) ==> NoDup(t))
  {
    assert |s| == |multiset(s)| && |t| == |multiset(t)|;
    forall x ensures x in s <==> x in t {
      assert x in s <==> x in multiset(s);
      assert x in t <==> x in multiset(t);
    }
    if NoDup(s) {
      forall i, j | 0 <= i < j < |t| ensures t[i] != t[j] {
        if t[i] == t[j] {
          TwiceIn(t, i, j);
          OnceIn(s, t[i]);
        }
      }
    }
  }

  lemma TwiceIn(s: seq<Id>, i: nat, j: nat)
    requires i < j < |s| && s[i] == s[j]
    ensures multiset(s)[s[i]] >= 2
  {
    assert s == s[..j] + s[j..] && s[i] in s[..j] && s[j] in s[j..];
    assert multiset(s) == multiset(s[..j]) + multiset(s[j..]);
    assert s[i] in multiset(s[..j]) && s[j] in multiset(s[j..]);
  }

  lemma {:induction false} OnceIn(s: seq<Id>, x: Id)
    requires NoDup(s)
    ensures multiset(s)[x] <= 1
  {
    if s != [] {
      OnceIn(s[1..], x);
      assert s == [s[0]] + s[1..];
      if x == s[0] {
        assert x !in s[1..];
      }
    }
  }

  lemma {:induction false} SizeOfNoDup(s: seq<Id>)
    requires NoDup(s)
    ensures |Elements(s)| == |s|
  {
    if s != [] {
      SizeOfNoDup(s[1..]);
      assert s == [s[0]] + s[1..] && s[0] !in s[1..];
      assert Elements(s) == {s[0]} + Elements(s[1..]);
    }
  }

  /** The first rows of the sorted list are a weakest cut. */
  lemma PrefixIsWeakest(strength: Id -> real, s: seq<Id>, k: nat)
    requires NoDup(s) && Rising(strength, s) && k <= |s|
    ensures Elements(s[..k]) <= Elements(s) && |Elements(s[..k])| == k
    ensures forall x, y :: x in Elements(s[..k]) && y in Elements(s) - Elements(s[..k]) ==> strength(x) <= strength(y)
  {
    SizeOfNoDup(s[..k]);
    forall x, y | x in Elements(s[..k]) && y in Elements(s) - Elements(s[..k]) ensures strength(x) <= strength(y) {
      var i :| 0 <= i < k && s[i] == x;
      assert s == s[..k] + s[k..] && y in s[k..];
      var j :| 0 <= j < |s[k..]| && s[k..][j] == y;
    }
  }

  // ----- what every pass guarantees -----

  lemma PassShrinks(p: Policy, before: set<Id>, middle: set<Id>, after: set<Id>)
    requires Capped(p, before, middle, after)
    ensures after <= middle <= before - Stale(p, before)
    ensures forall x :: x in before && p.guarded(x) ==> x in after
  {
    var young := before - Stale(p, before);
    forall x | x in before && p.guarded(x) ensures x in after {
      assert x in young && x !in young - middle;
      assert x !in Open(p, middle) && x !in middle - after;
    }
  }

  /** Afterwards every active row is protected or young enough. */
  lemma NoneOverAge(p: Policy, before: set<Id>, middle: set<Id>, after: set<Id>)
    requires Capped(p, before, middle, after)
    ensures Stale(p, after) == {}
  {
    PassShrinks(p, before, middle, after);
    assert Stale(p, after) <= Stale(p, before);
  }

  lemma SmallerSet(x: set<Id>, y: set<Id>)
    requires x <= y
    ensures |x| <= |y| && |y - x| == |y| - |x|
  {
    assert y == x + (y - x);
  }

  lemma CutScope(p: Policy, before: set<Id>, after: set<Id>, scope: string)
    requires p.cap > 0 && WorkspaceStage(p, before, after) && IsWorkspace(scope)
    ensures |InScope(p, after, scope)| <= p.cap
    ensures InScope(p, before, scope) != InScope(p, after, scope) ==> |InScope(p, after, scope)| == p.cap
  {
    assert ScopeCut(p, before, after, scope);
    var items := InScope(p, before, scope);
    assert InScope(p, after, scope) == items - (items - after);
    SmallerSet(items - after, items);
  }

  lemma ScopeShrinks(p: Policy, x: set<Id>, y: set<Id>, scope: string)
    requires x <= y
    ensures |InScope(p, x, scope)| <= |InScope(p, y, scope)|
  {
    SmallerSet(InScope(p, x, scope), InScope(p, y, scope));
  }

  /** No workspace keeps more unprotected rows than its cap. */
  lemma WithinWorkspaceCap(p: Policy, before: set<Id>, middle: set<Id>, after: set<Id>, scope: string)
    requires Capped(p, before, middle, after) && p.cap > 0 && IsWorkspace(scope)
    ensures |InScope(p, after, scope)| <= p.cap
  {
    CutScope(p, before - Stale(p, before), middle, scope);
    ScopeShrinks(p, after, middle, scope);
  }

  function Max(a: int, b: int): int { if a < b then b else a }

  lemma GuardedSurvive(p: Policy, middle: set<Id>, after: set<Id>)
    requires GlobalStage(p, middle, after)
    ensures after - Open(p, after) == middle - Open(p, middle)
    ensures |middle - after| == |middle| - |after| && |middle - Open(p, middle)| == |middle| - |Open(p, middle)|
  {
    SmallerSet(after, middle);
    SmallerSet(Open(p, middle), middle);
    forall x | x in middle && p.guarded(x) ensures x in after {
      assert x !in Open(p, middle) && x !in middle - after;
    }
  }

  /** The global cap binds except where protected rows alone exceed it; once it binds it binds exactly. */
  lemma GlobalSizes(p: Policy, middle: set<Id>, after: set<Id>)
    requires GlobalStage(p, middle, after)
    ensures |after| <= Max(p.maxActive, |after - Open(p, after)|)
    ensures middle != after ==> |after| == Max(p.maxActive, |after - Open(p, after)|)
  {
    GuardedSurvive(p, middle, after);
    if middle != after {
      assert exists x :: x in middle - after;
      SomeGone(middle - after);
    }
  }

  lemma SomeGone(s: set<Id>)
    requires exists x :: x in s
    ensures |s| > 0
  {
  }

  /** The total is at most the larger of the cap and the number of protected rows. */
  lemma WithinGlobalCap(p: Policy, before: set<Id>, middle: set<Id>, after: set<Id>)
    requires Capped(p, before, middle, after)
    ensures |after| <= Max(p.maxActive, |before - Open(p, before)|)
  {
    GlobalSizes(p, middle, after);
    PassShrinks(p, before, middle, after);
    assert after - Open(p, after) == before - Open(p, before);
  }

  /** Every row a cap archives is no stronger than the unprotected rows that cap spares. */
  lemma WeakestGo(p: Policy, before: set<Id>, middle: set<Id>, after: set<Id>, x: Id, y: Id)
    requires Capped(p, before, middle, after) && y in Open(p, after)
    requires x in middle - after || (x in before - Stale(p, before) - middle && p.scope(x) == p.scope(y))
    ensures p.strength(x) <= p.strength(y)
  {
    PassShrinks(p, before, middle, after);
    if x in middle - after {
      assert y in Open(p, middle) - (middle - after);
    } else {
      var young := before - Stale(p, before);
      var items := InScope(p, young, p.scope(x));
      assert ScopeCut(p, young, middle, p.scope(x));
      assert x in items - middle && y in items - (items - middle);
    }
  }

  /** Nothing is archived without need: the row was over age, or its workspace or the total sits exactly at its limit. */
  lemma ArchivedForAReason(p: Policy, before: set<Id>, middle: set<Id>, after: set<Id>, x: Id)
    requires Capped(p, before, middle, after) && x in before - after
    ensures !p.guarded(x)
    ensures p.overAge(x)
         || (p.cap > 0 && IsWorkspace(p.scope(x)) && |InScope(p, middle, p.scope(x))| == p.cap)
         || |after| == Max(p.maxActive, |after - Open(p, after)|)
  {
    PassShrinks(p, before, middle, after);
    GlobalSizes(p, middle, after);
    var young := before - Stale(p, before);
    if x in young - middle {
      assert x in InScope(p, young, p.scope(x)) && x !in InScope(p, middle, p.scope(x));
      CutScope(p, young, middle, p.scope(x));
    }
  }

  lemma EmptyCut(strength: Id -> real, items: set<Id>, overflow: int, gone: set<Id>)
    requires WeakestCut(strength, items, overflow, gone) && (overflow <= 0 || items == {})
    ensures gone == {}
  {
  }

  lemma WorkspaceStageIdle(p: Policy, before: set<Id>, after: set<Id>)
    requires WorkspaceStage(p, before, after)
    requires p.cap > 0 ==> forall scope :: IsWorkspace(scope) ==> |InScope(p, before, scope)| <= p.cap
    ensures after == before
  {
    if p.cap > 0 {
      forall x | x in before ensures x in after {
        var s := p.scope(x);
        if x !in after {
          assert IsWorkspace(s) && ScopeCut(p, before, after, s) && x in InScope(p, before, s) - after;
          var items := InScope(p, before, s);
          EmptyCut(p.strength, items, |items| - p.cap, items - after);
        }
      }
    }
  }

  lemma GlobalStageIdle(p: Policy, before: set<Id>, after: set<Id>)
    requires GlobalStage(p, before, after) && |before| <= Max(p.maxActive, |before - Open(p, before)|)
    ensures after == before
  {
    if |before| > p.maxActive {
      SmallerSet(Open(p, before), before);
    }
    EmptyCut(p.strength, Open(p, before), |before| - p.maxActive, before - after);
  }

  /** A second pass at the same instant changes nothing. */
  lemma RerunChangesNothing(p: Policy, before: set<Id>, middle: set<Id>, after: set<Id>, middle': set<Id>, after': set<Id>)
    requires Capped(p, before, middle, after) && Capped(p, after, middle', after')
    ensures middle' == after && after' == after
  {
    NoneOverAge(p, before, middle, after);
    assert after - Stale(p, after) == after;
    forall scope | p.cap > 0 && IsWorkspace(scope) ensures |InScope(p, after, scope)| <= p.cap {
      WithinWorkspaceCap(p, before, middle, after, scope);
    }
    WorkspaceStageIdle(p, after, middle');
    GlobalSizes(p, middle, after);
    GlobalStageIdle(p, after, after');
  }

  // ----- a pass in terms of rows and settings -----

  /** One of the row's times lies within the age limit: archiveAfter, or 180 days. */
  predicate Recent(cfg: Config, r: Row, now: int) {
    var limit := if cfg.archiveAfter > 0 then cfg.archiveAfter else 180 * DAY;
    now - r.created <= limit || now - r.verified <= limit || now - r.accessed <= limit
  }

  function GlobalCap(cfg: Config): nat { if cfg.maxActiveGlobal > 0 then cfg.maxActiveGlobal else 120 }

  function Protected(info: Id -> Row, rows: set<Id>): set<Id> { set x | x in rows && (info(x).pinned || info(x).confirmed) }

  /** The unprotected rows of a workspace. */
  function OfWorkspace(info: Id -> Row, rows: set<Id>, scope: string): set<Id> {
    set x | x in rows && !info(x).pinned && !info(x).confirmed && info(x).scope == scope
  }

  predicate Capping(cfg: Config, scope: string) { cfg.maxActivePerWorkspace > 0 && "workspace:" <= scope }

  /** Afterwards: every row is protected or recent, every workspace within its cap, the total within the larger of cap and protected rows. */
  ghost predicate InBounds(cfg: Config, info: Id -> Row, now: int, after: set<Id>) {
    && (forall x :: x in after ==> x in Protected(info, after) || Recent(cfg, info(x), now))
    && (forall scope :: Capping(cfg, scope) ==> |OfWorkspace(info, after, scope)| <= cfg.maxActivePerWorkspace)
    && |after| <= Max(GlobalCap(cfg), |Protected(info, after)|)
  }

  /** A recent row went for a cap that was exceeded, and that cap or the total is now used to the full. */
  ghost predicate Needed(cfg: Config, info: Id -> Row, now: int, before: set<Id>, after: set<Id>, x: Id) {
    var scope := info(x).scope;
    && ((Capping(cfg, scope) && |OfWorkspace(info, before, scope)| > cfg.maxActivePerWorkspace) || |before| > GlobalCap(cfg))
    && ((Capping(cfg, scope) && |OfWorkspace(info, after, scope)| == cfg.maxActivePerWorkspace)
        || |after| == Max(GlobalCap(cfg), |Protected(info, after)|))
  }

  /** The row's confidence, decayed since the latest of its times. */
  function Decayed(halving: int -> real, r: Row, now: int): real { EffectiveConfidence(halving, r.confidence, now - Freshness(r)) }

  /** It was no stronger than any unprotected row that stayed in its workspace, or anywhere if no workspace cap concerns it. */
  ghost predicate NoStronger(cfg: Config, info: Id -> Row, halving: int -> real, now: int, after: set<Id>, x: Id) {
    forall y :: y in after && y !in Protected(info, after) && (info(y).scope == info(x).scope || !Capping(cfg, info(x).scope)) ==>
      Decayed(halving, info(x), now) <= Decayed(halving, info(y), now)
  }

  ghost predicate PassDid(cfg: Config, info: Id -> Row, halving: int -> real, now: int, before: set<Id>, after: set<Id>) {
    && after <= before && Protected(info, after) == Protected(info, before) && InBounds(cfg, info, now, after)
    && forall x :: x in before - after && Recent(cfg, info(x), now) ==>
         Needed(cfg, info, now, before, after, x) && NoStronger(cfg, info, halving, now, after, x)
  }

  /** What the policy reads off rows and settings. */
  ghost predicate PolicyReads(cfg: Config, info: Id -> Row, halving: int -> real, now: int, p: Policy) {
    && (forall x :: p.guarded(x) <==> info(x).pinned || info(x).confirmed)
    && (forall x :: p.overAge(x) <==> !Recent(cfg, info(x), now))
    && (forall x :: p.scope(x) == info(x).scope)
    && (forall x :: p.strength(x) == Decayed(halving, info(x), now))
    && p.cap == cfg.maxActivePerWorkspace && p.maxActive == GlobalCap(cfg)
  }

  lemma AgeReads(cfg: Config, info: Id -> Row, halving: int -> real, now: int, x: Id)
    ensures PolicyOf(cfg, info, halving, now).overAge(x) <==> !Recent(cfg, info(x), now)
  {
    FreshnessIsLatest(info(x));
  }

  lemma RestReads(cfg: Config, info: Id -> Row, halving: int -> real, now: int, x: Id)
    ensures var p := PolicyOf(cfg, info, halving, now);
            && (p.guarded(x) <==> info(x).pinned || info(x).confirmed) && p.scope(x) == info(x).scope
            && p.strength(x) == Decayed(halving, info(x), now)
            && p.cap == cfg.maxActivePerWorkspace && p.maxActive == GlobalCap(cfg)
  {
  }

  lemma PolicyOfReads(cfg: Config, info: Id -> Row, halving: int -> real, now: int)
    ensures PolicyReads(cfg, info, halving, now, PolicyOf(cfg, info, halving, now))
  {
    var p := PolicyOf(cfg, info, halving, now);
    forall x
      ensures p.overAge(x) <==> !Recent(cfg, info(x), now)
      ensures (p.guarded(x) <==> info(x).pinned || info(x).confirmed) && p.scope(x) == info(x).scope
      ensures p.strength(x) == Decayed(halving, info(x), now)
      ensures p.cap == cfg.maxActivePerWorkspace && p.maxActive == GlobalCap(cfg)
    {
      AgeReads(cfg, info, halving, now, x);
      RestReads(cfg, info, halving, now, x);
    }
    RestReads(cfg, info, halving, now, "");
  }

  lemma SetsRead(cfg: Config, info: Id -> Row, halving: int -> real, now: int, p: Policy, rows: set<Id>, scope: string)
    requires PolicyReads(cfg, info, halving, now, p)
    ensures InScope(p, rows, scope) == OfWorkspace(info, rows, scope) && rows - Open(p, rows) == Protected(info, rows)
    ensures p.cap > 0 && IsWorkspace(scope) <==> Capping(cfg, scope)
  {
  }

  lemma BoundsHold(cfg: Config, info: Id -> Row, halving: int -> real, now: int, p: Policy, before: set<Id>, middle: set<Id>, after: set<Id>)
    requires PolicyReads(cfg, info, halving, now, p) && Capped(p, before, middle, after)
    ensures InBounds(cfg, info, now, after) && after <= before && Protected(info, after) == Protected(info, before)
  {
    PassShrinks(p, before, middle, after);
    NoneOverAge(p, before, middle, after);
    forall x | x in after ensures x in Protected(info, after) || Recent(cfg, info(x), now) {
      assert x !in Stale(p, after);
    }
    forall scope | Capping(cfg, scope) ensures |OfWorkspace(info, after, scope)| <= cfg.maxActivePerWorkspace {
      SetsRead(cfg, info, halving, now, p, after, scope);
      WithinWorkspaceCap(p, before, middle, after, scope);
    }
    GlobalSizes(p, middle, after);
    SetsRead(cfg, info, halving, now, p, after, "");
  }

  lemma GlobalNeed(p: Policy, before: set<Id>, middle: set<Id>, after: set<Id>, x: Id)
    requires Capped(p, before, middle, after) && x in middle - after
    ensures |before| > p.maxActive
  {
    PassShrinks(p, before, middle, after);
    SmallerSet(middle, before);
    if |middle| <= p.maxActive {
      EmptyCut(p.strength, Open(p, middle), |middle| - p.maxActive, middle - after);
    }
  }

  lemma WorkspaceNeed(p: Policy, before: set<Id>, middle: set<Id>, after: set<Id>, x: Id)
    requires Capped(p, before, middle, after) && x in before - Stale(p, before) - middle
    ensures p.cap > 0 && IsWorkspace(p.scope(x)) && |InScope(p, before, p.scope(x))| > p.cap
    ensures |InScope(p, middle, p.scope(x))| == p.cap
  {
    var young, scope := before - Stale(p, before), p.scope(x);
    assert x in InScope(p, young, scope) && x !in InScope(p, middle, scope);
    CutScope(p, young, middle, scope);
    ScopeShrinks(p, young, before, scope);
    assert InScope(p, middle, scope) <= InScope(p, young, scope) - {x};
    SmallerSet(InScope(p, middle, scope), InScope(p, young, scope) - {x});
  }

  lemma NeedHolds(cfg: Config, info: Id -> Row, halving: int -> real, now: int, p: Policy, before: set<Id>, middle: set<Id>, after: set<Id>, x: Id)
    requires PolicyReads(cfg, info, halving, now, p) && Capped(p, before, middle, after) && x in before - after && Recent(cfg, info(x), now)
    ensures Needed(cfg, info, now, before, after, x)
  {
    PassShrinks(p, before, middle, after);
    GlobalSizes(p, middle, after);
    SetsRead(cfg, info, halving, now, p, before, info(x).scope);
    SetsRead(cfg, info, halving, now, p, after, info(x).scope);
    if x in middle {
      GlobalNeed(p, before, middle, after, x);
    } else {
      WorkspaceNeed(p, before, middle, after, x);
    }
  }

  lemma StrengthHolds(cfg: Config, info: Id -> Row, halving: int -> real, now: int, p: Policy, before: set<Id>, middle: set<Id>, after: set<Id>, x: Id)
    requires PolicyReads(cfg, info, halving, now, p) && Capped(p, before, middle, after) && x in before - after && Recent(cfg, info(x), now)
    ensures NoStronger(cfg, info, halving, now, after, x)
  {
    if x !in middle {
      WorkspaceNeed(p, before, middle, after, x);
    }
    forall y | y in after && y !in Protected(info, after) && (info(y).scope == info(x).scope || !Capping(cfg, info(x).scope))
      ensures Decayed(halving, info(x), now) <= Decayed(halving, info(y), now)
    {
      WeakestGo(p, before, middle, after, x, y);
    }
  }

  /** Every pass without store errors, told in rows and settings alone. */
  lemma PassInRows(cfg: Config, info: Id -> Row, halving: int -> real, now: int, before: set<Id>, middle: set<Id>, after: set<Id>)
    requires Capped(PolicyOf(cfg, info, halving, now), before, middle, after)
    ensures PassDid(cfg, info, halving, now, before, after)
  {
    var p := PolicyOf(cfg, info, halving, now);
    PolicyOfReads(cfg, info, halving, now);
    BoundsHold(cfg, info, halving, now, p, before, middle, after);
    forall x | x in before - after && Recent(cfg, info(x), now)
      ensures Needed(cfg, info, now, before, after, x) && NoStronger(cfg, info, halving, now, after, x)
    {
      NeedHolds(cfg, info, halving, now, p, before, middle, after, x);
      StrengthHolds(cfg, info, halving, now, p, before, middle, after, x);
    }
  }

  // ----- the order of listing does not matter -----

  ghost predicate NoTies(p: Policy, active: set<Id>) {
    forall x, y :: x in active && y in active && x != y ==> p.strength(x) != p.strength(y)
  }

  lemma CutIsUnique(strength: Id -> real, items: set<Id>, overflow: int, gone: set<Id>, gone': set<Id>)
    requires WeakestCut(strength, items, overflow, gone) && WeakestCut(strength, items, overflow, gone')
    requires forall x, y :: x in items && y in items && x != y ==> strength(x) != strength(y)
    ensures gone == gone'
  {
    if gone != gone' {
      var x, y := Exchange(gone, gone');
    }
  }

  lemma SameRest(a: set<Id>, b: set<Id>, both: set<Id>)
    requires |a + both| == |b + both| && a !! both && b !! both
    ensures |a| == |b|
  {
  }

  lemma Exchange(a: set<Id>, b: set<Id>) returns (x: Id, y: Id)
    requires |a| == |b| && a != b
    ensures x in a && x !in b && y in b && y !in a
  {
    assert a == (a - b) + a * b && b == (b - a) + a * b;
    SameRest(a - b, b - a, a * b);
    x :| x in a - b;
    y :| y in b - a;
  }

  lemma WorkspaceStageIsUnique(p: Policy, before: set<Id>, after: set<Id>, after': set<Id>)
    requires WorkspaceStage(p, before, after) && WorkspaceStage(p, before, after') && NoTies(p, before)
    ensures after == after'
  {
    if p.cap > 0 {
      forall x | x in before ensures x in after <==> x in after' {
        var s := p.scope(x);
        var items := InScope(p, before, s);
        if IsWorkspace(s) && !p.guarded(x) {
          assert ScopeCut(p, before, after, s) && ScopeCut(p, before, after', s);
          CutIsUnique(p.strength, items, |items| - p.cap, items - after, items - after');
          assert x in items && (x in items - after <==> x in items - after');
        }
      }
    }
  }

  lemma GlobalStageIsUnique(p: Policy, m: set<Id>, a: set<Id>, a': set<Id>)
    requires GlobalStage(p, m, a) && GlobalStage(p, m, a') && NoTies(p, m)
    ensures a == a'
  {
    CutIsUnique(p.strength, Open(p, m), |m| - p.maxActive, m - a, m - a');
    assert a == m - (m - a) && a' == m - (m - a');
  }

  /** Without ties, the result is a function of the rows: neither listing order nor map order matters. */
  lemma OutcomeIsDetermined(p: Policy, before: set<Id>, m: set<Id>, a: set<Id>, m': set<Id>, a': set<Id>)
    requires Capped(p, before, m, a) && Capped(p, before, m', a') && NoTies(p, before)
    ensures m == m' && a == a'
  {
    WorkspaceStageIsUnique(p, before - Stale(p, before), m, m');
    PassShrinks(p, before, m, a);
    GlobalStageIsUnique(p, m, a, a');
  }

  // ----- the loops over listed rows -----

  method SplitByAge(p: Policy, actives: seq<Id>) returns (overAge: seq<Id>, candidates: seq<Id>)
    requires NoDup(actives)
    ensures IsListing(overAge, Stale(p, Elements(actives)))
    ensures IsListing(candidates, Open(p, Elements(actives)) - Stale(p, Elements(actives)))
  {
    overAge, candidates := [], [];
    var i := 0;
    while i < |actives|
      invariant 0 <= i <= |actives|
      invariant IsListing(overAge, Stale(p, Elements(actives[..i])))
      invariant IsListing(candidates, Open(p, Elements(actives[..i])) - Stale(p, Elements(actives[..i])))
    {
      var m := actives[i];
      assert actives[..i + 1] == actives[..i] + [m] && m !in actives[..i];
      Grows(p, Elements(actives[..i]), m);
      if !p.guarded(m) {
        if p.overAge(m) {
          ListMore(overAge, Stale(p, Elements(actives[..i])), m);
          overAge := overAge + [m];
        } else {
          ListMore(candidates, Open(p, Elements(actives[..i])) - Stale(p, Elements(actives[..i])), m);
          candidates := candidates + [m];
        }
      }
      i := i + 1;
    }
    assert actives[..i] == actives;
  }

  method Unprotected(p: Policy, actives: seq<Id>) returns (candidates: seq<Id>)
    requires NoDup(actives)
    ensures IsListing(candidates, Open(p, Elements(actives)))
  {
    candidates := [];
    var i := 0;
    while i < |actives|
      invariant 0 <= i <= |actives| && IsListing(candidates, Open(p, Elements(actives[..i])))
    {
      var m := actives[i];
      assert actives[..i + 1] == actives[..i] + [m] && m !in actives[..i];
      Grows(p, Elements(actives[..i]), m);
      if !p.guarded(m) {
        ListMore(candidates, Open(p, Elements(actives[..i])), m);
        candidates := candidates + [m];
      }
      i := i + 1;
    }
    assert actives[..i] == actives;
  }

  function Here(p: Policy, items: seq<Id>, scope: string): set<Id> { set x | x in items && p.scope(x) == scope }

  predicate IsGrouped(p: Policy, items: seq<Id>, groups: map<string, seq<Id>>) {
    && (forall x :: x in items && IsWorkspace(p.scope(x)) ==> p.scope(x) in groups)
    && (forall s :: s in groups ==> IsWorkspace(s) && IsListing(groups[s], Here(p, items, s)))
  }

  method GroupByScope(p: Policy, candidates: seq<Id>) returns (byScope: map<string, seq<Id>>)
    requires NoDup(candidates)
    ensures IsGrouped(p, candidates, byScope)
  {
    byScope := map[];
    var i := 0;
    while i < |candidates|
      invariant 0 <= i <= |candidates| && IsGrouped(p, candidates[..i], byScope)
    {
      var m := candidates[i];
      assert candidates[..i + 1] == candidates[..i] + [m] && m !in candidates[..i];
      ghost var prior := byScope;
      if IsWorkspace(p.scope(m)) {
        byScope := byScope[p.scope(m) := (if p.scope(m) in byScope then byScope[p.scope(m)] else []) + [m]];
      }
      GroupStep(p, candidates[..i], m, prior, byScope);
      i := i + 1;
    }
    assert candidates[..i] == candidates;
  }

  lemma ListMore(s: seq<Id>, all: set<Id>, x: Id)
    requires IsListing(s, all) && x !in all
    ensures IsListing(s + [x], all + {x})
  {
    assert x in s ==> x in Elements(s);
  }

  lemma Grows(p: Policy, s: set<Id>, m: Id)
    ensures Open(p, s + {m}) == Open(p, s) + if p.guarded(m) then {} else {m}
    ensures Stale(p, s + {m}) == Stale(p, s) + if p.guarded(m) || !p.overAge(m) then {} else {m}
  {
  }

  lemma HereGrows(p: Policy, items: seq<Id>, m: Id, s: string)
    ensures Here(p, items + [m], s) == Here(p, items, s) + if p.scope(m) == s then {m} else {}
  {
  }

  lemma GroupStep(p: Policy, items: seq<Id>, m: Id, groups: map<string, seq<Id>>, groups': map<string, seq<Id>>)
    requires IsGrouped(p, items, groups) && m !in items
    requires groups' == if !IsWorkspace(p.scope(m)) then groups
                        else groups[p.scope(m) := (if p.scope(m) in groups then groups[p.scope(m)] else []) + [m]]
    ensures IsGrouped(p, items + [m], groups')
  {
    forall s | s in groups' ensures IsWorkspace(s) && IsListing(groups'[s], Here(p, items + [m], s)) {
      HereGrows(p, items, m, s);
      if s == p.scope(m) {
        var was := if s in groups then groups[s] else [];
        assert s !in groups ==> Here(p, items, s) == {};
        ListMore(was, Here(p, items, s), m);
      }
    }
  }

  // ----- the workspace loop -----

  lemma HereIsScope(p: Policy, items: seq<Id>, active: set<Id>, s: string)
    requires IsListing(items, Open(p, active))
    ensures Here(p, items, s) == InScope(p, active, s)
  {
    assert forall x :: x in items <==> x in Elements(items);
  }

  /** The workspaces outside todo are cut, everything else is untouched. */
  ghost predicate Trimming(p: Policy, before: set<Id>, now: set<Id>, scopes: set<string>, todo: set<string>) {
    && now <= before
    && (forall x :: x in before - now ==> !p.guarded(x) && IsWorkspace(p.scope(x)) && p.scope(x) in scopes - todo)
    && (forall s :: s in scopes - todo ==> ScopeCut(p, before, now, s))
  }

  lemma StillThere(p: Policy, before: set<Id>, now: set<Id>, scopes: set<string>, todo: set<string>, s: string)
    requires Trimming(p, before, now, scopes, todo) && s in todo
    ensures InScope(p, before, s) <= now
  {
    forall x | x in InScope(p, before, s) ensures x in now {
      assert x !in before - now;
    }
  }

  lemma OtherScope(p: Policy, before: set<Id>, now: set<Id>, now': set<Id>, s: string, s': string)
    requires now' <= now && now - now' <= InScope(p, before, s) && s != s'
    ensures InScope(p, before, s') - now' == InScope(p, before, s') - now
  {
    forall x | x in InScope(p, before, s') ensures x in now' <==> x in now {
      assert x !in InScope(p, before, s);
      assert x !in now - now';
    }
  }

  lemma TrimStep(p: Policy, before: set<Id>, now: set<Id>, now': set<Id>, scopes: set<string>, todo: set<string>, s: string)
    requires Trimming(p, before, now, scopes, todo) && s in todo && IsWorkspace(s) && todo <= scopes && now' <= now
    requires WeakestCut(p.strength, InScope(p, before, s), |InScope(p, before, s)| - p.cap, now - now')
    ensures Trimming(p, before, now', scopes, todo - {s})
  {
    StillThere(p, before, now, scopes, todo, s);
    forall x | x in before - now'
      ensures !p.guarded(x) && IsWorkspace(p.scope(x)) && p.scope(x) in scopes - (todo - {s})
    {
      assert x in before - now || x in now - now';
    }
    TrimStepCuts(p, before, now, now', scopes, todo, s);
  }

  lemma TrimStepCuts(p: Policy, before: set<Id>, now: set<Id>, now': set<Id>, scopes: set<string>, todo: set<string>, s: string)
    requires Trimming(p, before, now, scopes, todo) && s in todo && now' <= now && InScope(p, before, s) <= now
    requires WeakestCut(p.strength, InScope(p, before, s), |InScope(p, before, s)| - p.cap, now - now')
    ensures forall s' :: s' in scopes - (todo - {s}) ==> ScopeCut(p, before, now', s')
  {
    forall s' | s' in scopes - (todo - {s}) ensures ScopeCut(p, before, now', s') {
      if s' == s {
        assert InScope(p, before, s) - now' == now - now';
      } else {
        assert s' in scopes - todo;
        OtherScope(p, before, now, now', s, s');
      }
    }
  }

  lemma TrimDone(p: Policy, before: set<Id>, now: set<Id>, scopes: set<string>)
    requires Trimming(p, before, now, scopes, {}) && p.cap > 0
    requires forall x :: x in Open(p, before) && IsWorkspace(p.scope(x)) ==> p.scope(x) in scopes
    ensures WorkspaceStage(p, before, now)
  {
    forall s | IsWorkspace(s) ensures ScopeCut(p, before, now, s) {
      assert forall x :: x in InScope(p, before, s) ==> x in Open(p, before) && p.scope(x) == s;
      if s !in scopes {
        assert InScope(p, before, s) == {};
      } else {
        assert s in scopes - {};
      }
    }
  }

  lemma StaleGone(p: Policy, before: set<Id>, after: set<Id>, overAge: seq<Id>)
    requires after <= before && Elements(overAge) == Stale(p, before)
    requires forall x :: x in before - after ==> x in overAge
    requires forall x :: x in overAge && x in after ==> p.guarded(x)
    ensures after == before - Stale(p, before) && (overAge == [] ==> after == before)
  {
    forall x ensures x in after <==> x in before && x !in Stale(p, before) {
      assert x in overAge <==> x in Elements(overAge);
    }
  }

  predicate IsListing(s: seq<Id>, active: set<Id>) { NoDup(s) && Elements(s) == active }

  // ----- the store and the enforcer -----

  /** The canonical store, where any call may fail; archiving may fail half way. */
  class CanonicalStore {
    const info: Id -> Row
    var active: set<Id>

    constructor (info: Id -> Row, active: set<Id>)
      ensures this.info == info && this.active == active
    {
      this.info, this.active := info, active;
    }

    method ListActive() returns (r: Option<seq<Id>>)
      ensures r.Some? ==> IsListing(r.value, active)
    {
      var fails: bool := *;
      if fails {
        return None;
      }
      var todo, s := active, [];
      while todo != {}
        invariant todo <= active && NoDup(s) && Elements(s) == active - todo
        decreases todo
      {
        var x :| x in todo;
        assert Elements(s + [x]) == Elements(s) + {x} && x !in s;
        s, todo := s + [x], todo - {x};
      }
      r := Some(s);
    }

    method ArchiveCanonicals(ids: seq<Id>) returns (ok: bool)
      modifies this
      ensures active <= old(active)
      ensures forall x :: x in old(active) - active ==> x in ids && !Guarded(info(x))
      ensures ok ==> forall x :: x in ids && x in active ==> Guarded(info(x))
    {
      var i := 0;
      while i < |ids|
        invariant 0 <= i <= |ids| && active <= old(active)
        invariant forall x :: x in old(active) - active ==> x in ids && !Guarded(info(x))
        invariant forall x :: x in ids[..i] && x in active ==> Guarded(info(x))
      {
        var fails: bool := *;
        if fails {
          return false;
        }
        if ids[i] in active && !Guarded(info(ids[i])) {
          active := active - {ids[i]};
        }
        i := i + 1;
      }
      ok := true;
    }

    /** Archives the overflow weakest of the listed rows. */
    method ArchiveWeakest(p: Policy, items: seq<Id>, ghost all: set<Id>, overflow: int) returns (archived: bool, ok: bool)
      requires IsListing(items, all) && all <= active && forall x :: x in all ==> !Guarded(info(x))
      modifies this
      ensures active <= old(active) && old(active) - active <= all
      ensures ok ==> WeakestCut(p.strength, all, overflow, old(active) - active)
      ensures ok ==> (archived <==> active != old(active))
    {
      archived, ok := false, true;
      SizeOfNoDup(items);
      if overflow <= 0 || items == [] {
        assert old(active) - active == {};
        return;
      }
      var sorted := Sorted(p.strength, items);
      SortedSorts(p.strength, items);
      SamePermutation(items, sorted);
      var k := if overflow < |sorted| then overflow else |sorted|;
      PrefixIsWeakest(p.strength, sorted, k);
      var ids := sorted[..k];
      assert Elements(ids) <= all && forall x :: x in ids ==> x in Elements(ids);
      ok := ArchiveCanonicals(ids);
      archived := ok;
      if ok {
        GoneExactly(old(active), active, ids);
        assert ids[0] in Elements(ids);
      }
    }

    method ListOpen(p: Policy) returns (r: Option<seq<Id>>, candidates: seq<Id>)
      ensures r.Some? ==> IsListing(r.value, active) && IsListing(candidates, Open(p, active))
    {
      candidates := [];
      r := ListActive();
      if r.Some? {
        candidates := Unprotected(p, r.value);
      }
    }

    /** Cuts every workspace down to its cap, in any order of the workspaces. */
    method TrimWorkspaces(p: Policy, candidates: seq<Id>) returns (trimmed: bool, ok: bool)
      requires IsListing(candidates, Open(p, active)) && p.cap > 0
      requires forall x :: p.guarded(x) <==> Guarded(info(x))
      modifies this
      ensures active <= old(active) && forall x :: x in old(active) - active ==> !Guarded(info(x))
      ensures ok ==> WorkspaceStage(p, old(active), active) && (trimmed <==> active != old(active))
    {
      var byScope := GroupByScope(p, candidates);
      trimmed, ok := false, false;
      var todo := byScope.Keys;
      while todo != {}
        invariant todo <= byScope.Keys && Trimming(p, old(active), active, byScope.Keys, todo)
        invariant trimmed <==> active != old(active)
        decreases todo
      {
        var s :| s in todo;
        var items := byScope[s];
        ghost var prior := active;
        HereIsScope(p, candidates, old(active), s);
        StillThere(p, old(active), active, byScope.Keys, todo, s);
        var archived, fine := ArchiveWeakest(p, items, InScope(p, old(active), s), |items| - p.cap);
        SizeOfNoDup(items);
        if !fine {
          return;
        }
        TrimStep(p, old(active), prior, active, byScope.Keys, todo, s);
        trimmed, todo := trimmed || archived, todo - {s};
      }
      TrimDone(p, old(active), active, byScope.Keys);
      ok := true;
    }

    /** Archives what is over age and lists what is left. */
    method ArchiveStale(p: Policy) returns (changed: bool, ok: bool, actives: seq<Id>, candidates: seq<Id>)
      requires forall x :: p.guarded(x) <==> Guarded(info(x))
      modifies this
      ensures active <= old(active) && forall x :: x in old(active) - active ==> !Guarded(info(x))
      ensures ok ==> active == old(active) - Stale(p, old(active)) && (changed <==> active != old(active))
      ensures ok ==> IsListing(actives, active) && IsListing(candidates, Open(p, active))
    {
      changed, ok, actives, candidates := false, false, [], [];
      var listed := ListActive();
      if listed.None? {
        return;
      }
      actives := listed.value;
      var overAge, rest := SplitByAge(p, actives);
      candidates := rest;
      if |overAge| > 0 {
        assert overAge[0] in overAge && overAge[0] in Elements(overAge);
        var done := ArchiveCanonicals(overAge);
        if !done {
          return;
        }
        var again, open := ListOpen(p);
        if again.None? {
          return;
        }
        changed, actives, candidates := true, again.value, open;
      }
      StaleGone(p, old(active), active, overAge);
      ok := true;
    }

    /** The workspace stage and the listing after it. */
    method CapWorkspaces(p: Policy, listed: seq<Id>, open: seq<Id>) returns (changed: bool, ok: bool, actives: seq<Id>, candidates: seq<Id>)
      requires IsListing(listed, active) && IsListing(open, Open(p, active))
      requires forall x :: p.guarded(x) <==> Guarded(info(x))
      modifies this
      ensures active <= old(active) && forall x :: x in old(active) - active ==> !Guarded(info(x))
      ensures ok ==> WorkspaceStage(p, old(active), active) && (changed <==> active != old(active))
      ensures ok ==> IsListing(actives, active) && IsListing(candidates, Open(p, active))
    {
      changed, ok, actives, candidates := false, true, listed, open;
      if p.cap > 0 {
        changed, ok := TrimWorkspaces(p, open);
        if !ok {
          return;
        }
        var again, rest := ListOpen(p);
        if again.None? {
          ok := false;
          return;
        }
        actives, candidates := again.value, rest;
      }
    }

    /** The global stage on a fresh listing. */
    method CapGlobally(p: Policy, actives: seq<Id>, candidates: seq<Id>) returns (archived: bool, ok: bool)
      requires IsListing(actives, active) && IsListing(candidates, Open(p, active))
      requires forall x :: p.guarded(x) <==> Guarded(info(x))
      modifies this
      ensures active <= old(active) && forall x :: x in old(active) - active ==> !Guarded(info(x))
      ensures ok ==> GlobalStage(p, old(active), active) && (archived <==> active != old(active))
    {
      SizeOfNoDup(actives);
      archived, ok := ArchiveWeakest(p, candidates, Open(p, active), |actives| - p.maxActive);
    }

    /** One pass; a store error ends it with the rows archived so far gone. */
    method EnforceCaps(cfg: Config, halving: int -> real, now: int) returns (changed: bool, ok: bool)
      modifies this
      ensures active <= old(active) && forall x :: x in old(active) - active ==> !Guarded(info(x))
      ensures ok ==> exists middle :: Capped(PolicyOf(cfg, info, halving, now), old(active), middle, active)
      ensures ok ==> PassDid(cfg, info, halving, now, old(active), active)
      ensures ok ==> (changed <==> active != old(active))
    {
      changed, ok := EnforcePolicy(PolicyOf(cfg, info, halving, now));
      if ok {
        ghost var middle :| Capped(PolicyOf(cfg, info, halving, now), old(active), middle, active);
        PassInRows(cfg, info, halving, now, old(active), middle, active);
      }
    }

    method EnforcePolicy(p: Policy) returns (changed: bool, ok: bool)
      requires forall x :: p.guarded(x) <==> Guarded(info(x))
      modifies this
      ensures active <= old(active) && forall x :: x in old(active) - active ==> !Guarded(info(x))
      ensures ok ==> exists middle :: Capped(p, old(active), middle, active)
      ensures ok ==> (changed <==> active != old(active))
    {
      var aged, fine, actives, candidates := ArchiveStale(p);
      if !fine {
        return false, false;
      }
      var trimmed;
      trimmed, fine, actives, candidates := CapWorkspaces(p, actives, candidates);
      if !fine {
        return false, false;
      }
      ghost var middle := active;
      var archived;
      archived, fine := CapGlobally(p, actives, candidates);
      if !fine {
        return false, false;
      }
      assert Capped(p, old(active), middle, active);
      changed, ok := aged || trimmed || archived, true;
    }

    lemma GoneExactly(before: set<Id>, after: set<Id>, ids: seq<Id>)
      requires after <= before && forall x :: x in ids ==> x in before && !Guarded(info(x))
      requires forall x :: x in before - after ==> x in ids
      requires forall x :: x in ids && x in after ==> Guarded(info(x))
      ensures before - after == Elements(ids)
    {
    }
  }
}
