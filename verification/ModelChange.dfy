/**
 Model-change validation: equal probe requests are grouped into one target, and
 passing probes are remembered for a while.
 */
module ModelChange {
  import opened Basics

  datatype Result = Result(route: string, ok: bool, detail: string, reused: bool)

  // ----- the evidence cache -----

  datatype Remembered = Remembered(result: Result, at: int)

  /** A finished probe: its evidence key, its result and when it was reported. */
  datatype Event = Event(key: string, result: Result, at: int)

  /** The latest passing event for a key. */
  function LatestPass(events: seq<Event>, key: string): Option<Remembered> {
    if events == [] then None
    else
      var e := events[|events| - 1];
      if e.key == key && e.result.ok then Some(Remembered(e.result, e.at)) else LatestPass(events[..|events| - 1], key)
  }

  /** The latest pass is missing or too old to count. */
  predicate Gone(ttl: int, latest: Option<Remembered>, now: int) { latest.Some? ==> now - latest.value.at > ttl }

  /** What is remembered is the latest passing result; what is not has none young enough to count. */
  ghost predicate CacheSound(ttl: int, passed: map<string, Remembered>, events: seq<Event>, seen: int) {
    && (forall key :: key in passed ==> LatestPass(events, key) == Some(passed[key]))
    && (forall key :: key !in passed ==> Gone(ttl, LatestPass(events, key), seen))
  }

  /** The cache after a probe reports: failures are never stored. */
  function Noting(passed: map<string, Remembered>, key: string, result: Result, now: int): map<string, Remembered> {
    if result.ok then passed[key := Remembered(result, now)] else passed
  }

  /** Every report, passing or not, leaves the cache sound. */
  lemma NotingIsSound(ttl: int, passed: map<string, Remembered>, events: seq<Event>, seen: int, key: string, result: Result, now: int)
    requires CacheSound(ttl, passed, events, seen) && seen <= now
    ensures CacheSound(ttl, Noting(passed, key, result, now), events + [Event(key, result, now)], now)
  {
    LatestAfter(events, Event(key, result, now));
  }

  /** The daemon's validator; its clock never runs backwards. */
  class ModelChangeValidator {
    const ttl: int
    var passed: map<string, Remembered>
    ghost var events: seq<Event>
    ghost var seen: int

    constructor (ttl: int, start: int)
      ensures Valid() && this.ttl == ttl && events == [] && seen == start
    {
      this.ttl, passed, events, seen := ttl, map[], [], start;
    }

    ghost predicate Valid()
      reads this
    {
      CacheSound(ttl, passed, events, seen)
    }

    /** A hit is exactly a latest passing result at most ttl old. */
    method Recall(key: string, now: int) returns (r: Option<Result>)
      requires Valid() && seen <= now
      modifies this
      ensures Valid() && events == old(events) && seen == now
      ensures var latest := LatestPass(events, key);
              r == if latest.Some? && now - latest.value.at <= ttl then Some(latest.value.result.(reused := true)) else None
    {
      seen := now;
      if key !in passed || now - passed[key].at > ttl {
        passed := passed - {key};
        return None;
      }
      r := Some(passed[key].result.(reused := true));
    }

    /** Failures are never stored. */
    method Remember(key: string, result: Result, now: int)
      requires Valid() && seen <= now
      modifies this
      ensures Valid() && events == old(events) + [Event(key, result, now)] && seen == now
      ensures passed == Noting(old(passed), key, result, now)
      ensures forall k :: k in passed && k !in old(passed) ==> k == key && result.ok
      ensures !result.ok ==> passed == old(passed)
    {
      NotingIsSound(ttl, passed, events, seen, key, result, now);
      seen := now;
      events := events + [Event(key, result, now)];
      if !result.ok {
        return;
      }
      passed := passed[key := Remembered(result, now)];
    }
  }

  lemma LatestAfter(events: seq<Event>, e: Event)
    ensures forall key :: LatestPass(events + [e], key) ==
              if e.key == key && e.result.ok then Some(Remembered(e.result, e.at)) else LatestPass(events, key)
  {
    assert (events + [e])[..|events|] == events;
  }

  predicate IsLast(events: seq<Event>, i: nat, e: Event)
    requires i < |events|
  {
    events[i] == e && forall j :: i < j < |events| && events[j].key == e.key ==> !events[j].result.ok
  }

  /** What a hit stands for: a passing probe of that very key, with no later passing one. */
  lemma {:induction false} LatestIsAPass(events: seq<Event>, key: string)
    ensures var latest := LatestPass(events, key);
            if latest.None? then forall i :: 0 <= i < |events| && events[i].key == key ==> !events[i].result.ok
            else latest.value.result.ok && exists i :: 0 <= i < |events| && IsLast(events, i, Event(key, latest.value.result, latest.value.at))
  {
    if events != [] {
      var front, e := events[..|events| - 1], events[|events| - 1];
      LatestIsAPass(front, key);
      if e.key == key && e.result.ok {
        assert IsLast(events, |events| - 1, Event(key, e.result, e.at));
      } else if LatestPass(front, key).Some? {
        var latest := LatestPass(front, key).value;
        var i :| 0 <= i < |front| && IsLast(front, i, Event(key, latest.result, latest.at));
        forall j | i < j < |events| && events[j].key == key ensures !events[j].result.ok {
          assert j < |front| ==> front[j] == events[j];
        }
        assert IsLast(events, i, Event(key, latest.result, latest.at));
      } else {
        forall i | 0 <= i < |events| && events[i].key == key ensures !events[i].result.ok {
          assert i < |front| ==> front[i] == events[i];
        }
      }
    }
  }

  // ----- grouping routes into targets -----

  /** What resolving a route gives: a result at once, or a probe request with its lane and evidence key. */
  datatype Resolved = Settled(result: Result) | Probe(key: string, lane: string, evidence: string)

  datatype Target = Target(key: string, lane: string, evidence: string, role: string, indices: seq<nat>)

  /** The routes waiting for a key's probe are exactly its target's indices. */
  ghost predicate IsTarget(routes: seq<string>, resolve: string -> Resolved, upTo: nat, t: Target)
    requires upTo <= |routes|
  {
    && Elements(t.indices) == Waiting(routes, resolve, upTo, t.key) && Rising(t.indices)
    && t.indices != [] && t.indices[0] < upTo && t.role == routes[t.indices[0]]
    && resolve(t.role) == Probe(t.key, t.lane, t.evidence)
  }

  predicate Rising(s: seq<nat>) { forall j, k :: 0 <= j < k < |s| ==> s[j] < s[k] }

  function Waiting(routes: seq<string>, resolve: string -> Resolved, upTo: nat, key: string): set<nat>
    requires upTo <= |routes|
  {
    set i: nat | i < upTo && HasKey(resolve, routes[i], key)
  }

  lemma WaitingGrows(routes: seq<string>, resolve: string -> Resolved, index: nat, key: string)
    requires index < |routes|
    ensures Waiting(routes, resolve, index + 1, key)
         == Waiting(routes, resolve, index, key) + if HasKey(resolve, routes[index], key) then {index} else {}
  {
  }

  lemma ElementsGrow(s: seq<nat>, index: nat)
    requires Rising(s) && forall i: nat :: i in Elements(s) ==> i < index
    ensures Elements(s + [index]) == Elements(s) + {index} && Rising(s + [index])
  {
    forall j | 0 <= j < |s| ensures s[j] < index {
      assert s[j] in Elements(s);
    }
  }

  predicate HasKey(resolve: string -> Resolved, route: string, key: string) {
    resolve(route).Probe? && resolve(route).key == key
  }

  /** One target per probe key among the first routes; other routes are settled already. */
  ghost predicate IsGrouped(routes: seq<string>, resolve: string -> Resolved, upTo: nat, targets: seq<Target>, results: map<nat, Result>)
    requires upTo <= |routes|
  {
    && (forall k :: 0 <= k < |targets| ==> IsTarget(routes, resolve, upTo, targets[k]))
    && (forall j, k :: 0 <= j < k < |targets| ==> targets[j].key != targets[k].key)
    && (forall i :: 0 <= i < upTo && resolve(routes[i]).Probe? ==> HasTarget(targets, resolve(routes[i]).key))
    && (forall i :: i in results <==> 0 <= i < upTo && resolve(routes[i]).Settled?)
    && (forall i :: i in results ==> results[i] == resolve(routes[i]).result)
  }

  predicate HasTarget(targets: seq<Target>, key: string) { exists k :: 0 <= k < |targets| && targets[k].key == key }

  /** seen finds each key's target. */
  ghost predicate Indexes(seen: map<string, nat>, targets: seq<Target>) {
    && (forall key :: key in seen <==> HasTarget(targets, key))
    && (forall key :: key in seen ==> seen[key] < |targets| && targets[seen[key]].key == key)
  }

  method GroupRoutes(routes: seq<string>, resolve: string -> Resolved) returns (targets: seq<Target>, results: map<nat, Result>)
    ensures IsGrouped(routes, resolve, |routes|, targets, results)
  {
    targets, results := [], map[];
    var seen: map<string, nat> := map[];
    var index := 0;
    while index < |routes|
      invariant 0 <= index <= |routes| && IsGrouped(routes, resolve, index, targets, results) && Indexes(seen, targets)
    {
      if resolve(routes[index]).Settled? {
        SettledStep(routes, resolve, index, targets, results);
        results := results[index := resolve(routes[index]).result];
      } else {
        seen, targets := Place(routes, resolve, index, seen, targets, results);
      }
      index := index + 1;
    }
  }

  /** Adds a probe route to its key's target, or opens a new one. */
  method Place(routes: seq<string>, resolve: string -> Resolved, index: nat, seen: map<string, nat>, targets: seq<Target>, ghost results: map<nat, Result>)
    returns (seen': map<string, nat>, targets': seq<Target>)
    requires index < |routes| && resolve(routes[index]).Probe?
    requires IsGrouped(routes, resolve, index, targets, results) && Indexes(seen, targets)
    ensures IsGrouped(routes, resolve, index + 1, targets', results) && Indexes(seen', targets')
  {
    var probe := resolve(routes[index]);
    if probe.key in seen {
      var k := seen[probe.key];
      GrowTarget(routes, resolve, index, targets, results, k);
      seen', targets' := seen, targets[k := targets[k].(indices := targets[k].indices + [index])];
    } else {
      var t := Target(probe.key, probe.lane, probe.evidence, routes[index], [index]);
      NewTarget(routes, resolve, index, targets, results, t);
      seen', targets' := seen[probe.key := |targets|], targets + [t];
    }
  }

  /** A route with another key leaves a target as it is. */
  lemma SameTarget(routes: seq<string>, resolve: string -> Resolved, index: nat, t: Target)
    requires index < |routes| && IsTarget(routes, resolve, index, t) && !HasKey(resolve, routes[index], t.key)
    ensures IsTarget(routes, resolve, index + 1, t)
  {
    WaitingGrows(routes, resolve, index, t.key);
  }

  lemma SettledStep(routes: seq<string>, resolve: string -> Resolved, index: nat, targets: seq<Target>, results: map<nat, Result>)
    requires index < |routes| && resolve(routes[index]).Settled? && IsGrouped(routes, resolve, index, targets, results)
    ensures IsGrouped(routes, resolve, index + 1, targets, results[index := resolve(routes[index]).result])
  {
    forall k | 0 <= k < |targets| ensures IsTarget(routes, resolve, index + 1, targets[k]) {
      SameTarget(routes, resolve, index, targets[k]);
    }
  }

  lemma GrownTarget(routes: seq<string>, resolve: string -> Resolved, index: nat, t: Target)
    requires index < |routes| && IsTarget(routes, resolve, index, t) && HasKey(resolve, routes[index], t.key)
    ensures IsTarget(routes, resolve, index + 1, t.(indices := t.indices + [index]))
  {
    WaitingGrows(routes, resolve, index, t.key);
    ElementsGrow(t.indices, index);
  }

  lemma GrowTarget(routes: seq<string>, resolve: string -> Resolved, index: nat, targets: seq<Target>, results: map<nat, Result>, k: nat)
    requires index < |routes| && k < |targets| && HasKey(resolve, routes[index], targets[k].key)
    requires IsGrouped(routes, resolve, index, targets, results)
    ensures var targets' := targets[k := targets[k].(indices := targets[k].indices + [index])];
            IsGrouped(routes, resolve, index + 1, targets', results) && forall key :: HasTarget(targets', key) <==> HasTarget(targets, key)
  {
    var targets' := targets[k := targets[k].(indices := targets[k].indices + [index])];
    forall j | 0 <= j < |targets'| ensures IsTarget(routes, resolve, index + 1, targets'[j]) {
      if j == k {
        GrownTarget(routes, resolve, index, targets[k]);
      } else {
        SameTarget(routes, resolve, index, targets[j]);
      }
    }
    SameKeys(targets, targets');
  }

  lemma SameKeys(targets: seq<Target>, targets': seq<Target>)
    requires |targets| == |targets'| && forall j :: 0 <= j < |targets| ==> targets'[j].key == targets[j].key
    ensures forall key :: HasTarget(targets', key) <==> HasTarget(targets, key)
  {
    forall key ensures HasTarget(targets', key) <==> HasTarget(targets, key) {
      if HasTarget(targets, key) {
        var k :| 0 <= k < |targets| && targets[k].key == key;
        assert targets'[k].key == key;
      }
    }
  }

  lemma OneMoreKey(targets: seq<Target>, t: Target)
    ensures forall key :: HasTarget(targets + [t], key) <==> HasTarget(targets, key) || key == t.key
  {
    forall key ensures HasTarget(targets + [t], key) <==> HasTarget(targets, key) || key == t.key {
      if HasTarget(targets, key) {
        var k :| 0 <= k < |targets| && targets[k].key == key;
        assert (targets + [t])[k].key == key;
      }
      assert (targets + [t])[|targets|].key == t.key;
    }
  }

  lemma FreshTarget(routes: seq<string>, resolve: string -> Resolved, index: nat, t: Target)
    requires index < |routes| && t.indices == [index] && t.role == routes[index]
    requires resolve(routes[index]) == Probe(t.key, t.lane, t.evidence)
    requires forall i :: 0 <= i < index ==> !HasKey(resolve, routes[i], t.key)
    ensures IsTarget(routes, resolve, index + 1, t)
  {
    WaitingGrows(routes, resolve, index, t.key);
    assert Waiting(routes, resolve, index, t.key) == {};
  }

  lemma NewTarget(routes: seq<string>, resolve: string -> Resolved, index: nat, targets: seq<Target>, results: map<nat, Result>, t: Target)
    requires index < |routes| && t.indices == [index] && t.role == routes[index]
    requires resolve(routes[index]) == Probe(t.key, t.lane, t.evidence) && !HasTarget(targets, t.key)
    requires IsGrouped(routes, resolve, index, targets, results)
    ensures IsGrouped(routes, resolve, index + 1, targets + [t], results)
    ensures forall key :: HasTarget(targets + [t], key) <==> HasTarget(targets, key) || key == t.key
  {
    OneMoreKey(targets, t);
    forall j | 0 <= j < |targets| ensures IsTarget(routes, resolve, index + 1, targets[j]) && targets[j].key != t.key {
      SameTarget(routes, resolve, index, targets[j]);
    }
    FreshTarget(routes, resolve, index, t);
  }
}
