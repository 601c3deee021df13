/** The shape check, the narrow-repair check and the incident coverage check, and what accepting all three proves. */
module SkillRepairCheck {
  import opened Basics
  import opened SkillText
  import opened SkillRepair

  const NUL := '\U{0000}'

  predicate Contains(s: string, t: string) { exists i :: 0 <= i <= |s| && t <= s[i..] }

  /** The outside world of the checks: case folding, the description check and byte length. */
  datatype Env = Env(fold: char -> char, describes: string -> bool, bytes: string -> nat)

  function View(env: Env, content: string): Sections { SectionsOf(ScanOf(env.fold, content)) }

  /** The checks of a Skill main file without resources. */
  predicate Shape(env: Env, content: string, name: string) {
    var c := Trim(content);
    var lower, v := Lower(env.fold, c), View(env, c);
    && c != "" && env.describes(c)
    && "---\n" <= c && Contains(lower, "name: " + Lower(env.fold, name))
    && (forall h :: h in CANONICAL_ORDER ==> Contains(lower, "# " + h) || Contains(lower, "## " + h))
    && !v.duplicate && Join(NUL, v.order) == Join(NUL, CANONICAL_ORDER)
    && env.bytes(c) <= 32 * 1024
  }

  function Lookup(m: map<string, string>, h: string): string { if h in m then m[h] else "" }

  function Normal(env: Env, h: string): string { Lower(env.fold, Trim(h)) }

  function Names(env: Env, changed: seq<string>): seq<string> { seq(|changed|, i requires 0 <= i < |changed| => Normal(env, changed[i])) }

  function Declared(env: Env, changed: seq<string>): set<string> { Elements(Names(env, changed)) }

  /** One to three allowed sections, no two the same. */
  predicate Declarable(names: seq<string>, allowed: seq<string>) {
    1 <= |names| <= 3 && (forall n :: n in names ==> n in allowed) && NoDup(names)
  }

  predicate Differs(a: Sections, c: Sections, h: string) { Lookup(a.bodies, h) != Lookup(c.bodies, h) }

  function CountDiffering(a: Sections, c: Sections, order: seq<string>): nat {
    if order == [] then 0
    else CountDiffering(a, c, order[..|order| - 1]) + if Differs(a, c, order[|order| - 1]) then 1 else 0
  }

  /** Same heading lines, and no body differs outside the declared sections. */
  predicate OnlyDeclaredDiffer(a: Sections, c: Sections, order: seq<string>, declared: set<string>) {
    forall h :: h in order ==> Lookup(a.headings, h) == Lookup(c.headings, h) && (Differs(a, c, h) ==> h in declared)
  }

  /** What the comparison of two split documents accepts. */
  predicate NarrowSections(a: Sections, c: Sections, declared: set<string>) {
    && a.prefix == c.prefix && Join(NUL, a.order) == Join(NUL, c.order)
    && OnlyDeclaredDiffer(a, c, a.order, declared)
    && CountDiffering(a, c, a.order) == |declared|
  }

  /** Exactly when the narrow-repair check accepts. */
  predicate Narrow(env: Env, active: string, candidate: string, changed: seq<string>) {
    && Trim(active) != "" && Declarable(Names(env, changed), CANONICAL_ORDER)
    && NarrowSections(View(env, active), View(env, candidate), Declared(env, changed))
  }

  datatype Verdict = Accepted | Rejected

  method CheckDeclared(names: seq<string>, allowed: seq<string>) returns (declared: set<string>, ok: bool)
    ensures ok <==> Declarable(names, allowed)
    ensures ok ==> declared == Elements(names) && |declared| > 0
  {
    declared := {};
    if |names| == 0 || |names| > 3 {
      return declared, false;
    }
    var i := 0;
    while i < |names|
      invariant 0 <= i <= |names| && declared == Elements(names[..i])
      invariant (forall n :: n in names[..i] ==> n in allowed) && NoDup(names[..i])
    {
      assert names[i] in names && names[..i + 1] == names[..i] + [names[i]];
      if names[i] !in allowed || names[i] in declared {
        return declared, false;
      }
      declared := declared + {names[i]};
      i := i + 1;
    }
    assert names[..i] == names && names[0] in declared;
    ok := true;
  }

  method CompareSections(a: Sections, c: Sections, declared: set<string>) returns (count: nat, ok: bool)
    ensures ok <==> OnlyDeclaredDiffer(a, c, a.order, declared)
    ensures ok ==> count == CountDiffering(a, c, a.order)
  {
    count, ok := 0, true;
    var i := 0;
    while i < |a.order|
      invariant 0 <= i <= |a.order| && count == CountDiffering(a, c, a.order[..i])
      invariant OnlyDeclaredDiffer(a, c, a.order[..i], declared)
    {
      var h := a.order[i];
      assert h in a.order && a.order[..i + 1] == a.order[..i] + [h] && a.order[..i + 1][..i] == a.order[..i];
      if Lookup(a.headings, h) != Lookup(c.headings, h) || (Differs(a, c, h) && h !in declared) {
        ok := false;
        return;
      }
      count := count + if Differs(a, c, h) then 1 else 0;
      i := i + 1;
    }
    assert a.order[..i] == a.order;
  }

  method ValidateNarrowSkillRepair(env: Env, active: string, candidate: string, changed: seq<string>) returns (r: Verdict)
    ensures r.Accepted? <==> Narrow(env, active, candidate, changed)
  {
    if Trim(active) == "" {
      return Rejected;
    }
    var declared, ok := CheckDeclared(Names(env, changed), CANONICAL_ORDER);
    if !ok {
      return Rejected;
    }
    var a := SplitCuratedSkillSections(env.fold, active);
    var c := SplitCuratedSkillSections(env.fold, candidate);
    if a.prefix != c.prefix || Join(NUL, a.order) != Join(NUL, c.order) {
      return Rejected;
    }
    var count, same := CompareSections(a, c, declared);
    r := if same && count != 0 && count == |declared| then Accepted else Rejected;
  }

  // ----- incident coverage -----

  datatype Incident = Incident(verified: bool, failedStep: string)

  function RepairSection(env: Env, failedStep: string): string {
    var step := Normal(env, failedStep);
    if step == "applicability" then "applicability"
    else if step == "input" || step == "inputs" then "inputs"
    else if step == "precondition" || step == "preconditions" then "preconditions"
    else if step == "failure guard" || step == "failure guards" then "failure guards"
    else if step == "recovery" then "recovery"
    else if step == "verification" then "verification"
    else "procedure"
  }

  /** A failed step that names a section maps to it. */
  lemma RepairSectionNamed(env: Env, failedStep: string, k: nat)
    requires k < 7 && Normal(env, failedStep) == CANONICAL_ORDER[k]
    ensures RepairSection(env, failedStep) == CANONICAL_ORDER[k]
  {
  }

  /** Every failed step maps to some section. */
  lemma RepairSectionIsOne(env: Env, failedStep: string)
    ensures RepairSection(env, failedStep) in CANONICAL_ORDER
  {
    var o := CANONICAL_ORDER;
    assert o[0] in o && o[1] in o && o[2] in o && o[3] in o && o[4] in o && o[5] in o && o[6] in o;
  }

  /** Three sections also answer to their singular; everything else is the procedure's. */
  lemma RepairSectionOther(env: Env, failedStep: string)
    ensures var step, section := Normal(env, failedStep), RepairSection(env, failedStep);
            && (step == "input" ==> section == "inputs") && (step == "precondition" ==> section == "preconditions")
            && (step == "failure guard" ==> section == "failure guards")
            && (step !in CANONICAL_ORDER && step !in {"input", "precondition", "failure guard"} ==> section == "procedure")
  {
    var o := CANONICAL_ORDER;
    assert o[0] in o && o[1] in o && o[2] in o && o[3] in o && o[4] in o && o[5] in o && o[6] in o;
  }

  method ValidateRepairIncidentCoverage(env: Env, incidents: seq<Incident>, changed: seq<string>) returns (r: Verdict)
    ensures r.Accepted? <==>
              forall x :: x in incidents && x.verified ==> RepairSection(env, x.failedStep) in Declared(env, changed)
  {
    var required: set<string>, i := {}, 0;
    while i < |incidents|
      invariant 0 <= i <= |incidents|
      invariant required == set x | x in incidents[..i] && x.verified :: RepairSection(env, x.failedStep)
    {
      assert incidents[..i + 1] == incidents[..i] + [incidents[i]];
      if incidents[i].verified {
        required := required + {RepairSection(env, incidents[i].failedStep)};
      }
      i := i + 1;
    }
    assert incidents[..i] == incidents;
    r := if required <= Declared(env, changed) then Accepted else Rejected;
  }

  // ----- what acceptance proves -----

  lemma {:induction false} CanonicalSplits()
    ensures Split(NUL, Join(NUL, CANONICAL_ORDER)) == CANONICAL_ORDER && NoDup(CANONICAL_ORDER) && "" !in CANONICAL_ORDER
  {
    CanonicalNames();
    SplitJoin(NUL, CANONICAL_ORDER);
  }

  lemma CanonicalNames()
    ensures NoDup(CANONICAL_ORDER) && "" !in CANONICAL_ORDER && forall h :: h in CANONICAL_ORDER ==> NUL !in h
  {
    var o := CANONICAL_ORDER;
    assert o[0][0] == 'a' && o[1][0] == 'i' && o[2][3] == 'c' && o[3][3] == 'c' && o[2][2] == 'e' && o[3][2] == 'o';
    assert o[4][0] == 'f' && o[5][0] == 'r' && o[6][0] == 'v';
  }

  /** Passing the heading check leaves one of each heading, none of them empty. */
  lemma ShapedOrder(order: seq<string>)
    requires Join(NUL, order) == Join(NUL, CANONICAL_ORDER)
    ensures Parts(NUL, order) == CANONICAL_ORDER && NoDup(CANONICAL_ORDER) && "" !in order
  {
    CanonicalSplits();
    assert order != [] by {
      assert Split(NUL, "") == [""];
    }
    SplitJoinParts(NUL, order);
    if "" in order {
      PartOf(NUL, order, "");
    }
  }

  lemma {:induction false} HeadingLines(fold: char -> char, lines: seq<string>)
    ensures forall h :: h in ScanAll(fold, lines).headings ==> IsHeading(ScanAll(fold, lines).headings[h])
  {
    if lines != [] {
      HeadingLines(fold, lines[..|lines| - 1]);
    }
  }

  lemma {:induction false} PrefixOpens(fold: char -> char, lines: seq<string>)
    requires lines != [] && !IsHeading(lines[0])
    ensures ScanAll(fold, lines).prefix != [] && ScanAll(fold, lines).prefix[0] == lines[0]
  {
    if |lines| > 1 {
      PrefixOpens(fold, lines[..|lines| - 1]);
    }
  }

  /** A document whose split is orderly: it rejoins to its own lines and opens with front matter. */
  ghost predicate Shaped(sc: Scan, lines: seq<string>) {
    && Orderly(sc) && Rejoin(sc) == lines
    && Join(NUL, sc.order) == Join(NUL, CANONICAL_ORDER)
    && sc.prefix != [] && sc.prefix[0] == "---"
    && (forall h :: h in sc.headings ==> IsHeading(sc.headings[h]))
    && (forall l :: l in sc.prefix ==> '\n' !in l)
    && (forall h, l :: h in sc.bodies && l in sc.bodies[h] ==> '\n' !in l)
  }

  lemma OpensWithFence(c: string)
    requires "---\n" <= c
    ensures Split('\n', c)[0] == "---"
  {
    assert c == "---" + ['\n'] + c[4..];
    SplitLine('\n', "---", c[4..]);
  }

  /** What passing the shape check says about the split of a document. */
  lemma ShapeMeans(env: Env, content: string, name: string)
    requires Shape(env, content, name)
    ensures Shaped(ScanOf(env.fold, content), LinesOf(content))
    ensures env.describes(Trim(content)) && env.bytes(Trim(content)) <= 32768
    ensures Contains(Lower(env.fold, Trim(content)), "name: " + Lower(env.fold, name))
  {
    TrimIdempotent(content);
    var lines := LinesOf(content);
    ShapedOrder(ScanOf(env.fold, content).order);
    SplitRejoins(env.fold, lines);
    HeadingLines(env.fold, lines);
    OpensWithFence(Trim(content));
    PrefixOpens(env.fold, lines);
    ScanKeepsLines(env.fold, lines);
  }

  /** Equal except for the declared bodies, each of which really changed. */
  ghost predicate RepairedOnly(a: Scan, c: Scan, declared: set<string>)
    requires Orderly(a) && Orderly(c)
  {
    a.prefix == c.prefix && SameFrame(a, c) && ChangedBodies(a, c, declared)
  }

  predicate SameFrame(a: Scan, c: Scan) { a.order == c.order && a.headings == c.headings }

  ghost predicate ChangedBodies(a: Scan, c: Scan, declared: set<string>)
    requires Orderly(a) && Orderly(c) && a.order == c.order
  {
    && (forall h :: h in declared ==> h in a.order)
    && (forall h :: h in a.order ==> (SameLines(a.bodies[h], c.bodies[h]) <==> h !in declared))
  }

  function DifferingIn(a: Sections, c: Sections, order: seq<string>): set<string> {
    set h | h in order && Differs(a, c, h)
  }

  lemma OneMoreDiffering(a: Sections, c: Sections, front: seq<string>, h: string)
    ensures DifferingIn(a, c, front + [h]) == DifferingIn(a, c, front) + if Differs(a, c, h) then {h} else {}
  {
  }

  lemma {:induction false} CountsDiffering(a: Sections, c: Sections, order: seq<string>)
    requires NoDup(order)
    ensures CountDiffering(a, c, order) == |DifferingIn(a, c, order)|
  {
    if order != [] {
      var front, h := order[..|order| - 1], order[|order| - 1];
      assert order == front + [h] && h !in front;
      CountsDiffering(a, c, front);
      OneMoreDiffering(a, c, front, h);
    }
  }

  lemma SameSize(x: set<string>, y: set<string>)
    requires x <= y && |x| == |y|
    ensures x == y
  {
    assert |y - x| == |y| - |x|;
  }

  predicate HeadingsAgree(a: Sections, c: Sections, order: seq<string>) {
    forall h :: h in order ==> Lookup(a.headings, h) == Lookup(c.headings, h)
  }

  lemma SubsetDiffering(a: Sections, c: Sections, order: seq<string>, declared: set<string>)
    requires NoDup(order)
    ensures OnlyDeclaredDiffer(a, c, order, declared) && CountDiffering(a, c, order) == |declared|
       <==> HeadingsAgree(a, c, order) && DifferingIn(a, c, order) == declared
  {
    CountsDiffering(a, c, order);
    var d := DifferingIn(a, c, order);
    assert OnlyDeclaredDiffer(a, c, order, declared) <==> HeadingsAgree(a, c, order) && d <= declared;
    if d <= declared && |d| == |declared| {
      SameSize(d, declared);
    }
  }

  lemma DiffersIsLines(a: Scan, c: Scan, h: string)
    requires h in a.bodies && h in c.bodies
    requires forall l :: l in a.bodies[h] ==> '\n' !in l
    requires forall l :: l in c.bodies[h] ==> '\n' !in l
    ensures Differs(SectionsOf(a), SectionsOf(c), h) <==> !SameLines(a.bodies[h], c.bodies[h])
  {
    JoinInjective('\n', a.bodies[h], c.bodies[h]);
  }

  lemma HeadingsInBoth(a: Scan, c: Scan)
    requires Orderly(a) && Orderly(c) && HeadingsAgree(SectionsOf(a), SectionsOf(c), a.order)
    requires forall h :: h in a.headings ==> IsHeading(a.headings[h])
    ensures forall h :: h in a.order ==> h in c.order && a.headings[h] == c.headings[h]
  {
    forall h | h in a.order ensures h in c.order && a.headings[h] == c.headings[h] {
      assert IsHeading(a.headings[h]) && Lookup(a.headings, h) == Lookup(c.headings, h);
    }
  }

  lemma SameDomain(a: Scan, c: Scan)
    requires Orderly(a) && Orderly(c) && a.order == c.order
    requires forall h :: h in a.order ==> a.headings[h] == c.headings[h]
    ensures a.headings == c.headings
  {
    assert forall h :: h in a.headings <==> h in c.headings;
  }

  /** Same joined headings and same heading lines force the same list of headings. */
  lemma SameOrder(a: Scan, c: Scan, la: seq<string>, lc: seq<string>)
    requires Shaped(a, la) && Shaped(c, lc)
    ensures HeadingsAgree(SectionsOf(a), SectionsOf(c), a.order) <==> SameFrame(a, c)
  {
    if HeadingsAgree(SectionsOf(a), SectionsOf(c), a.order) {
      HeadingsInBoth(a, c);
      ShapedOrder(a.order);
      ShapedOrder(c.order);
      SameParts(NUL, a.order, c.order);
      SameDomain(a, c);
    }
  }

  lemma SamePrefix(a: Scan, c: Scan, la: seq<string>, lc: seq<string>)
    requires Shaped(a, la) && Shaped(c, lc)
    ensures Join('\n', a.prefix) == Join('\n', c.prefix) <==> a.prefix == c.prefix
  {
    JoinInjective('\n', a.prefix, c.prefix);
  }

  lemma DifferingExactly(x: Sections, y: Sections, order: seq<string>, declared: set<string>)
    ensures DifferingIn(x, y, order) == declared <==>
              (forall h :: h in declared ==> h in order) && forall h :: h in order ==> (Differs(x, y, h) <==> h in declared)
  {
    var d := DifferingIn(x, y, order);
    if (forall h :: h in declared ==> h in order) && forall h :: h in order ==> (Differs(x, y, h) <==> h in declared) {
      assert forall h :: h in d <==> h in declared;
    }
  }

  lemma DifferingIsDeclared(a: Scan, c: Scan, declared: set<string>)
    requires Orderly(a) && Orderly(c) && a.order == c.order
    requires forall h, l :: h in a.bodies && l in a.bodies[h] ==> '\n' !in l
    requires forall h, l :: h in c.bodies && l in c.bodies[h] ==> '\n' !in l
    ensures DifferingIn(SectionsOf(a), SectionsOf(c), a.order) == declared <==> ChangedBodies(a, c, declared)
  {
    DifferingExactly(SectionsOf(a), SectionsOf(c), a.order, declared);
    forall h | h in a.order
      ensures Differs(SectionsOf(a), SectionsOf(c), h) <==> !SameLines(a.bodies[h], c.bodies[h])
    {
      DiffersIsLines(a, c, h);
    }
  }

  /** On two shaped documents the comparison of joined text decides exactly the line-for-line relation. */
  lemma NarrowMeans(a: Scan, c: Scan, la: seq<string>, lc: seq<string>, declared: set<string>)
    requires Shaped(a, la) && Shaped(c, lc)
    ensures NarrowSections(SectionsOf(a), SectionsOf(c), declared) <==> RepairedOnly(a, c, declared)
  {
    SamePrefix(a, c, la, lc);
    SubsetDiffering(SectionsOf(a), SectionsOf(c), a.order, declared);
    SameOrder(a, c, la, lc);
    if a.order == c.order {
      DifferingIsDeclared(a, c, declared);
    }
  }

  lemma {:induction false} SizeOfNames(names: seq<string>)
    requires NoDup(names)
    ensures |Elements(names)| == |names|
  {
    if names != [] {
      SizeOfNames(names[1..]);
      assert names == [names[0]] + names[1..] && names[0] !in names[1..];
      assert Elements(names) == {names[0]} + Elements(names[1..]);
    }
  }

  /**
   For two documents that pass the shape check, the repair is accepted exactly when
   the candidate is the active document with only declared bodies replaced, every
   declared one of them really changed.
   */
  lemma AcceptedRepairIsNarrow(env: Env, active: string, candidate: string, name: string, changed: seq<string>)
    requires Shape(env, active, name) && Shape(env, candidate, name)
    ensures Shaped(ScanOf(env.fold, active), LinesOf(active)) && Shaped(ScanOf(env.fold, candidate), LinesOf(candidate))
    ensures Narrow(env, active, candidate, changed) <==>
              Declarable(Names(env, changed), CANONICAL_ORDER)
              && RepairedOnly(ScanOf(env.fold, active), ScanOf(env.fold, candidate), Declared(env, changed))
    ensures Narrow(env, active, candidate, changed) ==> 1 <= |changed| <= 3 && |Declared(env, changed)| == |changed| && Declared(env, changed) <= Elements(CANONICAL_ORDER)
    ensures forall i :: 0 <= i < |changed| ==> Lower(env.fold, Trim(changed[i])) in Declared(env, changed)
  {
    forall i | 0 <= i < |changed| ensures Lower(env.fold, Trim(changed[i])) in Declared(env, changed) {
      assert Names(env, changed)[i] in Names(env, changed);
    }
    if Narrow(env, active, candidate, changed) {
      SizeOfNames(Names(env, changed));
    }
    ShapeMeans(env, active, name);
    ShapeMeans(env, candidate, name);
    NarrowMeans(ScanOf(env.fold, active), ScanOf(env.fold, candidate), LinesOf(active), LinesOf(candidate), Declared(env, changed));
  }

  /** The candidate's lines are the active document's lines with the declared bodies exchanged. */
  lemma CandidateLines(env: Env, active: string, candidate: string, name: string, changed: seq<string>)
    requires Shape(env, active, name) && Shape(env, candidate, name) && Narrow(env, active, candidate, changed)
    ensures var a, c := ScanOf(env.fold, active), ScanOf(env.fold, candidate);
            && Orderly(a) && LinesOf(active) == a.prefix + Flatten(a.order, a.headings, a.bodies)
            && (forall h :: h in a.order ==> h in c.bodies)
            && LinesOf(candidate) == a.prefix + Flatten(a.order, a.headings, c.bodies)
            && forall h :: h in a.order ==> (SameLines(a.bodies[h], c.bodies[h]) <==> h !in Declared(env, changed))
  {
    AcceptedRepairIsNarrow(env, active, candidate, name, changed);
  }

  /** With the coverage check as well, the section of every verified incident really changed. */
  lemma IncidentSectionsChange(env: Env, active: string, candidate: string, name: string, changed: seq<string>,
                               incidents: seq<Incident>, x: Incident)
    requires Shape(env, active, name) && Shape(env, candidate, name) && Narrow(env, active, candidate, changed)
    requires forall y :: y in incidents && y.verified ==> RepairSection(env, y.failedStep) in Declared(env, changed)
    requires x in incidents && x.verified
    ensures var a, c, h := ScanOf(env.fold, active), ScanOf(env.fold, candidate), RepairSection(env, x.failedStep);
            && h in CANONICAL_ORDER && h in a.bodies && h in c.bodies && !SameLines(a.bodies[h], c.bodies[h])
  {
    AcceptedRepairIsNarrow(env, active, candidate, name, changed);
  }
}
