/**
 Narrow Skill repair: splitting a Skill document into its level-two sections, and
 the check that a repair touched declared sections only.
 */
module SkillRepair {
  import opened Basics
  import opened SkillText

  const CANONICAL_ORDER: seq<string> :=
    ["applicability", "inputs", "preconditions", "procedure", "failure guards", "recovery", "verification"]

  // ----- the splitter -----

  /** The splitter's state after some lines. */
  datatype Scan = Scan(prefix: seq<string>, order: seq<string>, headings: map<string, string>,
                       bodies: map<string, seq<string>>, current: string, duplicate: bool)

  predicate IsHeading(line: string) { "## " <= line }

  function HeadingOf(fold: char -> char, line: string): string
    requires IsHeading(line)
  {
    Lower(fold, Trim(line[3..]))
  }

  function BodyAt(sc: Scan, h: string): seq<string> { if h in sc.bodies then sc.bodies[h] else [] }

  function AddHeading(sc: Scan, h: string, line: string): Scan {
    Scan(sc.prefix, sc.order + [h], sc.headings[h := line], sc.bodies[h := []], h, sc.duplicate || h in sc.headings)
  }

  function ScanLine(fold: char -> char, sc: Scan, line: string): Scan {
    if IsHeading(line) then AddHeading(sc, HeadingOf(fold, line), line)
    else if sc.current == "" then sc.(prefix := sc.prefix + [line])
    else sc.(bodies := sc.bodies[sc.current := BodyAt(sc, sc.current) + [line]])
  }

  const START := Scan([], [], map[], map[], "", false)

  function ScanAll(fold: char -> char, lines: seq<string>): Scan {
    if lines == [] then START else ScanLine(fold, ScanAll(fold, lines[..|lines| - 1]), lines[|lines| - 1])
  }

  datatype Sections = Sections(prefix: string, order: seq<string>, headings: map<string, string>,
                               bodies: map<string, string>, duplicate: bool)

  function SectionsOf(sc: Scan): Sections {
    Sections(Join('\n', sc.prefix), sc.order, sc.headings, map h | h in sc.bodies :: Join('\n', sc.bodies[h]), sc.duplicate)
  }

  function LinesOf(content: string): seq<string> { Split('\n', Trim(content)) }
  function ScanOf(fold: char -> char, content: string): Scan { ScanAll(fold, LinesOf(content)) }

  method SplitCuratedSkillSections(fold: char -> char, content: string) returns (r: Sections)
    ensures r == SectionsOf(ScanOf(fold, content))
  {
    var lines := LinesOf(content);
    var sc, i := START, 0;
    while i < |lines|
      invariant 0 <= i <= |lines| && sc == ScanAll(fold, lines[..i])
    {
      assert lines[..i + 1][..i] == lines[..i];
      sc := ScanLine(fold, sc, lines[i]);
      i := i + 1;
    }
    assert lines[..i] == lines;
    r := SectionsOf(sc);
  }

  /** The titles of a document's second-level headings, in order. */
  function Titles(fold: char -> char, lines: seq<string>): seq<string> {
    if lines == [] then []
    else
      var last := lines[|lines| - 1];
      Titles(fold, lines[..|lines| - 1]) + if "## " <= last then [Lower(fold, Trim(last[3..]))] else []
  }

  /** The split lists these titles and tells whether one is repeated. */
  lemma {:induction false} SplitListsTitles(fold: char -> char, lines: seq<string>)
    ensures var sc := ScanAll(fold, lines); sc.order == Titles(fold, lines) && (forall h :: h in sc.headings <==> h in sc.order) && (sc.duplicate <==> !NoDup(sc.order))
  {
    if lines != [] {
      var front, line := lines[..|lines| - 1], lines[|lines| - 1];
      SplitListsTitles(fold, front);
      if IsHeading(line) {
        OneMoreTitle(ScanAll(fold, front).order, HeadingOf(fold, line));
      }
    }
  }

  /** A title's line is a heading of the document that reads so. */
  predicate HeadingFor(fold: char -> char, lines: seq<string>, h: string, line: string) {
    line in lines && "## " <= line && Lower(fold, Trim(line[3..])) == h
  }

  lemma {:induction false} SplitKeepsHeadings(fold: char -> char, lines: seq<string>, h: string)
    requires h in ScanAll(fold, lines).headings
    ensures HeadingFor(fold, lines, h, ScanAll(fold, lines).headings[h])
  {
    var front, line := lines[..|lines| - 1], lines[|lines| - 1];
    assert lines == front + [line];
    if !(IsHeading(line) && HeadingOf(fold, line) == h) {
      SplitKeepsHeadings(fold, front, h);
    }
  }

  lemma OneMoreTitle(order: seq<string>, h: string)
    ensures NoDup(order + [h]) <==> NoDup(order) && h !in order
    ensures forall x :: x in order + [h] <==> x in order || x == h
  {
    var all := order + [h];
    assert all[|order|] == h && all[..|order|] == order;
    if h in order {
      var i :| 0 <= i < |order| && order[i] == h;
      assert all[i] == all[|order|];
    }
    if NoDup(all) {
      forall i, j | 0 <= i < j < |order| ensures order[i] != order[j] {
        assert all[i] == order[i] && all[j] == order[j];
      }
    }
  }

  // ----- split, then rejoin -----

  /** Heading line and body of each section, in order. */
  function Flatten(order: seq<string>, headings: map<string, string>, bodies: map<string, seq<string>>): seq<string>
    requires forall h :: h in order ==> h in headings && h in bodies
  {
    if order == [] then []
    else
      var front, h := order[..|order| - 1], order[|order| - 1];
      assert h in order;
      Flatten(front, headings, bodies) + [headings[h]] + bodies[h]
  }

  /** What the splitter keeps on documents without repeated or empty headings. */
  ghost predicate Orderly(sc: Scan) {
    && (forall h :: h in sc.order <==> h in sc.headings)
    && (forall h :: h in sc.headings <==> h in sc.bodies)
    && NoDup(sc.order)
    && (if sc.order == [] then sc.current == "" else sc.current == sc.order[|sc.order| - 1])
    && "" !in sc.order
  }

  lemma {:induction false} FlattenFrame(order: seq<string>, headings: map<string, string>, bodies: map<string, seq<string>>,
                                        headings': map<string, string>, bodies': map<string, seq<string>>)
    requires forall h :: h in order ==> h in headings && h in bodies && h in headings' && h in bodies'
    requires forall h :: h in order ==> headings[h] == headings'[h] && bodies[h] == bodies'[h]
    ensures Flatten(order, headings, bodies) == Flatten(order, headings', bodies')
  {
    if order != [] {
      assert order[|order| - 1] in order;
      FlattenFrame(order[..|order| - 1], headings, bodies, headings', bodies');
    }
  }

  function Rejoin(sc: Scan): seq<string>
    requires forall h :: h in sc.order ==> h in sc.headings && h in sc.bodies
  {
    sc.prefix + Flatten(sc.order, sc.headings, sc.bodies)
  }

  lemma HeadingRejoins(sc: Scan, h: string, line: string)
    requires h !in sc.order && forall x :: x in sc.order ==> x in sc.headings && x in sc.bodies
    ensures forall x :: x in sc.order + [h] ==> x in AddHeading(sc, h, line).headings && x in AddHeading(sc, h, line).bodies
    ensures Rejoin(AddHeading(sc, h, line)) == Rejoin(sc) + [line]
  {
    HeadingFlattens(sc.order, sc.headings, sc.bodies, h, line);
  }

  lemma HeadingFlattens(order: seq<string>, headings: map<string, string>, bodies: map<string, seq<string>>, h: string, line: string)
    requires h !in order && forall x :: x in order ==> x in headings && x in bodies
    ensures Flatten(order + [h], headings[h := line], bodies[h := []]) == Flatten(order, headings, bodies) + [line]
  {
    FlattenFrame(order, headings, bodies, headings[h := line], bodies[h := []]);
    assert (order + [h])[..|order|] == order;
  }

  lemma HeadingOrderly(sc: Scan, h: string, line: string)
    requires Orderly(sc) && h !in sc.headings && h != ""
    ensures Orderly(AddHeading(sc, h, line)) && h !in sc.order
  {
    var sc' := AddHeading(sc, h, line);
    forall x ensures x in sc'.order <==> x in sc.order || x == h {
      assert sc'.order[|sc.order|] == h;
    }
  }

  lemma BodyRejoins(order: seq<string>, headings: map<string, string>, bodies: map<string, seq<string>>, line: string)
    requires order != [] && NoDup(order) && forall h :: h in order ==> h in headings && h in bodies
    ensures var h := order[|order| - 1];
            Flatten(order, headings, bodies[h := bodies[h] + [line]]) == Flatten(order, headings, bodies) + [line]
  {
    var front, h := order[..|order| - 1], order[|order| - 1];
    assert h in order && h !in front;
    FlattenFrame(front, headings, bodies, headings, bodies[h := bodies[h] + [line]]);
  }

  lemma BodyOrderly(fold: char -> char, sc: Scan, line: string)
    requires Orderly(sc) && !IsHeading(line)
    ensures Orderly(ScanLine(fold, sc, line))
  {
    if sc.order != [] {
      assert sc.current in sc.order;
    }
  }

  lemma BodyStep(fold: char -> char, sc: Scan, line: string)
    requires Orderly(sc) && !IsHeading(line)
    ensures var sc' := ScanLine(fold, sc, line); Orderly(sc') && Rejoin(sc') == Rejoin(sc) + [line]
  {
    BodyOrderly(fold, sc, line);
    if sc.order != [] {
      BodyRejoins(sc.order, sc.headings, sc.bodies, line);
    }
  }

  lemma LaterScan(fold: char -> char, sc: Scan, line: string)
    ensures var sc' := ScanLine(fold, sc, line);
            (!sc'.duplicate ==> !sc.duplicate) && ("" !in sc'.order ==> "" !in sc.order)
  {
  }

  /** Split then rejoin gives back the document, line for line. */
  lemma HeadingStep(fold: char -> char, sc: Scan, line: string)
    requires Orderly(sc) && IsHeading(line) && !ScanLine(fold, sc, line).duplicate && "" !in ScanLine(fold, sc, line).order
    ensures Orderly(ScanLine(fold, sc, line)) && Rejoin(ScanLine(fold, sc, line)) == Rejoin(sc) + [line]
  {
    var h := HeadingOf(fold, line);
    assert (sc.order + [h])[|sc.order|] == h;
    HeadingOrderly(sc, h, line);
    HeadingRejoins(sc, h, line);
  }

  lemma {:induction false} SplitRejoins(fold: char -> char, lines: seq<string>)
    requires !ScanAll(fold, lines).duplicate && "" !in ScanAll(fold, lines).order
    ensures Orderly(ScanAll(fold, lines)) && Rejoin(ScanAll(fold, lines)) == lines
  {
    if lines != [] {
      var front, line := lines[..|lines| - 1], lines[|lines| - 1];
      var sc := ScanAll(fold, front);
      LaterScan(fold, sc, line);
      SplitRejoins(fold, front);
      assert lines == front + [line];
      if IsHeading(line) {
        HeadingStep(fold, sc, line);
      } else {
        BodyStep(fold, sc, line);
      }
    }
  }

  /** Every scanned line is one of the document's lines. */
  lemma {:induction false} ScanKeepsLines(fold: char -> char, lines: seq<string>)
    ensures forall l :: l in ScanAll(fold, lines).prefix ==> l in lines
    ensures forall h, l :: h in ScanAll(fold, lines).bodies && l in ScanAll(fold, lines).bodies[h] ==> l in lines
  {
    if lines != [] {
      var front, line := lines[..|lines| - 1], lines[|lines| - 1];
      ScanKeepsLines(fold, front);
      assert lines == front + [line];
      var sc, sc' := ScanAll(fold, front), ScanAll(fold, lines);
      forall h, l | h in sc'.bodies && l in sc'.bodies[h] ensures l in lines {
        if h in sc.bodies && l in sc.bodies[h] {
          assert l in front;
        } else {
          assert l == line;
        }
      }
    }
  }
}
