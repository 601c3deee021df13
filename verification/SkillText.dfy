/** Trimming, splitting and joining text, as the Skill validator uses them. */
module SkillText {
  import opened Basics

  /** unicode.IsSpace */
  predicate IsSpace(c: char) {
    var n := c as int;
    || 9 <= n <= 13 || n == 0x20 || n == 0x85 || n == 0xA0 || n == 0x1680 || 0x2000 <= n <= 0x200A
    || n == 0x2028 || n == 0x2029 || n == 0x202F || n == 0x205F || n == 0x3000
  }

  function TrimLeft(s: string): string {
    if s != [] && IsSpace(s[0]) then TrimLeft(s[1..]) else s
  }

  function TrimRight(s: string): string {
    if s != [] && IsSpace(s[|s| - 1]) then TrimRight(s[..|s| - 1]) else s
  }

  function Trim(s: string): string { TrimRight(TrimLeft(s)) }

  lemma {:induction false} TrimLeftEnds(s: string)
    ensures TrimLeft(s) == [] || !IsSpace(TrimLeft(s)[0])
  {
    if s != [] {
      TrimLeftEnds(s[1..]);
    }
  }

  lemma {:induction false} TrimRightEnds(s: string)
    ensures TrimRight(s) == [] || !IsSpace(TrimRight(s)[|TrimRight(s)| - 1])
    ensures TrimRight(s) <= s
  {
    if s != [] {
      TrimRightEnds(s[..|s| - 1]);
    }
  }

  predicate AllSpace(s: string) { forall i :: 0 <= i < |s| ==> IsSpace(s[i]) }

  lemma {:induction false} TrimLeftDrops(s: string) returns (left: string)
    ensures s == left + TrimLeft(s) && AllSpace(left)
  {
    left := [];
    if s != [] && IsSpace(s[0]) {
      left := TrimLeftDrops(s[1..]);
      left := [s[0]] + left;
    }
  }

  lemma {:induction false} TrimRightDrops(s: string) returns (right: string)
    ensures s == TrimRight(s) + right && AllSpace(right)
  {
    right := [];
    if s != [] && IsSpace(s[|s| - 1]) {
      right := TrimRightDrops(s[..|s| - 1]);
      right := right + [s[|s| - 1]];
    }
  }

  /** Trimming takes away spaces at both ends, all of them and nothing else. */
  lemma TrimExactly(s: string) returns (left: string, right: string)
    ensures s == left + Trim(s) + right && AllSpace(left) && AllSpace(right)
    ensures Trim(s) == [] || (!IsSpace(Trim(s)[0]) && !IsSpace(Trim(s)[|Trim(s)| - 1]))
  {
    left := TrimLeftDrops(s);
    right := TrimRightDrops(TrimLeft(s));
    TrimLeftEnds(s);
    TrimRightEnds(TrimLeft(s));
  }

  lemma TrimIdempotent(s: string)
    ensures Trim(Trim(s)) == Trim(s)
  {
    TrimLeftEnds(s);
    TrimRightEnds(TrimLeft(s));
  }

  function Lower(fold: char -> char, s: string): string { seq(|s|, i requires 0 <= i < |s| => fold(s[i])) }

  /** strings.Split: always at least one part, none with a separator. */
  function Split(sep: char, s: string): (lines: seq<string>)
    ensures lines != [] && forall l :: l in lines ==> sep !in l
  {
    if s == [] then [""]
    else
      var rest := Split(sep, s[1..]);
      if s[0] == sep then [""] + rest
      else
        assert rest[0] in rest;
        [[s[0]] + rest[0]] + rest[1..]
  }

  /** strings.Join */
  function Join(sep: char, lines: seq<string>): string {
    if lines == [] then ""
    else if |lines| == 1 then lines[0]
    else lines[0] + [sep] + Join(sep, lines[1..])
  }

  lemma {:induction false} JoinSplit(sep: char, s: string)
    ensures Join(sep, Split(sep, s)) == s
  {
    if s != [] {
      JoinSplit(sep, s[1..]);
      var rest := Split(sep, s[1..]);
      if s[0] == sep {
        assert ([""] + rest)[1..] == rest;
      } else {
        assert ([[s[0]] + rest[0]] + rest[1..])[1..] == rest[1..];
        assert s == [s[0]] + s[1..];
      }
    }
  }

  lemma {:induction false} SplitLine(sep: char, l: string, s: string)
    requires sep !in l
    ensures Split(sep, l + [sep] + s) == [l] + Split(sep, s)
  {
    if l == [] {
      assert l + [sep] + s == [sep] + s;
      assert ([sep] + s)[1..] == s;
    } else {
      SplitLine(sep, l[1..], s);
      assert (l + [sep] + s)[1..] == l[1..] + [sep] + s;
      assert [l[0]] + l[1..] == l;
    }
  }

  lemma {:induction false} SplitOne(sep: char, l: string)
    requires sep !in l
    ensures Split(sep, l) == [l]
  {
    if l != [] {
      SplitOne(sep, l[1..]);
      assert [l[0]] + l[1..] == l;
    }
  }

  /** Joined lines split back to themselves: only the empty list is lost. */
  lemma {:induction false} SplitJoin(sep: char, lines: seq<string>)
    requires lines != [] && forall l :: l in lines ==> sep !in l
    ensures Split(sep, Join(sep, lines)) == lines
  {
    assert lines[0] in lines;
    if |lines| == 1 {
      SplitOne(sep, lines[0]);
    } else {
      assert forall l :: l in lines[1..] ==> l in lines;
      SplitJoin(sep, lines[1..]);
      SplitLine(sep, lines[0], Join(sep, lines[1..]));
    }
  }

  /** Equal up to one lone blank line in an otherwise empty block. */
  predicate SameLines(a: seq<string>, b: seq<string>) {
    a == b || (a in {[], [""]} && b in {[], [""]})
  }

  /** Two blocks of lines join to the same text exactly when they are the same lines, up to that one ambiguity. */
  lemma JoinInjective(sep: char, a: seq<string>, b: seq<string>)
    requires forall l :: l in a ==> sep !in l
    requires forall l :: l in b ==> sep !in l
    ensures Join(sep, a) == Join(sep, b) <==> SameLines(a, b)
  {
    if a != [] { SplitJoin(sep, a); }
    if b != [] { SplitJoin(sep, b); }
    assert Join(sep, [""]) == "" && Split(sep, "") == [""];
  }

  /** All parts of all strings, in order. */
  function Parts(sep: char, strings: seq<string>): seq<string> {
    if strings == [] then [] else Split(sep, strings[0]) + Parts(sep, strings[1..])
  }

  /** The parts once one more character is put in front of the text. */
  function PutFirst(sep: char, c: char, rest: seq<string>): seq<string>
    requires rest != []
  {
    if c == sep then [""] + rest else [[c] + rest[0]] + rest[1..]
  }

  lemma PutFirstAppend(sep: char, c: char, x: seq<string>, y: seq<string>)
    requires x != []
    ensures PutFirst(sep, c, x + y) == PutFirst(sep, c, x) + y
  {
    assert (x + y)[1..] == x[1..] + y;
  }

  lemma SplitCons(sep: char, c: char, s: string)
    ensures Split(sep, [c] + s) == PutFirst(sep, c, Split(sep, s))
  {
    assert ([c] + s)[1..] == s;
  }

  lemma {:induction false} SplitAppend(sep: char, a: string, s: string)
    ensures Split(sep, a + [sep] + s) == Split(sep, a) + Split(sep, s)
  {
    if a == [] {
      assert a + [sep] + s == [sep] + s;
      SplitCons(sep, sep, s);
    } else {
      var c, a' := a[0], a[1..];
      SplitAppend(sep, a', s);
      assert a == [c] + a' && a + [sep] + s == [c] + (a' + [sep] + s);
      SplitCons(sep, c, a');
      SplitCons(sep, c, a' + [sep] + s);
      PutFirstAppend(sep, c, Split(sep, a'), Split(sep, s));
    }
  }

  /** Joining and splitting again flattens strings that already held separators. */
  lemma {:induction false} SplitJoinParts(sep: char, strings: seq<string>)
    requires strings != []
    ensures Split(sep, Join(sep, strings)) == Parts(sep, strings)
  {
    if |strings| == 1 {
      assert Parts(sep, strings[1..]) == [];
    } else {
      SplitJoinParts(sep, strings[1..]);
      SplitAppend(sep, strings[0], Join(sep, strings[1..]));
    }
  }

  lemma {:induction false} PartOf(sep: char, strings: seq<string>, s: string)
    requires s in strings
    ensures Split(sep, s)[0] in Parts(sep, strings)
  {
    if strings[0] == s {
      assert Parts(sep, strings)[0] == Split(sep, s)[0];
    } else {
      PartOf(sep, strings[1..], s);
      var i :| 0 <= i < |Parts(sep, strings[1..])| && Parts(sep, strings[1..])[i] == Split(sep, s)[0];
      assert Parts(sep, strings)[|Split(sep, strings[0])| + i] == Split(sep, s)[0];
    }
  }

  /**
   Two lists with the same distinct parts, the first contained in the second, are
   equal, even though joining could have hidden a separator inside an element.
   */
  lemma {:induction false} SameParts(sep: char, a: seq<string>, b: seq<string>)
    requires Parts(sep, a) == Parts(sep, b) && NoDup(Parts(sep, a)) && NoDup(a) && NoDup(b)
    requires forall x :: x in a ==> x in b
    ensures a == b
  {
    SomeParts(sep, b);
    if a != [] {
      var p := Split(sep, a[0])[0];
      assert Parts(sep, a)[0] == p && b != [];
      assert a[0] in b;
      FirstPartFirst(sep, b, a[0]);
      TailParts(sep, a);
      TailParts(sep, b);
      forall x | x in a[1..] ensures x in b[1..] {
        assert x in a && x in b;
      }
      SameParts(sep, a[1..], b[1..]);
    }
  }

  lemma DistinctTail(s: seq<string>, k: nat)
    requires NoDup(s) && k <= |s|
    ensures NoDup(s[k..])
  {
  }

  lemma TailParts(sep: char, a: seq<string>)
    requires a != [] && NoDup(Parts(sep, a)) && NoDup(a)
    ensures Parts(sep, a[1..]) == Parts(sep, a)[|Split(sep, a[0])|..] && NoDup(Parts(sep, a[1..]))
    ensures NoDup(a[1..]) && a[0] !in a[1..] && a == [a[0]] + a[1..]
  {
    DistinctHead(a);
    DistinctTail(Parts(sep, a), |Split(sep, a[0])|);
    DropHead(Split(sep, a[0]), Parts(sep, a[1..]));
  }

  lemma DistinctHead(a: seq<string>)
    requires a != [] && NoDup(a)
    ensures NoDup(a[1..]) && a[0] !in a[1..] && a == [a[0]] + a[1..]
  {
    DistinctTail(a, 1);
  }

  lemma DropHead(head: seq<string>, tail: seq<string>)
    ensures (head + tail)[|head|..] == tail
  {
  }

  lemma SomeParts(sep: char, b: seq<string>)
    ensures Parts(sep, b) == [] <==> b == []
  {
  }

  lemma LaterIndex(head: seq<string>, tail: seq<string>, p: string) returns (i: nat)
    requires head != [] && p in tail
    ensures 0 < i < |head + tail| && (head + tail)[i] == p
  {
    var j :| 0 <= j < |tail| && tail[j] == p;
    i := |head| + j;
  }

  lemma LaterPart(sep: char, b: seq<string>, x: string) returns (i: nat)
    requires b != [] && x in b[1..]
    ensures 0 < i < |Parts(sep, b)| && Parts(sep, b)[i] == Split(sep, x)[0]
  {
    PartOf(sep, b[1..], x);
    i := LaterIndex(Split(sep, b[0]), Parts(sep, b[1..]), Split(sep, x)[0]);
  }

  /** Only the first string can begin with the very first part. */
  lemma FirstPartFirst(sep: char, b: seq<string>, x: string)
    requires b != [] && x in b && NoDup(Parts(sep, b)) && Split(sep, x)[0] == Parts(sep, b)[0]
    ensures b[0] == x
  {
    if b[0] != x {
      var _ := LaterPart(sep, b, x);
    }
  }
}
