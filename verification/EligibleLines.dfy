/**
 Which lines of a file can earn credit: the scanner that skips blank lines, docstrings and
 comments, and what it makes of comments that do not begin their line.
 */
module EligibleLines {
  import opened Common

  /** A line and whether it belongs to a Python docstring. */
  datatype Line = Line(text: string, docstring: bool)

  /** What depends on the file's suffix and on the characters' classes. */
  datatype Rules = Rules(hashComments: bool, sql: bool, alnum: char -> bool, lower: string -> string)

  predicate Space(c: char) { c == ' ' || c == '\t' || c == '\r' || c == '\n' }

  function LStrip(s: string): string { if s != "" && Space(s[0]) then LStrip(s[1..]) else s }

  function RStrip(s: string): string {
    if s != "" && Space(s[|s| - 1]) then RStrip(s[..|s| - 1]) else s
  }

  function Strip(s: string): string { RStrip(LStrip(s)) }

  /** Where the first end of a comment stands. */
  function ClosesAt(s: string): (at: Option<nat>)
    ensures at.Some? ==> at.value + 2 <= |s| && s[at.value] == '*' && s[at.value + 1] == '/'
    ensures forall k :: 0 <= k < (if at.Some? then at.value else |s| - 1) ==> s[k] != '*' || s[k + 1] != '/'
  {
    if |s| < 2 then None
    else if s[0] == '*' && s[1] == '/' then Some(0)
    else
      var later := ClosesAt(s[1..]);
      assert forall k :: 1 <= k < |s| - 1 ==> s[k] == s[1..][k - 1] && s[k + 1] == s[1..][k];
      if later.None? then None else Some(later.value + 1)
  }

  predicate Closes(s: string) { ClosesAt(s).Some? }

  function Rest(s: string): string
    requires Closes(s)
  {
    Strip(s[ClosesAt(s).value + 2..])
  }

  /** `" ".join(value.split())` of a stripped value. */
  function Squeeze(s: string): string {
    if s == "" then ""
    else
      var before, c := Squeeze(s[..|s| - 1]), s[|s| - 1];
      if !Space(c) then before + [c]
      else if before == "" || before[|before| - 1] == ' ' then before else before + " "
  }

  predicate HasAlnum(s: string, r: Rules) { exists c :: c in s && r.alnum(c) }

  /** A value outside comments: credited, or one of the kinds that earn nothing. */
  function Credited(value: string, r: Rules): Option<string> {
    if value == "" || "//" <= value || (r.hashComments && "#" <= value) || (r.sql && "--" <= value) then None
    else if !HasAlnum(value, r) then None
    else Some(Squeeze(value))
  }

  /** A value outside comments: whether it leaves one open, and what it is credited. */
  function Outside(value: string, r: Rules): (bool, Option<string>) {
    if "/*" <= value && !Closes(value) then (true, None)
    else (false, Credited(if "/*" <= value then Rest(value) else value, r))
  }

  /** One line, inside a block comment or not. */
  function Read(inside: bool, l: Line, r: Rules): (bool, Option<string>) {
    var value := Strip(l.text);
    if l.docstring || value == "" || (inside && !Closes(value)) then (inside, None)
    else Outside(if inside then Rest(value) else value, r)
  }

  /** Inside a block comment or not, and the lines credited so far. */
  datatype Scanned = Scanned(inside: bool, credited: seq<string>)

  function Listed(line: Option<string>): seq<string> { if line.Some? then [line.value] else [] }

  function Step(s: Scanned, l: Line, r: Rules): Scanned {
    var (inside, line) := Read(s.inside, l, r);
    Scanned(inside, s.credited + Listed(line))
  }

  function Scan(s: Scanned, lines: seq<Line>, r: Rules): Scanned {
    if lines == [] then s else Step(Scan(s, lines[..|lines| - 1], r), lines[|lines| - 1], r)
  }

  const START := Scanned(false, [])

  // --- generated files ---

  const MARKERS := ["@generated", "automatically generated", "auto-generated", "autogenerated",
                    "generated by openapi", "generated by prisma", "do not edit this generated"]

  predicate Contains(s: string, part: string) {
    exists k :: 0 <= k <= |s| - |part| && part <= s[k..]
  }

  predicate CommentStart(s: string) {
    "#" <= s || "//" <= s || "/*" <= s || "*" <= s || "\"\"\"" <= s || "'''" <= s
  }

  predicate Marked(l: Line, r: Rules) {
    var s := r.lower(Strip(l.text));
    CommentStart(s) && exists k :: 0 <= k < |MARKERS| && Contains(s, MARKERS[k])
  }

  predicate Generated(lines: seq<Line>, r: Rules) {
    exists k :: 0 <= k < |lines| && k < 20 && Marked(lines[k], r)
  }

  method IsGenerated(lines: seq<Line>, r: Rules) returns (found: bool)
    ensures found <==> Generated(lines, r)
  {
    var k := 0;
    while k < |lines| && k < 20
      invariant 0 <= k <= |lines| && k <= 20 && forall i :: 0 <= i < k ==> !Marked(lines[i], r)
    {
      if Marked(lines[k], r) { return true; }
      k := k + 1;
    }
    return false;
  }

  method Eligible(lines: seq<Line>, r: Rules) returns (result: seq<string>)
    ensures result == if Generated(lines, r) then [] else Scan(START, lines, r).credited
  {
    var generated := IsGenerated(lines, r);
    if generated { return []; }
    var inside := false;
    result := [];
    var k := 0;
    assert lines[..0] == [];
    while k < |lines|
      invariant 0 <= k <= |lines| && Scanned(inside, result) == Scan(START, lines[..k], r)
    {
      assert lines[..k + 1][..k] == lines[..k];
      var value := Strip(lines[k].text);
      k := k + 1;
      if lines[k - 1].docstring || value == "" { continue; }
      if inside {
        if !Closes(value) { continue; }
        inside, value := false, Rest(value);
      }
      if "/*" <= value {
        if !Closes(value) {
          inside := true;
          continue;
        }
        value := Rest(value);
      }
      if value == "" || "//" <= value || (r.hashComments && "#" <= value) { continue; }
      if r.sql && "--" <= value { continue; }
      if !HasAlnum(value, r) { continue; }
      result := result + [Squeeze(value)];
    }
    assert lines[..k] == lines;
  }

  // --- what the scan makes of inserted lines ---

  lemma {:induction false} ScanAppend(s: Scanned, a: seq<Line>, b: seq<Line>, r: Rules)
    ensures Scan(s, a + b, r) == Scan(Scan(s, a, r), b, r)
    decreases |b|
  {
    if b == [] {
      assert a + b == a;
    } else {
      var n := |b| - 1;
      ScanAppend(s, a, b[..n], r);
      assert (a + b)[..|a + b| - 1] == a + b[..n];
    }
  }

  /** What is credited later does not depend on what was credited before. */
  lemma {:induction false} ScanFrom(s: Scanned, lines: seq<Line>, r: Rules)
    ensures Scan(s, lines, r) ==
      var own := Scan(Scanned(s.inside, []), lines, r);
      Scanned(own.inside, s.credited + own.credited)
    decreases |lines|
  {
    if lines != [] { ScanFrom(s, lines[..|lines| - 1], r); }
  }

  /** The lines earn nothing and leave no comment open. */
  predicate Silent(lines: seq<Line>, r: Rules) { Scan(START, lines, r) == START }

  /** Outside comments, silent lines can be put anywhere without any effect on what is credited. */
  lemma SilentLinesEarnNothing(before: seq<Line>, inserted: seq<Line>, after: seq<Line>, r: Rules)
    requires Silent(inserted, r) && !Scan(START, before, r).inside
    ensures Scan(START, before + inserted + after, r) == Scan(START, before + after, r)
  {
    ScanAppend(START, before + inserted, after, r);
    ScanAppend(START, before, inserted, r);
    ScanAppend(START, before, after, r);
    var s := Scan(START, before, r);
    ScanFrom(s, inserted, r);
    assert Scanned(s.inside, []) == START;
    assert s.credited + [] == s.credited;
  }

  /** Indenting lines anew changes nothing. */
  lemma {:induction false} IndentationEarnsNothing(s: Scanned, was: seq<Line>, now: seq<Line>, r: Rules)
    requires |now| == |was|
    requires forall k :: 0 <= k < |was| ==>
      now[k].docstring == was[k].docstring && Strip(now[k].text) == Strip(was[k].text)
    ensures Scan(s, now, r) == Scan(s, was, r)
    decreases |was|
  {
    if was != [] { IndentationEarnsNothing(s, was[..|was| - 1], now[..|now| - 1], r); }
  }

  // --- stripping and squeezing ---

  function NonSpaces(s: string): nat {
    if s == "" then 0 else NonSpaces(s[..|s| - 1]) + (if Space(s[|s| - 1]) then 0 else 1)
  }

  lemma {:induction false} SqueezeKeepsText(s: string)
    ensures NonSpaces(Squeeze(s)) == NonSpaces(s)
    decreases |s|
  {
    if s != "" {
      var before, c := Squeeze(s[..|s| - 1]), s[|s| - 1];
      SqueezeKeepsText(s[..|s| - 1]);
      assert (before + [c])[..|before|] == before && (before + " ")[..|before|] == before;
    }
  }

  lemma {:induction false} NonSpacesAdd(a: string, b: string)
    ensures NonSpaces(a + b) == NonSpaces(a) + NonSpaces(b)
    decreases |b|
  {
    if b == "" {
      assert a + b == a;
    } else {
      NonSpacesAdd(a, b[..|b| - 1]);
      assert (a + b)[..|a + b| - 1] == a + b[..|b| - 1];
    }
  }

  lemma {:induction false} RStripKeepsText(s: string)
    ensures NonSpaces(RStrip(s)) == NonSpaces(s)
    decreases |s|
  {
    if s != "" && Space(s[|s| - 1]) { RStripKeepsText(s[..|s| - 1]); }
  }

  lemma {:induction false} LStripAppend(a: string, b: string)
    requires b != "" && !Space(b[0])
    ensures LStrip(a + b) == LStrip(a) + b
    decreases |a|
  {
    if a == "" {
      assert a + b == b;
    } else {
      assert (a + b)[1..] == a[1..] + b;
      if Space(a[0]) { LStripAppend(a[1..], b); }
    }
  }

  lemma {:induction false} RStripAppend(a: string, b: string)
    requires a != "" && !Space(a[|a| - 1])
    ensures RStrip(a + b) == a + RStrip(b)
    decreases |b|
  {
    if b == "" {
      assert a + b == a;
    } else {
      assert (a + b)[..|a + b| - 1] == a + b[..|b| - 1];
      RStripAppend(a, b[..|b| - 1]);
    }
  }

  lemma {:induction false} RStripIsPrefix(s: string)
    ensures RStrip(s) <= s
    ensures forall k :: |RStrip(s)| <= k < |s| ==> Space(s[k])
    decreases |s|
  {
    if s != "" && Space(s[|s| - 1]) { RStripIsPrefix(s[..|s| - 1]); }
  }

  /** The stripped line around a mark without white space. */
  lemma MarkedLine(pre: string, mark: string, text: string)
    requires mark != "" && forall c :: c in mark ==> !Space(c)
    ensures Strip(pre + mark + text) == LStrip(pre) + mark + RStrip(text)
  {
    assert !Space(mark[0]) && !Space(mark[|mark| - 1]);
    assert pre + mark + text == pre + (mark + text);
    LStripAppend(pre, mark + text);
    assert LStrip(pre) + (mark + text) == (LStrip(pre) + mark) + text;
    RStripAppend(LStrip(pre) + mark, text);
  }

  lemma {:induction false} NoLeadingSpace(s: string)
    ensures LStrip(s) != "" ==> !Space(LStrip(s)[0])
    decreases |s|
  {
    if s != "" && Space(s[0]) { NoLeadingSpace(s[1..]); }
  }

  lemma BlankStart(pre: string)
    ensures Strip(pre) == "" <==> LStrip(pre) == ""
  {
    NoLeadingSpace(pre);
    RStripIsPrefix(LStrip(pre));
  }

  lemma {:induction false} StripTwice(s: string)
    ensures Strip(RStrip(s)) == Strip(s)
    decreases |s|
  {
    if s != "" && Space(s[|s| - 1]) {
      var init := s[..|s| - 1];
      StripTwice(init);
      LStripSpace(init, s[|s| - 1]);
      assert s == init + [s[|s| - 1]];
    }
  }

  lemma {:induction false} LStripSpace(s: string, c: char)
    requires Space(c)
    ensures Strip(s + [c]) == Strip(s)
    decreases |s|
  {
    if s == "" {
      assert s + [c] == [c] && [c][1..] == "";
    } else if Space(s[0]) {
      assert (s + [c])[1..] == s[1..] + [c];
      LStripSpace(s[1..], c);
    } else {
      assert (s + [c])[..|s + [c]| - 1] == s;
    }
  }

  lemma {:induction false} LStripIsSuffix(s: string)
    ensures |LStrip(s)| <= |s| && LStrip(s) == s[|s| - |LStrip(s)|..]
    ensures NonSpaces(LStrip(s)) == NonSpaces(s)
    decreases |s|
  {
    if s != "" && Space(s[0]) {
      LStripIsSuffix(s[1..]);
      NonSpacesAdd(s[..1], s[1..]);
      assert s[..1] + s[1..] == s && s[..1][..0] == "";
      assert NonSpaces(s[..1]) == NonSpaces("");
    }
  }

  lemma StripKeepsText(s: string)
    ensures NonSpaces(Strip(s)) == NonSpaces(s)
  {
    LStripIsSuffix(s);
    RStripKeepsText(LStrip(s));
  }
}
