/**
 What comments earn. The scanner sees a block comment only if it begins its line; every
 other comment is read as code. Here each way of failing has its exact condition.
 */
module CommentCredit {
  import opened Common
  import opened EligibleLines

  /** The marks of comments are not alphanumeric. */
  predicate Plain(r: Rules) { !r.alnum('/') && !r.alnum('*') && !r.alnum('#') && !r.alnum('-') }

  function Text(s: string): Line { Line(s, false) }

  // --- a mark behind code ---

  predicate Mark(mark: string) { mark == "/*" || mark == "//" || mark == "#" || mark == "--" }

  lemma MarkIsText(mark: string)
    requires Mark(mark)
    ensures mark != "" && forall c :: c in mark ==> !Space(c)
    ensures NonSpaces(mark) > 0
  {
    var n := |mark| - 1;
    assert NonSpaces(mark) == NonSpaces(mark[..n]) + 1;
  }

  /** A credited value keeps all its text. */
  lemma CreditKeepsText(value: string, r: Rules)
    requires Credited(value, r).Some?
    ensures NonSpaces(Credited(value, r).value) == NonSpaces(value)
  {
    SqueezeKeepsText(value);
  }

  lemma TextAround(pre: string, mark: string, text: string)
    requires Mark(mark)
    ensures NonSpaces(Strip(pre + mark + text)) == NonSpaces(pre) + NonSpaces(mark) + NonSpaces(text)
    ensures NonSpaces(mark) > 0
  {
    MarkIsText(mark);
    StripKeepsText(pre + mark + text);
    NonSpacesAdd(pre + mark, text);
    NonSpacesAdd(pre, mark);
  }

  /** With something before it, the mark does not begin the line: the line begins as the code does. */
  lemma BeginsAsCode(pre: string, mark: string, text: string)
    requires Strip(pre) != "" && Mark(mark)
    ensures Strip(pre) <= Strip(pre + mark + text)
    ensures !("/*" <= Strip(pre)) ==> !("/*" <= Strip(pre + mark + text))
  {
    MarkIsText(mark);
    MarkedLine(pre, mark, text);
    RStripIsPrefix(LStrip(pre));
    var own, value := Strip(pre), Strip(pre + mark + text);
    assert own <= LStrip(pre) <= value;
    if |own| == 1 {
      if |LStrip(pre)| > 1 {
        assert Space(LStrip(pre)[1]) && value[1] == LStrip(pre)[1];
      } else {
        assert value[1] == (mark + RStrip(text))[0] == mark[0];
        assert mark[0] != '*';
      }
    } else {
      assert value[0] == own[0] && value[1] == own[1];
    }
  }

  /** If the code alone is credited, so is the line with its comment. */
  lemma CodeIsCredited(pre: string, mark: string, text: string, r: Rules)
    requires Plain(r) && Mark(mark) && Credited(Strip(pre), r).Some?
    ensures Credited(Strip(pre + mark + text), r).Some?
  {
    BeginsAsCode(pre, mark, text);
    var own, value := Strip(pre), Strip(pre + mark + text);
    var c :| c in own && r.alnum(c);
    assert c in value;
    assert value[0] == own[0];
    if |own| == 1 { assert own == [c]; } else { assert value[1] == own[1]; }
  }

  /** Behind code, a comment is credited with it: the credit is the code's only if there is none at all. */
  lemma TrailingMark(pre: string, mark: string, text: string, r: Rules)
    requires Plain(r) && Mark(mark) && Strip(pre) != ""
    ensures Credited(Strip(pre + mark + text), r) == Credited(Strip(pre), r)
      <==> Credited(Strip(pre + mark + text), r).None?
  {
    var value := Strip(pre + mark + text);
    TextAround(pre, mark, text);
    StripKeepsText(pre);
    if Credited(Strip(pre), r).Some? {
      CodeIsCredited(pre, mark, text, r);
      CreditKeepsText(value, r);
      CreditKeepsText(Strip(pre), r);
    }
  }

  // --- where a comment ends ---

  lemma {:induction false} FirstClose(a: string, b: string)
    requires !Closes(a + "*")
    ensures ClosesAt(a + "*/" + b) == Some(|a|)
    decreases |a|
  {
    var s := a + "*/" + b;
    if a == "" {
      assert s[0] == '*' && s[1] == '/';
    } else {
      assert (a + "*")[1..] == a[1..] + "*" && s[1..] == a[1..] + "*/" + b;
      FirstClose(a[1..], b);
      assert s[0] == (a + "*")[0] && s[1] == (a + "*/")[1];
    }
  }

  lemma {:induction false} SuffixStaysOpen(s: string, n: nat)
    requires n <= |s| && !Closes(s)
    ensures !Closes(s[n..])
    decreases n
  {
    if n == 0 {
      assert s[0..] == s;
    } else {
      SuffixStaysOpen(s[1..], n - 1);
      assert s[1..][n - 1..] == s[n..];
    }
  }

  /** The last line of a comment: what its end leaves behind. */
  lemma ClosingLine(head: string, tail: string)
    requires !Closes(head + "*")
    ensures var value := Strip(head + "*/" + tail);
      && value == LStrip(head) + "*/" + RStrip(tail) && Closes(value)
      && ClosesAt(value).value == |LStrip(head)| && Rest(value) == Strip(tail)
  {
    MarkedLine(head, "*/", tail);
    LStripIsSuffix(head);
    var n := |head| - |LStrip(head)|;
    SuffixStaysOpen(head + "*", n);
    assert (head + "*")[n..] == LStrip(head) + "*";
    FirstClose(LStrip(head), RStrip(tail));
    var value := Strip(head + "*/" + tail);
    assert value[|LStrip(head)| + 2..] == RStrip(tail);
    StripTwice(tail);
  }

  /** What follows an end is less text than the line. */
  lemma RestIsLess(value: string)
    requires Closes(value)
    ensures NonSpaces(Rest(value)) < NonSpaces(value)
  {
    var at := ClosesAt(value).value;
    StripKeepsText(value[at + 2..]);
    NonSpacesAdd(value[..at + 2], value[at + 2..]);
    assert value[..at + 2] + value[at + 2..] == value;
    assert NonSpaces(value[..at + 2]) > 0 by { assert !Space(value[at + 1]); }
  }

  lemma OutsideKeepsText(value: string, r: Rules)
    requires Outside(value, r).1.Some?
    ensures NonSpaces(Outside(value, r).1.value) <= NonSpaces(value)
    ensures "/*" <= value ==> NonSpaces(Outside(value, r).1.value) < NonSpaces(value)
  {
    if "/*" <= value {
      RestIsLess(value);
      CreditKeepsText(Rest(value), r);
    } else {
      CreditKeepsText(value, r);
    }
  }

  /** Empty, a line comment, or without any letter or digit. */
  predicate Worthless(value: string, r: Rules) {
    || value == "" || "//" <= value || (r.hashComments && "#" <= value) || (r.sql && "--" <= value)
    || forall c :: c in value ==> !r.alnum(c)
  }

  /** Such a line, or such a rest behind a comment that begins the line and ends on it. */
  predicate Idle(s: string, r: Rules) {
    var value := Strip(s);
    if "/*" <= value then Closes(value) && Worthless(Rest(value), r) else Worthless(value, r)
  }

  /** So is every line that neither earns anything nor opens a comment, and no other. */
  lemma IdleExactly(s: string, r: Rules)
    ensures Idle(s, r) <==> Outside(Strip(s), r) == (false, None)
  {}

  lemma ReadOutside(s: string, r: Rules)
    ensures Read(false, Text(s), r) == Outside(Strip(s), r)
  {}

  /**
   The end of a comment whose opening was not seen, against the code behind it: read alike
   exactly if the end's line begins with an opening of its own and the code behind does not,
   or if neither earns or opens anything.
   */
  lemma UnseenEnd(head: string, tail: string, r: Rules)
    requires !Closes(head + "*")
    ensures Outside(Strip(head + "*/" + tail), r) == Outside(Strip(tail), r) <==>
      || ("/*" <= Strip(head + "*/" + tail) && !("/*" <= Strip(tail)))
      || (Idle(head + "*/" + tail, r) && Idle(tail, r))
  {
    hide Idle;
    IdleExactly(head + "*/" + tail, r);
    IdleExactly(tail, r);
    var value, after := Strip(head + "*/" + tail), Strip(tail);
    ClosingLine(head, tail);
    RestIsLess(value);
    var a, b := Outside(value, r), Outside(after, r);
    assert !a.0;
    if a.1.Some? && b.1.Some? { OutsideKeepsText(after, r); }
    if "/*" <= value {
      assert a == (false, Credited(after, r));
      if a.1.Some? { CreditKeepsText(after, r); }
    } else if a.1.Some? {
      CreditKeepsText(value, r);
    }
  }

  // --- behind an earlier comment of the line ---

  /** The text is not left inside a comment that begins it. */
  predicate NotInComment(pre: string) { "/*" <= Strip(pre) ==> Closes(pre) }

  function BehindClose(pre: string): string
    requires Closes(pre)
  {
    pre[ClosesAt(pre).value + 2..]
  }

  /** Behind a comment that begins the line everything is read as code, another comment included. */
  lemma AfterComment(pre: string, more: string, r: Rules)
    requires "/*" <= Strip(pre) && Closes(pre)
    ensures Outside(Strip(pre + more), r) == (false, Credited(Strip(BehindClose(pre) + more), r))
  {
    var at := ClosesAt(pre).value;
    var head, behind := pre[..at], pre[at + 2..];
    assert pre == head + "*/" + behind;
    forall k | 0 <= k < |head + "*"| - 1 ensures (head + "*")[k] != '*' || (head + "*")[k + 1] != '/' {
      assert (head + "*")[k] == pre[k] && (head + "*")[k + 1] == pre[k + 1];
    }
    NoClose(head + "*");
    ClosingLine(head, behind);
    ClosingLine(head, behind + more);
    assert pre + more == head + "*/" + (behind + more);
    BeginsAlike(LStrip(head), RStrip(behind), RStrip(behind + more));
  }

  lemma BeginsAlike(head: string, a: string, b: string)
    requires "/*" <= head + "*/" + a
    ensures "/*" <= head + "*/" + b
  {
    var x, y := head + "*/" + a, head + "*/" + b;
    assert x[0] == '/' && x[1] == '*';
    assert x[..|head| + 2] == head + "*/" == y[..|head| + 2];
    assert y[0] == x[..|head| + 2][0] && y[1] == x[..|head| + 2][1];
  }

  /** A mark there is credited with the code around it, or nothing is. */
  lemma BehindComment(pre: string, mark: string, text: string, r: Rules)
    requires Plain(r) && Mark(mark) && "/*" <= Strip(pre) && Closes(pre)
    ensures !Outside(Strip(pre + mark + text), r).0
    ensures Read(false, Text(pre + mark + text), r) == Read(false, Text(pre), r) <==> Idle(pre + mark + text, r)
  {
    hide Strip, ClosesAt, Squeeze, HasAlnum, Outside, Read, Idle;
    IdleExactly(pre + mark + text, r);
    var behind := BehindClose(pre);
    AfterComment(pre, mark + text, r);
    AfterComment(pre, "", r);
    assert pre + (mark + text) == pre + mark + text && pre + "" == pre && behind + "" == behind;
    assert behind + (mark + text) == behind + mark + text;
    ReadOutside(pre + mark + text, r);
    ReadOutside(pre, r);
    if Strip(behind) != "" { TrailingMark(behind, mark, text, r); }
  }

  // --- line comments ---

  /**
   A line comment earns nothing beyond the code before it exactly if it begins its line
   (with a mark of the language), or the whole line earns nothing.
   */
  lemma LineCommentsExactly(pre: string, mark: string, note: string, r: Rules)
    requires Plain(r) && (mark == "//" || (mark == "#" && r.hashComments) || (mark == "--" && r.sql))
    requires NotInComment(pre)
    ensures Read(false, Text(pre + mark + note), r) == Read(false, Text(pre), r) <==>
      Strip(pre) == "" || Idle(pre + mark + note, r)
  {
    MarkIsText(mark);
    ReadOutside(pre + mark + note, r);
    if "/*" <= Strip(pre) {
      BehindComment(pre, mark, note, r);
    } else if Strip(pre) == "" {
      BlankStart(pre);
      MarkedLine(pre, mark, note);
      assert mark <= Strip(pre + mark + note);
    } else {
      BeginsAsCode(pre, mark, note);
      TrailingMark(pre, mark, note, r);
    }
  }

  // --- a comment within one line ---

  /**
   A block comment that ends on its line, against a blank in its place: read alike exactly
   if the comment begins the line, is not the odd slash-star-slash, and no other comment
   follows it at once; or if the line earns and opens nothing with it and without it.
   */
  lemma InlineCommentsExactly(pre: string, body: string, tail: string, r: Rules)
    requires Plain(r) && !Closes(body + "*") && NotInComment(pre)
    ensures Read(false, Text(pre + "/*" + body + "*/" + tail), r) == Read(false, Text(pre + " " + tail), r) <==>
      || (Strip(pre) == "" && !("/" <= body) && !("/*" <= Strip(tail)))
      || (Idle(pre + "/*" + body + "*/" + tail, r) && Idle(pre + " " + tail, r))
  {
    var line := pre + "/*" + body + "*/" + tail;
    ReadOutside(line, r);
    ReadOutside(pre + " " + tail, r);
    if Strip(pre) == "" {
      InlineAtStart(pre, body, tail, r);
    } else if "/*" <= Strip(pre) {
      InlineBehindComment(pre, body, tail, r);
    } else {
      InlineBehindCode(pre, body, tail, r);
    }
  }

  lemma InlineText(pre: string, body: string, tail: string)
    ensures NonSpaces(Strip(pre + "/*" + body + "*/" + tail)) > NonSpaces(Strip(pre + " " + tail))
    ensures NonSpaces(Strip(pre + " " + tail)) >= NonSpaces(Strip(tail))
  {
    var rest := body + "*/" + tail;
    assert pre + "/*" + body + "*/" + tail == pre + "/*" + rest;
    TextAround(pre, "/*", rest);
    NonSpacesAdd(body + "*/", tail);
    NonSpacesAdd(body, "*/");
    StripKeepsText(pre + " " + tail);
    StripKeepsText(tail);
    NonSpacesAdd(pre + " ", tail);
    NonSpacesAdd(pre, " ");
    assert NonSpaces(" ") == 0 by { assert " "[..0] == ""; }
  }

  lemma InlineBehindComment(pre: string, body: string, tail: string, r: Rules)
    requires Plain(r) && "/*" <= Strip(pre) && Closes(pre)
    ensures Outside(Strip(pre + "/*" + body + "*/" + tail), r) == Outside(Strip(pre + " " + tail), r) <==>
      Idle(pre + "/*" + body + "*/" + tail, r) && Idle(pre + " " + tail, r)
  {
    var behind := BehindClose(pre);
    AfterComment(pre, "/*" + body + "*/" + tail, r);
    AfterComment(pre, " " + tail, r);
    assert pre + ("/*" + body + "*/" + tail) == pre + "/*" + body + "*/" + tail;
    assert behind + ("/*" + body + "*/" + tail) == behind + "/*" + body + "*/" + tail;
    assert pre + (" " + tail) == pre + " " + tail && behind + (" " + tail) == behind + " " + tail;
    InlineText(behind, body, tail);
    var a, b := Strip(behind + "/*" + body + "*/" + tail), Strip(behind + " " + tail);
    if Credited(a, r).Some? {
      CreditKeepsText(a, r);
      if Credited(b, r).Some? { CreditKeepsText(b, r); }
    }
  }

  lemma InlineBehindCode(pre: string, body: string, tail: string, r: Rules)
    requires Plain(r) && Strip(pre) != "" && !("/*" <= Strip(pre))
    ensures Outside(Strip(pre + "/*" + body + "*/" + tail), r) == Outside(Strip(pre + " " + tail), r) <==>
      Idle(pre + "/*" + body + "*/" + tail, r) && Idle(pre + " " + tail, r)
  {
    var line, code := pre + "/*" + body + "*/" + tail, pre + " " + tail;
    var rest := body + "*/" + tail;
    assert line == pre + "/*" + rest;
    BeginsAsCode(pre, "/*", rest);
    InlineText(pre, body, tail);
    if Outside(Strip(line), r).1.Some? {
      CreditKeepsText(Strip(line), r);
      if Outside(Strip(code), r).1.Some? { OutsideKeepsText(Strip(code), r); }
    }
  }

  lemma BlankBefore(pre: string, tail: string)
    requires Strip(pre) == ""
    ensures Strip(pre + " " + tail) == Strip(tail)
  {
    BlankStart(pre);
    SkipBlanks(pre, " " + tail);
    assert pre + " " + tail == pre + (" " + tail);
    assert (" " + tail)[1..] == tail;
  }

  lemma {:induction false} SkipBlanks(blank: string, s: string)
    requires LStrip(blank) == ""
    ensures LStrip(blank + s) == LStrip(s)
    decreases |blank|
  {
    if blank == "" {
      assert blank + s == s;
    } else {
      assert (blank + s)[1..] == blank[1..] + s;
      SkipBlanks(blank[1..], s);
    }
  }

  lemma InlineAtStart(pre: string, body: string, tail: string, r: Rules)
    requires Plain(r) && Strip(pre) == "" && !Closes(body + "*")
    ensures Outside(Strip(pre + "/*" + body + "*/" + tail), r) == Outside(Strip(pre + " " + tail), r) <==>
      || (!("/" <= body) && !("/*" <= Strip(tail)))
      || (Idle(pre + "/*" + body + "*/" + tail, r) && Idle(pre + " " + tail, r))
  {
    var line, after := pre + "/*" + body + "*/" + tail, Strip(tail);
    var value := Strip(line);
    BlankBefore(pre, tail);
    BlankStart(pre);
    assert line == pre + "/*" + (body + "*/" + tail);
    MarkedLine(pre, "/*", body + "*/" + tail);
    assert "/*" <= value;
    if "/" <= body {
      OddInline(pre, body, tail, r);
    } else {
      StaysOpen(body);
      assert "/*" + body + "*" == "/*" + (body + "*");
      assert pre + "/*" + body == pre + ("/*" + body);
      SkipBlanks(pre, "/*" + body);
      LineEndsOnce(pre, body, tail);
      var a, b := Outside(value, r), Outside(after, r);
      assert a == (false, Credited(after, r));
      if "/*" <= after && a.1.Some? {
        CreditKeepsText(after, r);
        if b.1.Some? { OutsideKeepsText(after, r); }
      }
    }
  }

  lemma {:induction false} OnlyBlanks(pre: string)
    requires LStrip(pre) == ""
    ensures forall c :: c in pre ==> Space(c)
    decreases |pre|
  {
    if pre != "" { OnlyBlanks(pre[1..]); }
  }

  /** Slash-star-slash is read as an opening and its end: what follows is read as code. */
  lemma OddOpening(pre: string, rest: string)
    requires Strip(pre) == "" && "/" <= rest
    ensures var value := Strip(pre + "/*" + rest);
      "/*" <= value && Closes(value) && Rest(value) == Strip(rest[1..])
  {
    BlankStart(pre);
    OnlyBlanks(pre);
    MarkedLine(pre, "/*", rest);
    var head := pre + "/";
    var s := head + "*";
    forall k | 0 <= k < |s| - 1 ensures s[k] != '*' {
      if k < |pre| { assert pre[k] in pre; }
    }
    NoClose(s);
    ClosingLine(head, rest[1..]);
    assert pre + "/*" + rest == head + "*/" + rest[1..];
  }

  lemma OddInline(pre: string, body: string, tail: string, r: Rules)
    requires Strip(pre) == "" && "/" <= body
    ensures Outside(Strip(pre + "/*" + body + "*/" + tail), r) == Outside(Strip(tail), r) <==>
      Idle(pre + "/*" + body + "*/" + tail, r) && Idle(tail, r)
  {
    var rest := body + "*/" + tail;
    assert pre + "/*" + body + "*/" + tail == pre + "/*" + rest;
    OddOpening(pre, rest);
    var left := rest[1..];
    assert left == body[1..] + "*/" + tail;
    var a, b := Outside(Strip(pre + "/*" + rest), r), Outside(Strip(tail), r);
    assert a == (false, Credited(Strip(left), r));
    if a.1.Some? && b.1.Some? {
      CreditKeepsText(Strip(left), r);
      OutsideKeepsText(Strip(tail), r);
      StripKeepsText(left);
      StripKeepsText(tail);
      NonSpacesAdd(body[1..] + "*/", tail);
      NonSpacesAdd(body[1..], "*/");
      assert NonSpaces("*/") > 0;
    }
  }

  /** An opening is not closed by what does not close, unless a slash follows it. */
  lemma StaysOpen(text: string)
    requires !("/" <= text) && !Closes(text + "*")
    ensures !Closes("/*" + text + "*")
  {
    var s := "/*" + text + "*";
    var t := text + "*";
    forall k | 0 <= k < |s| - 1 ensures s[k] != '*' || s[k + 1] != '/' {
      if k >= 2 { assert s[k] == t[k - 2] && s[k + 1] == t[k - 1]; }
    }
    NoClose(s);
  }

  lemma NoClose(s: string)
    requires forall k :: 0 <= k < |s| - 1 ==> s[k] != '*' || s[k + 1] != '/'
    ensures !Closes(s)
  {}

  lemma LineEndsOnce(pre: string, body: string, tail: string)
    requires Strip(pre) == "" && !Closes("/*" + body + "*")
    ensures var value := Strip(pre + "/*" + body + "*/" + tail);
      Closes(value) && Rest(value) == Strip(tail)
  {
    var line := pre + "/*" + body + "*/" + tail;
    BlankStart(pre);
    assert line == pre + ("/*" + body + "*/" + tail);
    SkipBlanks(pre, "/*" + body + "*/" + tail);
    assert LStrip("/*" + body + "*/" + tail) == "/*" + body + "*/" + tail;
    assert Strip(line) == Strip("/*" + body + "*/" + tail);
    ClosingLine("/*" + body, tail);
  }

  // --- a comment over several lines ---

  /** Line by line: whether a comment is open at the end, and what each line earns. */
  function ReadAll(inside: bool, lines: seq<Line>, r: Rules): (bool, seq<Option<string>>) {
    if lines == [] then (inside, [])
    else
      var (before, earned) := ReadAll(inside, lines[..|lines| - 1], r);
      var (after, line) := Read(before, lines[|lines| - 1], r);
      (after, earned + [line])
  }

  lemma ReadMore(inside: bool, lines: seq<Line>, l: Line, r: Rules)
    ensures var (before, earned) := ReadAll(inside, lines, r);
      ReadAll(inside, lines + [l], r) == (Read(before, l, r).0, earned + [Read(before, l, r).1])
    ensures ReadAll(inside, [], r) == (inside, [])
  {
    assert (lines + [l])[..|lines|] == lines;
  }

  lemma ReadOne(inside: bool, l: Line, r: Rules)
    ensures ReadAll(inside, [l], r) == (Read(inside, l, r).0, [Read(inside, l, r).1])
  {
    ReadMore(inside, [], l, r);
    assert [] + [l] == [l];
    assert [] + [Read(inside, l, r).1] == [Read(inside, l, r).1];
  }

  lemma {:induction false} ReadAppend(inside: bool, a: seq<Line>, b: seq<Line>, r: Rules)
    ensures var (middle, first) := ReadAll(inside, a, r);
      var (end, second) := ReadAll(middle, b, r);
      ReadAll(inside, a + b, r) == (end, first + second)
    decreases |b|
  {
    hide ReadAll, Read;
    var (middle, first) := ReadAll(inside, a, r);
    if b == [] {
      assert a + b == a && first + [] == first;
      ReadMore(middle, [], Text(""), r);
    } else {
      var init, l := b[..|b| - 1], b[|b| - 1];
      ReadAppend(inside, a, init, r);
      var (before, second) := ReadAll(middle, init, r);
      assert a + b == a + init + [l] && b == init + [l];
      ReadMore(inside, a + init, l, r);
      ReadMore(middle, init, l, r);
      assert first + second + [Read(before, l, r).1] == first + (second + [Read(before, l, r).1]);
    }
  }

  lemma {:induction false} OneEach(inside: bool, lines: seq<Line>, r: Rules)
    ensures |ReadAll(inside, lines, r).1| == |lines|
    decreases |lines|
  {
    if lines != [] { OneEach(inside, lines[..|lines| - 1], r); }
  }

  function AllListed(earned: seq<Option<string>>): seq<string> {
    if earned == [] then [] else AllListed(earned[..|earned| - 1]) + Listed(earned[|earned| - 1])
  }

  /** The scan credits what its lines earn, in order. */
  lemma {:induction false} ScanIsReadAll(s: Scanned, lines: seq<Line>, r: Rules)
    ensures var (inside, earned) := ReadAll(s.inside, lines, r);
      Scan(s, lines, r) == Scanned(inside, s.credited + AllListed(earned))
    decreases |lines|
  {
    hide Read, ReadAll, AllListed, Listed;
    if lines == [] {
      NoneListed();
      ReadMore(s.inside, [], Text(""), r);
      assert s.credited + AllListed([]) == s.credited;
    } else {
      var init, last := lines[..|lines| - 1], lines[|lines| - 1];
      assert lines == init + [last];
      ScanIsReadAll(s, init, r);
      ReadMore(s.inside, init, last, r);
      var (before, earned) := ReadAll(s.inside, init, r);
      var line := Read(before, last, r).1;
      ListMore(earned, line);
      assert s.credited + AllListed(earned) + Listed(line) == s.credited + (AllListed(earned) + Listed(line));
    }
  }

  lemma NoneListed()
    ensures AllListed([]) == []
  {}

  lemma ListMore(earned: seq<Option<string>>, line: Option<string>)
    ensures AllListed(earned + [line]) == AllListed(earned) + Listed(line)
  {
    assert (earned + [line])[..|earned|] == earned;
  }

  function Nothing(n: nat): seq<Option<string>> { seq(n, k => None) }

  predicate Opens(l: Line) { !l.docstring && "/*" <= Strip(l.text) }

  /** The first line that begins with an opening. */
  function FirstOpening(lines: seq<Line>): (n: nat)
    ensures n <= |lines|
  {
    if lines == [] then 0
    else
      var before := FirstOpening(lines[..|lines| - 1]);
      if before < |lines| - 1 || Opens(lines[|lines| - 1]) then before else |lines|
  }

  predicate Dull(l: Line, r: Rules) { l.docstring || Worthless(Strip(l.text), r) }

  /** The lines before the first that begins with an opening earn nothing as code. */
  predicate DullAtFirst(lines: seq<Line>, r: Rules) {
    forall k :: 0 <= k < FirstOpening(lines) ==> Dull(lines[k], r)
  }

  predicate NoneCloses(lines: seq<Line>) { forall k :: 0 <= k < |lines| ==> !Closes(Strip(lines[k].text)) }

  lemma {:induction false} InteriorInside(lines: seq<Line>, r: Rules)
    requires NoneCloses(lines)
    ensures ReadAll(true, lines, r) == (true, Nothing(|lines|))
    decreases |lines|
  {
    hide ReadAll, Read;
    if lines == [] {
      ReadMore(true, [], Text(""), r);
      assert Nothing(0) == [];
    } else {
      var n := |lines| - 1;
      var init, last := lines[..n], lines[n];
      assert lines == init + [last] && forall k :: 0 <= k < n ==> lines[k] == init[k];
      InteriorInside(init, r);
      ReadMore(true, init, last, r);
      ReadInterior(true, last, r);
      assert Nothing(n) + [None] == Nothing(n + 1);
    }
  }

  /** The interior of a comment whose opening was not seen is read as code, up to a line that begins with an opening. */
  lemma {:induction false} InteriorAsCode(lines: seq<Line>, r: Rules)
    requires NoneCloses(lines)
    ensures ReadAll(false, lines, r).0 <==> FirstOpening(lines) < |lines|
    ensures ReadAll(false, lines, r).1 == Nothing(|lines|) <==> DullAtFirst(lines, r)
    decreases |lines|
  {
    if lines != [] {
      hide ReadAll, Read, Dull, DullAtFirst, Opens, FirstOpening;
      var n := |lines| - 1;
      var init, last := lines[..n], lines[n];
      assert lines == init + [last];
      InteriorAsCode(init, r);
      OneEach(false, init, r);
      ReadMore(false, init, last, r);
      var (before, earned) := ReadAll(false, init, r);
      assert lines[n] == last && forall k :: 0 <= k < n ==> lines[k] == init[k];
      ReadInterior(before, last, r);
      var line := Read(before, last, r);
      OneMoreNothing(earned, line.1);
      assert ReadAll(false, lines, r) == (line.0, earned + [line.1]) && |earned| == n;
      OneMoreLine(init, last, r);
    } else {
      ReadMore(false, [], Text(""), r);
      assert Nothing(0) == [];
    }
  }

  lemma ReadInterior(inside: bool, l: Line, r: Rules)
    requires !Closes(Strip(l.text))
    ensures Read(inside, l, r).0 <==> inside || Opens(l)
    ensures Read(inside, l, r).1 == None <==> inside || Opens(l) || Dull(l, r)
  {}

  lemma OneMoreNothing(earned: seq<Option<string>>, line: Option<string>)
    ensures earned + [line] == Nothing(|earned| + 1) <==> earned == Nothing(|earned|) && line == None
  {
    var more := earned + [line];
    assert Nothing(|earned| + 1) == Nothing(|earned|) + [None];
    assert more[..|earned|] == earned && more[|earned|] == line;
  }

  lemma OneMoreLine(init: seq<Line>, last: Line, r: Rules)
    ensures FirstOpening(init + [last]) ==
      if FirstOpening(init) < |init| || Opens(last) then FirstOpening(init) else |init| + 1
    ensures DullAtFirst(init + [last], r) <==>
      DullAtFirst(init, r) && (FirstOpening(init) < |init| || Opens(last) || Dull(last, r))
  {
    var lines := init + [last];
    assert lines[..|init|] == init;
    if DullAtFirst(lines, r) {
      forall k | 0 <= k < FirstOpening(init) ensures Dull(init[k], r) { assert lines[k] == init[k]; }
      if FirstOpening(init) == |init| && !Opens(last) { assert Dull(lines[|init|], r); }
    }
  }

  function Blanks(n: nat): seq<Line> { seq(n, k => Text("")) }

  lemma {:induction false} BlankLines(n: nat, r: Rules)
    ensures ReadAll(false, Blanks(n), r) == (false, Nothing(n))
  {
    ReadMore(false, Blanks(if n > 0 then n - 1 else 0), Text(""), r);
    if n > 0 {
      BlankLines(n - 1, r);
      assert Blanks(n) == Blanks(n - 1) + [Text("")];
      assert Strip("") == "";
      assert Nothing(n - 1) + [None] == Nothing(n);
    } else {
      assert Blanks(n) == [] && Nothing(n) == [];
    }
  }

  function CommentLines(pre: string, text: string, interior: seq<Line>, head: string, tail: string): seq<Line> {
    [Text(pre + "/*" + text)] + interior + [Text(head + "*/" + tail)]
  }

  /** The same lines with the comment blanked out. */
  function CodeLines(pre: string, interior: seq<Line>, tail: string): seq<Line> {
    [Text(pre)] + Blanks(|interior|) + [Text(tail)]
  }

  /** `pre` and `tail` are the code around the comment, `text` and `head` what it holds on its first and last line. */
  predicate BlockComment(pre: string, text: string, interior: seq<Line>, head: string) {
    NotInComment(pre) && !Closes(text) && NoneCloses(interior) && !Closes(head + "*")
  }

  predicate BeginsLine(pre: string, text: string) { Strip(pre) == "" && !("/" <= text) }

  /** What the last line of an unseen comment does is what the code behind it does. */
  predicate EndIsCode(head: string, tail: string, r: Rules) {
    || ("/*" <= Strip(head + "*/" + tail) && !("/*" <= Strip(tail)))
    || (Idle(head + "*/" + tail, r) && Idle(tail, r))
  }

  /** Nothing of the comment is credited although its opening is not seen. */
  predicate EarnsNothingAsCode(
    pre: string, text: string, interior: seq<Line>, head: string, tail: string, r: Rules)
  {
    && Idle(pre + "/*" + text, r) && DullAtFirst(interior, r)
    && (FirstOpening(interior) < |interior| || EndIsCode(head, tail, r))
  }

  lemma OpeningSeen(pre: string, text: string, r: Rules)
    requires BeginsLine(pre, text) && !Closes(text)
    ensures Read(false, Text(pre + "/*" + text), r) == (true, None) && Read(false, Text(pre), r) == (false, None)
  {
    BlankStart(pre);
    MarkedLine(pre, "/*", text);
    RStripIsPrefix(text);
    var value := "/*" + RStrip(text);
    forall k | 0 <= k < |value| - 1 ensures value[k] != '*' || value[k + 1] != '/' {
      if k >= 2 { assert value[k] == text[k - 2] && value[k + 1] == text[k - 1]; }
    }
    NoClose(value);
  }

  lemma OpeningUnseen(pre: string, text: string, r: Rules)
    requires Plain(r) && !BeginsLine(pre, text) && NotInComment(pre)
    ensures !Read(false, Text(pre + "/*" + text), r).0
    ensures Read(false, Text(pre + "/*" + text), r) == Read(false, Text(pre), r) <==> Idle(pre + "/*" + text, r)
  {
    if Strip(pre) == "" {
      OddOpening(pre, text);
    } else if "/*" <= Strip(pre) {
      BehindComment(pre, "/*", text, r);
    } else {
      BeginsAsCode(pre, "/*", text);
      TrailingMark(pre, "/*", text, r);
    }
  }

  /**
   A block comment over several lines, against the same lines with the comment blanked out:
   every line earns alike, and a comment is open alike afterwards, exactly if the comment
   begins its line (and not as slash-star-slash), or nothing of it is creditable as code.
   */
  lemma BlockCommentsExactly(
    pre: string, text: string, interior: seq<Line>, head: string, tail: string, r: Rules)
    requires Plain(r) && BlockComment(pre, text, interior, head)
    ensures ReadAll(false, CommentLines(pre, text, interior, head, tail), r)
        == ReadAll(false, CodeLines(pre, interior, tail), r)
      <==> BeginsLine(pre, text) || EarnsNothingAsCode(pre, text, interior, head, tail, r)
  {
    hide Read, ReadAll, Idle, DullAtFirst, NoneCloses, ClosesAt, Outside, FirstOpening, Strip, Blanks;
    var first, last := Text(pre + "/*" + text), Text(head + "*/" + tail);
    var blank := Blanks(|interior|);
    ThreeParts(false, first, interior, last, r);
    ThreeParts(false, Text(pre), blank, Text(tail), r);
    BlankLines(|interior|, r);
    assert |blank| == |interior| by { BlankCount(|interior|); }
    ReadOutside(head + "*/" + tail, r);
    ReadOutside(tail, r);
    if BeginsLine(pre, text) {
      OpeningSeen(pre, text, r);
      InteriorInside(interior, r);
      EndSeen(head, tail, r);
    } else {
      OpeningUnseen(pre, text, r);
      InteriorAsCode(interior, r);
      OneEach(false, interior, r);
      UnseenEnd(head, tail, r);
      var a, b := Read(false, first, r), Read(false, Text(pre), r);
      assert !b.0 by { CodeLeavesNoneOpen(pre, r); }
      EndSeen(head, tail, r);
      var (inside, earned) := ReadAll(false, interior, r);
      var x, y := Read(inside, last, r), Read(false, Text(tail), r);
      SameParts(a.1, earned, x.1, b.1, Nothing(|interior|), y.1);
    }
  }

  lemma BlankCount(n: nat)
    ensures |Blanks(n)| == n == |Nothing(n)|
  {}

  lemma EndSeen(head: string, tail: string, r: Rules)
    requires !Closes(head + "*")
    ensures Read(true, Text(head + "*/" + tail), r) == Outside(Strip(tail), r)
  {
    ClosingLine(head, tail);
  }

  lemma CodeLeavesNoneOpen(pre: string, r: Rules)
    requires NotInComment(pre)
    ensures !Read(false, Text(pre), r).0
  {
    if "/*" <= Strip(pre) {
      AfterComment(pre, "", r);
      assert pre + "" == pre;
    }
  }

  lemma ThreeParts(inside: bool, first: Line, middle: seq<Line>, last: Line, r: Rules)
    ensures var a := Read(inside, first, r);
      var (before, earned) := ReadAll(a.0, middle, r);
      var b := Read(before, last, r);
      ReadAll(inside, [first] + middle + [last], r) == (b.0, [a.1] + earned + [b.1])
  {
    ReadOne(inside, first, r);
    ReadAppend(inside, [first], middle, r);
    ReadAppend(inside, [first] + middle, [last], r);
    ReadOne(ReadAll(inside, [first] + middle, r).0, last, r);
  }

  lemma SameParts<T(!new)>(a: T, b: seq<T>, c: T, x: T, y: seq<T>, z: T)
    requires |b| == |y|
    ensures [a] + b + [c] == [x] + y + [z] <==> a == x && b == y && c == z
  {
    var s, t := [a] + b + [c], [x] + y + [z];
    if s == t {
      assert s[0] == a && t[0] == x && s[1..|b| + 1] == b && t[1..|b| + 1] == y;
      assert s[|b| + 1] == c && t[|b| + 1] == z;
    }
  }

  /** Then, outside comments, the file earns as much with the comment as with the comment blanked out. */
  lemma CommentMayBeBlanked(
    before: seq<Line>, pre: string, text: string, interior: seq<Line>, head: string, tail: string,
    after: seq<Line>, r: Rules)
    requires Plain(r) && BlockComment(pre, text, interior, head) && !Scan(START, before, r).inside
    requires BeginsLine(pre, text) || EarnsNothingAsCode(pre, text, interior, head, tail, r)
    ensures Scan(START, before + CommentLines(pre, text, interior, head, tail) + after, r)
      == Scan(START, before + CodeLines(pre, interior, tail) + after, r)
  {
    var comment, code := CommentLines(pre, text, interior, head, tail), CodeLines(pre, interior, tail);
    BlockCommentsExactly(pre, text, interior, head, tail, r);
    ScanAppend(START, before + comment, after, r);
    ScanAppend(START, before + code, after, r);
    ScanAppend(START, before, comment, r);
    ScanAppend(START, before, code, r);
    ScanIsReadAll(Scan(START, before, r), comment, r);
    ScanIsReadAll(Scan(START, before, r), code, r);
  }

  // --- inputs ---

  /** A comment in a brace, as in JSX: the brace earns nothing, the comment behind it does. */
  lemma BracedCommentEarns(r: Rules)
    requires Plain(r) && !r.alnum('{') && r.alnum('n')
    ensures BlockComment("{", "n", [], "") && !EarnsNothingAsCode("{", "n", [], "", "}", r)
    ensures Read(false, Text("{"), r) == (false, None) && Read(false, Text("{/*n"), r) == (false, Some("{/*n"))
  {
    hide Read, ClosesAt, Outside;
    BraceAlone(r);
    CodeLine("{/*n", 3, r);
    assert "{" + "/*" + "n" == "{/*n";
    NoClose("n");
    NoClose("" + "*");
    ReadOutside("{/*n", r);
  }

  lemma BraceAlone(r: Rules)
    requires !r.alnum('{')
    ensures Read(false, Text("{"), r) == (false, None) && Strip("{") == "{"
  {
    Solid("{");
    assert !HasAlnum("{", r);
  }

  /** Code and a note behind it: the line is no longer the one that the baseline had. */
  lemma NotedLineEarns(r: Rules)
    requires Plain(r) && r.alnum('x')
    ensures Read(false, Text("x"), r) == (false, Some("x"))
    ensures Read(false, Text("x//n"), r) == (false, Some("x//n"))
    ensures Read(false, Text("x/*n*/"), r) == (false, Some("x/*n*/"))
  {
    hide Read;
    CodeLine("x", 0, r);
    CodeLine("x//n", 0, r);
    CodeLine("x/*n*/", 0, r);
  }

  lemma CodeLine(s: string, k: nat, r: Rules)
    requires k < |s| && r.alnum(s[k]) && s[0] !in "/#-" && forall c :: c in s ==> !Space(c)
    ensures Read(false, Text(s), r) == (false, Some(s))
  {
    Solid(s);
    assert s[k] in s;
    assert "/#-"[0] == '/' && "/#-"[1] == '#' && "/#-"[2] == '-';
    hide Strip, Squeeze;
  }

  /** Text without white space is neither stripped nor squeezed. */
  lemma {:induction false} Solid(s: string)
    requires forall c :: c in s ==> !Space(c)
    ensures Strip(s) == s && Squeeze(s) == s
    decreases |s|
  {
    if s != "" { Solid(s[..|s| - 1]); }
  }
}
