/** The built-in comparer of a judge: outputs are equal up to line endings, trailing blanks and trailing empty lines. */
module OutputCompare {
  import opened Text
  import opened Verdicts

  datatype Mode = Default | Strict | Custom | Other(name: string)

  // ---- the pieces of normalizedLines --------------------------------------

  /** strings.ReplaceAll(s, "\r\n", "\n"). */
  function DropReturns(s: string): (r: string)
  {
    if s == "" then ""
    else if "\r\n" <= s then "\n" + DropReturns(s[2..])
    else [s[0]] + DropReturns(s[1..])
  }

  /** strings.ReplaceAll(s, "\r", "\n"). */
  function ReturnsToNewlines(s: string): (r: string)
    ensures '\r' !in r
    ensures '\r' !in s ==> r == s
  {
    if s == "" then ""
    else [if s[0] == '\r' then '\n' else s[0]] + ReturnsToNewlines(s[1..])
  }

  predicate Blank(c: char) { c == ' ' || c == '\t' }

  function TrimRight(line: string): (r: string)
    ensures r <= line
    ensures r == "" || (r[|r| - 1] != ' ' && r[|r| - 1] != '\t')
    ensures forall i | |r| <= i < |line| :: line[i] == ' ' || line[i] == '\t'
  {
    if line != "" && Blank(line[|line| - 1]) then TrimRight(line[..|line| - 1]) else line
  }

  function TrimLines(lines: seq<string>): (r: seq<string>)
  {
    seq(|lines|, i requires 0 <= i < |lines| => TrimRight(lines[i]))
  }

  function DropEmptyTail(lines: seq<string>): (r: seq<string>)
    ensures r <= lines
    ensures r == [] || r[|r| - 1] != ""
    ensures forall i | |r| <= i < |lines| :: lines[i] == ""
  {
    if lines != [] && lines[|lines| - 1] == "" then DropEmptyTail(lines[..|lines| - 1]) else lines
  }

  /** The lines that count: endings unified, trailing blanks and trailing empty lines removed. */
  function Lines(raw: string): seq<string>
  {
    DropEmptyTail(TrimLines(Split(ReturnsToNewlines(DropReturns(raw)), '\n')))
  }

  function Normalized(raw: string): string { Join(Lines(raw), '\n') }

  /** `normalizedLines`, with the loops that trim each line in place and shrink the slice. */
  method NormalizedLines(raw: string) returns (text: string)
    ensures text == Normalized(raw)
  {
    var split := Split(ReturnsToNewlines(DropReturns(raw)), '\n');
    var lines := split;
    for i := 0 to |lines|
      invariant |lines| == |split|
      invariant forall k | 0 <= k < i :: lines[k] == TrimRight(split[k])
      invariant forall k | i <= k < |lines| :: lines[k] == split[k]
    {
      lines := lines[i := TrimRight(lines[i])];
    }
    assert lines == TrimLines(split);
    while |lines| > 0 && lines[|lines| - 1] == ""
      invariant DropEmptyTail(lines) == DropEmptyTail(TrimLines(split))
      decreases |lines|
    {
      lines := lines[..|lines| - 1];
    }
    text := Join(lines, '\n');
  }

  // ---- what normal form means ---------------------------------------------

  /** A line no normalization changes. */
  predicate Settled(line: string)
  {
    '\n' !in line && '\r' !in line && (line == "" || (line[|line| - 1] != ' ' && line[|line| - 1] != '\t'))
  }

  predicate SettledLines(lines: seq<string>)
  {
    (forall line :: line in lines ==> Settled(line)) && (lines == [] || lines[|lines| - 1] != "")
  }

  lemma LinesAreSettled(raw: string)
    ensures SettledLines(Lines(raw))
  {
    var text := ReturnsToNewlines(DropReturns(raw));
    var split := Split(text, '\n');
    forall i | 0 <= i < |Lines(raw)| ensures Settled(Lines(raw)[i]) {
      var line := Lines(raw)[i];
      assert line == TrimLines(split)[i] == TrimRight(split[i]);
      assert split[i] in split && line <= split[i];
      if '\r' in line { PieceChars(text, '\n', split[i], '\r'); }
    }
  }

  /** Lines settled already come back unchanged from their own join: split and join undo each other, also when
      there is no line at all. */
  lemma {:induction false} LinesOfJoin(lines: seq<string>)
    requires SettledLines(lines)
    ensures Lines(Join(lines, '\n')) == lines
  {
    var text := Join(lines, '\n');
    if '\r' in text { JoinChars(lines, '\n', '\r'); }
    NoReturnsToDrop(text);
    var split := Split(text, '\n');
    if lines == [] {
      assert split == [""] && TrimLines(split) == [""];
    } else {
      SplitOfJoin(lines, '\n');
      assert TrimLines(lines) == lines by {
        forall i | 0 <= i < |lines| ensures TrimRight(lines[i]) == lines[i] { assert lines[i] in lines; }
      }
    }
  }

  lemma {:induction false} NoReturnsToDrop(s: string)
    requires '\r' !in s
    ensures DropReturns(s) == s
  {
    if s != "" {
      assert s[0] in s && s == [s[0]] + s[1..];
      NoReturnsToDrop(s[1..]);
    }
  }

  /** A text written line by line with the given line ending. */
  function Written(lines: seq<string>, ending: string): string
  {
    if lines == [] then "" else if |lines| == 1 then lines[0] else lines[0] + ending + Written(lines[1..], ending)
  }

  /** Whatever line ending a text was written with, the lines that count are those written, trimmed, without the
      empty ones at the end. */
  lemma {:induction false} LinesOfWritten(lines: seq<string>, ending: string)
    requires lines != [] && forall line :: line in lines ==> '\r' !in line && '\n' !in line
    requires ending in {"\n", "\r\n", "\r"}
    ensures Lines(Written(lines, ending)) == DropEmptyTail(TrimLines(lines))
  {
    UnifiedEndings(lines, ending);
    SplitOfJoin(lines, '\n');
  }

  lemma {:induction false} UnifiedEndings(lines: seq<string>, ending: string)
    requires lines != [] && forall line :: line in lines ==> '\r' !in line && '\n' !in line
    requires ending in {"\n", "\r\n", "\r"}
    ensures ReturnsToNewlines(DropReturns(Written(lines, ending))) == Join(lines, '\n')
  {
    if |lines| == 1 {
      NoReturnsToDrop(lines[0]);
    } else {
      UnifiedEndings(lines[1..], ending);
      var rest := Written(lines[1..], ending);
      if ending == "\r" { WrittenStart(lines[1..], ending); }
      UnifiedFirst(lines[0], ending + rest);
      UnifiedEnding(ending, rest);
      Associate(lines[0], ending, rest);
      Associate(lines[0], "\n", Join(lines[1..], '\n'));
    }
  }

  lemma {:induction false} WrittenStart(lines: seq<string>, ending: string)
    requires lines != [] && ending == "\r" && forall line :: line in lines ==> '\r' !in line && '\n' !in line
    ensures Written(lines, ending) == "" || Written(lines, ending)[0] != '\n'
  {
    if lines[0] != "" { assert lines[0][0] in lines[0] && lines[0] in lines; }
  }

  lemma {:induction false} UnifiedEnding(ending: string, rest: string)
    requires ending in {"\n", "\r\n", "\r"}
    requires ending == "\r" ==> rest == "" || rest[0] != '\n'
    ensures ReturnsToNewlines(DropReturns(ending + rest)) == "\n" + ReturnsToNewlines(DropReturns(rest))
  {
    var text := ending + rest;
    assert text[|ending|..] == rest;
    if ending == "\r\n" {
      assert "\r\n" <= text && DropReturns(text) == "\n" + DropReturns(rest);
    } else {
      assert !("\r\n" <= text) by { if |text| > 1 && ending == "\r" { assert text[1] == rest[0]; } }
      assert DropReturns(text) == [text[0]] + DropReturns(rest);
    }
  }

  lemma {:induction false} PrependSettled(c: char, text: string, unified: string)
    requires c != '\r' && ReturnsToNewlines(DropReturns(text)) == unified
    ensures ReturnsToNewlines(DropReturns([c] + text)) == [c] + unified
  {
    assert ([c] + text)[1..] == text;
    assert DropReturns([c] + text) == [c] + DropReturns(text);
    assert ([c] + DropReturns(text))[1..] == DropReturns(text);
  }

  lemma Associate(a: string, b: string, c: string)
    ensures a + b + c == a + (b + c)
  {}

  lemma Regroup(line: string, rest: string)
    requires line != ""
    ensures [line[0]] + (line[1..] + rest) == line + rest
  {}

  /** A text without returns passes through in front of anything. */
  lemma {:induction false} UnifiedFirst(line: string, rest: string)
    requires '\r' !in line
    ensures ReturnsToNewlines(DropReturns(line + rest)) == line + ReturnsToNewlines(DropReturns(rest))
  {
    if line == "" {
      assert line + rest == rest;
    } else {
      UnifiedFirst(line[1..], rest);
      PrependSettled(line[0], line[1..] + rest, line[1..] + ReturnsToNewlines(DropReturns(rest)));
      Regroup(line, rest);
      Regroup(line, ReturnsToNewlines(DropReturns(rest)));
    }
  }

  /** Normalizing twice is normalizing once. */
  lemma NormalizedIsIdempotent(raw: string)
    ensures Normalized(Normalized(raw)) == Normalized(raw)
  {
    LinesAreSettled(raw);
    LinesOfJoin(Lines(raw));
  }

  /** Two outputs have the same normal form exactly when they have the same lines that count. */
  lemma EqualIffSameLines(a: string, b: string)
    ensures Normalized(a) == Normalized(b) <==> Lines(a) == Lines(b)
  {
    LinesAreSettled(a);
    LinesAreSettled(b);
    LinesOfJoin(Lines(a));
    LinesOfJoin(Lines(b));
  }

  // ---- verdicts -----------------------------------------------------------

  function Compare(mode: Mode, answer: string, output: string): (verdict: Status)
  {
    match mode
    case Default => if Normalized(answer) == Normalized(output) then AC else WA
    case Strict =>
      if answer == output then AC else if Normalized(answer) == Normalized(output) then PE else WA
    case _ => SE
  }

  /** The exit code of `RunBuiltinChecker` on files it can read. */
  function ExitCode(verdict: Status): int
  {
    match verdict case AC => 0 case WA => 1 case PE => 2 case _ => 3
  }

  /** In terms of lines: default mode accepts exactly the outputs with the answer's lines, strict mode accepts
      exactly the answer itself and calls the other outputs with its lines presentation errors. */
  lemma VerdictsByLines(answer: string, output: string)
    ensures Compare(Default, answer, output) == if Lines(answer) == Lines(output) then AC else WA
    ensures Compare(Strict, answer, output).AC? <==> answer == output
    ensures Compare(Strict, answer, output).PE? <==> answer != output && Lines(answer) == Lines(output)
    ensures Compare(Strict, answer, output).WA? <==> Compare(Default, answer, output).WA?
    ensures forall mode | mode != Default && mode != Strict :: Compare(mode, answer, output).SE?
  {
    EqualIffSameLines(answer, output);
  }

  lemma {:induction false} TrimmedTail(line: string, tail: string)
    requires forall c | c in tail :: c == ' ' || c == '\t'
    ensures TrimRight(line + tail) == TrimRight(line)
  {
    if tail == "" {
      assert line + tail == line;
    } else {
      var init, last := tail[..|tail| - 1], tail[|tail| - 1];
      assert last in tail && forall c | c in init :: c in tail;
      assert line + tail == line + init + [last];
      TrimmedTail(line, init);
    }
  }

  /** The lines, each with its tail. */
  function Padded(lines: seq<string>, tails: seq<string>): seq<string>
    requires |lines| == |tails|
  {
    seq(|lines|, i requires 0 <= i < |lines| => lines[i] + tails[i])
  }

  /** An answer is accepted with blanks and tabs at the ends of its lines, and with any line ending. */
  lemma {:induction false} TailsDoNotCount(lines: seq<string>, tails: seq<string>, ending: string, ending': string)
    requires lines != [] && |lines| == |tails| && {ending, ending'} <= {"\n", "\r\n", "\r"}
    requires forall line | line in lines :: '\r' !in line && '\n' !in line
    requires forall tail, c | tail in tails && c in tail :: c == ' ' || c == '\t'
    ensures Compare(Default, Written(lines, ending), Written(Padded(lines, tails), ending')).AC?
  {
    var padded := Padded(lines, tails);
    assert ending in {ending, ending'} && ending' in {ending, ending'};
    forall line | line in padded ensures '\r' !in line && '\n' !in line {
      var i :| 0 <= i < |lines| && line == lines[i] + tails[i];
      assert lines[i] in lines && tails[i] in tails;
    }
    LinesOfWritten(lines, ending);
    LinesOfWritten(padded, ending');
    forall i | 0 <= i < |lines| ensures TrimRight(padded[i]) == TrimRight(lines[i]) {
      assert tails[i] in tails;
      TrimmedTail(lines[i], tails[i]);
    }
    assert TrimLines(padded) == TrimLines(lines);
  }

  /** Nothing else is forgiven: of texts without such tails, and without empty lines at the end, only the same lines are
      accepted. */
  lemma {:induction false} LinesAreExact(a: seq<string>, b: seq<string>, ending: string, ending': string)
    requires a != [] && b != [] && SettledLines(a) && SettledLines(b)
    requires {ending, ending'} <= {"\n", "\r\n", "\r"}
    ensures Compare(Default, Written(a, ending), Written(b, ending')).AC? <==> a == b
  {
    assert ending in {ending, ending'} && ending' in {ending, ending'};
    LinesOfWritten(a, ending);
    LinesOfWritten(b, ending');
    SettledIsTrimmed(a);
    SettledIsTrimmed(b);
    EqualIffSameLines(Written(a, ending), Written(b, ending'));
  }

  lemma SettledIsTrimmed(lines: seq<string>)
    requires SettledLines(lines)
    ensures DropEmptyTail(TrimLines(lines)) == lines
  {
    forall i | 0 <= i < |lines| ensures TrimRight(lines[i]) == lines[i] { assert lines[i] in lines; }
    assert TrimLines(lines) == lines;
  }

  /** Default mode accepts up to an equivalence, so replacing answer and output by accepted variants of themselves
      changes no verdict. */
  lemma DefaultIsCongruence(a: string, b: string, a': string, b': string)
    requires Compare(Default, a, a').AC? && Compare(Default, b, b').AC?
    ensures Compare(Default, a, b) == Compare(Default, a', b') == Compare(Default, b', a')
    ensures Compare(Default, a, Normalized(a)).AC?
  {
    NormalizedIsIdempotent(a);
  }
}
