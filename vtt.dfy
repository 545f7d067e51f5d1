/** The SRT to WebVTT transcoder used when a `.srt` subtitle is requested
    with `format=vtt` (convertSRTtoVTT in main.go).  The converter is line
    oriented: it emits the WebVTT header, drops SRT cue numbers, turns the
    comma of the timestamp fraction into a period on timing lines and copies
    every other line, each followed by one newline.  It does not validate
    cues. */
module Vtt {
  import opened Wrappers
  import opened Text

  /** The signature line and the blank line that open a WebVTT file
      (section 4.1, "WebVTT file structure", of the W3C WebVTT specification). */
  const Header: string := "WEBVTT\n\n"

  /** What marks an SRT timing line: "00:00:20,000 --> 00:00:24,400". */
  const TimingArrow: string := " --> "

  /** At most this many characters of a subtitle file are read (io.LimitReader, 10 MB). */
  const ReadCap: nat := 10 * 1024 * 1024

  /** A line the converter drops: strconv.Atoi accepts its trimmed text. */
  predicate IsCueNumber(line: string) {
    Atoi(TrimSpace(line)).Some?
  }

  /** How a kept line is written out. */
  function ConvertLine(line: string): string {
    if Contains(line, TimingArrow) then ReplaceAll(line, ',', '.') else line
  }

  /** The lines that are kept, rewritten, in input order. */
  function KeptLines(lines: seq<string>): seq<string>
    decreases |lines|
  {
    if |lines| == 0 then []
    else
      var front := KeptLines(lines[..|lines| - 1]);
      var last := lines[|lines| - 1];
      if IsCueNumber(last) then front else front + [ConvertLine(last)]
  }

  /** The lines, each followed by one "\n". */
  function Terminated(lines: seq<string>): string
    decreases |lines|
  {
    if |lines| == 0 then "" else Terminated(lines[..|lines| - 1]) + lines[|lines| - 1] + "\n"
  }

  /** Σ (|line| + 1) over the lines. */
  function LineBytes(lines: seq<string>): nat
    decreases |lines|
  {
    if |lines| == 0 then 0 else LineBytes(lines[..|lines| - 1]) + |lines[|lines| - 1]| + 1
  }

  /** What convertSRTtoVTT returns for a given subtitle text. */
  function SrtToVtt(srt: string): (vtt: string)
    ensures HasPrefix(vtt, Header)
  {
    var body := Terminated(KeptLines(Split(srt, '\n')));
    PrefixOfConcat(Header, body);
    Header + body
  }

  /** The transcoded response body: the converter applied to at most
      ReadCap characters of the file. */
  function Transcode(content: string): string {
    SrtToVtt(if |content| <= ReadCap then content else content[..ReadCap])
  }

  /** What one input line contributes to the output. */
  function Emit(line: string): string {
    if IsCueNumber(line) then "" else ConvertLine(line) + "\n"
  }

  /** The output text produced by the first n lines. */
  function Emitted(lines: seq<string>, n: nat): string
    requires n <= |lines|
  {
    if n == 0 then "" else Emitted(lines, n - 1) + Emit(lines[n - 1])
  }

  lemma TerminatedSnoc(lines: seq<string>, line: string)
    ensures Terminated(lines + [line]) == Terminated(lines) + line + "\n"
  {
    assert (lines + [line])[..|lines|] == lines;
  }

  /** Line by line, the output is the kept lines, each terminated. */
  lemma {:induction false} EmittedIsTerminated(lines: seq<string>, n: nat)
    requires n <= |lines|
    ensures Emitted(lines, n) == Terminated(KeptLines(lines[..n]))
  {
    if n > 0 {
      EmittedIsTerminated(lines, n - 1);
      var front := lines[..n - 1];
      assert lines[..n][..n - 1] == front;
      var line := lines[n - 1];
      if IsCueNumber(line) {
        ConcatEmpty(Emitted(lines, n - 1));
      } else {
        TerminatedSnoc(KeptLines(front), ConvertLine(line));
        ConcatAssoc(Terminated(KeptLines(front)), ConvertLine(line), "\n");
      }
    }
  }

  /** The body of the conversion loop for one line: whether it is skipped
      as a cue number, and otherwise the text written for it. */
  method RewriteLine(line: string) returns (skip: bool, out: string)
    ensures skip == IsCueNumber(line)
    ensures !skip ==> out + "\n" == Emit(line)
  {
    if IsCueNumber(line) {
      return true, "";
    }
    if Contains(line, TimingArrow) {
      out := ReplaceAll(line, ',', '.');
    } else {
      out := line;
    }
    skip := false;
  }

  /** convertSRTtoVTT: one pass over the lines, appending to the output. */
  method ConvertSrtToVtt(srt: string) returns (vtt: string)
    ensures vtt == SrtToVtt(srt)
  {
    var lines := Split(srt, '\n');
    vtt := Header;
    var i := 0;
    while i < |lines|
      invariant 0 <= i <= |lines|
      invariant vtt == Header + Emitted(lines, i)
    {
      ghost var before := Emitted(lines, i);
      var skip, line := RewriteLine(lines[i]);
      if skip {
        ConcatEmpty(before);
        i := i + 1;
        continue;
      }
      ConcatAssoc(Header, before, line + "\n");
      vtt := vtt + (line + "\n");
      i := i + 1;
    }
    EmittedIsTerminated(lines, |lines|);
    assert lines[..|lines|] == lines;
  }

  // ---------------------------------------------------------------- properties

  /** A text holding a character that is neither a digit nor a sign is not
      accepted by Atoi. */
  lemma AtoiRejects(t: string, c: char)
    requires c in t && !IsDigit(c) && c != '+' && c != '-'
    ensures Atoi(t).None?
  {
    var k :| 0 <= k < |t| && t[k] == c;
  }

  /** A timing line stays a timing line, and has no comma left. */
  lemma TimingLinesUseDots(line: string)
    requires Contains(line, TimingArrow)
    ensures var r := ConvertLine(line);
      |r| == |line| && ',' !in r && Contains(r, TimingArrow)
      && forall i :: 0 <= i < |line| && line[i] != ',' ==> r[i] == line[i]
  {
    var r := ConvertLine(line);
    var i :| 0 <= i <= |line| - |TimingArrow| && OccursAt(line, TimingArrow, i);
    assert r[i..i + |TimingArrow|] == line[i..i + |TimingArrow|] by {
      forall k | i <= k < i + |TimingArrow|
        ensures r[k] == line[k]
      {
        assert line[k] == TimingArrow[k - i];
      }
    }
    assert OccursAt(r, TimingArrow, i);
  }

  /** A converted line is never a cue number itself. */
  lemma ConvertedNotCueNumber(line: string)
    requires !IsCueNumber(line)
    ensures !IsCueNumber(ConvertLine(line))
  {
    if Contains(line, TimingArrow) {
      TimingLinesUseDots(line);
      TimingLineNotCueNumber(ConvertLine(line));
    }
  }

  /** No kept line is a cue number. */
  lemma {:induction false} KeptNotCueNumbers(lines: seq<string>)
    ensures forall l :: l in KeptLines(lines) ==> !IsCueNumber(l)
    decreases |lines|
  {
    if |lines| > 0 {
      KeptNotCueNumbers(lines[..|lines| - 1]);
      var last := lines[|lines| - 1];
      if !IsCueNumber(last) {
        ConvertedNotCueNumber(last);
      }
    }
  }

  /** Every kept line is the rewrite of a line that is not a cue number. */
  lemma {:induction false} KeptComeFromInput(lines: seq<string>)
    ensures forall k :: 0 <= k < |KeptLines(lines)| ==>
      exists j :: 0 <= j < |lines| && !IsCueNumber(lines[j]) && KeptLines(lines)[k] == ConvertLine(lines[j])
    decreases |lines|
  {
    if |lines| > 0 {
      var front := lines[..|lines| - 1];
      var last := lines[|lines| - 1];
      KeptComeFromInput(front);
      var kept := KeptLines(lines);
      assert kept == if IsCueNumber(last) then KeptLines(front) else KeptLines(front) + [ConvertLine(last)];
      forall k | 0 <= k < |kept|
        ensures exists j :: 0 <= j < |lines| && !IsCueNumber(lines[j]) && kept[k] == ConvertLine(lines[j])
      {
        if k < |KeptLines(front)| {
          var j :| 0 <= j < |front| && !IsCueNumber(front[j]) && KeptLines(front)[k] == ConvertLine(front[j]);
          assert lines[j] == front[j];
          assert kept[k] == KeptLines(front)[k];
        } else {
          assert !IsCueNumber(last) && kept[k] == ConvertLine(last);
          assert lines[|lines| - 1] == last;
        }
      }
      assert forall k :: 0 <= k < |KeptLines(lines)| ==>
        exists j :: 0 <= j < |lines| && !IsCueNumber(lines[j]) && KeptLines(lines)[k] == ConvertLine(lines[j]);
    } else {
      assert KeptLines(lines) == [];
    }
  }

  /** Keeping distributes over concatenation, so the kept lines come out in
      the order of the input. */
  lemma {:induction false} KeptLinesConcat(a: seq<string>, b: seq<string>)
    ensures KeptLines(a + b) == KeptLines(a) + KeptLines(b)
    decreases |b|
  {
    if |b| == 0 {
      assert a + b == a;
    } else {
      var b' := b[..|b| - 1];
      KeptLinesConcat(a, b');
      assert (a + b)[..|a + b| - 1] == a + b';
      assert (a + b)[|a + b| - 1] == b[|b| - 1];
    }
  }

  lemma {:induction false} TerminatedLength(lines: seq<string>)
    ensures |Terminated(lines)| == LineBytes(lines)
    decreases |lines|
  {
    if |lines| > 0 {
      TerminatedLength(lines[..|lines| - 1]);
    }
  }

  /** The output is the header plus, for every kept line, its length and one
      newline. */
  lemma OutputLength(srt: string)
    ensures |SrtToVtt(srt)| == |Header| + LineBytes(KeptLines(Split(srt, '\n')))
  {
    TerminatedLength(KeptLines(Split(srt, '\n')));
  }

  lemma {:induction false} TerminatedCons(a: string, rest: seq<string>)
    ensures Terminated([a] + rest) == a + "\n" + Terminated(rest)
    decreases |rest|
  {
    if |rest| == 0 {
      assert [a] + rest == [a];
      assert [a][..0] == [];
    } else {
      var front := rest[..|rest| - 1];
      TerminatedCons(a, front);
      assert ([a] + rest)[..|[a] + rest| - 1] == [a] + front;
    }
  }

  /** Splitting newline-free lines, each terminated, gives them back, plus the
      empty piece after the last newline. */
  lemma {:induction false} SplitTerminated(lines: seq<string>)
    requires forall k :: 0 <= k < |lines| ==> '\n' !in lines[k]
    ensures Split(Terminated(lines), '\n') == lines + [""]
    decreases |lines|
  {
    if |lines| == 0 {
    } else {
      var rest := lines[1..];
      assert lines == [lines[0]] + rest;
      TerminatedCons(lines[0], rest);
      SplitTerminated(rest);
      SplitAfterPiece(lines[0], '\n', Terminated(rest));
      assert lines[0] + "\n" + Terminated(rest) == lines[0] + ['\n'] + Terminated(rest);
    }
  }

  /** The output lines after the header are exactly the kept lines, then the
      empty piece left by the final newline. */
  lemma OutputLines(srt: string)
    ensures Split(SrtToVtt(srt)[|Header|..], '\n') == KeptLines(Split(srt, '\n')) + [""]
  {
    var lines := Split(srt, '\n');
    var kept := KeptLines(lines);
    SplitPiecesLackSep(srt, '\n');
    KeptComeFromInput(lines);
    forall k | 0 <= k < |kept|
      ensures '\n' !in kept[k]
    {
      var j :| 0 <= j < |lines| && !IsCueNumber(lines[j]) && kept[k] == ConvertLine(lines[j]);
      assert '\n' !in lines[j];
    }
    SplitTerminated(kept);
    assert SrtToVtt(srt)[|Header|..] == Terminated(kept);
  }

  /** A cue-number line of the input is not among the output lines. */
  lemma CueNumbersDropped(srt: string, j: nat)
    requires j < |Split(srt, '\n')| && IsCueNumber(Split(srt, '\n')[j])
    ensures Split(srt, '\n')[j] !in Split(SrtToVtt(srt)[|Header|..], '\n')
  {
    var lines := Split(srt, '\n');
    OutputLines(srt);
    KeptNotCueNumbers(lines);
    assert !IsCueNumber("") by {
      assert TrimSpace("") == "";
    }
  }

  // ---------------------------------------------------------------- one cue

  /** A timing line is never a cue number: it holds a '>'. */
  lemma TimingLineNotCueNumber(line: string)
    requires Contains(line, TimingArrow)
    ensures !IsCueNumber(line)
  {
    var i :| 0 <= i <= |line| - |TimingArrow| && OccursAt(line, TimingArrow, i);
    assert line[i + 3] == TimingArrow[3] == '>';
    TrimSpaceKeeps(line, '>');
    AtoiRejects(TrimSpace(line), '>');
  }

  /** The decimal text of a number is a cue number. */
  lemma NumberIsCueNumber(n: nat)
    requires n <= MaxInt64
    ensures IsCueNumber(NatToString(n))
  {
    var t := NatToString(n);
    assert TrimLeftSpace(t) == t by {
      assert IsDigit(t[0]);
    }
    assert TrimRightSpace(t) == t by {
      assert IsDigit(t[|t| - 1]);
    }
    AtoiNatToString(n);
  }

  /** Three newline-free lines, each terminated, split back into the
      lines and the empty piece after the last newline. */
  lemma SplitThreeLines(a: string, b: string, c: string)
    requires '\n' !in a && '\n' !in b && '\n' !in c
    ensures Split(a + "\n" + b + "\n" + c + "\n", '\n') == [a, b, c, ""]
  {
    assert a + "\n" + b + "\n" + c + "\n" == a + ['\n'] + (b + ['\n'] + (c + ['\n'] + ""));
    SplitAfterPiece(c, '\n', "");
    SplitAfterPiece(b, '\n', c + ['\n'] + "");
    SplitAfterPiece(a, '\n', b + ['\n'] + (c + ['\n'] + ""));
  }

  /** One SRT cue — number, timing line, text line — becomes the timing line
      with periods and the text line; the final newline of the input leaves
      one empty line at the end of the output. */
  lemma OneCue(n: nat, timing: string, text: string)
    requires n <= MaxInt64
    requires Contains(timing, TimingArrow) && '\n' !in timing
    requires !IsCueNumber(text) && !Contains(text, TimingArrow) && '\n' !in text
    ensures SrtToVtt(NatToString(n) + "\n" + timing + "\n" + text + "\n")
         == Header + (ReplaceAll(timing, ',', '.') + "\n" + (text + "\n") + "\n")
  {
    var number := NatToString(n);
    assert '\n' !in number by {
      assert forall k :: 0 <= k < |number| ==> IsDigit(number[k]);
    }
    SplitThreeLines(number, timing, text);
    NumberIsCueNumber(n);
    TimingLineNotCueNumber(timing);
    assert !IsCueNumber("") by {
      assert TrimSpace("") == "";
    }
    KeptOfCue(number, timing, text);
    TerminatedThree(ReplaceAll(timing, ',', '.'), text, "");
  }

  lemma KeptOfCue(number: string, timing: string, text: string)
    requires IsCueNumber(number) && !IsCueNumber(timing) && !IsCueNumber(text) && !IsCueNumber("")
    requires Contains(timing, TimingArrow) && !Contains(text, TimingArrow)
    ensures KeptLines([number, timing, text, ""]) == [ReplaceAll(timing, ',', '.'), text, ""]
  {
    var lines := [number, timing, text, ""];
    assert !Contains("", TimingArrow);
    assert lines[..1][..0] == [];
    assert lines[..2][..1] == lines[..1];
    assert lines[..3][..2] == lines[..2];
    assert lines[..4][..3] == lines[..3] && lines[..4] == lines;
    assert ConvertLine(text) == text && ConvertLine("") == "";
    assert KeptLines(lines[..1]) == [];
    assert KeptLines(lines[..2]) == [ReplaceAll(timing, ',', '.')];
    assert KeptLines(lines[..3]) == [ReplaceAll(timing, ',', '.'), text];
  }

  lemma TerminatedThree(a: string, b: string, c: string)
    ensures Terminated([a, b, c]) == a + "\n" + (b + "\n") + (c + "\n")
  {
    assert [a, b, c][..2] == [a, b];
    assert [a, b][..1] == [a];
    assert [a][..0] == [];
    assert Terminated([a]) == a + "\n";
    ConcatAssoc(a + "\n", b, "\n");
    assert Terminated([a, b]) == a + "\n" + (b + "\n");
    ConcatAssoc(a + "\n" + (b + "\n"), c, "\n");
  }
}
