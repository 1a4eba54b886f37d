/**
 * translator.py: the Tk application that runs `plamo-translate --no-stream`
 * synchronously, post-processes its output (strip, collapse of blank lines),
 * lays the Japanese text out with BudouX segments separated by tiny spaces,
 * and listens globally for a double Command+C.  The BudouX parser is a
 * parameter `parse` that yields the segments, or None when it raises.
 */
module ClassicTranslator {
  import opened Common
  import opened ResultBuffer
  import Debounce
  import FixedTranslator

  const PlaceholderText: string := "翻訳中..."
  const TimeoutMessage: string := "❌ タイムアウト"
  const FailurePrefix: string := "❌ "
  const DefaultFailure: string := "翻訳エラー"

  /** The arguments translator.py always passes: no language detection here. */
  const CliArgs: seq<string> := [FixedTranslator.PlamoPath, "--from", "English", "--to", "Japanese", "--no-stream"]

  /** What `subprocess.run` produced: the process finished, the 10 s timeout
      expired, or another exception was raised. */
  datatype RunOutcome =
    | Completed(returnCode: int, stdout: string, stderr: string)
    | TimedOut
    | Raised(message: string)

  /** A key as reported by the keyboard listener. */
  datatype Key = Cmd | Ctrl | Char(c: char) | Special(code: int)

  // ---------------------------------------------------------------------
  // Output post-processing

  /** `s.replace('\n\n', '\n')`: one left-to-right pass over non-overlapping pairs. */
  function Collapse(s: string): (r: string)
    ensures |r| <= |s|
    decreases |s|
  {
    if |s| >= 2 && s[0] == '\n' && s[1] == '\n' then "\n" + Collapse(s[2..])
    else if s == [] then []
    else [s[0]] + Collapse(s[1..])
  }

  /** The characters of `s` other than newlines, in order. */
  function NonNewlines(s: string): string
  {
    if s == [] then [] else (if s[0] == '\n' then [] else [s[0]]) + NonNewlines(s[1..])
  }

  /** `k` newline characters. */
  function Newlines(k: nat): string
  {
    if k == 0 then [] else "\n" + Newlines(k - 1)
  }

  predicate NoDoubleNewline(s: string) {
    forall i :: 0 <= i < |s| - 1 ==> !(s[i] == '\n' && s[i + 1] == '\n')
  }

  /** Only newlines are removed: every other character survives, in order. */
  lemma {:induction false} CollapseKeepsOtherCharacters(s: string)
    ensures NonNewlines(Collapse(s)) == NonNewlines(s)
    decreases |s|
  {
    if |s| >= 2 && s[0] == '\n' && s[1] == '\n' {
      CollapseKeepsOtherCharacters(s[2..]);
      assert NonNewlines(s) == NonNewlines(s[1..]);
      assert s[1..][1..] == s[2..];
      assert NonNewlines(s[1..]) == NonNewlines(s[2..]);
      assert NonNewlines("\n" + Collapse(s[2..])) == NonNewlines(Collapse(s[2..])) by {
        assert ("\n" + Collapse(s[2..]))[1..] == Collapse(s[2..]);
      }
    } else if s != [] {
      CollapseKeepsOtherCharacters(s[1..]);
      assert ([s[0]] + Collapse(s[1..]))[1..] == Collapse(s[1..]);
    }
  }

  /** A text with no blank line is left unchanged. */
  lemma {:induction false} CollapseWithoutPairs(s: string)
    requires NoDoubleNewline(s)
    ensures Collapse(s) == s
    decreases |s|
  {
    if s != [] {
      assert NoDoubleNewline(s[1..]) by {
        forall i | 0 <= i < |s[1..]| - 1
          ensures !(s[1..][i] == '\n' && s[1..][i + 1] == '\n')
        {
          assert s[1..][i] == s[i + 1] && s[1..][i + 1] == s[i + 2];
        }
      }
      CollapseWithoutPairs(s[1..]);
      assert [s[0]] + s[1..] == s;
    }
  }

  /** A run of `k` newlines becomes a run of ceil(k / 2): a single pass, so four
      newlines leave two and the result can still hold a blank line. */
  lemma {:induction false} CollapseNewlineRun(k: nat)
    ensures Collapse(Newlines(k)) == Newlines((k + 1) / 2)
    decreases k
  {
    if k >= 2 {
      assert Newlines(k) == "\n" + ("\n" + Newlines(k - 2));
      assert Newlines(k)[2..] == Newlines(k - 2);
      CollapseNewlineRun(k - 2);
      assert (k + 1) / 2 == (k - 1) / 2 + 1;
    } else if k == 1 {
      assert Newlines(1) == "\n";
      assert "\n"[1..] == [];
    }
  }

  /** The exit-code-0 text: `stdout.strip().replace('\n\n', '\n')`. */
  function Postprocess(stdout: string): (r: string)
    ensures |r| <= |stdout|
    ensures NonNewlines(r) == NonNewlines(PyStrip(stdout))
  {
    CollapseKeepsOtherCharacters(PyStrip(stdout));
    Collapse(PyStrip(stdout))
  }

  /** The message for a nonzero exit: "❌ " and the stripped stderr, or the default
      when stderr is blank. */
  function ExitErrorText(stderr: string): (r: string)
    ensures PyStrip(stderr) != [] ==> r == FailurePrefix + PyStrip(stderr)
    ensures PyStrip(stderr) == [] ==> r == FailurePrefix + DefaultFailure
  {
    var e := PyStrip(stderr);
    FailurePrefix + (if e != [] then e else DefaultFailure)
  }

  // ---------------------------------------------------------------------
  // Segment layout

  /** Every run carrying the tiny-space tag is a single space. */
  predicate TinyRunsAreSpaces(runs: seq<Run>) {
    forall i :: 0 <= i < |runs| ==> runs[i].tag == TinySpace ==> runs[i].text == " "
  }

  /** Part `k` of a segment split at its newlines: the part unless it is empty,
      then a newline unless it is the last part. */
  function PartStep(runs: seq<Run>, parts: seq<string>, k: nat): seq<Run>
    requires k < |parts|
  {
    var r := if parts[k] != [] then Insert(runs, parts[k], Normal) else runs;
    if k < |parts| - 1 then Insert(r, "\n", Normal) else r
  }

  /** The inner loop of `insert_segments_with_tiny_spaces` after `j` of the parts. */
  function PartRuns(runs: seq<Run>, parts: seq<string>, j: nat): seq<Run>
    requires j <= |parts|
  {
    if j == 0 then runs else PartStep(PartRuns(runs, parts, j - 1), parts, j - 1)
  }

  /** One segment in "normal"; with `splitLines`, a segment holding a newline is
      inserted part by part as `insert_segments_with_tiny_spaces` does. */
  function SegmentBody(runs: seq<Run>, segment: string, splitLines: bool): seq<Run>
  {
    if splitLines && '\n' in segment then
      var parts := Split(segment, '\n');
      PartRuns(runs, parts, |parts|)
    else Insert(runs, segment, Normal)
  }

  /** Segment `k`, then one " " tagged "tiny_space" unless it is the last segment. */
  function SpacedStep(runs: seq<Run>, segments: seq<string>, k: nat, splitLines: bool): seq<Run>
    requires k < |segments|
  {
    var r := SegmentBody(runs, segments[k], splitLines);
    if k < |segments| - 1 then Insert(r, " ", TinySpace) else r
  }

  /** The runs after the first `i` segments. */
  function SpacedSegments(runs: seq<Run>, segments: seq<string>, i: nat, splitLines: bool): seq<Run>
    requires i <= |segments|
  {
    if i == 0 then runs else SpacedStep(SpacedSegments(runs, segments, i - 1, splitLines), segments, i - 1, splitLines)
  }

  /** The effect of a sequence of insertions on everything the layout lemmas track:
      `r` shows `shown` more than `runs`, `bare` more once the tiny spaces are
      deleted, `tiny` more tiny spaces, and keeps both run invariants. */
  ghost predicate Adds(runs: seq<Run>, r: seq<Run>, shown: string, bare: string, tiny: nat) {
    && Text(r) == Text(runs) + shown
    && TextWithout(r, TinySpace) == TextWithout(runs, TinySpace) + bare
    && CountTag(r, TinySpace) == CountTag(runs, TinySpace) + tiny
    && (NoEmptyRuns(runs) ==> NoEmptyRuns(r))
    && (TinyRunsAreSpaces(runs) ==> TinyRunsAreSpaces(r))
  }

  lemma AddsTrans(a: seq<Run>, b: seq<Run>, c: seq<Run>, s1: string, b1: string, t1: nat, s2: string, b2: string, t2: nat,
                  shown: string, bare: string, tiny: nat)
    requires Adds(a, b, s1, b1, t1) && Adds(b, c, s2, b2, t2)
    requires shown == s1 + s2 && bare == b1 + b2 && tiny == t1 + t2
    ensures Adds(a, c, shown, bare, tiny)
  {
  }

  /** Inserting normal text. */
  lemma InsertNormalAdds(runs: seq<Run>, s: string)
    ensures Adds(runs, Insert(runs, s, Normal), s, s, 0)
  {
    InsertFacts(runs, s, Normal);
    InsertEffect(runs, s, Normal, TinySpace);
  }

  /** Inserting one tiny space. */
  lemma InsertTinyAdds(runs: seq<Run>)
    ensures Adds(runs, Insert(runs, " ", TinySpace), " ", [], 1)
  {
    InsertFacts(runs, " ", TinySpace);
    InsertEffect(runs, " ", TinySpace, TinySpace);
    var r := Insert(runs, " ", TinySpace);
    assert r == runs + [Run(" ", TinySpace)];
    assert forall i :: 0 <= i < |runs| ==> r[i] == runs[i];
  }

  lemma PartStepEffect(runs: seq<Run>, parts: seq<string>, k: nat)
    requires k < |parts|
    ensures Adds(runs, PartStep(runs, parts, k), parts[k] + (if k < |parts| - 1 then "\n" else []),
                 parts[k] + (if k < |parts| - 1 then "\n" else []), 0)
  {
    var r := if parts[k] != [] then Insert(runs, parts[k], Normal) else runs;
    InsertNormalAdds(runs, parts[k]);
    if k < |parts| - 1 {
      InsertNormalAdds(r, "\n");
      AddsTrans(runs, r, Insert(r, "\n", Normal), parts[k], parts[k], 0, "\n", "\n", 0, parts[k] + "\n", parts[k] + "\n", 0);
    } else {
      assert parts[k] + [] == parts[k];
    }
  }

  /** The parts and the newlines between them are all "normal" text. */
  lemma {:induction false} PartRunsEffect(runs: seq<Run>, parts: seq<string>, j: nat)
    requires j <= |parts|
    ensures Adds(runs, PartRuns(runs, parts, j), Join(parts[..j], "\n") + (if 0 < j < |parts| then "\n" else []),
                 Join(parts[..j], "\n") + (if 0 < j < |parts| then "\n" else []), 0)
    decreases j
  {
    if j == 0 {
      assert Join(parts[..0], "\n") + [] == [];
    } else {
      var prev := PartRuns(runs, parts, j - 1);
      PartRunsEffect(runs, parts, j - 1);
      PartStepEffect(prev, parts, j - 1);
      var x := parts[j - 1];
      var before := Join(parts[..j - 1], "\n") + (if 0 < j - 1 then "\n" else []);
      var step := x + (if j - 1 < |parts| - 1 then "\n" else []);
      var target := Join(parts[..j], "\n") + (if 0 < j < |parts| then "\n" else []);
      assert target == before + step by {
        JoinPrefixSnoc(parts, j, "\n");
      }
      AddsTrans(runs, prev, PartStep(prev, parts, j - 1), before, before, 0, step, step, 0, target, target, 0);
    }
  }

  /** The text of the first `j` pieces and their separators, one piece at a time. */
  lemma JoinPrefixSnoc(parts: seq<string>, j: nat, sep: string)
    requires 0 < j <= |parts|
    ensures Join(parts[..j], sep) + (if j < |parts| then sep else [])
         == (Join(parts[..j - 1], sep) + (if 0 < j - 1 then sep else [])) + (parts[j - 1] + (if j - 1 < |parts| - 1 then sep else []))
  {
    var x := parts[j - 1];
    assert parts[..j] == parts[..j - 1] + [x];
    if j == 1 {
      assert parts[..1] == [x];
      assert parts[..0] == [];
    } else {
      JoinSnoc(parts[..j - 1], x, sep);
    }
  }

  /** A segment adds exactly its own characters, all in "normal" runs. */
  lemma SegmentBodyEffect(runs: seq<Run>, segment: string, splitLines: bool)
    ensures Adds(runs, SegmentBody(runs, segment, splitLines), segment, segment, 0)
  {
    if splitLines && '\n' in segment {
      var parts := Split(segment, '\n');
      PartRunsEffect(runs, parts, |parts|);
      assert parts[..|parts|] == parts;
      JoinSplit(segment, '\n');
    } else {
      InsertNormalAdds(runs, segment);
    }
  }

  lemma SpacedStepEffect(runs: seq<Run>, segments: seq<string>, k: nat, splitLines: bool)
    requires k < |segments|
    ensures Adds(runs, SpacedStep(runs, segments, k, splitLines),
                 segments[k] + (if k < |segments| - 1 then " " else []), segments[k],
                 if k < |segments| - 1 then 1 else 0)
  {
    var r := SegmentBody(runs, segments[k], splitLines);
    SegmentBodyEffect(runs, segments[k], splitLines);
    if k < |segments| - 1 {
      InsertTinyAdds(r);
      AddsTrans(runs, r, Insert(r, " ", TinySpace), segments[k], segments[k], 0, " ", [], 1, segments[k] + " ", segments[k], 1);
    } else {
      assert segments[k] + [] == segments[k];
    }
  }

  /** After `i` segments: the shown text is the segments joined by single spaces
      (plus the space that follows segment i when more come), deleting the
      tiny-space runs leaves the bare concatenation, and one tiny space separates
      each pair of consecutive segments. */
  lemma {:induction false} SpacedSegmentsEffect(runs: seq<Run>, segments: seq<string>, i: nat, splitLines: bool)
    requires i <= |segments|
    ensures Adds(runs, SpacedSegments(runs, segments, i, splitLines),
                 Join(segments[..i], " ") + (if 0 < i < |segments| then " " else []),
                 Concat(segments[..i]),
                 if 0 < i == |segments| then i - 1 else i)
    decreases i
  {
    if i == 0 {
      assert Join(segments[..0], " ") + [] == [];
    } else {
      var prev := SpacedSegments(runs, segments, i - 1, splitLines);
      SpacedSegmentsEffect(runs, segments, i - 1, splitLines);
      SpacedStepEffect(prev, segments, i - 1, splitLines);
      var x := segments[i - 1];
      var shownBefore := Join(segments[..i - 1], " ") + (if 0 < i - 1 then " " else []);
      var shownStep := x + (if i - 1 < |segments| - 1 then " " else []);
      var shown := Join(segments[..i], " ") + (if 0 < i < |segments| then " " else []);
      assert shown == shownBefore + shownStep by {
        JoinPrefixSnoc(segments, i, " ");
      }
      assert Concat(segments[..i]) == Concat(segments[..i - 1]) + x by {
        assert segments[..i][..i - 1] == segments[..i - 1];
      }
      AddsTrans(runs, prev, SpacedStep(prev, segments, i - 1, splitLines),
                shownBefore, Concat(segments[..i - 1]), i - 1,
                shownStep, x, if i - 1 < |segments| - 1 then 1 else 0,
                shown, Concat(segments[..i]), if 0 < i == |segments| then i - 1 else i);
    }
  }

  /** `insert_segments_with_tiny_spaces` on a cleared widget: deleting the tiny
      spaces gives back the concatenated segments, there are exactly
      len(segments) - 1 of them, and no empty run is inserted. */
  lemma InsertSegmentsProperties(segments: seq<string>)
    ensures TextWithout(SpacedSegments([], segments, |segments|, true), TinySpace) == Concat(segments)
    ensures segments != [] ==> CountTag(SpacedSegments([], segments, |segments|, true), TinySpace) == |segments| - 1
    ensures Text(SpacedSegments([], segments, |segments|, true)) == Join(segments, " ")
    ensures NoEmptyRuns(SpacedSegments([], segments, |segments|, true))
    ensures TinyRunsAreSpaces(SpacedSegments([], segments, |segments|, true))
  {
    SpacedSegmentsEffect([], segments, |segments|, true);
    assert segments[..|segments|] == segments;
    assert Join(segments, " ") + [] == Join(segments, " ");
  }

  // ---------------------------------------------------------------------
  // Paragraph layout of `translate`

  /** What the parser yields for one paragraph: a blank paragraph is not parsed and
      contributes no segment; the others are parsed after stripping.  None when the
      parser raises. */
  function ParseParagraph(paragraph: string, parse: string -> Option<seq<string>>): Option<seq<string>>
  {
    var p := PyStrip(paragraph);
    if p == [] then Some([]) else parse(p)
  }

  function Parsed(paragraphs: seq<string>, parse: string -> Option<seq<string>>): (r: seq<Option<seq<string>>>)
    ensures |r| == |paragraphs|
  {
    if paragraphs == [] then []
    else Parsed(paragraphs[..|paragraphs| - 1], parse) + [ParseParagraph(paragraphs[|paragraphs| - 1], parse)]
  }

  lemma ParsedAt(paragraphs: seq<string>, parse: string -> Option<seq<string>>, k: nat)
    requires k < |paragraphs|
    ensures Parsed(paragraphs, parse)[k] == ParseParagraph(paragraphs[k], parse)
  {
    if k < |paragraphs| - 1 {
      ParsedAt(paragraphs[..|paragraphs| - 1], parse, k);
    }
  }

  /** Paragraph `k` laid out from its parse, then a blank line unless it is the last;
      None when its parse failed. */
  function LayOutStep(runs: seq<Run>, parsed: seq<Option<seq<string>>>, k: nat): Option<seq<Run>>
    requires k < |parsed|
  {
    match parsed[k]
    case None => None
    case Some(segments) => Some(Paragraph(runs, segments, k == |parsed| - 1))
  }

  /** A parsed paragraph's segments, then a blank line unless it is the last. */
  function Paragraph(runs: seq<Run>, segments: seq<string>, last: bool): seq<Run> {
    var r := SpacedSegments(runs, segments, |segments|, false);
    if last then r else Insert(r, "\n\n", Normal)
  }

  /** The runs after the first `j` paragraphs; None once a parse has failed. */
  function LayOut(runs: seq<Run>, parsed: seq<Option<seq<string>>>, j: nat): Option<seq<Run>>
    requires j <= |parsed|
  {
    if j == 0 then Some(runs)
    else match LayOut(runs, parsed, j - 1)
      case None => None
      case Some(r) => LayOutStep(r, parsed, j - 1)
  }

  /** One more paragraph laid out after the first `j`. */
  lemma LayOutNext(runs: seq<Run>, parsed: seq<Option<seq<string>>>, j: nat, before: seq<Run>)
    requires j < |parsed| && LayOut(runs, parsed, j) == Some(before)
    ensures LayOut(runs, parsed, j + 1) == LayOutStep(before, parsed, j)
  {
  }

  /** Once a parse has failed, later paragraphs change nothing. */
  lemma {:induction false} LayOutFailureStays(runs: seq<Run>, parsed: seq<Option<seq<string>>>, j: nat, k: nat)
    requires j <= k <= |parsed|
    requires LayOut(runs, parsed, j).None?
    ensures LayOut(runs, parsed, k).None?
    decreases k
  {
    if k > j {
      LayOutFailureStays(runs, parsed, j, k - 1);
      assert LayOut(runs, parsed, k - 1) == None;
    }
  }

  /** The texts handed to the parser: every non-blank paragraph, stripped. */
  function ParsedTexts(paragraphs: seq<string>): set<string>
  {
    set k | 0 <= k < |paragraphs| && PyStrip(paragraphs[k]) != [] :: PyStrip(paragraphs[k])
  }

  /** The parser is consulted only on the stripped non-blank paragraphs: two parsers
      that agree there lay the text out identically. */
  lemma ParseOnlyNonBlankStripped(paragraphs: seq<string>, parse1: string -> Option<seq<string>>, parse2: string -> Option<seq<string>>)
    requires forall x :: x in ParsedTexts(paragraphs) ==> parse1(x) == parse2(x)
    ensures Parsed(paragraphs, parse1) == Parsed(paragraphs, parse2)
    ensures LayOut([], Parsed(paragraphs, parse1), |paragraphs|) == LayOut([], Parsed(paragraphs, parse2), |paragraphs|)
  {
    forall k | 0 <= k < |paragraphs|
      ensures Parsed(paragraphs, parse1)[k] == Parsed(paragraphs, parse2)[k]
    {
      ParsedAt(paragraphs, parse1, k);
      ParsedAt(paragraphs, parse2, k);
      if PyStrip(paragraphs[k]) != [] {
        assert PyStrip(paragraphs[k]) in ParsedTexts(paragraphs);
      }
    }
  }

  /** The parser returns segments that concatenate to its input, as BudouX does. */
  ghost predicate Faithful(parse: string -> Option<seq<string>>) {
    forall x :: parse(x).Some? ==> Concat(parse(x).value) == x
  }

  function StripEach(paragraphs: seq<string>): (r: seq<string>)
    ensures |r| == |paragraphs|
    ensures forall k :: 0 <= k < |r| ==> r[k] == PyStrip(paragraphs[k])
  {
    seq(|paragraphs|, k requires 0 <= k < |paragraphs| => PyStrip(paragraphs[k]))
  }

  /** What the paragraph lemmas track: `bare` more text once the tiny spaces are
      deleted, and both run invariants kept. */
  ghost predicate AddsBare(runs: seq<Run>, r: seq<Run>, bare: string) {
    && TextWithout(r, TinySpace) == TextWithout(runs, TinySpace) + bare
    && (NoEmptyRuns(runs) ==> NoEmptyRuns(r))
    && (TinyRunsAreSpaces(runs) ==> TinyRunsAreSpaces(r))
  }

  /** The segments of one paragraph, laid out without line splitting. */
  lemma SpacedAddsBare(runs: seq<Run>, segments: seq<string>)
    ensures AddsBare(runs, SpacedSegments(runs, segments, |segments|, false), Concat(segments))
  {
    SpacedSegmentsEffect(runs, segments, |segments|, false);
    assert segments[..|segments|] == segments;
  }

  /** A parsed paragraph adds its segments and, unless last, a blank line. */
  lemma LayOutStepEffect(runs: seq<Run>, parsed: seq<Option<seq<string>>>, k: nat)
    requires k < |parsed| && parsed[k].Some?
    ensures LayOutStep(runs, parsed, k).Some?
    ensures AddsBare(runs, LayOutStep(runs, parsed, k).value,
                     Concat(parsed[k].value) + (if k < |parsed| - 1 then "\n\n" else []))
  {
    var segments := parsed[k].value;
    var r := SpacedSegments(runs, segments, |segments|, false);
    SpacedAddsBare(runs, segments);
    if k < |parsed| - 1 {
      var next := Insert(r, "\n\n", Normal);
      assert LayOutStep(runs, parsed, k) == Some(next);
      InsertNormalAdds(r, "\n\n");
      AddsBareTrans(runs, r, next, Concat(segments), "\n\n", Concat(segments) + "\n\n");
    } else {
      assert LayOutStep(runs, parsed, k) == Some(r);
      assert Concat(segments) + [] == Concat(segments);
    }
  }

  /** Each successful parse concatenates back to its stripped paragraph. */
  predicate ParsesBackTo(parsed: seq<Option<seq<string>>>, stripped: seq<string>) {
    |parsed| == |stripped| && forall k :: 0 <= k < |parsed| && parsed[k].Some? ==> Concat(parsed[k].value) == stripped[k]
  }

  lemma AddsBareTrans(a: seq<Run>, b: seq<Run>, c: seq<Run>, b1: string, b2: string, bare: string)
    requires AddsBare(a, b, b1) && AddsBare(b, c, b2) && bare == b1 + b2
    ensures AddsBare(a, c, bare)
  {
  }

  /** After `j` paragraphs, deleting the tiny spaces leaves the first `j` stripped
      paragraphs joined by blank lines (plus the blank line after paragraph `j` when
      more follow). */
  lemma {:induction false} LayOutText(runs: seq<Run>, parsed: seq<Option<seq<string>>>, stripped: seq<string>, j: nat)
    requires j <= |parsed| && ParsesBackTo(parsed, stripped)
    requires LayOut(runs, parsed, j).Some?
    ensures AddsBare(runs, LayOut(runs, parsed, j).value,
                     Join(stripped[..j], "\n\n") + (if 0 < j < |parsed| then "\n\n" else []))
    decreases j
  {
    if j == 0 {
      assert Join(stripped[..0], "\n\n") + [] == [];
    } else {
      var r := LayOut(runs, parsed, j - 1).value;
      LayOutText(runs, parsed, stripped, j - 1);
      LayOutStepEffect(r, parsed, j - 1);
      var next := LayOutStep(r, parsed, j - 1).value;
      assert LayOut(runs, parsed, j).value == next;
      var before := Join(stripped[..j - 1], "\n\n") + (if 0 < j - 1 then "\n\n" else []);
      var added := stripped[j - 1] + (if j - 1 < |parsed| - 1 then "\n\n" else []);
      assert Join(stripped[..j], "\n\n") + (if 0 < j < |parsed| then "\n\n" else []) == before + added by {
        JoinPrefixSnoc(stripped, j, "\n\n");
      }
      AddsBareTrans(runs, r, next, before, added,
                    Join(stripped[..j], "\n\n") + (if 0 < j < |parsed| then "\n\n" else []));
    }
  }

  /** A faithful parser's segments concatenate back to the stripped paragraph;
      a blank paragraph parses to no segments at all. */
  lemma ParsedParsesBack(paragraphs: seq<string>, parse: string -> Option<seq<string>>)
    requires Faithful(parse)
    ensures ParsesBackTo(Parsed(paragraphs, parse), StripEach(paragraphs))
  {
    var parsed := Parsed(paragraphs, parse);
    var stripped := StripEach(paragraphs);
    forall k | 0 <= k < |parsed| && parsed[k].Some?
      ensures Concat(parsed[k].value) == stripped[k]
    {
      ParsedAt(paragraphs, parse, k);
      if stripped[k] == [] {
        assert parsed[k].value == [];
      }
    }
  }

  /** With a faithful parser, a translation whose paragraphs all parsed is laid out
      so that deleting the tiny spaces leaves its stripped paragraphs joined by blank
      lines: blank paragraphs keep their separator, and no paragraph text is lost or
      reordered. */
  lemma LayOutProperties(translated: string, parse: string -> Option<seq<string>>)
    requires Faithful(parse)
    requires LayOut([], Parsed(Split(translated, '\n'), parse), |Split(translated, '\n')|).Some?
    ensures var paragraphs := Split(translated, '\n');
      var r := LayOut([], Parsed(paragraphs, parse), |paragraphs|).value;
      && TextWithout(r, TinySpace) == Join(StripEach(paragraphs), "\n\n")
      && NoEmptyRuns(r) && TinyRunsAreSpaces(r)
  {
    var paragraphs := Split(translated, '\n');
    ParsedParsesBack(paragraphs, parse);
    LayOutAll(Parsed(paragraphs, parse), StripEach(paragraphs));
  }

  /** A complete layout from the empty widget, whatever the parses were. */
  lemma LayOutAll(parsed: seq<Option<seq<string>>>, stripped: seq<string>)
    requires ParsesBackTo(parsed, stripped)
    requires LayOut([], parsed, |parsed|).Some?
    ensures var r := LayOut([], parsed, |parsed|).value;
      && TextWithout(r, TinySpace) == Join(stripped, "\n\n")
      && NoEmptyRuns(r) && TinyRunsAreSpaces(r)
  {
    LayOutText([], parsed, stripped, |parsed|);
    assert stripped[..|parsed|] == stripped;
    assert Join(stripped, "\n\n") + [] == Join(stripped, "\n\n");
  }

  // ---------------------------------------------------------------------
  // The application

  class ClassicTranslatorApp {
    /** Content of the input text widget. */
    var input: string
    /** Content of the result text widget. */
    var result: seq<Run>
    var cPressTimes: seq<int>
    var pressedKeys: set<Key>
    /** Every run of the command line tool, as (arguments, stdin). */
    ghost var invocations: seq<FixedTranslator.Invocation>

    constructor ()
      ensures input == "Hello world" && result == [] && cPressTimes == [] && pressedKeys == {}
      ensures invocations == []
    {
      input := "Hello world";
      result := [];
      cPressTimes := [];
      pressedKeys := {};
      invocations := [];
    }

    /** `on_key_down` */
    method OnKeyDown(key: Key)
      modifies this`pressedKeys
      ensures pressedKeys == old(pressedKeys) + {key}
    {
      pressedKeys := pressedKeys + {key};
    }

    /** `on_key_up`: a key is removed only when it is present; releasing an
        unknown key changes nothing. */
    method OnKeyUp(key: Key)
      modifies this`pressedKeys
      ensures pressedKeys == old(pressedKeys) - {key}
      ensures key !in old(pressedKeys) ==> pressedKeys == old(pressedKeys)
    {
      if key in pressedKeys {
        pressedKeys := pressedKeys - {key};
      }
    }

    /** `on_cmd_c_global` at time `now`; `fired` schedules `load_and_translate`. */
    method OnCmdCGlobal(now: int) returns (fired: bool)
      modifies this`cPressTimes
      ensures Debounce.Step(fired, cPressTimes) == Debounce.StrictStep(old(cPressTimes), now)
    {
      cPressTimes := cPressTimes + [now];
      cPressTimes := Debounce.KeepWithin(cPressTimes, now, Debounce.PairWindowMs, true);
      fired := |cPressTimes| >= 2;
      if fired {
        cPressTimes := [];
      }
    }

    /** `on_key_press` of the hotkey listener: a 'c' while Command or Control is held
        counts as a Command+C press; any other key changes nothing. */
    method OnKeyPress(key: Key, now: int) returns (fired: bool)
      modifies this`cPressTimes
      ensures key == Char('c') && (Cmd in pressedKeys || Ctrl in pressedKeys) ==>
        Debounce.Step(fired, cPressTimes) == Debounce.StrictStep(old(cPressTimes), now)
      ensures !(key == Char('c') && (Cmd in pressedKeys || Ctrl in pressedKeys)) ==>
        !fired && cPressTimes == old(cPressTimes)
    {
      fired := false;
      if key.Char? && key.c == 'c' {
        if Cmd in pressedKeys || Ctrl in pressedKeys {
          fired := OnCmdCGlobal(now);
        }
      }
    }

    /** The inner loop of `insert_segments_with_tiny_spaces` for a segment holding
        line breaks: each non-empty part, a newline between consecutive parts. */
    method AppendLines(parts: seq<string>)
      modifies this`result
      ensures result == PartRuns(old(result), parts, |parts|)
    {
      var j := 0;
      while j < |parts|
        invariant 0 <= j <= |parts|
        invariant result == PartRuns(old(result), parts, j)
      {
        if parts[j] != [] {
          result := Insert(result, parts[j], Normal);
        }
        if j < |parts| - 1 {
          result := Insert(result, "\n", Normal);
        }
        j := j + 1;
      }
    }

    /** `insert_segments_with_tiny_spaces`: clears the widget, then each segment in
        the normal font (its line breaks kept), a tiny space between segments. */
    method InsertSegmentsWithTinySpaces(segments: seq<string>)
      modifies this`result
      ensures result == SpacedSegments([], segments, |segments|, true)
    {
      result := [];
      var i := 0;
      while i < |segments|
        invariant 0 <= i <= |segments|
        invariant result == SpacedSegments([], segments, i, true)
      {
        ghost var before := result;
        var segment := segments[i];
        if '\n' in segment {
          AppendLines(Split(segment, '\n'));
        } else {
          result := Insert(result, segment, Normal);
        }
        assert result == SegmentBody(before, segment, true);
        if i < |segments| - 1 {
          result := Insert(result, " ", TinySpace);
        }
        assert result == SpacedStep(before, segments, i, true);
        i := i + 1;
      }
    }

    /** The segment loop inside `translate`'s paragraph loop: each segment in
        the normal font, a tiny space between consecutive ones. */
    method AppendSegments(segments: seq<string>)
      modifies this`result
      ensures result == SpacedSegments(old(result), segments, |segments|, false)
    {
      var i := 0;
      while i < |segments|
        invariant 0 <= i <= |segments|
        invariant result == SpacedSegments(old(result), segments, i, false)
      {
        result := Insert(result, segments[i], Normal);
        if i < |segments| - 1 {
          result := Insert(result, " ", TinySpace);
        }
        i := i + 1;
      }
    }

    /** One pass of the paragraph loop in `translate`: a blank paragraph adds
        nothing of its own, a non-blank one is stripped, parsed and laid out;
        a blank line follows unless it is the last paragraph. False, with the
        widget untouched, when the parser raised. */
    method AppendParagraph(paragraph: string, last: bool, parse: string -> Option<seq<string>>) returns (ok: bool)
      modifies this`result
      ensures ok <==> ParseParagraph(paragraph, parse).Some?
      ensures !ok ==> result == old(result)
      ensures ok ==> result == Paragraph(old(result), ParseParagraph(paragraph, parse).value, last)
    {
      var p := PyStrip(paragraph);
      if p != [] {
        var parsed := parse(p);
        if parsed.None? {
          return false;
        }
        AppendSegments(parsed.value);
      }
      if !last {
        result := Insert(result, "\n\n", Normal);
      }
      ok := true;
    }

    /** The BudouX block of `translate`: lays the paragraphs of `translated` out;
        `ok` is false when the parser raised, with the widget partly written. */
    method LayOutParagraphs(translated: string, parse: string -> Option<seq<string>>) returns (ok: bool)
      modifies this`result
      ensures ok <==> LayOut([], Parsed(Split(translated, '\n'), parse), |Split(translated, '\n')|).Some?
      ensures ok ==> result == LayOut([], Parsed(Split(translated, '\n'), parse), |Split(translated, '\n')|).value
    {
      var paragraphs := Split(translated, '\n');
      ghost var parsedAll := Parsed(paragraphs, parse);
      result := [];
      var j := 0;
      while j < |paragraphs|
        invariant 0 <= j <= |paragraphs|
        invariant LayOut([], parsedAll, j) == Some(result)
      {
        ghost var before := result;
        var laidOut := AppendParagraph(paragraphs[j], j == |paragraphs| - 1, parse);
        ParsedAt(paragraphs, parse, j);
        if !laidOut {
          LayOutFailureStays([], parsedAll, j + 1, |paragraphs|);
          return false;
        }
        assert LayOutStep(before, parsedAll, j) == Some(result);
        LayOutNext([], parsedAll, j, before);
        j := j + 1;
      }
      ok := true;
    }

    /** `translate`. `budouxAvailable` stands for `BUDOUX_AVAILABLE and parser`. */
    method Translate(outcome: RunOutcome, budouxAvailable: bool, parse: string -> Option<seq<string>>)
      modifies this`result, this`invocations
      ensures PyStrip(old(input) + "\n") == [] ==>
        result == Replace(FixedTranslator.NoTextMessage, Untagged) && invocations == old(invocations)
      ensures PyStrip(old(input) + "\n") != [] ==>
        invocations == old(invocations) + [FixedTranslator.Invocation(CliArgs, PyStrip(old(input) + "\n"))]
      ensures PyStrip(old(input) + "\n") != [] && outcome.Completed? && outcome.returnCode == 0 ==>
        var t := Postprocess(outcome.stdout);
        var paragraphs := Split(t, '\n');
        var laidOut := LayOut([], Parsed(paragraphs, parse), |paragraphs|);
        result == if budouxAvailable && t != [] && laidOut.Some? then laidOut.value else Replace(t, Normal)
      ensures PyStrip(old(input) + "\n") != [] && outcome.Completed? && outcome.returnCode != 0 ==>
        result == Replace(ExitErrorText(outcome.stderr), Untagged)
      ensures PyStrip(old(input) + "\n") != [] && outcome.TimedOut? ==> result == Replace(TimeoutMessage, Untagged)
      ensures PyStrip(old(input) + "\n") != [] && outcome.Raised? ==> result == Replace(FailurePrefix + outcome.message, Untagged)
    {
      var text := PyStrip(input + "\n");
      if text == [] {
        result := Replace(FixedTranslator.NoTextMessage, Untagged);
        return;
      }
      var current := PyStrip(TkGet(result));
      if current != PlaceholderText {
        result := Replace(PlaceholderText, Untagged);
      }
      invocations := invocations + [FixedTranslator.Invocation(CliArgs, text)];
      match outcome
      case TimedOut =>
        result := Replace(TimeoutMessage, Untagged);
      case Raised(message) =>
        result := Replace(FailurePrefix + message, Untagged);
      case Completed(code, stdout, stderr) =>
        if code == 0 {
          var translated := Postprocess(stdout);
          if budouxAvailable && translated != [] {
            var ok := LayOutParagraphs(translated, parse);
            if ok {
              return;
            }
          }
          result := Replace(translated, Normal);
        } else {
          result := Replace(ExitErrorText(stderr), Untagged);
        }
    }
  }

  /** Blank input never runs the command line tool, whatever it would have done. */
  method BlankInputRunsNothing(app: ClassicTranslatorApp, outcome: RunOutcome, parse: string -> Option<seq<string>>)
    requires PyStrip(app.input + "\n") == []
    modifies app
  {
    var before := app.invocations;
    app.Translate(outcome, true, parse);
    assert app.invocations == before;
  }
}
