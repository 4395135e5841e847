/**
 * The finding extractor: the text printed by the external `xsltproc | sed`
 * pipeline is read in text mode (line ends become '\n'), split into lines and every empty line is removed, one
 * `list.remove("")` at a time, leaving the CVE identifiers in the order the
 * pipeline printed them.
 */
module Extraction {
  import opened Text

  /** The non-empty lines of `lines`, in their original order. */
  function NonBlank(lines: seq<string>): (kept: seq<string>)
    ensures "" !in kept
    ensures |kept| <= |lines|
    ensures forall x :: x in kept ==> x in lines
    decreases |lines|
  {
    if |lines| == 0 then []
    else (if lines[0] == "" then [] else [lines[0]]) + NonBlank(lines[1..])
  }

  /** Filtering distributes over concatenation: kept lines never change places. */
  lemma {:induction false} NonBlankAppend(a: seq<string>, b: seq<string>)
    ensures NonBlank(a + b) == NonBlank(a) + NonBlank(b)
    decreases |a|
  {
    if |a| > 0 {
      assert (a + b)[1..] == a[1..] + b;
      NonBlankAppend(a[1..], b);
    } else {
      assert a + b == b;
    }
  }

  /** Every non-empty line survives as often as it occurs. */
  lemma {:induction false} NonBlankKeepsCount(lines: seq<string>, x: string)
    requires x != ""
    ensures multiset(NonBlank(lines))[x] == multiset(lines)[x]
    decreases |lines|
  {
    if |lines| > 0 {
      NonBlankKeepsCount(lines[1..], x);
      assert lines == [lines[0]] + lines[1..];
    }
  }

  /** A list without empty entries is left as it is. */
  lemma {:induction false} NonBlankOfNoBlank(lines: seq<string>)
    requires "" !in lines
    ensures NonBlank(lines) == lines
    decreases |lines|
  {
    if |lines| > 0 {
      assert lines[0] in lines;
      assert "" !in lines[1..] by {
        forall y | y in lines[1..] ensures y in lines { }
      }
      NonBlankOfNoBlank(lines[1..]);
    }
  }

  /** Removing the filter's output again changes nothing. */
  lemma NonBlankIdempotent(lines: seq<string>)
    ensures NonBlank(NonBlank(lines)) == NonBlank(lines)
  {
    NonBlankOfNoBlank(NonBlank(lines));
  }

  /** Deleting one empty entry does not change which lines are kept. */
  lemma RemovingBlankKeepsNonBlank(lines: seq<string>, k: nat)
    requires k < |lines| && lines[k] == ""
    ensures NonBlank(lines[..k] + lines[k + 1..]) == NonBlank(lines)
  {
    assert lines == lines[..k] + ([lines[k]] + lines[k + 1..]);
    NonBlankAppend(lines[..k], [lines[k]] + lines[k + 1..]);
    NonBlankAppend([lines[k]], lines[k + 1..]);
    NonBlankAppend(lines[..k], lines[k + 1..]);
  }

  /**
   * Python's `list.remove(x)`: scans for the first occurrence of `x` and
   * deletes it. Only called when `x` is present (the caller's loop guard).
   */
  method RemoveFirst(s: seq<string>, x: string) returns (k: nat, r: seq<string>)
    requires x in s
    ensures k < |s| && s[k] == x && x !in s[..k]
    ensures r == s[..k] + s[k + 1..]
  {
    k := 0;
    while s[k] != x
      invariant k < |s|
      invariant x !in s[..k]
      invariant x in s[k..]
      decreases |s| - k
    {
      assert s[k..] == [s[k]] + s[k + 1..];
      assert s[..k + 1] == s[..k] + [s[k]];
      k := k + 1;
    }
    r := s[..k] + s[k + 1..];
  }

  /** `while "" in lines: lines.remove("")`: no empty entry is left and the rest keep their order. */
  method StripBlankLines(lines: seq<string>) returns (r: seq<string>)
    ensures r == NonBlank(lines)
    ensures "" !in r
  {
    r := lines;
    while "" in r
      invariant NonBlank(r) == NonBlank(lines)
      decreases |r|
    {
      var k, shorter := RemoveFirst(r, "");
      RemovingBlankKeepsNonBlank(r, k);
      r := shorter;
    }
    NonBlankOfNoBlank(r);
  }

  /** What the extractor promises of every entry it hands on. */
  predicate IsFindingLine(x: string) {
    x != "" && NoNewline(x) && NoCarriageReturn(x)
  }

  /** The lines the extractor keeps from the pipeline's printed text. */
  function ExtractedLines(printed: string): seq<string> {
    NonBlank(Split(ReadTextMode(printed)))
  }

  /**
   * `run_xsltproc_all`: the pipeline's printed text (all findings at or above
   * the priority), read in text mode, becomes the list of its non-empty lines.
   */
  method RunXsltprocAll(printed: string) returns (cveListAllFiltered: seq<string>)
    ensures cveListAllFiltered == ExtractedLines(printed)
    ensures forall i :: 0 <= i < |cveListAllFiltered| ==> IsFindingLine(cveListAllFiltered[i])
  {
    var text := ReadTextMode(printed);
    cveListAllFiltered := StripBlankLines(Split(text));
    ExtractedAreFindingLines(printed);
  }

  /**
   * `run_xsltproc_fixable`: the same treatment of the pipeline's printed text
   * for the findings that have a fix available.
   */
  method RunXsltprocFixable(printed: string) returns (cveListFixableFiltered: seq<string>)
    ensures cveListFixableFiltered == ExtractedLines(printed)
    ensures forall i :: 0 <= i < |cveListFixableFiltered| ==> IsFindingLine(cveListFixableFiltered[i])
  {
    var text := ReadTextMode(printed);
    cveListFixableFiltered := StripBlankLines(Split(text));
    ExtractedAreFindingLines(printed);
  }

  /** Every extracted entry is a non-empty line without a line-end character. */
  lemma ExtractedAreFindingLines(printed: string)
    ensures forall i :: 0 <= i < |ExtractedLines(printed)| ==> IsFindingLine(ExtractedLines(printed)[i])
  {
    var text := ReadTextMode(printed);
    var pieces := Split(text);
    forall i | 0 <= i < |NonBlank(pieces)| ensures IsFindingLine(NonBlank(pieces)[i]) {
      var x := NonBlank(pieces)[i];
      assert x in NonBlank(pieces);
      assert x in pieces;
      var j :| 0 <= j < |pieces| && pieces[j] == x;
      assert NoCarriageReturn(x) by {
        if CarriageReturn in x {
          NoCarriageReturnInPieces(text, j);
        }
      }
    }
  }

  /** A piece of a split holds only characters of the text that was split. */
  lemma {:induction false} NoCarriageReturnInPieces(text: string, j: nat)
    requires NoCarriageReturn(text)
    requires j < |Split(text)|
    ensures NoCarriageReturn(Split(text)[j])
    decreases |text|
  {
    if |text| > 0 {
      assert text[0] in text;
      assert NoCarriageReturn(text[1..]) by {
        forall c | c in text[1..] ensures c in text { }
      }
      var rest := Split(text[1..]);
      if text[0] == Newline {
        if j > 0 { NoCarriageReturnInPieces(text[1..], j - 1); }
      } else if j == 0 {
        NoCarriageReturnInPieces(text[1..], 0);
      } else {
        NoCarriageReturnInPieces(text[1..], j);
      }
    }
  }

  /**
   * Extraction recovers exactly the identifiers the pipeline printed one per
   * line, whether lines end in "\n", "\r\n" or not at all after the last.
   */
  lemma ExtractionRoundTrip(cves: seq<string>)
    requires forall i :: 0 <= i < |cves| ==> IsFindingLine(cves[i])
    ensures ExtractedLines(Join(cves)) == cves
    ensures ExtractedLines(Join(cves) + [Newline]) == cves
  {
    JoinKeepsNoCarriageReturn(cves);
    ReadTextModeKeepsPlainText(Join(cves));
    assert NoCarriageReturn(Join(cves) + [Newline]);
    ReadTextModeKeepsPlainText(Join(cves) + [Newline]);
    assert Join(cves) + [Newline] == Join(cves) + [Newline] + "";
    SplitConcat(Join(cves), "");
    if |cves| == 0 {
      assert Split(Join(cves)) == [""];
    } else {
      SplitJoin(cves);
      NonBlankOfNoBlank(cves);
      NonBlankAppend(cves, [""]);
    }
  }

  /** A line ended by "\r\n" is extracted as the line alone, as one ended by '\n' is. */
  lemma CrLfEndsLine(line: string, rest: string)
    requires IsFindingLine(line)
    ensures ExtractedLines(line + "\r\n" + rest) == [line] + ExtractedLines(rest)
    ensures ExtractedLines(line + [Newline] + rest) == [line] + ExtractedLines(rest)
  {
    var text := ReadTextMode(rest);
    ReadTextModeAppendPlain(line, rest);
    ReadTextModeAppendNewline(line, rest);
    SplitConcat(line, text);
    SplitSingle(line);
    NonBlankAppend([line], Split(text));
  }

  /** A plain line followed by "\r\n" reads as the line followed by '\n'. */
  lemma {:induction false} ReadTextModeAppendPlain(line: string, rest: string)
    requires NoCarriageReturn(line)
    ensures ReadTextMode(line + "\r\n" + rest) == line + [Newline] + ReadTextMode(rest)
    decreases |line|
  {
    var s := line + "\r\n" + rest;
    if |line| == 0 {
      assert s == "\r\n" + rest;
      assert s[2..] == rest;
    } else {
      assert line[0] in line;
      assert NoCarriageReturn(line[1..]) by {
        forall c | c in line[1..] ensures c in line { }
      }
      assert s[1..] == line[1..] + "\r\n" + rest;
      ReadTextModeAppendPlain(line[1..], rest);
      assert line == [line[0]] + line[1..];
    }
  }

  /** A plain line followed by '\n' reads as itself. */
  lemma {:induction false} ReadTextModeAppendNewline(line: string, rest: string)
    requires NoCarriageReturn(line)
    ensures ReadTextMode(line + [Newline] + rest) == line + [Newline] + ReadTextMode(rest)
    decreases |line|
  {
    var s := line + [Newline] + rest;
    if |line| == 0 {
      assert s == [Newline] + rest;
      assert s[1..] == rest;
    } else {
      assert line[0] in line;
      assert NoCarriageReturn(line[1..]) by {
        forall c | c in line[1..] ensures c in line { }
      }
      assert s[1..] == line[1..] + [Newline] + rest;
      ReadTextModeAppendNewline(line[1..], rest);
      assert line == [line[0]] + line[1..];
    }
  }
}
