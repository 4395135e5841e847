/**
 * The string operations the scanner relies on: the newline translation of a
 * text-mode `read()`, Python's `str.split('\n')`, `'\n'.join(...)` and the
 * decimal rendering of a count by `%d` / `%s`.
 */
module Text {

  const Newline: char := '\n'

  predicate NoNewline(s: string) {
    Newline !in s
  }

  const CarriageReturn: char := '\r'

  predicate NoCarriageReturn(s: string) {
    CarriageReturn !in s
  }

  /**
   * The newline translation of Python's text-mode `read()` (universal
   * newlines): every "\r\n" and every lone '\r' becomes '\n'.
   */
  function ReadTextMode(raw: string): (text: string)
    ensures NoCarriageReturn(text)
    ensures |text| <= |raw|
    decreases |raw|
  {
    if |raw| == 0 then ""
    else if raw[0] == CarriageReturn then
      [Newline] + ReadTextMode(if |raw| > 1 && raw[1] == Newline then raw[2..] else raw[1..])
    else [raw[0]] + ReadTextMode(raw[1..])
  }

  /** Text without carriage returns is read unchanged. */
  lemma {:induction false} ReadTextModeKeepsPlainText(raw: string)
    requires NoCarriageReturn(raw)
    ensures ReadTextMode(raw) == raw
    decreases |raw|
  {
    if |raw| > 0 {
      assert raw[0] in raw;
      assert NoCarriageReturn(raw[1..]) by {
        forall c | c in raw[1..] ensures c in raw { }
      }
      ReadTextModeKeepsPlainText(raw[1..]);
      assert raw == [raw[0]] + raw[1..];
    }
  }

  /** Windows and old Mac line ends both read as '\n'. */
  lemma ReadTextModeExamples()
    ensures ReadTextMode("a\r\nb\r") == "a\nb\n"
  {
    assert "a\r\nb\r"[1..][2..] == "b\r";
    assert "a\r\nb\r"[1..][2..][1..] == "\r";
  }

  /** Python's `s.split('\n')`: always at least one piece; no piece holds a newline. */
  function Split(s: string): (pieces: seq<string>)
    ensures |pieces| >= 1
    ensures forall i :: 0 <= i < |pieces| ==> NoNewline(pieces[i])
    decreases |s|
  {
    if |s| == 0 then [""]
    else if s[0] == Newline then [""] + Split(s[1..])
    else
      var rest := Split(s[1..]);
      [[s[0]] + rest[0]] + rest[1..]
  }

  /** Python's `'\n'.join(xs)`. */
  function Join(xs: seq<string>): string
    decreases |xs|
  {
    if |xs| == 0 then ""
    else if |xs| == 1 then xs[0]
    else xs[0] + [Newline] + Join(xs[1..])
  }

  /** Joining the pieces of a split gives back the text. */
  lemma {:induction false} JoinSplit(s: string)
    ensures Join(Split(s)) == s
    decreases |s|
  {
    if |s| == 0 {
    } else if s[0] == Newline {
      JoinSplit(s[1..]);
      assert s == [Newline] + s[1..];
    } else {
      JoinSplit(s[1..]);
      var rest := Split(s[1..]);
      if |rest| == 1 {
        assert Split(s) == [[s[0]] + rest[0]];
      } else {
        assert Join(rest) == rest[0] + [Newline] + Join(rest[1..]);
        assert Split(s)[1..] == rest[1..];
      }
      assert s == [s[0]] + s[1..];
    }
  }

  /** A text without newlines is one piece. */
  lemma {:induction false} SplitSingle(s: string)
    requires NoNewline(s)
    ensures Split(s) == [s]
    decreases |s|
  {
    if |s| > 0 {
      assert NoNewline(s[1..]) by {
        forall c | c in s[1..] ensures c in s { }
      }
      SplitSingle(s[1..]);
      assert s == [s[0]] + s[1..];
    }
  }

  /** Splitting at a newline splits the two sides independently. */
  lemma {:induction false} SplitConcat(a: string, b: string)
    ensures Split(a + [Newline] + b) == Split(a) + Split(b)
    decreases |a|
  {
    var s := a + [Newline] + b;
    if |a| == 0 {
      assert s == [Newline] + b;
      assert s[1..] == b;
    } else {
      assert s[0] == a[0];
      assert s[1..] == a[1..] + [Newline] + b;
      SplitConcat(a[1..], b);
    }
  }

  /** Splitting a join of newline-free pieces gives the pieces back. */
  lemma {:induction false} SplitJoin(xs: seq<string>)
    requires |xs| >= 1
    requires forall i :: 0 <= i < |xs| ==> NoNewline(xs[i])
    ensures Split(Join(xs)) == xs
    decreases |xs|
  {
    SplitSingle(xs[0]);
    if |xs| > 1 {
      SplitJoin(xs[1..]);
      SplitConcat(xs[0], Join(xs[1..]));
      assert xs == [xs[0]] + xs[1..];
    }
  }

  /** Joining pieces without carriage returns adds none. */
  lemma {:induction false} JoinKeepsNoCarriageReturn(xs: seq<string>)
    requires forall i :: 0 <= i < |xs| ==> NoCarriageReturn(xs[i])
    ensures NoCarriageReturn(Join(xs))
    decreases |xs|
  {
    if |xs| > 1 {
      JoinKeepsNoCarriageReturn(xs[1..]);
    }
  }

  function DigitChar(d: nat): (c: char)
    requires d < 10
    ensures '0' <= c <= '9'
  {
    "0123456789"[d]
  }

  function DigitValue(c: char): (d: nat)
    requires '0' <= c <= '9'
    ensures d < 10
  {
    (c as int - '0' as int) as nat
  }

  predicate IsDigits(s: string) {
    forall i :: 0 <= i < |s| ==> '0' <= s[i] <= '9'
  }

  /** The decimal text Python's `%d` or `%s` prints for a non-negative integer. */
  function NatToString(n: nat): (s: string)
    ensures |s| >= 1 && IsDigits(s)
    ensures |s| > 1 ==> s[0] != '0'
    decreases n
  {
    if n < 10 then [DigitChar(n)] else NatToString(n / 10) + [DigitChar(n % 10)]
  }

  /** Reads a string of decimal digits back as a number. */
  function ParseNat(s: string): nat
    requires IsDigits(s)
    decreases |s|
  {
    if |s| == 0 then 0 else 10 * ParseNat(s[..|s| - 1]) + DigitValue(s[|s| - 1])
  }

  /** The count printed in a message can be read back exactly. */
  lemma {:induction false} ParseNatToString(n: nat)
    ensures ParseNat(NatToString(n)) == n
    decreases n
  {
    var s := NatToString(n);
    if n >= 10 {
      ParseNatToString(n / 10);
      assert s[..|s| - 1] == NatToString(n / 10);
    }
  }
}
