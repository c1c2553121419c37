/** Text handling the solvers share: Rust's `str::split` on a character,
    `str::lines`, ASCII decimal digits and the value of a run of digits. */
module Text {

  /** True iff `c` is one of the ASCII digits `0`..`9` (Rust's `char::to_digit(10)` succeeds). */
  predicate IsDigit(c: char) {
    '0' <= c <= '9'
  }

  /** The value of an ASCII decimal digit. */
  function DigitOf(c: char): (d: nat)
    requires IsDigit(c)
    ensures d <= 9
    ensures c == ('0' as int + d) as char
  {
    c as int - '0' as int
  }

  predicate AllDigits(s: string) {
    forall i :: 0 <= i < |s| ==> IsDigit(s[i])
  }

  /** The value of a string of decimal digits, most significant digit first. */
  function DecimalValue(s: string): nat
    requires AllDigits(s)
  {
    if |s| == 0 then 0 else DecimalValue(s[..|s| - 1]) * 10 + DigitOf(s[|s| - 1])
  }

  /** Appending a digit multiplies the value by ten and adds the digit. */
  lemma {:induction false} DecimalValueSnoc(s: string, c: char)
    requires AllDigits(s) && IsDigit(c)
    ensures AllDigits(s + [c])
    ensures DecimalValue(s + [c]) == DecimalValue(s) * 10 + DigitOf(c)
  {
    assert (s + [c])[..|s|] == s;
  }

  /** A value written with n digits is below 10^n. */
  lemma {:induction false} DecimalValueBound(s: string)
    requires AllDigits(s)
    ensures DecimalValue(s) < Pow10(|s|)
  {
    if |s| > 0 {
      DecimalValueBound(s[..|s| - 1]);
    }
  }

  function Pow10(n: nat): (p: nat)
    ensures p >= 1
  {
    if n == 0 then 1 else 10 * Pow10(n - 1)
  }

  /** Rust's `s.split(sep)` for a character separator: every occurrence of `sep`
      ends one part, so n separators give n + 1 parts, some of them empty. */
  function Split(s: string, sep: char): (parts: seq<string>)
    ensures |parts| >= 1
    ensures forall i :: 0 <= i < |parts| ==> sep !in parts[i]
  {
    if |s| == 0 then [""]
    else
      var rest := Split(s[1..], sep);
      if s[0] == sep then [""] + rest else [[s[0]] + rest[0]] + rest[1..]
  }

  /** The parts glued back together with `sep` between neighbours. */
  function Join(parts: seq<string>, sep: char): string
  {
    if |parts| == 0 then ""
    else if |parts| == 1 then parts[0]
    else parts[0] + [sep] + Join(parts[1..], sep)
  }

  /** Splitting loses nothing: gluing the parts back gives the string. */
  lemma {:induction false} JoinSplit(s: string, sep: char)
    ensures Join(Split(s, sep), sep) == s
  {
    if |s| > 0 {
      var rest := Split(s[1..], sep);
      JoinSplit(s[1..], sep);
      if s[0] == sep {
        assert Split(s, sep) == [""] + rest;
        assert Join(Split(s, sep), sep) == "" + [sep] + Join(rest, sep);
      } else if |rest| == 1 {
        assert Join(Split(s, sep), sep) == [s[0]] + rest[0];
      } else {
        var parts := [[s[0]] + rest[0]] + rest[1..];
        assert parts[1..] == rest[1..];
        assert Join(rest, sep) == rest[0] + [sep] + Join(rest[1..], sep);
        assert Join(parts, sep) == [s[0]] + rest[0] + [sep] + Join(rest[1..], sep);
      }
    }
  }

  /** A prefix free of the separator sticks to the first part. */
  lemma {:induction false} SplitPrefix(p: string, s: string, sep: char)
    requires sep !in p
    ensures Split(p + s, sep) == [p + Split(s, sep)[0]] + Split(s, sep)[1..]
  {
    if |p| > 0 {
      var parts := Split(s, sep);
      var tail := p[1..];
      SplitPrefix(tail, s, sep);
      assert (p + s)[1..] == tail + s;
      var rest := Split(tail + s, sep);
      assert rest[0] == tail + parts[0] && rest[1..] == parts[1..];
      assert (p + s)[0] == p[0] && p[0] != sep;
      assert [p[0]] + (tail + parts[0]) == p + parts[0] by {
        assert p == [p[0]] + tail;
      }
    } else {
      var parts := Split(s, sep);
      assert p + s == s;
      assert p + parts[0] == parts[0];
      assert parts == [parts[0]] + parts[1..];
    }
  }

  /** Splitting undoes joining, provided no part holds the separator. */
  lemma {:induction false} SplitJoin(parts: seq<string>, sep: char)
    requires |parts| >= 1
    requires forall i :: 0 <= i < |parts| ==> sep !in parts[i]
    ensures Split(Join(parts, sep), sep) == parts
  {
    if |parts| == 1 {
      SplitPrefix(parts[0], "", sep);
      assert parts[0] + "" == parts[0];
    } else {
      var tail := Join(parts[1..], sep);
      SplitJoin(parts[1..], sep);
      assert Join(parts, sep) == parts[0] + ([sep] + tail);
      SplitPrefix(parts[0], [sep] + tail, sep);
      assert ([sep] + tail)[1..] == tail;
      assert Split([sep] + tail, sep) == [""] + parts[1..];
      assert parts[0] + "" == parts[0];
    }
  }

  /** Removes one carriage return at the end of a line, if there is one. */
  function StripCarriageReturn(line: string): string
  {
    if |line| > 0 && line[|line| - 1] == '\r' then line[..|line| - 1] else line
  }

  /** Rust's `s.lines()`: the pieces between line feeds, where a piece that
      ended in a line feed also loses one carriage return before it, and an
      empty piece after the last line feed does not count as a line. */
  function Lines(s: string): (lines: seq<string>)
    ensures forall i :: 0 <= i < |lines| ==> '\n' !in lines[i]
  {
    var parts := Split(s, '\n');
    var last := parts[|parts| - 1];
    StripEach(parts[..|parts| - 1]) + (if last == "" then [] else [last])
  }

  function StripEach(parts: seq<string>): (stripped: seq<string>)
    ensures |stripped| == |parts|
    ensures forall i :: 0 <= i < |parts| ==> stripped[i] == StripCarriageReturn(parts[i])
    ensures forall i :: 0 <= i < |parts| ==> ('\n' in stripped[i] ==> '\n' in parts[i])
  {
    if |parts| == 0 then [] else [StripCarriageReturn(parts[0])] + StripEach(parts[1..])
  }

  /** Each line followed by a line feed. */
  function Unlines(lines: seq<string>): string
  {
    if |lines| == 0 then "" else lines[0] + "\n" + Unlines(lines[1..])
  }

  /** A line `Unlines` can write so that `Lines` reads it back unchanged. */
  predicate PlainLine(line: string) {
    '\n' !in line && (|line| == 0 || line[|line| - 1] != '\r')
  }

  lemma {:induction false} UnlinesIsJoin(lines: seq<string>)
    ensures Unlines(lines) == Join(lines + [""], '\n')
  {
    if |lines| > 0 {
      UnlinesIsJoin(lines[1..]);
      assert (lines + [""])[1..] == lines[1..] + [""];
    }
  }

  /** Reading back what `Unlines` wrote gives the same lines. */
  lemma {:induction false} LinesUnlines(lines: seq<string>)
    requires forall i :: 0 <= i < |lines| ==> PlainLine(lines[i])
    ensures Lines(Unlines(lines)) == lines
  {
    var text := Unlines(lines);
    var parts := lines + [""];
    UnlinesIsJoin(lines);
    assert forall i :: 0 <= i < |parts| ==> '\n' !in parts[i] by {
      forall i | 0 <= i < |parts| ensures '\n' !in parts[i] {
        if i < |lines| { assert parts[i] == lines[i]; }
      }
    }
    SplitJoin(parts, '\n');
    assert Split(text, '\n') == parts;
    assert parts[..|parts| - 1] == lines;
    StripPlain(lines);
  }

  lemma {:induction false} StripPlain(lines: seq<string>)
    requires forall i :: 0 <= i < |lines| ==> PlainLine(lines[i])
    ensures StripEach(lines) == lines
  {
    var stripped := StripEach(lines);
    forall i | 0 <= i < |lines|
      ensures stripped[i] == lines[i]
    {
    }
  }

  /** The decimal numeral of n, without leading zeros. */
  function DecimalString(n: nat): (s: string)
    ensures |s| >= 1 && AllDigits(s)
    ensures DecimalValue(s) == n
  {
    var last := ('0' as int + n % 10) as char;
    if n < 10 then [last]
    else
      var prefix := DecimalString(n / 10);
      DecimalValueSnoc(prefix, last);
      prefix + [last]
  }
}
