/** Calibration decoder (src/day01.rs): every suffix of a line is offered to a
    digit decoder; the first and the last digit found form a two-digit number,
    and the numbers of all lines are added up. */
module Calibration {
  import opened Options
  import opened Text

  type Digit = d: int | 0 <= d <= 9

  /** A decoder looks at the start of a suffix and may recognise a digit there. */
  type Decoder = string -> Option<Digit>

  /** `starting_digit`: the value of the first character when it is a decimal
      digit; nothing for an empty slice or any other first character. */
  function StartingDigit(slice: string): (r: Option<Digit>)
    ensures r.Some? <==> |slice| > 0 && '0' <= slice[0] <= '9'
    ensures r.Some? ==> r.value == slice[0] as int - '0' as int
  {
    if |slice| == 0 || !IsDigit(slice[0]) then None else Some(DigitOf(slice[0]))
  }

  /** The ten spelled-out digits; `SpelledDigits[k]` is the word for k. */
  const SpelledDigits: seq<string> :=
    ["zero", "one", "two", "three", "four", "five", "six", "seven", "eight", "nine"]

  /** `starting_digit_allow_text`: a leading decimal digit if there is one,
      otherwise the digit whose spelled-out word the slice starts with. */
  function StartingDigitAllowText(slice: string): (r: Option<Digit>)
    ensures StartingDigit(slice).Some? ==> r == StartingDigit(slice)
    ensures StartingDigit(slice).None? && r.Some? ==> SpelledDigits[r.value] <= slice
    ensures StartingDigit(slice).None? && r.None? ==>
      forall k :: 0 <= k < 10 ==> !(SpelledDigits[k] <= slice)
  {
    if StartingDigit(slice).Some? then StartingDigit(slice)
    else if "zero" <= slice then Some(0)
    else if "one" <= slice then Some(1)
    else if "two" <= slice then Some(2)
    else if "three" <= slice then Some(3)
    else if "four" <= slice then Some(4)
    else if "five" <= slice then Some(5)
    else if "six" <= slice then Some(6)
    else if "seven" <= slice then Some(7)
    else if "eight" <= slice then Some(8)
    else if "nine" <= slice then Some(9)
    else None
  }

  /** No slice starts with two different spelled-out digits. */
  lemma {:induction false} SpelledDigitsExclusive(slice: string, j: nat, k: nat)
    requires j < 10 && k < 10
    requires SpelledDigits[j] <= slice && SpelledDigits[k] <= slice
    ensures j == k
  {
    var wj, wk := SpelledDigits[j], SpelledDigits[k];
    assert |wj| >= 3 && |wk| >= 3;
    assert wj[0] == slice[0] == wk[0];
    assert wj[1] == slice[1] == wk[1];
  }

  /** Without a leading decimal digit, the result is k exactly when the slice
      starts with the word for k. */
  lemma {:induction false} AllowTextWord(slice: string, k: nat)
    requires k < 10
    requires StartingDigit(slice).None?
    ensures StartingDigitAllowText(slice) == Some(k) <==> SpelledDigits[k] <= slice
  {
    var r := StartingDigitAllowText(slice);
    if SpelledDigits[k] <= slice {
      assert r.Some?;
      SpelledDigitsExclusive(slice, r.value, k);
    }
  }

  /** Some index of the line (an unsliced suffix start) where the decoder finds a digit. */
  ghost predicate HasDigit(line: string, decoder: Decoder) {
    exists i :: 0 <= i < |line| && decoder(line[i..]).Some?
  }

  /** The digit at the smallest index below k whose suffix decodes. */
  function FirstHit(line: string, decoder: Decoder, k: nat): Option<Digit>
    requires k <= |line|
  {
    if k == 0 then None
    else
      var earlier := FirstHit(line, decoder, k - 1);
      if earlier.Some? then earlier else decoder(line[k - 1..])
  }

  /** The digit at the largest index below k whose suffix decodes. */
  function LastHit(line: string, decoder: Decoder, k: nat): Option<Digit>
    requires k <= |line|
  {
    if k == 0 then None
    else if decoder(line[k - 1..]).Some? then decoder(line[k - 1..])
    else LastHit(line, decoder, k - 1)
  }

  /** Nothing is found below k exactly when no index below k decodes. */
  lemma {:induction false} HitsAbsent(line: string, decoder: Decoder, k: nat)
    requires k <= |line|
    ensures FirstHit(line, decoder, k).None? <==> forall j :: 0 <= j < k ==> decoder(line[j..]).None?
    ensures LastHit(line, decoder, k).None? <==> forall j :: 0 <= j < k ==> decoder(line[j..]).None?
  {
    if k > 0 {
      HitsAbsent(line, decoder, k - 1);
    }
  }

  /** FirstHit is the decoder's result at the earliest decoding index. */
  lemma {:induction false} FirstHitIsEarliest(line: string, decoder: Decoder, k: nat, i: nat)
    requires i < k <= |line|
    requires decoder(line[i..]).Some?
    requires forall j :: 0 <= j < i ==> decoder(line[j..]).None?
    ensures FirstHit(line, decoder, k) == decoder(line[i..])
  {
    if k - 1 == i {
      HitsAbsent(line, decoder, i);
    } else {
      FirstHitIsEarliest(line, decoder, k - 1, i);
    }
  }

  /** LastHit is the decoder's result at the latest decoding index. */
  lemma {:induction false} LastHitIsLatest(line: string, decoder: Decoder, k: nat, i: nat)
    requires i < k <= |line|
    requires decoder(line[i..]).Some?
    requires forall j :: i < j < k ==> decoder(line[j..]).None?
    ensures LastHit(line, decoder, k) == decoder(line[i..])
  {
    if k - 1 != i {
      LastHitIsLatest(line, decoder, k - 1, i);
    }
  }

  /** The two-digit number of a line: ten times the first digit plus the last. */
  ghost function CalibrationValue(line: string, decoder: Decoder): (n: nat)
    requires HasDigit(line, decoder)
    ensures n <= 99
  {
    HitsAbsent(line, decoder, |line|);
    10 * FirstHit(line, decoder, |line|).value + LastHit(line, decoder, |line|).value
  }

  /** The value is read off the first and the last index whose suffix decodes. */
  lemma {:induction false} CalibrationValueFirstLast(line: string, decoder: Decoder, first: nat, last: nat)
    requires first <= last < |line|
    requires decoder(line[first..]).Some? && decoder(line[last..]).Some?
    requires forall j :: 0 <= j < first ==> decoder(line[j..]).None?
    requires forall j :: last < j < |line| ==> decoder(line[j..]).None?
    ensures HasDigit(line, decoder)
    ensures CalibrationValue(line, decoder)
         == 10 * decoder(line[first..]).value + decoder(line[last..]).value
  {
    FirstHitIsEarliest(line, decoder, |line|, first);
    LastHitIsLatest(line, decoder, |line|, last);
  }

  /** A line with a single decoding index i gives the digit at i twice. */
  lemma {:induction false} CalibrationValueSingle(line: string, decoder: Decoder, i: nat)
    requires i < |line| && decoder(line[i..]).Some?
    requires forall j :: 0 <= j < |line| && j != i ==> decoder(line[j..]).None?
    ensures HasDigit(line, decoder)
    ensures CalibrationValue(line, decoder) == 11 * decoder(line[i..]).value
  {
    CalibrationValueFirstLast(line, decoder, i, i);
  }

  /** Overlapping words both count: in "eightwo" the first digit is 8 and the last is 2. */
  lemma {:induction false} OverlappingWords()
    ensures HasDigit("eightwo", StartingDigitAllowText)
    ensures CalibrationValue("eightwo", StartingDigitAllowText) == 82
  {
    var line := "eightwo";
    assert StartingDigitAllowText(line[0..]) == Some(8);
    assert StartingDigitAllowText(line[4..]) == Some(2);
    forall j | 4 < j < |line|
      ensures StartingDigitAllowText(line[j..]).None?
    {
      assert line[j..] == if j == 5 then "wo" else "o";
    }
    CalibrationValueFirstLast(line, StartingDigitAllowText, 0, 4);
  }

  /** `decode_into_number`: scans every suffix, remembering the first and the
      latest digit the decoder finds. The source unwraps both, so a line must
      hold at least one digit. */
  method DecodeIntoNumber(line: string, decoder: Decoder) returns (n: nat)
    requires HasDigit(line, decoder)
    ensures n == CalibrationValue(line, decoder)
    ensures n <= 99
  {
    var firstDigit: Option<Digit> := None;
    var lastDigit: Option<Digit> := None;
    for i := 0 to |line|
      invariant firstDigit == FirstHit(line, decoder, i)
      invariant lastDigit == LastHit(line, decoder, i)
    {
      var slice := line[i..];
      var hit := decoder(slice);
      if hit.Some? {
        if firstDigit.None? {
          firstDigit := hit;
        }
        lastDigit := hit;
      }
    }
    HitsAbsent(line, decoder, |line|);
    n := firstDigit.value * 10 + lastDigit.value;
  }

  /** The sum of the calibration values of the first k lines. */
  ghost function TotalCalibration(lines: seq<string>, decoder: Decoder): nat
    requires forall i :: 0 <= i < |lines| ==> HasDigit(lines[i], decoder)
  {
    if |lines| == 0 then 0
    else TotalCalibration(lines[..|lines| - 1], decoder) + CalibrationValue(lines[|lines| - 1], decoder)
  }

  /** Every line adds at most 99. */
  lemma {:induction false} TotalCalibrationBound(lines: seq<string>, decoder: Decoder)
    requires forall i :: 0 <= i < |lines| ==> HasDigit(lines[i], decoder)
    ensures TotalCalibration(lines, decoder) <= 99 * |lines|
  {
    if |lines| > 0 {
      TotalCalibrationBound(lines[..|lines| - 1], decoder);
    }
  }

  /** The running total of `part01` / `part02` over the lines of the input. */
  method SumOverLines(input: string, decoder: Decoder) returns (total: nat)
    requires forall i :: 0 <= i < |Lines(input)| ==> HasDigit(Lines(input)[i], decoder)
    ensures total == TotalCalibration(Lines(input), decoder)
  {
    var lines := Lines(input);
    total := 0;
    for k := 0 to |lines|
      invariant total == TotalCalibration(lines[..k], decoder)
    {
      var n := DecodeIntoNumber(lines[k], decoder);
      assert lines[..k + 1][..k] == lines[..k];
      total := total + n;
    }
    assert lines[..|lines|] == lines;
  }

  /** `part01`: the calibration values with plain digits only. */
  method Part01(input: string) returns (total: nat)
    requires forall i :: 0 <= i < |Lines(input)| ==> HasDigit(Lines(input)[i], StartingDigit)
    ensures total == TotalCalibration(Lines(input), StartingDigit)
    ensures total <= 99 * |Lines(input)|
  {
    total := SumOverLines(input, StartingDigit);
    TotalCalibrationBound(Lines(input), StartingDigit);
  }

  /** `part02`: the calibration values with digits and spelled-out words. */
  method Part02(input: string) returns (total: nat)
    requires forall i :: 0 <= i < |Lines(input)| ==> HasDigit(Lines(input)[i], StartingDigitAllowText)
    ensures total == TotalCalibration(Lines(input), StartingDigitAllowText)
    ensures total <= 99 * |Lines(input)|
  {
    total := SumOverLines(input, StartingDigitAllowText);
    TotalCalibrationBound(Lines(input), StartingDigitAllowText);
  }
}
