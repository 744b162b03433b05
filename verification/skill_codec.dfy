/** The planner's skill codec: ids `LR-01`..`LR-18` and `RC-01`..`RC-17`
    map to the 35 mastery-vector indices 0..34 and back. */
module SkillCodec {
  import opened Wrappers
  import opened Text

  datatype CodecError =
    | UnknownFormat(id: string)     // neither an `LR` nor an `RC` prefix
    | MissingNumber(id: string)     // no '-' to split on: the `[1]` index fails
    | NotAnInteger(text: string)    // `int()` rejects the text after the first '-'
    | IndexOutOfRange(index: int)

  predicate IsDigit(c: char) { '0' <= c <= '9' }

  predicate AllDigits(s: string) {
    forall i :: 0 <= i < |s| ==> IsDigit(s[i])
  }

  function DigitValue(c: char): (d: nat)
    requires IsDigit(c)
    ensures d <= 9
  {
    c as int - '0' as int
  }

  function DigitChar(d: nat): (c: char)
    requires d <= 9
    ensures IsDigit(c) && DigitValue(c) == d
  {
    ('0' as int + d) as char
  }

  /** The value of a string of decimal digits, most significant first. */
  function DigitsValue(ds: string): (n: nat)
    requires AllDigits(ds)
  {
    if |ds| == 0 then 0 else DigitsValue(ds[..|ds| - 1]) * 10 + DigitValue(ds[|ds| - 1])
  }

  /** `s.startswith(a + b)` for a two-character prefix. */
  predicate StartsWith2(s: string, a: char, b: char) {
    |s| >= 2 && s[0] == a && s[1] == b
  }

  predicate IsLR(id: string) { StartsWith2(id, 'L', 'R') }
  predicate IsRC(id: string) { StartsWith2(id, 'R', 'C') }

  /** A digit run as `int()` reads it in base 10: ASCII digits, where a
      single `_` may separate two digits. */
  predicate IsGrouped(s: string) {
    && |s| > 0 && IsDigit(s[0]) && IsDigit(s[|s| - 1])
    && (forall i :: 0 <= i < |s| ==> IsDigit(s[i]) || s[i] == '_')
    && (forall i, j {:trigger s[i], s[j]} :: 0 <= i < |s| && 0 <= j < |s| && j == i + 1 ==> IsDigit(s[i]) || IsDigit(s[j]))
  }

  /** The digits of a run with its separators removed. */
  function DropSeparators(s: string): (ds: string)
    requires forall i :: 0 <= i < |s| ==> IsDigit(s[i]) || s[i] == '_'
    ensures AllDigits(ds) && |ds| <= |s|
  {
    if |s| == 0 then []
    else if s[|s| - 1] == '_' then DropSeparators(s[..|s| - 1])
    else DropSeparators(s[..|s| - 1]) + [s[|s| - 1]]
  }

  /** A run without separators is its own digits. */
  lemma {:induction false} DropNoSeparators(s: string)
    requires AllDigits(s)
    ensures DropSeparators(s) == s
  {
    if |s| > 0 {
      DropNoSeparators(s[..|s| - 1]);
    }
  }

  /** The value `int()` gives a digit run. */
  function GroupedValue(s: string): (n: nat)
    requires IsGrouped(s)
    ensures AllDigits(s) ==> n == DigitsValue(s)
  {
    if AllDigits(s) then DropNoSeparators(s); DigitsValue(DropSeparators(s))
    else DigitsValue(DropSeparators(s))
  }

  /** `int()` once surrounding whitespace is gone: an optional sign, then a
      digit run with optional single `_` separators. */
  function ParseTrimmed(t: string): (r: Option<int>)
    ensures |t| > 0 && AllDigits(t) ==> r == Some(DigitsValue(t))
  {
    if |t| > 0 && (t[0] == '+' || t[0] == '-') then
      var body := t[1..];
      if IsGrouped(body) then
        Some(if t[0] == '-' then -(GroupedValue(body) as int) else GroupedValue(body))
      else None
    else if IsGrouped(t) then Some(GroupedValue(t))
    else None
  }

  /** Exactly a digit run, signed or not, parses; an unsigned run is never
      negative, and a '-' negates the run's value. */
  lemma ParseTrimmedAccepts(t: string)
    ensures ParseTrimmed(t).Some? <==> IsGrouped(t) || (|t| > 0 && (t[0] == '+' || t[0] == '-') && IsGrouped(t[1..]))
    ensures IsGrouped(t) ==> ParseTrimmed(t) == Some(GroupedValue(t)) && GroupedValue(t) >= 0
    ensures |t| > 0 && t[0] == '-' && IsGrouped(t[1..]) ==> ParseTrimmed(t) == Some(-(GroupedValue(t[1..]) as int))
  {
  }

  /** Python's `int(text)` on a decimal string. */
  function ParseInt(text: string): (r: Option<int>)
  {
    ParseTrimmed(Strip(text))
  }

  /** `f"{n:02d}"` for 0 <= n < 100. */
  function Pad2(n: nat): (s: string)
    requires n < 100
    ensures |s| == 2 && AllDigits(s)
  {
    [DigitChar(n / 10), DigitChar(n % 10)]
  }

  lemma Pad2Value(n: nat)
    requires n < 100
    ensures DigitsValue(Pad2(n)) == n
  {
    var s := Pad2(n);
    assert s[..1][..0] == [];
    assert DigitsValue(s[..1]) == n / 10;
  }

  /** `skill_id_to_index`: `LR-k` is k - 1 and `RC-k` is 17 + k, where k is
      `int()` of the text between the first and second '-'. Nothing checks
      that k is in range. */
  function SkillIdToIndex(id: string): (r: Result<int, CodecError>)
    ensures r == Err(UnknownFormat(id)) <==> !IsLR(id) && !IsRC(id)
  {
    if IsLR(id) || IsRC(id) then
      var num :- NumberField(id);
      Ok(if IsLR(id) then num - 1 else 18 + num - 1)
    else Err(UnknownFormat(id))
  }

  /** `int(skill_id.split('-')[1])`: the text between the first and second dash. */
  function NumberField(id: string): (r: Result<int, CodecError>)
    ensures r.Err? ==> r.error.MissingNumber? || r.error.NotAnInteger?
  {
    var parts := SplitOn(id, {'-'});
    if |parts| < 2 then Err(MissingNumber(id))
    else
      match ParseInt(parts[1])
      case None => Err(NotAnInteger(parts[1]))
      case Some(num) => Ok(num)
  }

  /** `index_to_skill_id`: indices 0..17 are `LR-01`..`LR-18`, 18..34 are
      `RC-01`..`RC-17`, anything else is an error. */
  function IndexToSkillId(index: int): (r: Result<string, CodecError>)
    ensures r.Ok? <==> 0 <= index <= 34
    ensures r.Err? ==> r.error == IndexOutOfRange(index)
    ensures r.Ok? ==> |r.value| == 5 && r.value[2] == '-' && (IsLR(r.value) || IsRC(r.value)) && (IsLR(r.value) <==> index <= 17)
  {
    if 0 <= index <= 17 then Ok("LR-" + Pad2(index + 1))
    else if 18 <= index <= 34 then
      Ok("RC-" + Pad2(index - 17))
    else Err(IndexOutOfRange(index))
  }

  /** A canonical id: a two-letter family, a dash and two digits naming a
      skill that exists (LR 1..18, RC 1..17). */
  predicate IsCanonicalId(id: string) {
    && |id| == 5
    && (IsLR(id) || IsRC(id)) && id[2] == '-'
    && AllDigits(id[3..])
    && 1 <= DigitsValue(id[3..]) <= (if IsLR(id) then 18 else 17)
  }

  /** Splitting a string with exactly one dash gives the two sides. */
  lemma SplitAtOnlyDash(s: string, k: nat)
    requires k < |s| && s[k] == '-'
    requires forall i :: 0 <= i < |s| && i != k ==> s[i] != '-'
    ensures SplitOn(s, {'-'}) == [s[..k], s[k + 1..]]
  {
    assert FirstIn(s, {'-'}) == k;
    var rest := s[k + 1..];
    assert forall i :: 0 <= i < |rest| ==> rest[i] == s[k + 1 + i];
    assert FirstIn(rest, {'-'}) == |rest|;
  }

  /** Digits are not whitespace, so stripping leaves a digit string alone. */
  lemma StripDigits(s: string)
    requires |s| > 0 && AllDigits(s)
    ensures Strip(s) == s
  {
    StripUnpadded(s);
  }

  /** `int()` of a plain digit string is its value. */
  lemma ParseDigits(s: string)
    requires |s| > 0 && AllDigits(s)
    ensures ParseInt(s) == Some(DigitsValue(s))
  {
    StripDigits(s);
  }

  /** The shape of a well-formed id: a family, a dash, then digits only. */
  predicate HasIdShape(id: string) {
    |id| >= 4 && (IsLR(id) || IsRC(id)) && id[2] == '-' && AllDigits(id[3..])
  }

  lemma ShapeSplits(id: string)
    requires HasIdShape(id)
    ensures |SplitOn(id, {'-'})| >= 2 && SplitOn(id, {'-'})[1] == id[3..]
  {
    assert forall i :: 3 <= i < |id| ==> id[i] == id[3..][i - 3];
    SplitAtOnlyDash(id, 2);
  }

  /** `int(skill_id.split('-')[1])` once the split and the parse have succeeded. */
  lemma NumberFieldParsed(id: string, num: int)
    requires |SplitOn(id, {'-'})| >= 2 && ParseInt(SplitOn(id, {'-'})[1]) == Some(num)
    ensures NumberField(id) == Ok(num)
  {
  }

  /** `skill_id_to_index` once the number field has been read: LR-k is k - 1
      and RC-k is 17 + k. */
  lemma SkillIdToIndexParsed(id: string, num: int)
    requires IsLR(id) || IsRC(id)
    requires NumberField(id) == Ok(num)
    ensures SkillIdToIndex(id) == Ok(if IsLR(id) then num - 1 else 17 + num)
  {
  }

  /** The number field of a well-shaped id is its digit run. */
  lemma ShapeNumberField(id: string)
    requires HasIdShape(id)
    ensures NumberField(id) == Ok(DigitsValue(id[3..]))
  {
    ShapeSplits(id);
    assert ParseInt(SplitOn(id, {'-'})[1]) == Some(DigitsValue(id[3..])) by {
      ParseDigits(id[3..]);
    }
    NumberFieldParsed(id, DigitsValue(id[3..]));
  }

  /** How the source reads an id of the expected shape. */
  lemma SkillIdOfShape(id: string)
    requires HasIdShape(id)
    ensures SkillIdToIndex(id) == Ok(if IsLR(id) then DigitsValue(id[3..]) - 1 else 17 + DigitsValue(id[3..]))
  {
    ShapeNumberField(id);
    SkillIdToIndexParsed(id, DigitsValue(id[3..]));
  }

  lemma TwoDigitValue(digits: string)
    requires |digits| == 2 && AllDigits(digits)
    ensures DigitsValue(digits) == DigitValue(digits[0]) * 10 + DigitValue(digits[1])
  {
    var first := digits[..1];
    assert AllDigits(first) && first[..0] == [] && first[0] == digits[0];
    assert DigitsValue(first) == DigitValue(digits[0]);
    assert digits[..|digits| - 1] == first;
  }

  /** Every index of the mastery vector survives the trip through its id. */
  lemma IndexRoundTrip(index: int)
    requires 0 <= index <= 34
    ensures SkillIdToIndex(IndexToSkillId(index).value) == Ok(index)
  {
    var n := if index <= 17 then index + 1 else index - 17;
    var id := IndexToSkillId(index).value;
    assert id[3..] == Pad2(n);
    Pad2Value(n);
    SkillIdOfShape(id);
  }

  /** The ids the codec produces are exactly the canonical ones. */
  lemma IndexToSkillIdIsCanonical(index: int)
    requires 0 <= index <= 34
    ensures IsCanonicalId(IndexToSkillId(index).value)
  {
    var n := if index <= 17 then index + 1 else index - 17;
    var id := IndexToSkillId(index).value;
    assert id[3..] == Pad2(n);
    Pad2Value(n);
  }

  /** Two digits are the zero-padded form of their value. */
  lemma Pad2OfDigits(digits: string)
    requires |digits| == 2 && AllDigits(digits)
    ensures DigitsValue(digits) < 100 && Pad2(DigitsValue(digits)) == digits
  {
    TwoDigitValue(digits);
  }

  /** An LR id with n written in two digits is the id of index n - 1. */
  lemma LRIdRebuilt(id: string, n: nat)
    requires |id| == 5 && IsLR(id) && id[2] == '-' && 1 <= n <= 18 && id[3..] == Pad2(n)
    ensures IndexToSkillId(n - 1) == Ok(id)
  {
    assert id[..3] == "LR-";
    assert id == id[..3] + id[3..];
  }

  /** An RC id with n written in two digits is the id of index 17 + n. */
  lemma RCIdRebuilt(id: string, n: nat)
    requires |id| == 5 && IsRC(id) && id[2] == '-' && 1 <= n <= 17 && id[3..] == Pad2(n)
    ensures IndexToSkillId(17 + n) == Ok(id)
  {
    assert id[..3] == "RC-";
    assert id == id[..3] + id[3..];
  }

  /** A canonical id survives the trip through its index. */
  lemma IdRoundTrip(id: string)
    requires IsCanonicalId(id)
    ensures SkillIdToIndex(id).Ok?
    ensures IndexToSkillId(SkillIdToIndex(id).value) == Ok(id)
  {
    var digits := id[3..];
    var n := DigitsValue(digits);
    Pad2OfDigits(digits);
    SkillIdOfShape(id);
    if IsLR(id) {
      LRIdRebuilt(id, n);
    } else {
      RCIdRebuilt(id, n);
    }
  }

  /** The docstring's examples, both ways. */
  lemma CanonicalExamples()
    ensures IndexToSkillId(2) == Ok("LR-03") && IndexToSkillId(22) == Ok("RC-05")
    ensures SkillIdToIndex("LR-03") == Ok(2) && SkillIdToIndex("RC-05") == Ok(22)
  {
    assert Pad2(3) == "03" && Pad2(5) == "05";
    assert "LR-" + "03" == "LR-03" && "RC-" + "05" == "RC-05";
    IndexRoundTrip(2);
    IndexRoundTrip(22);
  }

  /** The number need not be zero-padded: `LR-1` reads as index 0. */
  lemma UnpaddedId(id: string)
    requires id == "LR-1"
    ensures SkillIdToIndex(id) == Ok(0)
  {
    assert DigitsValue(id[3..]) == 1 by { assert id[3..] == "1"; assert "1"[..0] == []; }
    SkillIdOfShape(id);
  }

  lemma DropInEighteen(t: string)
    requires t == "1_8"
    ensures DropSeparators(t) == "18"
  {
    assert t[..1][..0] == [] && t[..1][0] == '1';
    assert DropSeparators(t[..1]) == "1";
    assert t[..2][..1] == t[..1] && t[..2][1] == '_';
    assert DropSeparators(t[..2]) == "1";
    assert t[..|t| - 1] == t[..2];
  }

  /** `int("1_8")` is 18: the separator is dropped. */
  lemma GroupedEighteen(t: string)
    requires t == "1_8"
    ensures ParseInt(t) == Some(18)
  {
    assert IsGrouped(t) && !AllDigits(t) by {
      assert t[0] == '1' && t[1] == '_' && t[2] == '8';
    }
    assert GroupedValue(t) == 18 by {
      DropInEighteen(t);
      assert "18"[..1] == "1" && "1"[..0] == [];
    }
    StripUnpadded(t);
  }

  /** `int()` accepts a single `_` between digits: `LR-1_8` reads as index 17. */
  lemma SeparatedNumber(id: string)
    requires id == "LR-1_8"
    ensures SkillIdToIndex(id) == Ok(17)
  {
    var t := id[3..];
    assert t == "1_8";
    SplitAtOnlyDash(id, 2);
    GroupedEighteen(t);
    NumberFieldParsed(id, 18);
    SkillIdToIndexParsed(id, 18);
  }

  /** A doubled, leading or trailing `_` is not a number. */
  lemma MisplacedSeparators()
    ensures ParseInt("1__8") == None && ParseInt("_18") == None && ParseInt("18_") == None
  {
    StripUnpadded("1__8");
    StripUnpadded("_18");
    StripUnpadded("18_");
    assert "1__8"[1] == '_' && "1__8"[2] == '_';
    assert !IsGrouped("1__8");
  }

  /** The number is not range-checked: `LR-99` reads as index 98, outside the
      35-entry mastery vector. */
  lemma UncheckedNumber(id: string)
    requires id == "LR-99"
    ensures SkillIdToIndex(id) == Ok(98)
  {
    TwoDigitValue(id[3..]);
    SkillIdOfShape(id);
  }

  /** Unknown families, a missing dash and out-of-range indices are errors. */
  lemma RejectedInputs()
    ensures SkillIdToIndex("XX-01") == Err(UnknownFormat("XX-01"))
    ensures SkillIdToIndex("LR") == Err(MissingNumber("LR"))
    ensures IndexToSkillId(35) == Err(IndexOutOfRange(35)) && IndexToSkillId(-1) == Err(IndexOutOfRange(-1))
  {
    assert "XX-01"[..2] == "XX";
    assert FirstIn("LR", {'-'}) == 2;
  }
}
