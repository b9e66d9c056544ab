/**
 * The SSN segment editor. A value of up to nine digits is shown as three
 * positional slices; an edit to one slice is cleaned of non-digits, rejected
 * when longer than that slice allows, and otherwise spliced back into the
 * value at fixed offsets. Slices are not padded: a short value shifts later
 * digits to the left.
 */
module SsnInput {

  /** The three input boxes. */
  datatype Part = First | Second | Last

  /** What `handleChange` does: nothing (early return), or call `onChange(newValue)`
      and possibly move focus to the next box. */
  datatype Change = Rejected | Emitted(newValue: string, advanceFocus: bool)

  function Min(a: int, b: int): int {
    if a <= b then a else b
  }

  /** The characters the regular expression `\d` (without the `u` flag) matches. */
  predicate IsDigit(c: char) {
    '0' <= c <= '9'
  }

  predicate AllDigits(s: string) {
    forall i :: 0 <= i < |s| ==> IsDigit(s[i])
  }

  /** JavaScript's `s.slice(start, end)` for non-negative bounds: both are clamped to the
      length, and a start past the end gives the empty string. */
  function Slice(s: string, start: nat, end: nat): (r: string)
    ensures |r| == if Min(start, |s|) <= Min(end, |s|) then Min(end, |s|) - Min(start, |s|) else 0
    ensures forall i :: 0 <= i < |r| ==> start + i < |s| && r[i] == s[start + i]
  {
    var lo := Min(start, |s|);
    var hi := Min(end, |s|);
    if lo <= hi then s[lo..hi] else []
  }

  /** `s.slice(start)`, to the end of the string. */
  function SliceFrom(s: string, start: nat): (r: string)
    ensures start <= |s| ==> r == s[start..]
    ensures start > |s| ==> r == []
  {
    Slice(s, start, |s|)
  }

  /** Where each box's slice starts and ends in the value. */
  function SegmentStart(part: Part): nat {
    match part
    case First => 0
    case Second => 3
    case Last => 5
  }

  function SegmentEnd(part: Part): nat {
    match part
    case First => 3
    case Second => 5
    case Last => 9
  }

  /** The limit `handleChange` enforces for each box (`maxLength` in the switch): the width of
      the slice that box displays. */
  function MaxLength(part: Part): (r: nat)
    ensures SegmentStart(part) + r == SegmentEnd(part)
  {
    match part
    case First => 3
    case Second => 2
    case Last => 4
  }

  /** What each box displays: `value.slice(0, 3)`, `value.slice(3, 5)`, `value.slice(5, 9)`.
      A box shows at most its width, and exactly its width once the value reaches nine
      characters. */
  function Segment(value: string, part: Part): (r: string)
    ensures |r| <= MaxLength(part)
    ensures |value| >= 9 ==> |r| == MaxLength(part)
  {
    Slice(value, SegmentStart(part), SegmentEnd(part))
  }

  /** `inputValue.replace(/\D/g, "")`: keep only the ASCII digits. */
  function Clean(s: string): (r: string)
    ensures AllDigits(r)
    ensures |r| <= |s|
  {
    if s == [] then [] else (if IsDigit(s[0]) then [s[0]] else []) + Clean(s[1..])
  }

  /** `handleChange(part, inputValue)` against the current `value`. */
  function HandleChange(value: string, part: Part, input: string): (r: Change)
    ensures r.Rejected? <==> |Clean(input)| > MaxLength(part)
  {
    var cleaned := Clean(input);
    var maxLength := MaxLength(part);
    if |cleaned| > maxLength then Rejected
    else
      var newValue := match part
        case First => cleaned + SliceFrom(value, 3)
        case Second => Slice(value, 0, 3) + cleaned + SliceFrom(value, 5)
        case Last => Slice(value, 0, 5) + cleaned;
      Emitted(newValue, |cleaned| == maxLength && part != Last)
  }

  // ---- the cleaning step ----

  /** Cleaning distributes over concatenation, so it keeps the digits in their order. */
  lemma {:induction false} CleanConcat(a: string, b: string)
    ensures Clean(a + b) == Clean(a) + Clean(b)
  {
    if a == [] {
      assert a + b == b;
    } else {
      assert (a + b)[1..] == a[1..] + b;
      CleanConcat(a[1..], b);
    }
  }

  /** Cleaning keeps every digit as often as it occurs and drops every other character. */
  lemma {:induction false} CleanCount(s: string, c: char)
    ensures multiset(Clean(s))[c] == if IsDigit(c) then multiset(s)[c] else 0
  {
    if s != [] {
      CleanCount(s[1..], c);
      assert s == [s[0]] + s[1..];
    }
  }

  /** A string of digits is its own cleaning. */
  lemma {:induction false} CleanDigits(s: string)
    requires AllDigits(s)
    ensures Clean(s) == s
  {
    if s != [] {
      CleanDigits(s[1..]);
    }
  }

  // ---- the displayed segments ----

  /** For a value of at most nine characters the three boxes together show all of it. */
  lemma SegmentsCover(value: string)
    requires |value| <= 9
    ensures Segment(value, First) + Segment(value, Second) + Segment(value, Last) == value
  {
  }

  // ---- the splice ----

  /** Where the cleaned digits go: in front of everything from offset 3 for the first box,
      between the first three characters and everything from offset 5 for the second, after
      the first five characters for the last; the rest of the value is kept. */
  lemma SpliceLayout(value: string, part: Part, input: string)
    requires HandleChange(value, part, input).Emitted?
    ensures var nv, c := HandleChange(value, part, input).newValue, Clean(input);
      match part
      case First => nv[..|c|] == c && nv[|c|..] == SliceFrom(value, 3)
      case Second => nv[..|Segment(value, First)|] == Segment(value, First)
                     && nv[|Segment(value, First)|..][..|c|] == c
                     && nv[|Segment(value, First)| + |c|..] == SliceFrom(value, 5)
      case Last => nv[..Min(5, |value|)] == value[..Min(5, |value|)] && nv[Min(5, |value|)..] == c
  {
  }

  /** An emitted value of a value of at most nine characters has at most nine characters. */
  lemma EmittedLength(value: string, part: Part, input: string)
    requires |value| <= 9
    requires HandleChange(value, part, input).Emitted?
    ensures |HandleChange(value, part, input).newValue| <= 9
  {
  }

  /** Editing the last box always yields at most nine characters, whatever the value held beyond. */
  lemma LastEditTruncates(value: string, input: string)
    requires HandleChange(value, Last, input).Emitted?
    ensures |HandleChange(value, Last, input).newValue| <= 9
  {
  }

  /** An edit to an all-digit value emits an all-digit value. */
  lemma EmittedDigits(value: string, part: Part, input: string)
    requires AllDigits(value)
    requires HandleChange(value, part, input).Emitted?
    ensures AllDigits(HandleChange(value, part, input).newValue)
  {
  }

  /** Re-entering what a box shows reproduces the value (for the last box, when nothing lies
      beyond the ninth character), and focus moves on exactly when the box was full. */
  lemma ReenterSegment(value: string, part: Part)
    requires AllDigits(Segment(value, part))
    requires part == Last ==> |value| <= 9
    ensures HandleChange(value, part, Segment(value, part))
            == Emitted(value, |Segment(value, part)| == MaxLength(part) && part != Last)
  {
    CleanDigits(Segment(value, part));
    var lo, mid := Min(3, |value|), Min(5, |value|);
    match part
    case First =>
      assert Segment(value, First) == value[..lo];
      assert SliceFrom(value, 3) == value[lo..];
      assert value[..lo] + value[lo..] == value;
    case Second =>
      assert Slice(value, 0, 3) == value[..lo];
      assert Segment(value, Second) == value[lo..mid];
      assert SliceFrom(value, 5) == value[mid..];
      assert value[..lo] + value[lo..mid] + value[mid..] == value;
    case Last =>
      assert Slice(value, 0, 5) == value[..mid];
      assert Segment(value, Last) == value[mid..];
      assert value[..mid] + value[mid..] == value;
  }

  /** Focus moves on exactly when the cleaned entry fills its box and the box is not the last. */
  lemma FocusAdvance(value: string, part: Part, input: string)
    requires HandleChange(value, part, input).Emitted?
    ensures HandleChange(value, part, input).advanceFocus
            <==> |Clean(input)| == MaxLength(part) && part != Last
  {
  }

  /** Focus follows the typed digits, not what is displayed: typing "23" into the second box
      of an empty value moves focus on, although the second box of "23" shows nothing. */
  lemma FocusIgnoresDisplay()
    ensures HandleChange("", Second, "23") == Emitted("23", true)
    ensures Segment("23", Second) == ""
  {
    CleanDigits("23");
  }

  /** Filling a box of a complete nine-character value replaces that box and no other. */
  lemma FullValueEdit(value: string, part: Part, input: string, other: Part)
    requires |value| == 9 && |Clean(input)| == MaxLength(part)
    ensures HandleChange(value, part, input).Emitted?
    ensures |HandleChange(value, part, input).newValue| == 9
    ensures Segment(HandleChange(value, part, input).newValue, other)
            == if other == part then Clean(input) else Segment(value, other)
  {
  }

  /** The segments are not padded: typing "23" into the second box of the one-digit value
      "1" emits "123", whose second box displays nothing; the digits moved to the first. */
  lemma ShortValueShifts()
    ensures HandleChange("1", Second, "23") == Emitted("123", true)
    ensures Segment("123", Second) == "" && Segment("123", First) == "123"
  {
  }
}
