/**
 * The segment helpers of js/enhancement/utils.js: an ordered validator that
 * names the first missing field, and the rounded bitrate of a segment.
 */
module SegmentUtils {
  import opened Wrappers
  import opened MediaTypes

  /** `!segment.duration`: an absent duration and a duration of 0 both fail. */
  predicate HasDuration(segment: Segment) {
    segment.duration.Some? && segment.duration.value != 0.0
  }

  /**
   * validateSegment: `true`, or the error thrown by the first check that
   * fails, in the order null segment, data, duration, numeric sequence number.
   */
  function ValidateSegment(segment: Option<Segment>): (r: Result<bool, string>)
    ensures r.Success? <==>
              segment.Some? && segment.value.data.Some? && HasDuration(segment.value) && segment.value.sn.Number?
    ensures r.Success? ==> r.value
    ensures segment.None? ==> r == Failure("Invalid segment: segment is null")
    ensures segment.Some? && segment.value.data.None? ==> r == Failure("Invalid segment: no data")
    ensures segment.Some? && segment.value.data.Some? && !HasDuration(segment.value) ==>
              r == Failure("Invalid segment: no duration")
    ensures segment.Some? && segment.value.data.Some? && HasDuration(segment.value) && !segment.value.sn.Number? ==>
              r == Failure("Invalid segment: no sequence number")
  {
    if segment.None? then Failure("Invalid segment: segment is null")
    else if segment.value.data.None? then Failure("Invalid segment: no data")
    else if !HasDuration(segment.value) then Failure("Invalid segment: no duration")
    else if !segment.value.sn.Number? then Failure("Invalid segment: no sequence number")
    else Success(true)
  }

  /** `Math.round`: the nearest integer, halves rounded up. */
  function Round(x: real): (r: int)
    ensures r as real - 0.5 <= x < r as real + 0.5
  {
    (x + 0.5).Floor
  }

  /** Math.round is the only integer within half a unit below and strictly less than half above. */
  lemma RoundUnique(x: real, n: int)
    requires n as real - 0.5 <= x < n as real + 0.5
    ensures Round(x) == n
  {
  }

  /** The source divides by `duration` unguarded once data is present. */
  predicate BitrateDefined(segment: Option<Segment>) {
    segment.None? || segment.value.data.None? ||
    (segment.value.duration.Some? && segment.value.duration.value > 0.0)
  }

  /**
   * calculateSegmentBitrate: 0 without a segment or without data, otherwise
   * `byteLength * 8 / duration` rounded to the nearest integer.
   */
  function CalculateSegmentBitrate(segment: Option<Segment>): (bitrate: int)
    requires BitrateDefined(segment)
    ensures segment.None? || segment.value.data.None? ==> bitrate == 0
    ensures segment.Some? && segment.value.data.Some? ==>
              var bits := segment.value.data.value as real * 8.0;
              var seconds := segment.value.duration.value;
              bitrate == Round(bits / seconds) && bitrate >= 0
  {
    if segment.None? || segment.value.data.None? then 0
    else
      var bitLength := segment.value.data.value as real * 8.0;
      var duration := segment.value.duration.value;
      Round(bitLength / duration)
  }

  /**
   * For a segment that passes validation with a positive duration, the
   * bitrate times the duration is within half a duration of the segment's
   * size in bits.
   */
  lemma ValidatedBitrate(s: Segment)
    requires ValidateSegment(Some(s)) == Success(true)
    requires s.duration.value > 0.0
    ensures BitrateDefined(Some(s))
    ensures var bits := s.data.value as real * 8.0;
            var d := s.duration.value;
            var b := CalculateSegmentBitrate(Some(s)) as real;
            b * d - d / 2.0 <= bits < b * d + d / 2.0
  {
    var bits := s.data.value as real * 8.0;
    var d := s.duration.value;
    var q := bits / d;
    var b := CalculateSegmentBitrate(Some(s)) as real;
    assert b - 0.5 <= q < b + 0.5;
    assert q * d == bits;
    ScaleByPositive(b - 0.5, q, d);
    ScaleByPositive(q, b + 0.5, d);
    assert bits < (b + 0.5) * d;
    assert (b - 0.5) * d == b * d - d / 2.0;
    assert (b + 0.5) * d == b * d + d / 2.0;
  }

  /** Multiplying by a positive factor keeps the order of two reals. */
  lemma ScaleByPositive(x: real, y: real, d: real)
    requires x <= y && d > 0.0
    ensures x * d <= y * d
    ensures x < y ==> x * d < y * d
  {
    assert y * d - x * d == (y - x) * d;
  }
}
