/**
 * Records exchanged between the player, hls.js and the ABR helpers.
 * Only the fields the modelled code reads are kept.
 */
module MediaTypes {
  import opened Wrappers

  /**
   * One quality level of the hls.js catalogue. `bitrate` is `None` when the
   * entry has no numeric `bitrate`; `tag` is the entry's own `level` property,
   * which hls.js level objects normally do not carry.
   */
  datatype Level = Level(bitrate: Option<real>, tag: Option<int>)

  /** hls.js fragment sequence numbers are numbers, except the init segment's `'initSegment'`. */
  datatype SegmentNumber = Number(n: int) | Label(text: string)

  /**
   * A media segment: `sn`, the byte length of `data` when present, and
   * `duration` in seconds when present.
   */
  datatype Segment = Segment(sn: SegmentNumber, data: Option<nat>, duration: Option<real>)
}
