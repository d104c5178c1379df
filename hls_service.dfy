/**
 * The master-playlist builder and the level store of
 * js/services/hls-service.js. The playlist follows RFC 8216: an `#EXTM3U`
 * header (section 4.3.1.1), `#EXT-X-VERSION` (section 4.3.1.2) and, per
 * variant, an `#EXT-X-STREAM-INF` tag with BANDWIDTH and RESOLUTION followed
 * by the variant's URI (section 4.3.4.2).
 */
module MasterPlaylist {
  import opened Wrappers
  import opened MediaTypes

  /** One row of the player's quality table. */
  datatype QualityInfo = QualityInfo(bandwidth: nat, width: nat, height: nat)

  /** `PLAYER_CONFIG.qualityInfo[quality]`: the table row, or `undefined` for an unknown key. */
  function QualityInfoOf(quality: string): (info: Option<QualityInfo>)
  {
    if quality == "480p" then Some(QualityInfo(2000000, 854, 480))
    else if quality == "720p" then Some(QualityInfo(4000000, 1280, 720))
    else if quality == "1080p" then Some(QualityInfo(8000000, 1920, 1080))
    else None
  }

  /** A `[quality, url]` pair of `Object.entries(playlistURLs)`, in insertion order. */
  datatype Entry = Entry(quality: string, url: string)

  // ------------------------------------------------------------ decimal numbers

  function DigitChar(d: nat): (c: char)
    requires d < 10
    ensures '0' <= c <= '9'
  {
    (48 + d) as char
  }

  /** A number interpolated into a template literal: its decimal digits, no sign, no leading zeros. */
  function NatToString(n: nat): (s: string)
    ensures |s| >= 1
    ensures forall i :: 0 <= i < |s| ==> '0' <= s[i] <= '9'
    ensures |s| > 1 ==> s[0] != '0'
  {
    if n < 10 then [DigitChar(n)] else NatToString(n / 10) + [DigitChar(n % 10)]
  }

  /** Reads a string of decimal digits back as a number. */
  function ParseDecimal(s: string): nat
    requires forall i :: 0 <= i < |s| ==> '0' <= s[i] <= '9'
  {
    if s == [] then 0
    else ParseDecimal(s[..|s| - 1]) * 10 + ((s[|s| - 1] as int) - 48)
  }

  /** The digits written for BANDWIDTH, width and height read back as the table's numbers. */
  lemma {:induction false} DecimalRoundTrip(n: nat)
    ensures ParseDecimal(NatToString(n)) == n
    decreases n
  {
    if n >= 10 {
      var s := NatToString(n);
      assert s[..|s| - 1] == NatToString(n / 10);
      DecimalRoundTrip(n / 10);
    }
  }

  // ------------------------------------------------------------ playlist lines

  /** The tags of section 4.3.1.1 and 4.3.1.2 of RFC 8216, version 3. */
  const ExtM3u: string := "#EXTM3U"
  const ExtVersion: string := "#EXT-X-VERSION:3"
  const Header: string := ExtM3u + "\n" + ExtVersion + "\n"

  /** `#EXT-X-STREAM-INF:BANDWIDTH=<b>,RESOLUTION=<w>x<h>`, without its newline. */
  function StreamInfLine(info: QualityInfo): string {
    "#EXT-X-STREAM-INF:BANDWIDTH=" + NatToString(info.bandwidth)
      + ",RESOLUTION=" + NatToString(info.width) + "x" + NatToString(info.height)
  }

  predicate KnownQualities(entries: seq<Entry>) {
    forall i :: 0 <= i < |entries| ==> QualityInfoOf(entries[i].quality).Some?
  }

  /** A variant stream: its table row and its URI. */
  datatype Variant = Variant(info: QualityInfo, uri: string)

  /** Each entry with its quality looked up in the table. */
  function Resolve(entries: seq<Entry>): (variants: seq<Variant>)
    requires KnownQualities(entries)
    ensures |variants| == |entries|
    ensures forall i :: 0 <= i < |entries| ==>
              variants[i] == Variant(QualityInfoOf(entries[i].quality).value, entries[i].url)
  {
    seq(|entries|, i requires 0 <= i < |entries| =>
      Variant(QualityInfoOf(entries[i].quality).value, entries[i].url))
  }

  /** What the loop appends for one variant: the tag line and the URI line. */
  function VariantText(v: Variant): string {
    (StreamInfLine(v.info) + "\n") + (v.uri + "\n")
  }

  /** What the loop appends for all variants, in order. */
  function VariantsText(variants: seq<Variant>): string {
    if variants == [] then "" else VariantText(variants[0]) + VariantsText(variants[1..])
  }

  /** The master playlist createMasterPlaylist returns. */
  function MasterPlaylistText(entries: seq<Entry>): string
    requires KnownQualities(entries)
  {
    Header + VariantsText(Resolve(entries))
  }

  /** Each line followed by a newline. */
  function JoinLines(lines: seq<string>): string {
    if lines == [] then "" else lines[0] + "\n" + JoinLines(lines[1..])
  }

  /** The tag line and the URI line of each variant, in order. */
  function VariantLines(variants: seq<Variant>): (lines: seq<string>)
    ensures |lines| == 2 * |variants|
  {
    if variants == [] then [] else [StreamInfLine(variants[0].info), variants[0].uri] + VariantLines(variants[1..])
  }

  lemma {:induction false} VariantLinesAt(variants: seq<Variant>, i: int)
    requires 0 <= i < |variants|
    ensures VariantLines(variants)[2 * i] == StreamInfLine(variants[i].info)
    ensures VariantLines(variants)[2 * i + 1] == variants[i].uri
    decreases i
  {
    if i > 0 {
      VariantLinesAt(variants[1..], i - 1);
    }
  }

  /**
   * The playlist's lines: the two header tags, then for each entry, in entry
   * order, the STREAM-INF tag built from its table row and its URL.
   */
  function PlaylistLines(entries: seq<Entry>): (lines: seq<string>)
    requires KnownQualities(entries)
    ensures |lines| == 2 + 2 * |entries|
  {
    [ExtM3u, ExtVersion] + VariantLines(Resolve(entries))
  }

  /** Line by line: the header tags, then each entry's tag and URL in entry order. */
  lemma PlaylistLinesAt(entries: seq<Entry>)
    requires KnownQualities(entries)
    ensures PlaylistLines(entries)[0] == ExtM3u && PlaylistLines(entries)[1] == ExtVersion
    ensures forall i :: 0 <= i < |entries| ==>
              PlaylistLines(entries)[2 + 2 * i] == StreamInfLine(QualityInfoOf(entries[i].quality).value) &&
              PlaylistLines(entries)[3 + 2 * i] == entries[i].url
  {
    forall i | 0 <= i < |entries|
      ensures PlaylistLines(entries)[2 + 2 * i] == StreamInfLine(QualityInfoOf(entries[i].quality).value)
      ensures PlaylistLines(entries)[3 + 2 * i] == entries[i].url
    {
      VariantLinesAt(Resolve(entries), i);
    }
  }

  lemma {:induction false} VariantsAreJoinedLines(variants: seq<Variant>)
    ensures VariantsText(variants) == JoinLines(VariantLines(variants))
    decreases |variants|
  {
    if variants != [] {
      VariantsAreJoinedLines(variants[1..]);
      var lines := VariantLines(variants);
      assert lines[1..][1..] == VariantLines(variants[1..]);
    }
  }

  /** The playlist text is exactly its lines, each terminated by a newline. */
  lemma PlaylistIsItsLines(entries: seq<Entry>)
    requires KnownQualities(entries)
    ensures MasterPlaylistText(entries) == JoinLines(PlaylistLines(entries))
  {
    var variants := VariantLines(Resolve(entries));
    VariantsAreJoinedLines(Resolve(entries));
    var lines := PlaylistLines(entries);
    assert lines[1..] == [ExtVersion] + variants;
    assert lines[1..][1..] == variants;
    assert JoinLines(lines[1..]) == ExtVersion + "\n" + JoinLines(variants);
    assert JoinLines(lines) == ExtM3u + "\n" + JoinLines(lines[1..]);
  }

  /** The playlist starts with the `#EXTM3U` and `#EXT-X-VERSION:3` tags. */
  lemma StartsWithHeader(entries: seq<Entry>)
    requires KnownQualities(entries)
    ensures |MasterPlaylistText(entries)| >= |Header|
    ensures MasterPlaylistText(entries)[..|Header|] == Header
  {
  }

  function CountNewlines(s: string): nat {
    if s == [] then 0 else (if s[0] == '\n' then 1 else 0) + CountNewlines(s[1..])
  }

  lemma {:induction false} CountNewlinesAppend(a: string, b: string)
    ensures CountNewlines(a + b) == CountNewlines(a) + CountNewlines(b)
    decreases |a|
  {
    if a == [] {
      assert a + b == b;
    } else {
      assert (a + b)[1..] == a[1..] + b;
      CountNewlinesAppend(a[1..], b);
    }
  }

  lemma {:induction false} NoNewlineCountsZero(s: string)
    requires '\n' !in s
    ensures CountNewlines(s) == 0
    decreases |s|
  {
    if s != [] {
      NoNewlineCountsZero(s[1..]);
    }
  }

  lemma {:induction false} JoinLinesCount(lines: seq<string>)
    requires forall i :: 0 <= i < |lines| ==> '\n' !in lines[i]
    ensures CountNewlines(JoinLines(lines)) == |lines|
    decreases |lines|
  {
    if lines != [] {
      JoinLinesCount(lines[1..]);
      NoNewlineCountsZero(lines[0]);
      CountNewlinesAppend(lines[0], "\n");
      CountNewlinesAppend(lines[0] + "\n", JoinLines(lines[1..]));
    }
  }

  lemma StreamInfHasNoNewline(info: QualityInfo)
    ensures '\n' !in StreamInfLine(info)
  {
    var b := NatToString(info.bandwidth);
    var w := NatToString(info.width);
    var h := NatToString(info.height);
    assert '\n' !in b && '\n' !in w && '\n' !in h;
  }

  lemma {:induction false} VariantLinesHaveNoNewline(variants: seq<Variant>)
    requires forall i :: 0 <= i < |variants| ==> '\n' !in variants[i].uri
    ensures forall i :: 0 <= i < |VariantLines(variants)| ==> '\n' !in VariantLines(variants)[i]
    decreases |variants|
  {
    if variants != [] {
      VariantLinesHaveNoNewline(variants[1..]);
      StreamInfHasNoNewline(variants[0].info);
    }
  }

  lemma HeaderTagsHaveNoNewline()
    ensures '\n' !in ExtM3u && '\n' !in ExtVersion
  {
  }

  /** For n entries whose URLs hold no newline, the playlist has exactly 2 + 2n lines. */
  lemma LineCount(entries: seq<Entry>)
    requires KnownQualities(entries)
    requires forall i :: 0 <= i < |entries| ==> '\n' !in entries[i].url
    ensures CountNewlines(MasterPlaylistText(entries)) == 2 + 2 * |entries|
  {
    var variants := Resolve(entries);
    assert forall i :: 0 <= i < |variants| ==> '\n' !in variants[i].uri;
    VariantLinesHaveNoNewline(variants);
    var tail := VariantLines(variants);
    var lines := PlaylistLines(entries);
    forall i | 0 <= i < |lines|
      ensures '\n' !in lines[i]
    {
      if i >= 2 {
        assert lines[i] == tail[i - 2];
      } else {
        HeaderTagsHaveNoNewline();
      }
    }
    PlaylistIsItsLines(entries);
    JoinLinesCount(lines);
  }

  lemma AppendAssociative(a: string, b: string, c: string)
    ensures (a + b) + c == a + (b + c)
  {
  }

  // ------------------------------------------------------------ the service

  class HlsService {
    var levels: seq<Level>

    constructor ()
      ensures levels == []
    {
      levels := [];
    }

    /** createMasterPlaylist: appends the header tags, then each entry's two lines. */
    method CreateMasterPlaylist(entries: seq<Entry>) returns (masterContent: string)
      requires KnownQualities(entries)
      ensures masterContent == MasterPlaylistText(entries)
    {
      ghost var variants := Resolve(entries);
      masterContent := ExtM3u + "\n";
      masterContent := masterContent + (ExtVersion + "\n");
      assert masterContent == Header;
      assert variants[0..] == variants;
      for i := 0 to |entries|
        invariant masterContent + VariantsText(variants[i..]) == MasterPlaylistText(entries)
      {
        assert variants[i..][1..] == variants[i + 1..];
        assert VariantsText(variants[i..]) == VariantText(variants[i]) + VariantsText(variants[i + 1..]);
        ghost var before := masterContent;
        var info := QualityInfoOf(entries[i].quality).value;
        var tagLine := StreamInfLine(info) + "\n";
        var uriLine := entries[i].url + "\n";
        assert VariantText(variants[i]) == tagLine + uriLine;
        masterContent := masterContent + tagLine;
        masterContent := masterContent + uriLine;
        assert masterContent == before + (tagLine + uriLine);
        AppendAssociative(before, tagLine + uriLine, VariantsText(variants[i + 1..]));
      }
      assert variants[|entries|..] == [];
    }

    function GetLevels(): seq<Level>
      reads this
    {
      levels
    }

    /** setLevels: what getLevels returns afterwards. */
    method SetLevels(newLevels: seq<Level>)
      modifies this
      ensures GetLevels() == newLevels
    {
      levels := newLevels;
    }
  }
}
