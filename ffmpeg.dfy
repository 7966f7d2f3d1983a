/** src/utils/ffmpeg.js: the encoder options of `hlSVideoTranscoding` as data (a three-rung
    ladder, one `split` output per rung, packaged as HLS), the error it turns every ffmpeg
    failure into, and `createMasterPlaylist`, the Master Playlist (section 4.3.4.2 of
    RFC 8216) that points at the three variant playlists. */
module Ffmpeg {

  import opened Errors
  import opened Text
  import opened Host

  /** One rung of the ladder: the `split` output it maps (`-map`), its video bitrate (`-b:v`)
      and its frame size (`-s`). */
  datatype Rung = Rung(input: string, bitrate: string, size: string)

  /** The ladder, lowest rung first: 360p, 480p, 720p. */
  const Ladder: seq<Rung> := [
    Rung("[v1]", "800k", "640x360"),
    Rung("[v2]", "1200k", "854x480"),
    Rung("[v3]", "2200k", "1280x720")
  ]

  const FilterOptions: seq<string> := ["-filter_complex", "[0:v]split=3[v1][v2][v3]"]

  /** The options of one rung; the three blocks differ only in the rung's three values. */
  function BranchOptions(r: Rung): seq<string> {
    ["-map", r.input, "-map", "0:a",
     "-c:v", "libx264", "-preset", "fast",
     "-g", "180", "-b:v", r.bitrate, "-s", r.size,
     "-c:a", "aac", "-b:a", "128k", "-ac", "2", "-ar", "48000",
     "-sc_threshold", "0"]
  }

  /** The HLS muxer options; the segment names follow `stream_%v/segment_%03d.ts`. */
  function HlsOptions(outputPath: string): seq<string> {
    ["-hls_playlist_type", "vod",
     "-var_stream_map", "v:0,a:0 v:1,a:1 v:2,a:2",
     "-hls_time", "6",
     "-hls_segment_filename", outputPath + "/stream_%v/segment_%03d.ts"]
  }

  /** The whole `outputOptions` array, in order. */
  function OutputOptions(outputPath: string): (opts: seq<string>)
    ensures |opts| == 2 + 3 * 24 + 8
  {
    FilterOptions + BranchOptions(Ladder[0]) + BranchOptions(Ladder[1]) + BranchOptions(Ladder[2])
      + HlsOptions(outputPath)
  }

  /** The `.output(...)` template: one variant playlist per stream. */
  function OutputTemplate(outputPath: string): string {
    outputPath + "/stream_%v/prog_index.m3u8"
  }

  /** ffmpeg's `%v`: the variant's index in `-var_stream_map`. */
  function ExpandVariant(template: string, v: nat): string {
    ReplaceFirst(template, "%v", NatToString(v))
  }

  /** The directory of variant `v`, as ffmpeg names it and the controller looks it up. */
  function StreamName(v: nat): string {
    "stream_" + NatToString(v)
  }

  /** `%03d`: at least three digits, zero-padded on the left. */
  function Pad3(digits: string): (r: string)
    ensures |r| >= |digits| && r[|r| - |digits|..] == digits
    ensures |digits| >= 3 ==> r == digits
    ensures |digits| < 3 ==> |r| == 3
    ensures forall j :: 0 <= j < |r| - |digits| ==> r[j] == '0'
  {
    if |digits| >= 3 then digits else seq(3 - |digits|, _ => '0') + digits
  }

  /** The name of segment `n` of a variant: `segment_%03d.ts`. */
  function SegmentName(n: nat): string {
    "segment_" + Pad3(NatToString(n)) + ".ts"
  }

  /** The part of a segment name before `.ts`. */
  function SegmentStem(n: nat): (stem: string)
    ensures forall j :: 0 <= j < |stem| ==> stem[j] != '.' && !IsJsSpace(stem[j])
  {
    "segment_" + Pad3(NatToString(n))
  }

  lemma SegmentNameParts(n: nat)
    ensures SegmentName(n) == SegmentStem(n) + ".ts"
  {
  }

  /** Rung `i` occupies its own 24-option block of the array, right after the filter. */
  lemma {:induction false} BranchLayout(outputPath: string, i: nat)
    requires i < 3
    ensures OutputOptions(outputPath)[2 + 24 * i .. 26 + 24 * i] == BranchOptions(Ladder[i])
  {
    var opts := OutputOptions(outputPath);
    var a, b, c := BranchOptions(Ladder[0]), BranchOptions(Ladder[1]), BranchOptions(Ladder[2]);
    assert opts == FilterOptions + a + b + c + HlsOptions(outputPath);
    if i == 0 {
      assert opts[2..26] == a;
    } else if i == 1 {
      assert opts[26..50] == b;
    } else {
      assert opts[50..74] == c;
    }
  }

  /** Every rung uses a 180-frame GOP with scene-cut detection off, and the muxer cuts 6-second
      segments, so segment boundaries fall on keyframes shared by all three variants. */
  lemma {:induction false} SharedGop(outputPath: string, i: nat)
    requires i < 3
    ensures var block := OutputOptions(outputPath)[2 + 24 * i .. 26 + 24 * i];
      && block[8] == "-g" && block[9] == "180"
      && block[22] == "-sc_threshold" && block[23] == "0"
    ensures OutputOptions(outputPath)[78] == "-hls_time" && OutputOptions(outputPath)[79] == "6"
  {
    BranchLayout(outputPath, i);
    BranchFields(Ladder[i]);
    HlsLayout(outputPath);
  }

  /** The muxer options close the array. */
  lemma HlsLayout(outputPath: string)
    ensures OutputOptions(outputPath)[74..] == HlsOptions(outputPath)
    ensures OutputOptions(outputPath)[78] == "-hls_time" && OutputOptions(outputPath)[79] == "6"
  {
    var opts := OutputOptions(outputPath);
    assert opts[74..] == HlsOptions(outputPath);
    assert opts[78] == opts[74..][4] && opts[79] == opts[74..][5];
  }

  /** Each rung's block maps its own `split` output and sets that rung's bitrate and size. */
  lemma {:induction false} BranchValues(outputPath: string, i: nat)
    requires i < 3
    ensures var block := OutputOptions(outputPath)[2 + 24 * i .. 26 + 24 * i];
      && block[0] == "-map" && block[1] == Ladder[i].input
      && block[10] == "-b:v" && block[11] == Ladder[i].bitrate
      && block[12] == "-s" && block[13] == Ladder[i].size
  {
    BranchLayout(outputPath, i);
    BranchFields(Ladder[i]);
  }

  lemma BranchFields(r: Rung)
    ensures var block := BranchOptions(r);
      && block[0] == "-map" && block[1] == r.input
      && block[8] == "-g" && block[9] == "180"
      && block[10] == "-b:v" && block[11] == r.bitrate
      && block[12] == "-s" && block[13] == r.size
      && block[22] == "-sc_threshold" && block[23] == "0"
  {
  }

  /** The variant playlist ffmpeg writes for stream `v` is `outputPath/stream_v/prog_index.m3u8`,
      the very path the controller reads it from. */
  lemma VariantPlaylistPath(outputPath: string, v: nat)
    requires Free(outputPath, '%')
    ensures ExpandVariant(OutputTemplate(outputPath), v) == outputPath + "/" + StreamName(v) + "/prog_index.m3u8"
  {
    var pre := outputPath + "/stream_";
    TemplateParts(outputPath);
    PercentFree(outputPath);
    ReplaceFirstAfter(pre, "%v", "/prog_index.m3u8", NatToString(v));
    StreamDirParts(outputPath, NatToString(v));
  }

  lemma TemplateParts(outputPath: string)
    ensures OutputTemplate(outputPath) == (outputPath + "/stream_") + "%v" + "/prog_index.m3u8"
  {
  }

  lemma PercentFree(outputPath: string)
    requires Free(outputPath, '%')
    ensures forall j :: 0 <= j < |outputPath + "/stream_"| ==> (outputPath + "/stream_")[j] != "%v"[0]
  {
  }

  lemma StreamDirParts(outputPath: string, n: string)
    ensures (outputPath + "/stream_") + n + "/prog_index.m3u8" == outputPath + "/" + ("stream_" + n) + "/prog_index.m3u8"
  {
  }

  /** Segment names end in `.ts` and carry no whitespace, so every one passes the
      controller's segment filter; the first `.ts` is the final one, so removing it leaves the
      stem. */
  lemma SegmentNameSelected(n: nat)
    ensures EndsWith(SegmentName(n), ".ts") && Trimmed(SegmentName(n))
    ensures ReplaceFirst(SegmentName(n), ".ts", "") == SegmentStem(n)
  {
    var stem := SegmentStem(n);
    assert SegmentName(n) == stem + ".ts";
    ReplaceFirstAtEnd(stem, ".ts");
  }

  /** The `${n}` a `%03d` with `n` below 1000 produces has exactly three digits. */
  lemma SegmentNumberWidth(n: nat)
    requires n < 1000
    ensures |Pad3(NatToString(n))| == 3
  {
    var s := NatToString(n);
    if |s| > 3 {
      DigitsBound(n);
    }
  }

  /** A number below 1000 has at most three digits. */
  lemma {:induction false} DigitsBound(n: nat)
    requires n < 1000
    ensures |NatToString(n)| <= 3
  {
    if n >= 10 {
      assert n / 10 < 100;
      if n / 10 >= 10 {
        assert n / 10 / 10 < 10;
      }
    }
  }

  /** The error `hlSVideoTranscoding` throws when ffmpeg reports `msg`: its `error` handler
      rejects with ApiError("FFmpeg error: msg", 500), and the surrounding catch wraps that
      error's text into a second ApiError with status 500. */
  function TranscodingError(msg: string): (e: ApiError)
    ensures e.statusCode == Some(500)
    ensures StartsWith(e.message, "HLS video transcoding error: ") && EndsWith(e.message, msg)
  {
    ApiError("HLS video transcoding error: " + Show(ApiError("FFmpeg error: " + msg, Some(500))), Some(500))
  }

  /** `hlSVideoTranscoding(videoPath, outputPath)`: one ffmpeg run; every failure surfaces as
      an ApiError with status 500. */
  method HlsVideoTranscoding(h: Host, videoPath: string, outputPath: string) returns (err: Option<ApiError>)
    requires h.Valid()
    modifies h
    ensures h.Valid() && h.rootExists == old(h.rootExists) && h.assets == old(h.assets)
    ensures h.log == old(h.log) + [Transcoded(videoPath, outputPath)]
    ensures err.None? <==> CanTranscode(old(h.entries), h.encode, videoPath, outputPath)
    ensures err.None? ==> h.entries == AfterTranscode(old(h.entries), h.encode, videoPath, outputPath)
    ensures err.Some? ==> h.entries == AfterFailedTranscode(old(h.entries), h.leftover, videoPath, outputPath)
    ensures err.Some? ==> err.value.statusCode == Some(500)
  {
    var failure := h.Transcode(videoPath, outputPath);
    match failure
    case None =>
      err := None;
    case Some(msg) =>
      err := Some(TranscodingError(msg));
  }

  /** The `CODECS` attribute of each stream (not part of the encoder options). */
  const Codecs: seq<string> := ["avc1.64001e,mp4a.40.2", "avc1.64001f,mp4a.40.2", "avc1.64001f,mp4a.40.2"]

  /** `${playlists[key]}`: the value, or `undefined` for a missing key. */
  function Lookup(playlists: map<string, string>, key: string): string {
    if key in playlists then playlists[key] else "undefined"
  }

  /** The three `#EXT-X-STREAM-INF` lines of the template, as written there (each spelled
      here as two literals joined, for width). */
  const StreamLine360: string := "#EXT-X-STREAM-INF:BANDWIDTH=800000,RESOLUTION=640x360" + ",CODECS=\"avc1.64001e,mp4a.40.2\""
  const StreamLine480: string := "#EXT-X-STREAM-INF:BANDWIDTH=1200000,RESOLUTION=854x480" + ",CODECS=\"avc1.64001f,mp4a.40.2\""
  const StreamLine720: string := "#EXT-X-STREAM-INF:BANDWIDTH=2200000,RESOLUTION=1280x720" + ",CODECS=\"avc1.64001f,mp4a.40.2\""

  /** The lines of the template literal of `createMasterPlaylist`. */
  function MasterLines(playlists: map<string, string>): seq<string> {
    ["#EXTM3U",
     "#EXT-X-VERSION:3",
     StreamLine360,
     Lookup(playlists, "stream_0"),
     "",
     StreamLine480,
     Lookup(playlists, "stream_1"),
     "",
     StreamLine720,
     Lookup(playlists, "stream_2")]
  }

  /** `createMasterPlaylist(playlists)`. */
  function CreateMasterPlaylist(playlists: map<string, string>): string {
    Join(MasterLines(playlists), '\n')
  }

  /** The numeric value of an ffmpeg bitrate written with the `k` suffix (thousands). */
  function BitsPerSecond(rate: string): nat
    requires |rate| >= 1 && rate[|rate| - 1] == 'k'
    requires forall j :: 0 <= j < |rate| - 1 ==> IsDigit(rate[j])
  {
    DecimalValue(rate[..|rate| - 1]) * 1000
  }

  /** The `#EXT-X-STREAM-INF` line the ladder calls for at rung `i`: BANDWIDTH is the rung's
      `-b:v` in bits per second, RESOLUTION its `-s`. */
  function StreamInf(i: nat): string
    requires i < 3
  {
    var r := Ladder[i];
    assert r.bitrate[|r.bitrate| - 1] == 'k' && forall j :: 0 <= j < |r.bitrate| - 1 ==> IsDigit(r.bitrate[j]);
    StreamInfHead(i) + (",CODECS=\"" + Codecs[i] + "\"")
  }

  /** The BANDWIDTH and RESOLUTION part of rung `i`'s stream line. */
  function StreamInfHead(i: nat): string
    requires i < 3
  {
    var r := Ladder[i];
    assert r.bitrate[|r.bitrate| - 1] == 'k' && forall j :: 0 <= j < |r.bitrate| - 1 ==> IsDigit(r.bitrate[j]);
    "#EXT-X-STREAM-INF:BANDWIDTH=" + NatToString(BitsPerSecond(r.bitrate)) + ",RESOLUTION=" + r.size
  }

  /** Reading back a rate written as digits and `k`. */
  lemma RateOf(digits: string, kbps: nat)
    requires digits == NatToString(kbps)
    ensures BitsPerSecond(digits + "k") == kbps * 1000
  {
    assert (digits + "k")[..|digits|] == digits;
    DecimalOfNatToString(kbps);
  }

  /** The ladder's bitrates in bits per second; they strictly increase with the rung. */
  lemma BandwidthAscending()
    ensures BitsPerSecond(Ladder[0].bitrate) == 800000
    ensures BitsPerSecond(Ladder[1].bitrate) == 1200000
    ensures BitsPerSecond(Ladder[2].bitrate) == 2200000
  {
    assert Ladder[0].bitrate == NatToString(800) + "k";
    RateOf(NatToString(800), 800);
    assert Ladder[1].bitrate == NatToString(1200) + "k";
    RateOf(NatToString(1200), 1200);
    assert Ladder[2].bitrate == NatToString(2200) + "k";
    RateOf(NatToString(2200), 2200);
  }

  /** The master playlist's stream lines agree with the encoder: each is exactly the line the
      ladder rung of the same index calls for. */
  lemma MasterAgreesWithLadder(playlists: map<string, string>, i: nat)
    requires i < 3
    ensures MasterLines(playlists)[2 + 3 * i] == StreamInf(i)
  {
    if i == 0 {
      StreamInfText0();
    } else if i == 1 {
      StreamInfText1();
    } else {
      StreamInfText2();
    }
  }

  lemma StreamInfText0()
    ensures StreamInf(0) == StreamLine360
  {
    HeadText0();
    assert ",CODECS=\"avc1.64001e,mp4a.40.2\"" == ",CODECS=\"" + Codecs[0] + "\"";
  }

  lemma HeadText0()
    ensures StreamInfHead(0) == "#EXT-X-STREAM-INF:BANDWIDTH=800000,RESOLUTION=640x360"
  {
    BandwidthText0();
    assert "#EXT-X-STREAM-INF:BANDWIDTH=800000,RESOLUTION=640x360" == "#EXT-X-STREAM-INF:BANDWIDTH=" + "800000" + ",RESOLUTION=" + "640x360";
  }

  lemma BandwidthText0()
    ensures NatToString(BitsPerSecond(Ladder[0].bitrate)) == "800000"
  {
    assert Ladder[0].bitrate == NatToString(800) + "k";
    RateOf(NatToString(800), 800);
    assert NatToString(800000) == "800000";
  }

  lemma StreamInfText1()
    ensures StreamInf(1) == StreamLine480
  {
    HeadText1();
    assert ",CODECS=\"avc1.64001f,mp4a.40.2\"" == ",CODECS=\"" + Codecs[1] + "\"";
  }

  lemma HeadText1()
    ensures StreamInfHead(1) == "#EXT-X-STREAM-INF:BANDWIDTH=1200000,RESOLUTION=854x480"
  {
    BandwidthText1();
    assert "#EXT-X-STREAM-INF:BANDWIDTH=1200000,RESOLUTION=854x480" == "#EXT-X-STREAM-INF:BANDWIDTH=" + "1200000" + ",RESOLUTION=" + "854x480";
  }

  lemma BandwidthText1()
    ensures NatToString(BitsPerSecond(Ladder[1].bitrate)) == "1200000"
  {
    assert Ladder[1].bitrate == NatToString(1200) + "k";
    RateOf(NatToString(1200), 1200);
    assert NatToString(1200000) == "1200000";
  }

  lemma StreamInfText2()
    ensures StreamInf(2) == StreamLine720
  {
    HeadText2();
    assert ",CODECS=\"avc1.64001f,mp4a.40.2\"" == ",CODECS=\"" + Codecs[2] + "\"";
  }

  lemma HeadText2()
    ensures StreamInfHead(2) == "#EXT-X-STREAM-INF:BANDWIDTH=2200000,RESOLUTION=1280x720"
  {
    BandwidthText2();
    assert "#EXT-X-STREAM-INF:BANDWIDTH=2200000,RESOLUTION=1280x720" == "#EXT-X-STREAM-INF:BANDWIDTH=" + "2200000" + ",RESOLUTION=" + "1280x720";
  }

  lemma BandwidthText2()
    ensures NatToString(BitsPerSecond(Ladder[2].bitrate)) == "2200000"
  {
    assert Ladder[2].bitrate == NatToString(2200) + "k";
    RateOf(NatToString(2200), 2200);
    assert NatToString(2200000) == "2200000";
  }

  /** A stream line is a single line and starts with the `#EXT-X-STREAM-INF:` tag. */
  lemma StreamInfOneLine(i: nat)
    requires i < 3
    ensures Free(StreamInf(i), '\n') && StartsWith(StreamInf(i), "#EXT-X-STREAM-INF:")
  {
    var codecs := ",CODECS=\"" + Codecs[i] + "\"";
    HeadOneLine(i);
    CodecsOneLine(i);
    FreeConcat(StreamInfHead(i), codecs, '\n');
    StartsWithExtended(StreamInfHead(i), codecs, "#EXT-X-STREAM-INF:");
  }

  lemma HeadOneLine(i: nat)
    requires i < 3
    ensures Free(StreamInfHead(i), '\n') && StartsWith(StreamInfHead(i), "#EXT-X-STREAM-INF:")
  {
    var r := Ladder[i];
    var bw := NatToString(BitsPerSecond(r.bitrate));
    var tag := "#EXT-X-STREAM-INF:BANDWIDTH=";
    assert StreamInfHead(i) == tag + bw + ",RESOLUTION=" + r.size;
    assert Free(tag, '\n');
    assert Free(bw, '\n');
    assert Free(",RESOLUTION=", '\n');
    assert Free(r.size, '\n');
    FreeConcat(tag, bw, '\n');
    FreeConcat(tag + bw, ",RESOLUTION=", '\n');
    FreeConcat(tag + bw + ",RESOLUTION=", r.size, '\n');
    assert StartsWith(tag, "#EXT-X-STREAM-INF:");
    StartsWithExtended(tag, bw + ",RESOLUTION=" + r.size, "#EXT-X-STREAM-INF:");
    assert tag + (bw + ",RESOLUTION=" + r.size) == StreamInfHead(i);
  }

  lemma CodecsOneLine(i: nat)
    requires i < 3
    ensures Free(",CODECS=\"" + Codecs[i] + "\"", '\n')
  {
  }

  /** No line of a master playlist is split by a value: each variant URL is one line and
      does not begin with `#`, so it is not mistaken for a tag. */
  predicate UriValue(v: string) {
    Free(v, '\n') && (v == [] || v[0] != '#')
  }

  lemma StreamNames()
    ensures StreamName(0) == "stream_0" && StreamName(1) == "stream_1" && StreamName(2) == "stream_2"
  {
  }

  /** With one-line values, every line of the template is a single line. */
  lemma MasterLinesOneLine(playlists: map<string, string>)
    requires forall k :: k in playlists ==> UriValue(playlists[k])
    ensures forall k :: 0 <= k < |MasterLines(playlists)| ==> Free(MasterLines(playlists)[k], '\n')
  {
    var lines := MasterLines(playlists);
    forall k | 0 <= k < |lines| ensures Free(lines[k], '\n') {
      if k == 2 || k == 5 || k == 8 {
        MasterAgreesWithLadder(playlists, k / 3);
        StreamInfOneLine(k / 3);
      } else if k == 0 {
        assert lines[k] == "#EXTM3U";
      } else if k == 1 {
        assert lines[k] == "#EXT-X-VERSION:3";
      } else if k == 4 || k == 7 {
        assert lines[k] == "";
      } else {
        assert Free("undefined", '\n');
      }
    }
  }

  /** Exactly lines 2, 5 and 8 of the template are `#EXT-X-STREAM-INF` lines. */
  lemma MasterStreamLines(playlists: map<string, string>)
    requires forall k :: k in playlists ==> UriValue(playlists[k])
    ensures forall k :: 0 <= k < |MasterLines(playlists)| ==>
      (StartsWith(MasterLines(playlists)[k], "#EXT-X-STREAM-INF:") <==> k == 2 || k == 5 || k == 8)
  {
    var lines := MasterLines(playlists);
    forall k | 0 <= k < |lines|
      ensures StartsWith(lines[k], "#EXT-X-STREAM-INF:") <==> k == 2 || k == 5 || k == 8
    {
      if k == 2 || k == 5 || k == 8 {
        MasterAgreesWithLadder(playlists, k / 3);
        StreamInfOneLine(k / 3);
      } else if k == 3 || k == 6 || k == 9 {
        assert "undefined"[0] != '#';
      }
    }
  }

  /** Read back line by line, the master playlist has ten lines: `#EXTM3U`, `#EXT-X-VERSION:3`,
      then for each variant its `#EXT-X-STREAM-INF` line followed immediately by
      `playlists["stream_i"]`, blocks separated by one blank line and no newline at the end;
      the stream lines are exactly lines 2, 5 and 8. */
  lemma MasterShape(playlists: map<string, string>)
    requires forall k :: k in playlists ==> UriValue(playlists[k])
    ensures var lines := Split(CreateMasterPlaylist(playlists), '\n');
      && |lines| == 10
      && lines[0] == "#EXTM3U" && lines[1] == "#EXT-X-VERSION:3"
      && (forall i :: 0 <= i < 3 ==> lines[2 + 3 * i] == StreamInf(i))
      && (forall i :: 0 <= i < 3 ==> lines[3 + 3 * i] == Lookup(playlists, StreamName(i)))
      && lines[4] == "" && lines[7] == ""
      && (forall k :: 0 <= k < 10 ==>
            (StartsWith(lines[k], "#EXT-X-STREAM-INF:") <==> k == 2 || k == 5 || k == 8))
  {
    var lines := MasterLines(playlists);
    MasterLinesOneLine(playlists);
    SplitJoin(lines, '\n');
    MasterStreamLines(playlists);
    StreamNames();
    forall i | 0 <= i < 3 ensures lines[2 + 3 * i] == StreamInf(i) {
      MasterAgreesWithLadder(playlists, i);
    }
  }
}
