/**
 * The helpers of src/utils/index.ts that the upload screens and pipeline use:
 * byte-buffer equality, option-label formatting, address abbreviation,
 * duration formatting and the total size of a submission.
 */
module Utils {
  import opened Basics
  import opened Text
  import opened Schema

  newtype byte = x: int | 0 <= x < 256

  /** `arrayBuffersEqual`: same length, then an index-by-index comparison that
      stops at the first difference. */
  method ArrayBuffersEqual(buffer1: array<byte>, buffer2: array<byte>) returns (equal: bool)
    ensures equal <==> buffer1[..] == buffer2[..]
  {
    if buffer1.Length != buffer2.Length {
      return false;
    }
    var i := 0;
    while i < buffer1.Length
      invariant 0 <= i <= buffer1.Length
      invariant buffer1[..i] == buffer2[..i]
    {
      if buffer1[i] != buffer2[i] {
        assert buffer1[..][i] != buffer2[..][i];
        return false;
      }
      i := i + 1;
    }
    assert buffer1[..] == buffer1[..i] && buffer2[..] == buffer2[..i];
    return true;
  }

  /** `value.charAt(0).toUpperCase() + value.slice(1)`. */
  function Capitalize(part: string): (r: string)
    ensures |r| == |part|
  {
    if |part| == 0 then "" else [UpperAscii(part[0])] + part[1..]
  }

  function CapitalizeAll(parts: seq<string>): (r: seq<string>)
    ensures |r| == |parts| && forall k :: 0 <= k < |parts| ==> r[k] == Capitalize(parts[k])
  {
    seq(|parts|, k requires 0 <= k < |parts| => Capitalize(parts[k]))
  }

  /** `formatSchemaValue`: "with-revenue-share" becomes "With Revenue Share". */
  function FormatSchemaValue(value: string): string {
    Join(CapitalizeAll(Split(value, '-')), " ")
  }

  /** Total length of a list of strings. */
  function TotalLength(parts: seq<string>): nat
    decreases |parts|
  {
    if |parts| == 0 then 0 else |parts[0]| + TotalLength(parts[1..])
  }

  lemma {:induction false} JoinLength(parts: seq<string>, sep: string)
    requires |parts| >= 1
    ensures |Join(parts, sep)| == TotalLength(parts) + (|parts| - 1) * |sep|
    decreases |parts|
  {
    if |parts| > 1 {
      JoinLength(parts[1..], sep);
    }
  }

  lemma {:induction false} CapitalizeAllLength(parts: seq<string>)
    ensures TotalLength(CapitalizeAll(parts)) == TotalLength(parts)
    decreases |parts|
  {
    if |parts| > 0 {
      CapitalizeAllLength(parts[1..]);
      assert CapitalizeAll(parts)[1..] == CapitalizeAll(parts[1..]);
    }
  }

  /** Formatting only re-cases letters and turns each hyphen into a space, so
      the label is as long as the value. */
  lemma FormatSchemaValueLength(value: string)
    ensures |FormatSchemaValue(value)| == |value|
  {
    var parts := Split(value, '-');
    JoinSplit(value, '-');
    JoinLength(parts, "-");
    JoinLength(CapitalizeAll(parts), " ");
    CapitalizeAllLength(parts);
  }

  /** For a value without spaces, the label has one word per hyphen-separated
      part (one more than the hyphens), each the part with its first letter
      upper-cased. */
  lemma FormatSchemaValueWords(value: string)
    requires ' ' !in value
    ensures Split(FormatSchemaValue(value), ' ') == CapitalizeAll(Split(value, '-'))
    ensures |Split(FormatSchemaValue(value), ' ')| == Count(value, '-') + 1
  {
    var parts := Split(value, '-');
    SplitParts(value, '-');
    var words := CapitalizeAll(parts);
    assert forall k :: 0 <= k < |words| ==> ' ' !in words[k];
    SplitJoin(words, ' ');
  }

  /** JavaScript's `s.substring(from, to)`: both bounds clamped to the string,
      swapped when out of order. */
  function Substring(s: string, from: int, to: int): string {
    var a := if from < 0 then 0 else if from > |s| then |s| else from;
    var b := if to < 0 then 0 else if to > |s| then |s| else to;
    if a <= b then s[a..b] else s[b..a]
  }

  /** JavaScript's `s.substring(from)`. */
  function SubstringFrom(s: string, from: int): string {
    Substring(s, from, |s|)
  }

  function OrDefault(o: Option<nat>, default: nat): nat {
    if o.Some? then o.value else default
  }

  /** `abbreviateAddress`: the first `startChars` characters, `noOfEllipsis`
      dots and the last `endChars` characters (by default `startChars` 5,
      `endChars` 4 and `noOfEllipsis` 2). An absent address is interpolated
      by JavaScript as the text "undefined". Positions count characters;
      `substring` counts UTF-16 code units, which is the same for the ASCII
      wallet addresses. */
  function AbbreviateAddress(address: Option<string>, startChars: Option<nat>, endChars: Option<nat>, noOfEllipsis: Option<nat>): (r: string)
    ensures address.Some? ==>
      var a, s, e, d := address.value, OrDefault(startChars, 5), OrDefault(endChars, 4), OrDefault(noOfEllipsis, 2);
      var head := if s <= |a| then s else |a|;
      var tail := if e <= |a| then e else |a|;
      && |r| == head + d + tail
      && r[..head] == a[..head]
      && (forall k :: head <= k < head + d ==> r[k] == '.')
      && r[head + d..] == a[|a| - tail..]
    ensures address.None? ==> r == "undefined" + Repeat('.', OrDefault(noOfEllipsis, 2)) + "undefined"
  {
    var s := OrDefault(startChars, 5);
    var e := OrDefault(endChars, 4);
    var d := OrDefault(noOfEllipsis, 2);
    var first := if address.None? then "undefined" else Substring(address.value, 0, s);
    var last := if address.None? then "undefined" else SubstringFrom(address.value, |address.value| - e);
    first + Repeat('.', d) + last
  }

  /** The clock parts of a whole number of seconds. */
  function Hours(d: nat): nat { d / 3600 }
  function Minutes(d: nat): nat { (d / 60) % 60 }
  function Seconds(d: nat): nat { d % 60 }

  function HoursText(h: nat): string { if h == 1 then "hour" else "hours" }
  function MinutesText(m: nat): string { if m == 1 then "min" else "mins" }
  function SecondsText(s: nat): string { if s == 1 then "sec" else "secs" }

  /** `formatDuration` for a whole, non-negative number of seconds: "m:ss" or
      "h:m:ss", or with `suffix` "m min(s) s sec(s)" preceded by "h hour(s)"
      when there is at least one hour. */
  function FormatDuration(duration: nat, suffix: bool): string {
    var minutes := Minutes(duration);
    var seconds := Seconds(duration);
    var hours := Hours(duration);
    var formattedSeconds :=
      if suffix then NatToString(seconds) + " " + SecondsText(seconds)
      else (if seconds < 10 then "0" else "") + NatToString(seconds);
    if hours > 0 then
      if suffix then NatToString(hours) + " " + HoursText(hours) + " " + NatToString(minutes) + " " + MinutesText(minutes) + " " + formattedSeconds
      else NatToString(hours) + ":" + NatToString(minutes) + ":" + formattedSeconds
    else if suffix then NatToString(minutes) + " " + MinutesText(minutes) + " " + formattedSeconds
    else NatToString(minutes) + ":" + formattedSeconds
  }

  /** `formatDuration` of a fractional, non-negative number of seconds: the
      `Math.floor` parts it computes (JavaScript's `%` keeps the sign of the
      dividend, so `duration % 60` is `duration - 60 * floor(duration / 60)`
      here) are those of the whole seconds, so the text is `FormatDuration`
      of the floor. */
  lemma FractionalDurationParts(d: real)
    requires d >= 0.0
    ensures (d / 60.0).Floor % 60 == Minutes(d.Floor)
    ensures (d - 60.0 * ((d / 60.0).Floor as real)).Floor == Seconds(d.Floor)
    ensures (d / 3600.0).Floor == Hours(d.Floor)
  {
    var n := d.Floor;
    assert n as real <= d < n as real + 1.0;
    var q := n / 60;
    assert 60 * q <= n < 60 * q + 60;
    assert (q as real) * 60.0 <= d < (q as real) * 60.0 + 60.0;
    assert (d / 60.0).Floor == q;
    assert (n - 60 * q) as real <= d - 60.0 * (q as real) < (n - 60 * q) as real + 1.0;
    var h := n / 3600;
    assert 3600 * h <= n < 3600 * h + 3600;
    assert (h as real) * 3600.0 <= d < (h as real) * 3600.0 + 3600.0;
  }

  /** The parts recombine to the duration: minutes and seconds stay below 60. */
  lemma DurationParts(d: nat)
    ensures Minutes(d) < 60 && Seconds(d) < 60
    ensures d == Hours(d) * 3600 + Minutes(d) * 60 + Seconds(d)
  {
    var q := d / 60;
    assert d == q * 60 + d % 60;
    assert q == (q / 60) * 60 + q % 60;
    assert q / 60 == d / 3600 by {
      var h := q / 60;
      assert h * 3600 <= q * 60 <= d;
      assert d < (q + 1) * 60 <= (h + 1) * 3600;
    }
  }

  /** Reads a colon-separated clock text back into seconds. */
  function ParseClock(text: string): Option<nat> {
    var parts := Split(text, ':');
    if |parts| == 2 && IsDigits(parts[0]) && IsDigits(parts[1]) then
      Some(ParseNat(parts[0]) * 60 + ParseNat(parts[1]))
    else if |parts| == 3 && IsDigits(parts[0]) && IsDigits(parts[1]) && IsDigits(parts[2]) then
      Some(ParseNat(parts[0]) * 3600 + ParseNat(parts[1]) * 60 + ParseNat(parts[2]))
    else None
  }

  lemma DigitsExclude(s: string, c: char)
    requires IsDigits(s) && !IsDigit(c)
    ensures c !in s
  {
  }

  /** The padded seconds field: always two digits. */
  lemma PaddedSeconds(s: nat)
    requires s < 60
    ensures var f := (if s < 10 then "0" else "") + NatToString(s);
      |f| == 2 && IsDigits(f) && ParseNat(f) == s
  {
    ParseNatToString(s);
    if s < 10 {
      ParseNatLeadingZero(NatToString(s));
    } else {
      var t := NatToString(s);
      assert t == NatToString(s / 10) + [DigitChar(s % 10)];
    }
  }

  lemma Join3(a: string, b: string, c: string, sep: string)
    ensures Join([a, b, c], sep) == a + sep + b + sep + c
  {
    assert [a, b, c][1..] == [b, c];
    assert [b, c][1..] == [c];
    assert Join([b, c], sep) == b + sep + c;
    assert Join([a, b, c], sep) == a + sep + (b + sep + c);
  }

  /** The fields of the clock text: hours (when there are any), minutes and
      the padded seconds. */
  lemma ClockFields(d: nat)
    ensures var fs := (if Seconds(d) < 10 then "0" else "") + NatToString(Seconds(d));
      Split(FormatDuration(d, false), ':') ==
        if Hours(d) > 0 then [NatToString(Hours(d)), NatToString(Minutes(d)), fs] else [NatToString(Minutes(d)), fs]
  {
    var h, m, s := Hours(d), Minutes(d), Seconds(d);
    DurationParts(d);
    var fs := (if s < 10 then "0" else "") + NatToString(s);
    PaddedSeconds(s);
    var parts := if h > 0 then [NatToString(h), NatToString(m), fs] else [NatToString(m), fs];
    forall k | 0 <= k < |parts| ensures ':' !in parts[k] {
      DigitsExclude(parts[k], ':');
    }
    if h > 0 {
      Join3(NatToString(h), NatToString(m), fs, ":");
    } else {
      assert [NatToString(m), fs][1..] == [fs];
    }
    assert FormatDuration(d, false) == Join(parts, ":");
    SplitJoin(parts, ':');
  }

  /** The clock text reads back as the duration it was made from, and its
      seconds field always has two digits. */
  lemma ClockRoundTrip(d: nat)
    ensures ParseClock(FormatDuration(d, false)) == Some(d)
    ensures |Split(FormatDuration(d, false), ':')[|Split(FormatDuration(d, false), ':')| - 1]| == 2
  {
    var h, m, s := Hours(d), Minutes(d), Seconds(d);
    DurationParts(d);
    PaddedSeconds(s);
    ClockFields(d);
    ReadClock(FormatDuration(d, false), h, m, s);
  }

  /** Reading the fields of a clock text back. */
  lemma ReadClock(text: string, h: nat, m: nat, s: nat)
    requires s < 60
    requires var fs := (if s < 10 then "0" else "") + NatToString(s);
      Split(text, ':') == if h > 0 then [NatToString(h), NatToString(m), fs] else [NatToString(m), fs]
    ensures ParseClock(text) == Some(h * 3600 + m * 60 + s)
  {
    var fs := (if s < 10 then "0" else "") + NatToString(s);
    PaddedSeconds(s);
    ParseNatToString(h);
    ParseNatToString(m);
    if h > 0 {
      ReadFields3(text, NatToString(h), NatToString(m), fs, h, m, s);
    } else {
      ReadFields2(text, NatToString(m), fs, m, s);
    }
  }

  lemma ReadFields3(text: string, a: string, b: string, c: string, h: nat, m: nat, s: nat)
    requires Split(text, ':') == [a, b, c]
    requires IsDigits(a) && IsDigits(b) && IsDigits(c)
    requires ParseNat(a) == h && ParseNat(b) == m && ParseNat(c) == s
    ensures ParseClock(text) == Some(h * 3600 + m * 60 + s)
  {
  }

  lemma ReadFields2(text: string, b: string, c: string, m: nat, s: nat)
    requires Split(text, ':') == [b, c]
    requires IsDigits(b) && IsDigits(c)
    requires ParseNat(b) == m && ParseNat(c) == s
    ensures ParseClock(text) == Some(m * 60 + s)
  {
  }

  lemma JoinCons(a: string, rest: seq<string>, sep: string)
    requires |rest| > 0
    ensures Join([a] + rest, sep) == a + sep + Join(rest, sep)
  {
    assert ([a] + rest)[1..] == rest;
  }

  lemma Join4(a: string, b: string, c: string, d: string, sep: string)
    ensures Join([a, b, c, d], sep) == a + sep + b + sep + c + sep + d
  {
    assert [a, b, c, d] == [a] + [b, c, d];
    JoinCons(a, [b, c, d], sep);
    Join3(b, c, d, sep);
  }

  lemma Join6(a: string, b: string, c: string, d: string, e: string, f: string, sep: string)
    ensures Join([a, b, c, d, e, f], sep) == a + sep + b + sep + c + sep + d + sep + e + sep + f
  {
    assert [a, b, c, d, e, f] == [a] + [b, c, d, e, f];
    assert [b, c, d, e, f] == [b] + [c, d, e, f];
    JoinCons(a, [b, c, d, e, f], sep);
    JoinCons(b, [c, d, e, f], sep);
    Join4(c, d, e, f, sep);
  }

  /** With `suffix`, the text is a list of number/unit word pairs, and each
      unit is singular exactly when its number is 1. */
  lemma SuffixWords(d: nat)
    ensures var h, m, s := Hours(d), Minutes(d), Seconds(d);
      Split(FormatDuration(d, true), ' ') ==
        (if h > 0 then [NatToString(h), HoursText(h)] else [])
        + [NatToString(m), MinutesText(m), NatToString(s), SecondsText(s)]
    ensures (MinutesText(Minutes(d)) == "min") == (Minutes(d) == 1)
    ensures (SecondsText(Seconds(d)) == "sec") == (Seconds(d) == 1)
    ensures (HoursText(Hours(d)) == "hour") == (Hours(d) == 1)
  {
    var h, m, s := Hours(d), Minutes(d), Seconds(d);
    var ws := (if h > 0 then [NatToString(h), HoursText(h)] else [])
      + [NatToString(m), MinutesText(m), NatToString(s), SecondsText(s)];
    forall k | 0 <= k < |ws| ensures ' ' !in ws[k] {
      if IsDigits(ws[k]) {
        DigitsExclude(ws[k], ' ');
      }
    }
    if h > 0 {
      assert ws == [NatToString(h), HoursText(h), NatToString(m), MinutesText(m), NatToString(s), SecondsText(s)];
      Join6(NatToString(h), HoursText(h), NatToString(m), MinutesText(m), NatToString(s), SecondsText(s), " ");
    } else {
      assert ws == [NatToString(m), MinutesText(m), NatToString(s), SecondsText(s)];
      Join4(NatToString(m), MinutesText(m), NatToString(s), SecondsText(s), " ");
    }
    assert FormatDuration(d, true) == Join(ws, " ");
    SplitJoin(ws, ' ');
  }

  /** Bytes of one track: its audio file and its artwork file. */
  function TrackBytes(t: Track): nat {
    t.file.size + t.metadata.artwork.file.size
  }

  function TracksBytes(tracks: seq<Track>): nat
    decreases |tracks|
  {
    if |tracks| == 0 then 0 else TracksBytes(tracks[..|tracks| - 1]) + TrackBytes(tracks[|tracks| - 1])
  }

  /** `calculateTotalFileSize`: release artwork, then every track's audio and
      artwork, accumulated in list order. */
  method CalculateTotalFileSize(data: Release) returns (totalSize: nat)
    ensures totalSize == data.releaseArtwork.file.size + TracksBytes(data.tracklist)
  {
    totalSize := 0;
    totalSize := totalSize + data.releaseArtwork.file.size;
    var i := 0;
    while i < |data.tracklist|
      invariant 0 <= i <= |data.tracklist|
      invariant totalSize == data.releaseArtwork.file.size + TracksBytes(data.tracklist[..i])
    {
      var track := data.tracklist[i];
      totalSize := totalSize + track.file.size;
      totalSize := totalSize + track.metadata.artwork.file.size;
      assert data.tracklist[..i + 1][..i] == data.tracklist[..i];
      i := i + 1;
    }
    assert data.tracklist[..i] == data.tracklist;
  }

  function AudioBytes(tracks: seq<Track>): nat
    decreases |tracks|
  {
    if |tracks| == 0 then 0 else AudioBytes(tracks[..|tracks| - 1]) + tracks[|tracks| - 1].file.size
  }

  /** Artwork is counted once per use: when every track reuses the release
      artwork, its size is counted once for the release and once per track. */
  lemma {:induction false} SharedArtworkCountedPerUse(art: File, tracks: seq<Track>)
    requires forall k :: 0 <= k < |tracks| ==> tracks[k].metadata.artwork.file == art
    ensures art.size + TracksBytes(tracks) == art.size * (|tracks| + 1) + AudioBytes(tracks)
    decreases |tracks|
  {
    if |tracks| > 0 {
      SharedArtworkCountedPerUse(art, tracks[..|tracks| - 1]);
    }
  }
}
