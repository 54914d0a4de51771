/** The post-session WAV dump (`save_audio` and its `on_audio_data` caller in bot.py).

    `save_audio` writes nothing for an empty buffer; otherwise it fixes the container's
    parameters and names the file `<server>_recording_<YYYYMMDD_HHMMSS>.wav`, where the
    server name is `server_<port>`. The clock reading is a parameter, and the container is
    described by its parameters and data rather than by its encoded bytes. Each name format
    has a parser beside it, and the lemmas show the parser recovers what was formatted. */
module Recording {
  import opened Common

  /** A reading of `datetime.datetime.now()`, within the ranges `datetime` enforces. */
  datatype DateTime = DateTime(year: int, month: int, day: int, hour: int, minute: int, second: int)

  predicate InRange(t: DateTime) {
    1 <= t.year <= 9999 && 1 <= t.month <= 12 && 1 <= t.day <= 31 &&
    0 <= t.hour < 24 && 0 <= t.minute < 60 && 0 <= t.second < 60
  }

  type Timestamp = t: DateTime | InRange(t) witness DateTime(1970, 1, 1, 0, 0, 0)

  /** A WAV container as `wave` is told to write it. */
  datatype WavFile = WavFile(name: string, sampleWidth: int, channels: int, frameRate: int, frames: Bytes)

  /** `wf.setsampwidth(2)`: 16-bit samples. */
  const SampleWidth := 2

  const ServerPrefix := "server_"
  const RecordingInfix := "_recording_"
  const WavSuffix := ".wav"

  /** Length of `strftime('%Y%m%d_%H%M%S')`. */
  const TimestampLength := 15

  // ---- decimal digits ----

  predicate IsDigit(c: char) {
    '0' <= c <= '9'
  }

  predicate AllDigits(s: string) {
    forall i :: 0 <= i < |s| ==> IsDigit(s[i])
  }

  function DigitChar(d: nat): (c: char)
    requires d < 10
  {
    (48 + d) as char
  }

  function DigitValue(c: char): nat
    requires IsDigit(c)
  {
    c as int - 48
  }

  function Pow10(n: nat): (r: nat)
    ensures r >= 1
  {
    if n == 0 then 1 else 10 * Pow10(n - 1)
  }

  /** The number a string of decimal digits denotes (leading zeros allowed). */
  function ValueOf(s: string): nat
    requires AllDigits(s)
  {
    if s == [] then 0 else 10 * ValueOf(s[..|s| - 1]) + DigitValue(s[|s| - 1])
  }

  /** `n` in decimal, zero-padded to `width` digits (`%04d`, `%02d`). */
  function Padded(n: nat, width: nat): string
    requires n < Pow10(width)
  {
    if width == 0 then [] else Padded(n / 10, width - 1) + [DigitChar(n % 10)]
  }

  /** `str(n)` for a non-negative integer: no leading zeros. */
  function Decimal(n: nat): string
    decreases n
  {
    if n < 10 then [DigitChar(n)] else Decimal(n / 10) + [DigitChar(n % 10)]
  }

  /** The digits of `s + [d]`: those of `s`, then `d`. */
  lemma AppendDigit(s: string, d: nat)
    requires AllDigits(s) && d < 10
    ensures AllDigits(s + [DigitChar(d)]) && ValueOf(s + [DigitChar(d)]) == 10 * ValueOf(s) + d
  {
    var t := s + [DigitChar(d)];
    assert t[..|t| - 1] == s;
  }

  lemma {:induction false} PaddedValue(n: nat, width: nat)
    requires n < Pow10(width)
    ensures |Padded(n, width)| == width && AllDigits(Padded(n, width))
    ensures ValueOf(Padded(n, width)) == n
    ensures width > 0 ==> Number(Padded(n, width)) == Some(n)
    decreases width
  {
    if width == 0 {
    } else {
      PaddedValue(n / 10, width - 1);
      AppendDigit(Padded(n / 10, width - 1), n % 10);
    }
  }

  lemma {:induction false} DecimalValue(n: nat)
    ensures |Decimal(n)| > 0 && AllDigits(Decimal(n))
    ensures ValueOf(Decimal(n)) == n && Number(Decimal(n)) == Some(n)
    ensures Decimal(n)[0] != '0' || n == 0
    decreases n
  {
    if n >= 10 {
      DecimalValue(n / 10);
      AppendDigit(Decimal(n / 10), n % 10);
    }
  }

  // ---- the server name of bot.py's `on_audio_data` ----

  /** `f"server_{websocket_client.client.port}"`. */
  function ServerName(port: nat): string {
    ServerPrefix + Decimal(port)
  }

  /** The port a server name was built from, if it has that shape. */
  function ParseServerName(name: string): Option<nat> {
    if |name| >= |ServerPrefix| && name[..|ServerPrefix|] == ServerPrefix
    then Number(name[|ServerPrefix|..])
    else None
  }

  lemma ServerNameRoundTrip(port: nat)
    ensures ParseServerName(ServerName(port)) == Some(port)
  {
    DecimalValue(port);
    var name := ServerName(port);
    assert name[..|ServerPrefix|] == ServerPrefix;
    assert name[|ServerPrefix|..] == Decimal(port);
  }

  /** Distinct connections (by client port) never share a server name. */
  lemma ServerNameInjective(p: nat, q: nat)
    requires ServerName(p) == ServerName(q)
    ensures p == q
  {
    ServerNameRoundTrip(p);
    ServerNameRoundTrip(q);
  }

  // ---- the timestamp ----

  /** `strftime('%Y%m%d_%H%M%S')`. */
  function Strftime(t: Timestamp): string {
    Padded(t.year, 4) + Padded(t.month, 2) + Padded(t.day, 2) + "_" +
    Padded(t.hour, 2) + Padded(t.minute, 2) + Padded(t.second, 2)
  }

  /** The number a non-empty run of decimal digits denotes. */
  function Number(s: string): Option<nat> {
    if |s| > 0 && AllDigits(s) then Some(ValueOf(s)) else None
  }

  /** The reading a `YYYYMMDD_HHMMSS` string denotes, if it is one. */
  function ParseTimestamp(s: string): Option<Timestamp> {
    if |s| == TimestampLength && s[8] == '_' then
      match (Number(s[0..4]), Number(s[4..6]), Number(s[6..8]), Number(s[9..11]), Number(s[11..13]), Number(s[13..15]))
      case (Some(y), Some(mo), Some(d), Some(h), Some(mi), Some(se)) =>
        var t := DateTime(y, mo, d, h, mi, se);
        if InRange(t) then Some(t) else None
      case _ => None
    else
      None
  }

  /** The three fields of a `strftime` date or time can be cut back out of it. */
  lemma ThreeFields(a: string, b: string, c: string)
    requires |b| == 2 && |c| == 2
    ensures var s := a + b + c;
            s[..|a|] == a && s[|a|..|a| + 2] == b && s[|a| + 2..] == c
  {
  }

  /** Parsing reads each field of a well-shaped string back. */
  lemma ParseFields(s: string, y: string, mo: string, d: string, h: string, mi: string, se: string)
    requires |s| == TimestampLength && s[8] == '_'
    requires s[0..4] == y && s[4..6] == mo && s[6..8] == d && s[9..11] == h && s[11..13] == mi && s[13..15] == se
    requires Number(y).Some? && Number(mo).Some? && Number(d).Some?
    requires Number(h).Some? && Number(mi).Some? && Number(se).Some?
    ensures var t := DateTime(Number(y).value, Number(mo).value, Number(d).value,
                              Number(h).value, Number(mi).value, Number(se).value);
            ParseTimestamp(s) == if InRange(t) then Some(t) else None
  {
  }

  /** A string laid out as `strftime` lays it out parses back to its fields' values. */
  lemma ParsePieces(y: string, mo: string, d: string, h: string, mi: string, se: string)
    requires |y| == 4 && |mo| == 2 && |d| == 2 && |h| == 2 && |mi| == 2 && |se| == 2
    requires Number(y).Some? && Number(mo).Some? && Number(d).Some?
    requires Number(h).Some? && Number(mi).Some? && Number(se).Some?
    ensures var t := DateTime(Number(y).value, Number(mo).value, Number(d).value,
                              Number(h).value, Number(mi).value, Number(se).value);
            ParseTimestamp(y + mo + d + "_" + h + mi + se) == if InRange(t) then Some(t) else None
  {
    var date, time := y + mo + d, h + mi + se;
    ThreeFields(y, mo, d);
    ThreeFields(h, mi, se);
    var s := y + mo + d + "_" + h + mi + se;
    assert s == date + "_" + time;
    assert s[..8] == date && s[8] == '_' && s[9..] == time;
    assert s[0..4] == y && s[4..6] == mo && s[6..8] == d by {
      assert s[0..4] == date[..4] && s[4..6] == date[4..6] && s[6..8] == date[6..];
    }
    assert s[9..11] == h && s[11..13] == mi && s[13..15] == se by {
      assert s[9..11] == time[..2] && s[11..13] == time[2..4] && s[13..15] == time[4..];
    }
    ParseFields(s, y, mo, d, h, mi, se);
  }

  lemma StrftimeRoundTrip(t: Timestamp)
    ensures |Strftime(t)| == TimestampLength
    ensures ParseTimestamp(Strftime(t)) == Some(t)
  {
    PaddedValue(t.year, 4);
    PaddedValue(t.month, 2);
    PaddedValue(t.day, 2);
    PaddedValue(t.hour, 2);
    PaddedValue(t.minute, 2);
    PaddedValue(t.second, 2);
    ParsePieces(Padded(t.year, 4), Padded(t.month, 2), Padded(t.day, 2),
                Padded(t.hour, 2), Padded(t.minute, 2), Padded(t.second, 2));
  }

  // ---- the file name and the container ----

  /** `f"{server_name}_recording_{timestamp}.wav"`. */
  function RecordingName(serverName: string, now: Timestamp): string {
    serverName + RecordingInfix + Strftime(now) + WavSuffix
  }

  /** The server name and clock reading a recording's file name was built from. The
      timestamp has a fixed width, so the split is taken from the end of the name. */
  function SplitRecordingName(name: string): Option<(string, Timestamp)> {
    var n := |name|;
    var tail := |RecordingInfix| + TimestampLength + |WavSuffix|;
    if n >= tail && name[n - |WavSuffix|..] == WavSuffix &&
       name[n - tail..n - TimestampLength - |WavSuffix|] == RecordingInfix
    then
      match ParseTimestamp(name[n - TimestampLength - |WavSuffix|..n - |WavSuffix|])
      case Some(t) => Some((name[..n - tail], t))
      case None => None
    else
      None
  }

  lemma RecordingNameRoundTrip(serverName: string, now: Timestamp)
    ensures SplitRecordingName(RecordingName(serverName, now)) == Some((serverName, now))
  {
    StrftimeRoundTrip(now);
    var ts := Strftime(now);
    var name := RecordingName(serverName, now);
    var n := |name|;
    assert n == |serverName| + 30;
    assert name[n - 4..] == WavSuffix;
    assert name[n - 30..n - 19] == RecordingInfix;
    assert name[n - 19..n - 4] == ts;
    assert name[..n - 30] == serverName;
  }

  /** `save_audio(server_name, audio, sample_rate, num_channels)`, with the clock reading
      `now`: the container it writes, or nothing for an empty buffer. */
  function SaveAudio(serverName: string, audio: Bytes, sampleRate: int, numChannels: int, now: Timestamp)
    : (file: Option<WavFile>)
    ensures file.None? <==> |audio| == 0
    ensures file.Some? ==>
              file.value.sampleWidth == SampleWidth &&
              file.value.channels == numChannels &&
              file.value.frameRate == sampleRate &&
              file.value.frames == audio
    ensures file.Some? ==> SplitRecordingName(file.value.name) == Some((serverName, now))
  {
    if |audio| > 0 then
      RecordingNameRoundTrip(serverName, now);
      Some(WavFile(RecordingName(serverName, now), SampleWidth, numChannels, sampleRate, audio))
    else
      None
  }

  /** `on_audio_data`: the dump for the connection whose client uses `port`. The file's name
      identifies that port and the clock reading. */
  function OnAudioData(port: nat, audio: Bytes, sampleRate: int, numChannels: int, now: Timestamp)
    : (file: Option<WavFile>)
    ensures file.None? <==> |audio| == 0
    ensures file.Some? ==>
              file.value.frames == audio && file.value.frameRate == sampleRate &&
              file.value.channels == numChannels && file.value.sampleWidth == SampleWidth
    ensures file.Some? ==>
              exists server :: SplitRecordingName(file.value.name) == Some((server, now)) &&
                               ParseServerName(server) == Some(port)
  {
    ServerNameRoundTrip(port);
    SaveAudio(ServerName(port), audio, sampleRate, numChannels, now)
  }
}
