/** The server's raw-PCM frame serializer (`RawPCMSerializer` in bot.py).

    The serializer is a two-field state machine: the negotiated input sample rate and
    channel count. Binary payloads become input-audio frames tagged with the current
    parameters; a JSON `start` message replaces the parameters and yields a start frame.
    JSON decoding itself is not modelled: a text payload arrives as the outcome of
    `json.loads`, and the fields hold whatever Python value that decoding produced. */
module PcmSerializer {
  import opened Common

  /** A Python value produced by `json.loads`. */
  datatype Json =
    | Null
    | Bool(b: bool)
    | Int(i: int)
    | Float(f: real)
    | Str(s: string)
    | Array(items: seq<Json>)
    | Object(members: map<string, Json>)

  /** What `json.loads` does with a text payload: raise `JSONDecodeError` or return a value. */
  datatype JsonText = Malformed | Decoded(value: Json)

  /** A WebSocket payload handed to `deserialize`: `bytes`/`bytearray`, `str`, or anything else. */
  datatype Payload = Binary(data: Bytes) | Text(json: JsonText) | Unsupported

  /** The frames `deserialize` hands to the pipeline. */
  datatype Frame =
    | InputAudioRaw(audio: Bytes, sampleRate: Json, numChannels: Json)
    | Start(audioInSampleRate: Json, audioInChannels: Json)

  type StartFrame = f: Frame | f.Start? witness Start(Null, Null)

  /** Frames the pipeline offers to `serialize`: an `AudioRawFrame` (or a subclass of it) or
      any other frame, named by its class. */
  datatype PipelineFrame =
    | AudioRaw(audio: Bytes, sampleRate: int, numChannels: int)
    | NonAudio(className: string)

  /** What a call to `deserialize` does: return a frame or `None`, or raise the
      `AttributeError` of calling `.get` on a decoded value that is not a dict. */
  datatype Outcome = Returned(frame: Option<Frame>) | RaisedAttributeError

  /** The serializer's state: `_sample_rate` and `_channels`. */
  datatype Params = Params(sampleRate: Json, channels: Json)

  /** The serializer announces binary WebSocket frames (`FrameSerializerType.BINARY`). */
  datatype SerializerType = BinaryFrames

  const DefaultSampleRate: Json := Int(16000)
  const DefaultChannels: Json := Int(1)

  const TypeKey := "type"
  const StartType: Json := Str("start")
  const SampleRateKey := "audio_in_sample_rate"
  const ChannelsKey := "audio_in_channels"

  /** Python truthiness of a decoded JSON value. */
  predicate Truthy(v: Json) {
    match v
    case Null => false
    case Bool(b) => b
    case Int(i) => i != 0
    case Float(f) => f != 0.0
    case Str(s) => s != []
    case Array(items) => items != []
    case Object(members) => members != map[]
  }

  /** `dict.get(key, default)`. */
  function Get(m: map<string, Json>, key: string, default: Json): Json {
    if key in m then m[key] else default
  }

  /** `obj.get("type") == "start"` on a dict. */
  predicate IsStartObject(m: map<string, Json>) {
    TypeKey in m && m[TypeKey] == StartType
  }

  /** A text payload that decodes to a start-control object. */
  predicate IsStartMessage(data: Payload) {
    data.Text? && data.json.Decoded? && data.json.value.Object? && IsStartObject(data.json.value.members)
  }

  /** The parameters after `setup(frame)`: `frame.audio_in_sample_rate or self._sample_rate`. */
  function AfterSetup(p: Params, frame: StartFrame): (q: Params)
    ensures q.channels == p.channels
    ensures q.sampleRate == frame.audioInSampleRate || q.sampleRate == p.sampleRate
    ensures q.sampleRate == frame.audioInSampleRate <== Truthy(frame.audioInSampleRate)
    ensures q == p <== !Truthy(frame.audioInSampleRate)
  {
    Params(if Truthy(frame.audioInSampleRate) then frame.audioInSampleRate else p.sampleRate, p.channels)
  }

  /** One call of `deserialize` in state `p`: the new state and what the call did. */
  function Transition(p: Params, data: Payload): (r: (Params, Outcome))
    // binary data: an audio frame carrying the payload, tagged with the current state
    ensures data.Binary? ==> r == (p, Returned(Some(InputAudioRaw(data.data, p.sampleRate, p.channels))))
    // only a start message changes the state, and it is the only way to get a start frame
    ensures r.0 != p || (r.1.Returned? && r.1.frame.Some? && r.1.frame.value.Start?) ==> IsStartMessage(data)
    // a start message: absent keys keep the old value, and the start frame carries the new state
    ensures IsStartMessage(data) ==>
              var m := data.json.value.members;
              r.0 == Params(Get(m, SampleRateKey, p.sampleRate), Get(m, ChannelsKey, p.channels)) &&
              r.1 == Returned(Some(Start(r.0.sampleRate, r.0.channels)))
    // a decoded value that is not a dict makes `obj.get` raise, before any field is written
    ensures r.1 == RaisedAttributeError <==> data.Text? && data.json.Decoded? && !data.json.value.Object?
    ensures r.1 == RaisedAttributeError ==> r.0 == p
    // nothing returned: malformed JSON, a non-start object, or an unsupported payload kind
    ensures r.1 == Returned(None) <==>
              data.Unsupported? || data == Text(Malformed) ||
              (data.Text? && data.json.Decoded? && data.json.value.Object? && !IsStartMessage(data))
  {
    match data
    case Binary(bytes) => (p, Returned(Some(InputAudioRaw(bytes, p.sampleRate, p.channels))))
    case Text(Malformed) => (p, Returned(None))
    case Text(Decoded(Object(m))) =>
      if IsStartObject(m) then
        var q := Params(Get(m, SampleRateKey, p.sampleRate), Get(m, ChannelsKey, p.channels));
        (q, Returned(Some(Start(q.sampleRate, q.channels))))
      else
        (p, Returned(None))
    case Text(Decoded(_)) => (p, RaisedAttributeError)
    case Unsupported => (p, Returned(None))
  }

  /** The effect of a sequence of `deserialize` calls: the final state and every outcome. */
  datatype Trace = Trace(final: Params, outcomes: seq<Outcome>)

  function Run(p: Params, inputs: seq<Payload>): (t: Trace)
    ensures |t.outcomes| == |inputs|
    ensures t.final != p ==> exists i :: 0 <= i < |inputs| && IsStartMessage(inputs[i])
    decreases |inputs|
  {
    if inputs == [] then Trace(p, [])
    else
      var step := Transition(p, inputs[0]);
      var rest := Run(step.0, inputs[1..]);
      assert rest.final != step.0 ==> IsStartMessage(inputs[1..][0]) || exists i :: 1 <= i < |inputs| && IsStartMessage(inputs[i]);
      Trace(rest.final, [step.1] + rest.outcomes)
  }

  /** Running `a + b` is running `a`, then running `b` from where `a` left off. */
  lemma {:induction false} RunAppend(p: Params, a: seq<Payload>, b: seq<Payload>)
    ensures Run(p, a + b).final == Run(Run(p, a).final, b).final
    ensures Run(p, a + b).outcomes == Run(p, a).outcomes + Run(Run(p, a).final, b).outcomes
    decreases |a|
  {
    if a == [] {
      assert a + b == b;
    } else {
      assert (a + b)[0] == a[0];
      assert (a + b)[1..] == a[1..] + b;
      RunAppend(Transition(p, a[0]).0, a[1..], b);
    }
  }

  /** Without start messages the parameters never change, every binary payload is tagged
      with them, and no start frame is produced. */
  lemma {:induction false} NoStartKeepsParams(p: Params, inputs: seq<Payload>)
    requires forall i :: 0 <= i < |inputs| ==> !IsStartMessage(inputs[i])
    ensures Run(p, inputs).final == p
    ensures forall i :: 0 <= i < |inputs| && inputs[i].Binary? ==>
              Run(p, inputs).outcomes[i] == Returned(Some(InputAudioRaw(inputs[i].data, p.sampleRate, p.channels)))
    ensures forall i :: 0 <= i < |inputs| ==>
              !(Run(p, inputs).outcomes[i].Returned? && Run(p, inputs).outcomes[i].frame.Some? &&
                Run(p, inputs).outcomes[i].frame.value.Start?)
    decreases |inputs|
  {
    if inputs != [] {
      NoStartKeepsParams(p, inputs[1..]);
      var t := Run(p, inputs);
      var rest := Run(p, inputs[1..]);
      assert t.outcomes == [Transition(p, inputs[0]).1] + rest.outcomes;
      forall i | 1 <= i < |inputs|
        ensures t.outcomes[i] == rest.outcomes[i - 1] && inputs[i] == inputs[1..][i - 1]
      {
      }
    }
  }

  /** After a start message, every binary payload up to the next start message is tagged
      with the values that message negotiated (or the kept ones, for an absent key). */
  lemma TaggedSinceLastStart(p: Params, before: seq<Payload>, m: map<string, Json>, after: seq<Payload>)
    requires IsStartObject(m)
    requires forall i :: 0 <= i < |after| ==> !IsStartMessage(after[i])
    ensures var q := Run(p, before).final;
            var rate := Get(m, SampleRateKey, q.sampleRate);
            var channels := Get(m, ChannelsKey, q.channels);
            var t := Run(p, before + [Text(Decoded(Object(m)))] + after);
            t.final == Params(rate, channels) &&
            t.outcomes[|before|] == Returned(Some(Start(rate, channels))) &&
            forall i :: 0 <= i < |after| && after[i].Binary? ==>
              t.outcomes[|before| + 1 + i] == Returned(Some(InputAudioRaw(after[i].data, rate, channels)))
  {
    var start := Text(Decoded(Object(m)));
    var q := Run(p, before).final;
    var r := Transition(q, start).0;
    RunAppend(p, before, [start]);
    RunAppend(p, before + [start], after);
    NoStartKeepsParams(r, after);
    assert Run(q, [start]).final == r;
    assert Run(q, [start]).outcomes == [Returned(Some(Start(r.sampleRate, r.channels)))];
  }

  /** A start message with 8000 Hz and one channel followed by a binary frame: the audio frame
      is interpreted at 8000 Hz, one channel, whatever the earlier parameters were. */
  lemma StartThenBinary(p: Params, audio: Bytes)
    ensures var start := Text(Decoded(Object(map[TypeKey := StartType, SampleRateKey := Int(8000), ChannelsKey := Int(1)])));
            Run(p, [start, Binary(audio)]).outcomes[1] == Returned(Some(InputAudioRaw(audio, Int(8000), Int(1))))
  {
    var m := map[TypeKey := StartType, SampleRateKey := Int(8000), ChannelsKey := Int(1)];
    assert IsStartObject(m);
    TaggedSinceLastStart(p, [], m, [Binary(audio)]);
    assert [] + [Text(Decoded(Object(m)))] + [Binary(audio)] == [Text(Decoded(Object(m))), Binary(audio)];
  }

  /** The raw-PCM wire format has no header in either direction: the bytes `serialize` puts
      on the wire for an audio frame are exactly the audio that `deserialize` would wrap, had
      they arrived as a binary payload. (The program never feeds its own output back; the
      lemma is about the format.) */
  lemma WireRoundTrip(p: Params, audio: Bytes, sampleRate: int, numChannels: int)
    ensures var wire := RawPcmSerializer.Serialize(AudioRaw(audio, sampleRate, numChannels));
            wire.Some? &&
            Transition(p, Binary(wire.value)) == (p, Returned(Some(InputAudioRaw(audio, p.sampleRate, p.channels))))
  {
  }

  class RawPcmSerializer {
    var sampleRate: Json
    var channels: Json

    /** The serializer's state as a value. */
    function Negotiated(): Params
      reads this
    {
      Params(sampleRate, channels)
    }

    /** `RawPCMSerializer(sample_rate=16000, channels=1)`. */
    constructor (sampleRate: Json := DefaultSampleRate, channels: Json := DefaultChannels)
      ensures Negotiated() == Params(sampleRate, channels)
    {
      this.sampleRate := sampleRate;
      this.channels := channels;
    }

    /** The `type` property. */
    static function Type(): SerializerType {
      BinaryFrames
    }

    /** `setup`: adopt the pipeline's input sample rate when it is truthy. */
    method Setup(frame: StartFrame)
      modifies this
      ensures Negotiated() == AfterSetup(old(Negotiated()), frame)
    {
      if Truthy(frame.audioInSampleRate) {
        sampleRate := frame.audioInSampleRate;
      }
    }

    /** `serialize`: audio frames go out as their raw bytes; nothing else is sent. */
    static function Serialize(frame: PipelineFrame): (wire: Option<Bytes>)
      ensures wire.Some? <==> frame.AudioRaw?
      ensures frame.AudioRaw? ==> wire.value == frame.audio
    {
      match frame
      case AudioRaw(audio, _, _) => Some(audio)
      case NonAudio(_) => None
    }

    /** `deserialize`: one step of the transition system, applied to the fields. */
    method Deserialize(data: Payload) returns (r: Outcome)
      modifies this
      ensures (Negotiated(), r) == Transition(old(Negotiated()), data)
    {
      match data {
        case Binary(bytes) =>
          r := Returned(Some(InputAudioRaw(bytes, sampleRate, channels)));
        case Text(json) =>
          match json {
            case Malformed =>
              r := Returned(None);
            case Decoded(value) =>
              if !value.Object? {
                r := RaisedAttributeError;
              } else if IsStartObject(value.members) {
                sampleRate := Get(value.members, SampleRateKey, sampleRate);
                channels := Get(value.members, ChannelsKey, channels);
                r := Returned(Some(Start(sampleRate, channels)));
              } else {
                r := Returned(None);
              }
          }
        case Unsupported =>
          r := Returned(None);
      }
    }
  }

  /** A fresh serializer starts at 16000 Hz, one channel. */
  method NewSerializerDefaults() returns (s: RawPcmSerializer)
    ensures s.Negotiated() == Params(Int(16000), Int(1))
  {
    s := new RawPcmSerializer();
  }
}
