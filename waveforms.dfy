/** What the builder sees of the waveform codec and what it reports through
    its callback: the errors with their exact messages, the opaque payloads
    handed to `WaveformData.create`, and the channel / bit-depth check applied
    to the waveform the codec creates. */
module Waveforms {
  import opened Wrappers
  import opened Digits

  /** Every error the callback can receive. */
  datatype Error =
    | OnlyOneSource                   // TypeError, init
    | MissingSource                   // init, no source given
    | DataUriNotObject                // TypeError, remote path
    | NoCompatibleDataUriFormat       // remote path, no usable format
    | WaveformDataNotObject           // local path
    | NoCompatibleWaveformDataFormat  // local path, neither payload usable
    | InvalidAudioContext             // TypeError, web-audio path
    | HttpStatus(status: nat)         // load rejected
    | XhrFailed                       // XHR error event
    | XhrAborted                      // XHR abort event
    | UnsupportedChannels             // neither mono nor stereo
    | UnsupportedBits                 // not 8-bit
    | Thrown(reason: string)          // exception raised by the codec

  /** The message texts the builder constructs its errors with. */
  const InitPrefix: string := "Peaks.init(): "
  const HttpStatusPrefix: string := "Unable to fetch remote data. HTTP status "
  const OnlyOneSourceText: string := InitPrefix + "You may only pass one source (webAudio, dataUri, or waveformData) to render waveform data."
  const MissingSourceText: string := InitPrefix + "You must pass an audioContext, or dataUri, or waveformData to render waveform data"
  const DataUriNotObjectText: string := InitPrefix + "The dataUri option must be an object"
  const NoCompatibleDataUriFormatText: string := InitPrefix + "Unable to determine a compatible dataUri format for this browser"
  const WaveformDataNotObjectText: string := InitPrefix + "The waveformData option must be an object"
  const NoCompatibleWaveformDataFormatText: string := InitPrefix + "Unable to determine a compatible waveformData format"
  const InvalidAudioContextText: string := InitPrefix + "The webAudio.audioContext option must be a valid AudioContext"
  const XhrFailedText: string := "XHR failed"
  const XhrAbortedText: string := "XHR aborted"
  const UnsupportedChannelsText: string := InitPrefix + "Only mono or stereo waveforms are currently supported"
  const UnsupportedBitsText: string := InitPrefix + "16-bit waveform data is not supported"

  /** The message text of each error; the status error is the fixed prefix
      followed by the status. */
  function Message(e: Error): (m: string)
    ensures e.HttpStatus? ==> |m| > |HttpStatusPrefix| && m[..|HttpStatusPrefix|] == HttpStatusPrefix
  {
    match e
    case OnlyOneSource => OnlyOneSourceText
    case MissingSource => MissingSourceText
    case DataUriNotObject => DataUriNotObjectText
    case NoCompatibleDataUriFormat => NoCompatibleDataUriFormatText
    case WaveformDataNotObject => WaveformDataNotObjectText
    case NoCompatibleWaveformDataFormat => NoCompatibleWaveformDataFormatText
    case InvalidAudioContext => InvalidAudioContextText
    case HttpStatus(status) =>
      var m := HttpStatusPrefix + Decimal(status);
      assert m[..|HttpStatusPrefix|] == HttpStatusPrefix;
      m
    case XhrFailed => XhrFailedText
    case XhrAborted => XhrAbortedText
    case UnsupportedChannels => UnsupportedChannelsText
    case UnsupportedBits => UnsupportedBitsText
    case Thrown(reason) => reason
  }

  /** The HTTP-status error carries the status: its message is the fixed
      prefix followed by the status in decimal, from which the status is
      read back. */
  lemma {:induction false} StatusInMessage(status: nat)
    ensures var m := Message(HttpStatus(status));
      |m| > |HttpStatusPrefix| && m[..|HttpStatusPrefix|] == HttpStatusPrefix &&
      IsDigits(m[|HttpStatusPrefix|..]) && Value(m[|HttpStatusPrefix|..]) == status
  {
    var m := Message(HttpStatus(status));
    assert m[|HttpStatusPrefix|..] == Decimal(status);
    ValueOfDecimal(status);
  }

  /** Apart from a codec exception, whose text is the codec's own, every error
      has its own message: no two kinds of failure read alike. */
  lemma MessagesDistinct(a: Error, b: Error)
    requires !a.Thrown? && !b.Thrown? && Message(a) == Message(b)
    ensures a == b
  {
    if a.HttpStatus? && b.HttpStatus? {
      StatusMessagesDistinct(a.status, b.status);
    } else if a.HttpStatus? || b.HttpStatus? {
      var fixed := if a.HttpStatus? then b else a;
      FixedMessageInitial(fixed);
    } else {
      FixedMessageLengths();
    }
  }

  /** The fixed messages all have different lengths. */
  lemma FixedMessageLengths()
    ensures |OnlyOneSourceText| == 104
    ensures |MissingSourceText| == 96
    ensures |DataUriNotObjectText| == 50
    ensures |NoCompatibleDataUriFormatText| == 78
    ensures |WaveformDataNotObjectText| == 55
    ensures |NoCompatibleWaveformDataFormatText| == 66
    ensures |InvalidAudioContextText| == 75
    ensures |XhrFailedText| == 10
    ensures |XhrAbortedText| == 11
    ensures |UnsupportedChannelsText| == 67
    ensures |UnsupportedBitsText| == 51
  {
  }

  /** No fixed message starts like the status message. */
  lemma FixedMessageInitial(e: Error)
    requires !e.Thrown? && !e.HttpStatus?
    ensures |Message(e)| > 0 && Message(e)[0] != 'U'
  {
    match e
    case XhrFailed => assert XhrFailedText[0] == 'X';
    case XhrAborted => assert XhrAbortedText[0] == 'X';
    case OnlyOneSource | MissingSource | DataUriNotObject | NoCompatibleDataUriFormat | WaveformDataNotObject
      | NoCompatibleWaveformDataFormat | InvalidAudioContext | UnsupportedChannels | UnsupportedBits =>
      assert InitPrefix[0] == 'P';
    case HttpStatus(_) => assert false;
    case Thrown(_) => assert false;
  }

  /** Two rejected loads report the same message only for the same status. */
  lemma StatusMessagesDistinct(s: nat, t: nat)
    requires Message(HttpStatus(s)) == Message(HttpStatus(t))
    ensures s == t
  {
    StatusInMessage(s);
    StatusInMessage(t);
  }

  /** Opaque JavaScript values the builder only passes on. */
  datatype JsonValue = JsonValue(id: nat)
  datatype ByteBuffer = ByteBuffer(id: nat)

  /** What `WaveformData.create` is given: a JSON object or an ArrayBuffer. */
  datatype Payload = JsonPayload(json: JsonValue) | BinaryPayload(buffer: ByteBuffer)

  /** A created WaveformData object, of which the builder reads only the
      channel count and the sample bit depth. */
  datatype Waveform = Waveform(id: nat, channels: int, bits: int)

  /** The outcome of `WaveformData.create`: a waveform, or an exception. */
  datatype CodecResult = Created(waveform: Waveform) | Threw(reason: string)

  predicate IsMonoOrStereo(w: Waveform) {
    w.channels == 1 || w.channels == 2
  }

  /** The check both precomputed-data paths apply to a created waveform: the
      channel count first, then the bit depth; a waveform passing both is
      handed on as it is. */
  function CheckWaveform(w: Waveform): (r: Result<Waveform, Error>)
    ensures r.Success? <==> IsMonoOrStereo(w) && w.bits == 8
    ensures r.Success? ==> r.value == w
    ensures r == Failure(UnsupportedChannels) <==> !IsMonoOrStereo(w)
    ensures r == Failure(UnsupportedBits) <==> IsMonoOrStereo(w) && w.bits != 8
  {
    if w.channels != 1 && w.channels != 2 then Failure(UnsupportedChannels)
    else if w.bits != 8 then Failure(UnsupportedBits)
    else Success(w)
  }
}
