/** Choosing what to load: the response format of a remote request
    (`_getRemoteWaveformData`) and the payload of locally supplied data
    (`_buildWaveformFromLocalData`). */
module Selection {
  import opened Wrappers
  import opened Waveforms

  /** A configuration value as JavaScript tests it: falsy, truthy but rejected
      by `isObject`, or an object. */
  datatype Slot<T> = Unset | NotAnObject | Given(value: T)

  /** The two response formats, named after their global constructor
      (`window.ArrayBuffer`, `window.JSON`). */
  datatype Format = ArrayBufferFormat | JsonFormat

  /** The XHR `responseType` of a format: the connector name in lower case. */
  function ResponseType(f: Format): string {
    match f
    case ArrayBufferFormat => "arraybuffer"
    case JsonFormat => "json"
  }

  /** The order in which the formats are tried. */
  const Connectors: seq<Format> := [ArrayBufferFormat, JsonFormat]

  /** `options.dataUri`; a missing or falsy URL is the empty string. */
  datatype RemoteUris = RemoteUris(arraybuffer: string, json: string)

  /** `dataUri[requestType]`: the URL stored under the format's response-type name. */
  function UrlFor(uris: RemoteUris, f: Format): (url: string)
    ensures url == if ResponseType(f) == "arraybuffer" then uris.arraybuffer else uris.json
  {
    match f
    case ArrayBufferFormat => uris.arraybuffer
    case JsonFormat => uris.json
  }

  /** The browser has the format's constructor and the format's URL is set. */
  predicate Usable(f: Format, uris: RemoteUris, capabilities: set<Format>) {
    f in capabilities && UrlFor(uris, f) != ""
  }

  /** The first usable format of fs. */
  function FirstUsable(fs: seq<Format>, uris: RemoteUris, capabilities: set<Format>): (r: Option<Format>)
    ensures r.Some? ==> r.value in fs && Usable(r.value, uris, capabilities)
  {
    if fs == [] then None
    else if Usable(fs[0], uris, capabilities) then Some(fs[0])
    else FirstUsable(fs[1..], uris, capabilities)
  }

  /** FirstUsable picks a usable format before which none is usable, and finds
      nothing only when no format is usable. */
  lemma {:induction false} FirstUsableIsFirst(fs: seq<Format>, uris: RemoteUris, capabilities: set<Format>)
    ensures FirstUsable(fs, uris, capabilities).Some? ==>
      exists k :: 0 <= k < |fs| && fs[k] == FirstUsable(fs, uris, capabilities).value &&
        Usable(fs[k], uris, capabilities) &&
        forall j :: 0 <= j < k ==> !Usable(fs[j], uris, capabilities)
    ensures FirstUsable(fs, uris, capabilities).None? <==>
      forall k :: 0 <= k < |fs| ==> !Usable(fs[k], uris, capabilities)
  {
    if fs != [] {
      FirstUsableIsFirst(fs[1..], uris, capabilities);
      if !Usable(fs[0], uris, capabilities) {
        if FirstUsable(fs[1..], uris, capabilities).Some? {
          var k :| 0 <= k < |fs[1..]| && fs[1..][k] == FirstUsable(fs[1..], uris, capabilities).value &&
            Usable(fs[1..][k], uris, capabilities) &&
            forall j :: 0 <= j < k ==> !Usable(fs[1..][j], uris, capabilities);
          assert fs[k + 1] == fs[1..][k];
          forall j | 0 <= j < k + 1 ensures !Usable(fs[j], uris, capabilities) {
            if j > 0 { assert fs[j] == fs[1..][j - 1]; }
          }
        } else {
          forall k | 0 <= k < |fs| ensures !Usable(fs[k], uris, capabilities) {
            if k > 0 { assert fs[k] == fs[1..][k - 1]; }
          }
        }
      }
    }
  }

  /** Extending the tried prefix by one format. */
  lemma {:induction false} FirstUsableSnoc(fs: seq<Format>, f: Format, uris: RemoteUris, capabilities: set<Format>)
    ensures FirstUsable(fs + [f], uris, capabilities) ==
      if FirstUsable(fs, uris, capabilities).Some? then FirstUsable(fs, uris, capabilities)
      else if Usable(f, uris, capabilities) then Some(f) else None
  {
    if fs == [] {
      assert fs + [f] == [f];
      assert [f][1..] == [];
    } else {
      assert (fs + [f])[1..] == fs[1..] + [f];
      FirstUsableSnoc(fs[1..], f, uris, capabilities);
    }
  }

  /** The `.some` loop over the connectors: for each format whose constructor
      exists it records the format and its URL, and stops at the first URL
      that is set. The URL it ends with is set exactly when some format is
      usable, and then the format is the first usable one. */
  method SelectRemoteFormat(uris: RemoteUris, capabilities: set<Format>) returns (requestType: Option<Format>, url: string)
    ensures url != "" <==> FirstUsable(Connectors, uris, capabilities).Some?
    ensures url != "" ==> requestType == FirstUsable(Connectors, uris, capabilities) && url == UrlFor(uris, requestType.value)
  {
    requestType, url := None, "";
    var i := 0;
    var stop := false;
    while i < |Connectors| && !stop
      invariant 0 <= i <= |Connectors|
      invariant stop <==> url != ""
      invariant !stop ==> FirstUsable(Connectors[..i], uris, capabilities) == None
      invariant stop ==>
        && 0 < i && requestType == Some(Connectors[i - 1]) && url == UrlFor(uris, Connectors[i - 1])
        && FirstUsable(Connectors[..i], uris, capabilities) == requestType
    {
      var connector := Connectors[i];
      FirstUsableSnoc(Connectors[..i], connector, uris, capabilities);
      assert Connectors[..i + 1] == Connectors[..i] + [connector];
      if connector in capabilities {
        requestType := Some(connector);
        url := UrlFor(uris, connector);
        stop := url != "";
      }
      i := i + 1;
    }
    if stop {
      FirstUsableSnoc(Connectors[..i], Connectors[i - 1], uris, capabilities);
      if i < |Connectors| {
        assert Connectors == Connectors[..i] + [Connectors[i]];
        FirstUsableSnoc(Connectors[..i], Connectors[i], uris, capabilities);
      }
    }
    assert Connectors[..|Connectors|] == Connectors;
  }

  /** The binary format wins over JSON whenever both are usable; JSON is used
      only when the binary one is not. */
  lemma RemoteFormatPriority(uris: RemoteUris, capabilities: set<Format>)
    ensures FirstUsable(Connectors, uris, capabilities) == Some(ArrayBufferFormat) <==>
      Usable(ArrayBufferFormat, uris, capabilities)
    ensures FirstUsable(Connectors, uris, capabilities) == Some(JsonFormat) <==>
      !Usable(ArrayBufferFormat, uris, capabilities) && Usable(JsonFormat, uris, capabilities)
  {
    assert Connectors[0] == ArrayBufferFormat && Connectors[1..] == [JsonFormat];
    assert [JsonFormat][1..] == [];
    assert FirstUsable([JsonFormat], uris, capabilities) ==
      if Usable(JsonFormat, uris, capabilities) then Some(JsonFormat) else None;
  }

  /** The request `_getRemoteWaveformData` makes, or the error it reports
      without making one: the dataUri must be an object and some format
      must be usable. */
  function RemoteRequest(dataUri: Slot<RemoteUris>, capabilities: set<Format>): (r: Result<(Format, string), Error>)
    ensures r.Success? <==> dataUri.Given? && FirstUsable(Connectors, dataUri.value, capabilities).Some?
    ensures r.Success? ==> r.value.0 in capabilities && r.value.1 == UrlFor(dataUri.value, r.value.0) && r.value.1 != ""
    ensures r.Success? ==> FirstUsable(Connectors, dataUri.value, capabilities) == Some(r.value.0)
    ensures !dataUri.Given? ==> r == Failure(DataUriNotObject)
    ensures dataUri.Given? && r.Failure? ==> r.error == NoCompatibleDataUriFormat
  {
    match dataUri
    case Given(uris) =>
      FirstUsableIsFirst(Connectors, uris, capabilities);
      (match FirstUsable(Connectors, uris, capabilities)
       case None => Failure(NoCompatibleDataUriFormat)
       case Some(f) => Success((f, UrlFor(uris, f))))
    case _ => Failure(DataUriNotObject)
  }

  /** `options.waveformData`: each field is present only when it passes its
      test (`isObject` for json, `isArrayBuffer` for arraybuffer). */
  datatype LocalData = LocalData(json: Option<JsonValue>, arraybuffer: Option<ByteBuffer>)

  /** The payload chosen from local data: JSON before ArrayBuffer. */
  function SelectPayload(waveformData: Slot<LocalData>): (r: Result<Payload, Error>)
    ensures !waveformData.Given? ==> r == Failure(WaveformDataNotObject)
    ensures waveformData.Given? ==>
      (r.Success? <==> waveformData.value.json.Some? || waveformData.value.arraybuffer.Some?)
    ensures waveformData.Given? && r.Failure? ==> r.error == NoCompatibleWaveformDataFormat
    ensures r.Success? && r.value.JsonPayload? ==> waveformData.Given? && waveformData.value.json == Some(r.value.json)
    ensures r.Success? && r.value.BinaryPayload? ==>
      waveformData.Given? && waveformData.value.json.None? && waveformData.value.arraybuffer == Some(r.value.buffer)
  {
    match waveformData
    case Given(data) =>
      if data.json.Some? then Success(JsonPayload(data.json.value))
      else if data.arraybuffer.Some? then Success(BinaryPayload(data.arraybuffer.value))
      else Failure(NoCompatibleWaveformDataFormat)
    case _ => Failure(WaveformDataNotObject)
  }

  /** `_buildWaveformFromLocalData`: the result the callback receives. The
      codec is consulted only for a selected payload, an exception it raises
      is caught and passed on, and a created waveform must pass the channel
      and bit-depth check. */
  function BuildFromLocal(waveformData: Slot<LocalData>, create: Payload -> CodecResult): (r: Result<Waveform, Error>)
    ensures SelectPayload(waveformData).Failure? ==> r == Failure(SelectPayload(waveformData).error)
    ensures SelectPayload(waveformData).Success? && create(SelectPayload(waveformData).value).Threw? ==>
      r == Failure(Thrown(create(SelectPayload(waveformData).value).reason))
    ensures SelectPayload(waveformData).Success? && create(SelectPayload(waveformData).value).Created? ==>
      r == CheckWaveform(create(SelectPayload(waveformData).value).waveform)
    ensures r.Success? ==>
      SelectPayload(waveformData).Success? &&
      create(SelectPayload(waveformData).value) == Created(r.value) &&
      IsMonoOrStereo(r.value) && r.value.bits == 8
  {
    match SelectPayload(waveformData)
    case Failure(e) => Failure(e)
    case Success(payload) =>
      match create(payload)
      case Threw(reason) => Failure(Thrown(reason))
      case Created(w) => CheckWaveform(w)
  }
}
