/** The WaveformBuilder: source routing in `init`, the three strategies, the
    XHR event handlers, and the single in-flight request slot `_xhr` that
    `abort` acts on. */
module Builder {
  import opened Wrappers
  import opened Waveforms
  import opened Selection
  import opened Loading

  /** An `audioContext` option value; `isAudioContext` is the outcome of the
      `instanceof (window.AudioContext || window.webkitAudioContext)` test. */
  datatype ContextValue = ContextValue(id: nat, isAudioContext: bool)

  /** An already decoded Web Audio buffer, passed through untouched. */
  datatype AudioBuffer = AudioBuffer(id: nat)

  /** `zoomLevels[0]`, which is `undefined` for an empty list. */
  function FirstZoomLevel(zoomLevels: seq<int>): Option<int> {
    if |zoomLevels| > 0 then Some(zoomLevels[0]) else None
  }

  predicate IsValidContext(c: Option<ContextValue>) {
    c.Some? && c.value.isAudioContext
  }

  /** Which of the sources the options name, as JavaScript truthiness sees them. */
  datatype Sources = Sources(dataUri: bool, waveformData: bool, webAudio: bool, audioContext: bool, audioBuffer: bool)

  /** How many of the three mutually exclusive sources are named; the
      deprecated `audioContext` counts as the web-audio source. */
  function SourceCount(s: Sources): nat {
    (if s.dataUri then 1 else 0) + (if s.waveformData then 1 else 0) +
    (if s.webAudio || s.audioContext then 1 else 0)
  }

  datatype Path = RemotePath | LocalPath | AudioBufferPath | WebAudioPath

  datatype Routing = Reject(error: Error) | Dispatch(path: Path)

  /** The decision `init` takes: two or more sources are refused, none is
      reported as missing, and exactly one selects its strategy. A deprecated
      `audioContext` replaces the webAudio object, so it always takes the
      fetch-and-decode path; otherwise an `audioBuffer` selects the direct path. */
  function Route(s: Sources): (r: Routing)
    ensures r == Reject(OnlyOneSource) <==> SourceCount(s) >= 2
    ensures r == Reject(MissingSource) <==> SourceCount(s) == 0
    ensures r.Reject? ==> r.error == OnlyOneSource || r.error == MissingSource
    ensures r == Dispatch(RemotePath) <==> SourceCount(s) == 1 && s.dataUri
    ensures r == Dispatch(LocalPath) <==> SourceCount(s) == 1 && s.waveformData
    ensures r == Dispatch(AudioBufferPath) <==>
      SourceCount(s) == 1 && s.webAudio && !s.audioContext && s.audioBuffer
    ensures r == Dispatch(WebAudioPath) <==>
      SourceCount(s) == 1 && (s.audioContext || (s.webAudio && !s.audioBuffer))
  {
    var webAudio := s.webAudio || s.audioContext;
    if (s.dataUri && webAudio) || (s.waveformData && webAudio) || (s.dataUri && s.waveformData) then
      Reject(OnlyOneSource)
    else if s.dataUri then Dispatch(RemotePath)
    else if s.waveformData then Dispatch(LocalPath)
    else if webAudio then
      (if !s.audioContext && s.audioBuffer then Dispatch(AudioBufferPath) else Dispatch(WebAudioPath))
    else Reject(MissingSource)
  }

  /** `options.webAudio`, an object the caller owns and the builder updates. */
  class WebAudioOptions {
    var audioContext: Option<ContextValue>
    var audioBuffer: Option<AudioBuffer>
    var scale: Option<int>
    var multiChannel: bool

    constructor (audioContext: Option<ContextValue>, audioBuffer: Option<AudioBuffer>, scale: Option<int>, multiChannel: bool)
      ensures this.audioContext == audioContext && this.audioBuffer == audioBuffer
      ensures this.scale == scale && this.multiChannel == multiChannel
    {
      this.audioContext, this.audioBuffer := audioContext, audioBuffer;
      this.scale, this.multiChannel := scale, multiChannel;
    }

    /** `{ audioContext: options.audioContext }`, built from the deprecated option. */
    constructor FromContext(context: ContextValue)
      ensures audioContext == Some(context) && audioBuffer == None && scale == None && !multiChannel
    {
      audioContext, audioBuffer, scale, multiChannel := Some(context), None, None, false;
    }

    /** Forces the decode scale to the first zoom level, changing nothing else. */
    method NormaliseScale(zoomLevels: seq<int>)
      modifies this`scale
      ensures scale == FirstZoomLevel(zoomLevels)
      ensures audioContext == old(audioContext) && audioBuffer == old(audioBuffer)
      ensures multiChannel == old(multiChannel)
    {
      if scale != FirstZoomLevel(zoomLevels) {
        scale := FirstZoomLevel(zoomLevels);
      }
    }
  }

  /** The options of `init`. Only `webAudio` is ever reassigned. */
  class InitOptions {
    const dataUri: Slot<RemoteUris>
    const waveformData: Slot<LocalData>
    var webAudio: WebAudioOptions?
    const audioContext: Option<ContextValue>
    const withCredentials: bool
    const zoomLevels: seq<int>

    constructor (dataUri: Slot<RemoteUris>, waveformData: Slot<LocalData>, webAudio: WebAudioOptions?,
                 audioContext: Option<ContextValue>, withCredentials: bool, zoomLevels: seq<int>)
      ensures this.dataUri == dataUri && this.waveformData == waveformData && this.webAudio == webAudio
      ensures this.audioContext == audioContext && this.withCredentials == withCredentials
      ensures this.zoomLevels == zoomLevels
    {
      this.dataUri, this.waveformData, this.webAudio := dataUri, waveformData, webAudio;
      this.audioContext, this.withCredentials, this.zoomLevels := audioContext, withCredentials, zoomLevels;
    }

    /** The truthiness tests `init` makes; an audioBuffer counts only on a
        webAudio object. */
    function GivenSources(): (s: Sources)
      reads this, webAudio
      ensures s.audioBuffer ==> s.webAudio
      ensures s.webAudio <==> webAudio != null
      ensures s.dataUri <==> !dataUri.Unset?
      ensures s.waveformData <==> !waveformData.Unset?
      ensures s.audioContext <==> audioContext.Some?
    {
      Sources(dataUri != Unset, waveformData != Unset, webAudio != null, audioContext.Some?,
              webAudio != null && webAudio.audioBuffer.Some?)
    }
  }

  /** What a request was made for; the handlers of each kind differ. */
  datatype Purpose = WaveformFetch | AudioFetch(webAudio: WebAudioOptions)

  /** An XMLHttpRequest opened with a URL, a response type and the
      credentials flag. The model records the calls made on it. */
  class Request {
    const url: string
    const responseType: Format
    const withCredentials: bool
    const purpose: Purpose
    var sent: bool
    var abortCalls: nat

    constructor (url: string, responseType: Format, withCredentials: bool, purpose: Purpose)
      ensures this.url == url && this.responseType == responseType
      ensures this.withCredentials == withCredentials && this.purpose == purpose
      ensures !sent && abortCalls == 0
    {
      this.url, this.responseType := url, responseType;
      this.withCredentials, this.purpose := withCredentials, purpose;
      sent, abortCalls := false, 0;
    }

    /** `xhr.send()` */
    method Send()
      modifies this`sent
      ensures sent
    {
      sent := true;
    }

    /** `xhr.abort()`; the abort event it later fires is an input of its own. */
    method Abort()
      modifies this`abortCalls
      ensures abortCalls == old(abortCalls) + 1
    {
      abortCalls := abortCalls + 1;
    }

    /** Freshly opened with these settings, sent, and never aborted. */
    predicate IsSent(url: string, responseType: Format, withCredentials: bool, purpose: Purpose)
      reads this
    {
      this.url == url && this.responseType == responseType &&
      this.withCredentials == withCredentials && this.purpose == purpose &&
      sent && abortCalls == 0
    }
  }

  /** The options handed to `WaveformData.createFromAudio` on the direct path. */
  datatype BufferDecodeOptions = BufferDecodeOptions(
    audioBuffer: Option<AudioBuffer>, splitChannels: bool, scale: Option<int>, disableWorker: bool)

  /** The options handed to `WaveformData.createFromAudio` after fetching audio. */
  datatype BytesDecodeOptions = BytesDecodeOptions(
    audioContext: Option<ContextValue>, arrayBuffer: Payload, splitChannels: bool, scale: Option<int>)

  /** What one step of the builder does that its caller can observe. */
  datatype Effect =
    | Nothing                                   // returns with no callback and starts nothing
    | Callback(result: Result<Waveform, Error>) // callback(error) or callback(null, waveform)
    | Sent(request: Request)                    // a request was created, stored in _xhr and sent
    | AwaitCanPlay(webAudio: WebAudioOptions, withCredentials: bool)
                                                // deferred until the 'player.canplay' event
    | DecodeFromBuffer(bufferOptions: BufferDecodeOptions)
                                                // createFromAudio(options, callback)
    | DecodeFromBytes(bytesOptions: BytesDecodeOptions)
                                                // createFromAudio(options, callback)
    | Raised(reason: string)                    // a codec exception leaves the load handler

  /** What an accepted remote-data load does with the codec's outcome: the
      waveform check on success; an exception is not caught on this path. */
  function RemoteLoadEffect(c: CodecResult): (effect: Effect)
    ensures effect.Callback? <==> c.Created?
    ensures c.Created? ==> effect.result == CheckWaveform(c.waveform)
    ensures c.Threw? ==> effect == Raised(c.reason)
  {
    match c
    case Created(w) => Callback(CheckWaveform(w))
    case Threw(reason) => Raised(reason)
  }

  class WaveformBuilder {
    /** `_xhr`: the request in flight, if any. */
    var xhr: Option<Request>

    constructor ()
      ensures xhr == None
    {
      xhr := None;
    }

    /** `_getRemoteWaveformData` */
    method GetRemoteWaveformData(dataUri: Slot<RemoteUris>, withCredentials: bool, capabilities: set<Format>)
      returns (effect: Effect)
      modifies this`xhr
      ensures RemoteRequest(dataUri, capabilities).Failure? ==>
        effect == Callback(Failure(RemoteRequest(dataUri, capabilities).error)) && xhr == old(xhr)
      ensures RemoteRequest(dataUri, capabilities).Success? ==>
        && effect.Sent? && xhr == Some(effect.request) && fresh(effect.request)
        && effect.request.IsSent(RemoteRequest(dataUri, capabilities).value.1,
             RemoteRequest(dataUri, capabilities).value.0, withCredentials, WaveformFetch)
    {
      if !dataUri.Given? {
        return Callback(Failure(DataUriNotObject));
      }
      var requestType, url := SelectRemoteFormat(dataUri.value, capabilities);
      if url == "" {
        return Callback(Failure(NoCompatibleDataUriFormat));
      }
      var request := new Request(url, requestType.value, withCredentials, WaveformFetch);
      xhr := Some(request);
      request.Send();
      effect := Sent(request);
    }

    /** `_buildWaveformDataFromAudioBuffer` */
    static method BuildFromAudioBuffer(webAudio: WebAudioOptions, zoomLevels: seq<int>) returns (effect: Effect)
      modifies webAudio`scale
      ensures webAudio.scale == FirstZoomLevel(zoomLevels)
      ensures effect == DecodeFromBuffer(BufferDecodeOptions(
        webAudio.audioBuffer, webAudio.multiChannel, FirstZoomLevel(zoomLevels), true))
    {
      webAudio.NormaliseScale(zoomLevels);
      effect := DecodeFromBuffer(BufferDecodeOptions(webAudio.audioBuffer, webAudio.multiChannel, webAudio.scale, true));
    }

    /** `_buildWaveformDataUsingWebAudio`; mediaSourceUrl is the media
        element's `currentSrc` at the time of the call. */
    method BuildUsingWebAudio(webAudio: WebAudioOptions, zoomLevels: seq<int>, withCredentials: bool,
                              mediaSourceUrl: string)
      returns (effect: Effect)
      modifies this`xhr, webAudio`scale
      ensures !IsValidContext(webAudio.audioContext) ==>
        effect == Callback(Failure(InvalidAudioContext)) && xhr == old(xhr) && webAudio.scale == old(webAudio.scale)
      ensures IsValidContext(webAudio.audioContext) ==> webAudio.scale == FirstZoomLevel(zoomLevels)
      ensures IsValidContext(webAudio.audioContext) && mediaSourceUrl == "" ==>
        effect == AwaitCanPlay(webAudio, withCredentials) && xhr == old(xhr)
      ensures IsValidContext(webAudio.audioContext) && mediaSourceUrl != "" ==>
        && effect.Sent? && xhr == Some(effect.request) && fresh(effect.request)
        && effect.request.IsSent(mediaSourceUrl, ArrayBufferFormat, withCredentials, AudioFetch(webAudio))
    {
      if !IsValidContext(webAudio.audioContext) {
        return Callback(Failure(InvalidAudioContext));
      }
      webAudio.NormaliseScale(zoomLevels);
      if mediaSourceUrl != "" {
        effect := RequestAudio(mediaSourceUrl, webAudio, withCredentials);
      } else {
        effect := AwaitCanPlay(webAudio, withCredentials);
      }
    }

    /** `_requestAudioAndBuildWaveformData`; also what the deferred
        'player.canplay' listener calls, with the `currentSrc` of that time. */
    method RequestAudio(url: string, webAudio: WebAudioOptions, withCredentials: bool) returns (effect: Effect)
      modifies this`xhr
      ensures url == "" ==> effect == Nothing && xhr == old(xhr)
      ensures url != "" ==>
        && effect.Sent? && xhr == Some(effect.request) && fresh(effect.request)
        && effect.request.IsSent(url, ArrayBufferFormat, withCredentials, AudioFetch(webAudio))
    {
      if url == "" {
        return Nothing;
      }
      var request := new Request(url, ArrayBufferFormat, withCredentials, AudioFetch(webAudio));
      xhr := Some(request);
      request.Send();
      effect := Sent(request);
    }

    /** The `onload` handler of request, for the load event e. The in-flight
        slot is cleared only by an accepted load, whichever request is in it. */
    method OnLoad(request: Request, e: LoadEvent, create: Payload -> CodecResult) returns (effect: Effect)
      modifies this`xhr
      ensures Classify(e) == Pending ==> effect == Nothing && xhr == old(xhr)
      ensures Classify(e).Rejected? ==> effect == Callback(Failure(HttpStatus(e.status))) && xhr == old(xhr)
      ensures Classify(e) == Accepted ==> xhr == None
      ensures Classify(e) == Accepted && request.purpose.WaveformFetch? ==>
        effect == RemoteLoadEffect(create(e.response))
      ensures Classify(e) == Accepted && request.purpose.AudioFetch? ==>
        var w := request.purpose.webAudio;
        effect == DecodeFromBytes(BytesDecodeOptions(w.audioContext, e.response, w.multiChannel, w.scale))
    {
      var verdict := Classify(e);
      if verdict == Pending {
        return Nothing;
      }
      if verdict.Rejected? {
        return Callback(Failure(HttpStatus(verdict.status)));
      }
      xhr := None;
      match request.purpose
      case WaveformFetch =>
        effect := RemoteLoadEffect(create(e.response));
      case AudioFetch(w) =>
        effect := DecodeFromBytes(BytesDecodeOptions(w.audioContext, e.response, w.multiChannel, w.scale));
    }

    /** The `onerror` handler of either request kind; `_xhr` stays as it is. */
    method OnError() returns (effect: Effect)
      ensures effect == Callback(Failure(XhrFailed))
    {
      effect := Callback(Failure(XhrFailed));
    }

    /** The `abort` listener of either request kind; `_xhr` stays as it is. */
    method OnAbort() returns (effect: Effect)
      ensures effect == Callback(Failure(XhrAborted))
    {
      effect := Callback(Failure(XhrAborted));
    }

    /** `abort`: aborts the request in the slot, if there is one. */
    method Abort()
      modifies if xhr.Some? then {xhr.value} else {}
      ensures xhr.Some? ==>
        xhr.value.abortCalls == old(xhr.value.abortCalls) + 1 && xhr.value.sent == old(xhr.value.sent)
    {
      if xhr.Some? {
        xhr.value.Abort();
      }
    }

    /** `init`: refuses conflicting sources, rewrites the deprecated
        `audioContext` option into a webAudio object, and dispatches to one
        strategy. capabilities are the response formats whose constructor the
        browser has; mediaSourceUrl is the media element's `currentSrc`. */
    method Init(options: InitOptions, capabilities: set<Format>, mediaSourceUrl: string,
                create: Payload -> CodecResult)
      returns (effect: Effect)
      modifies this`xhr, options`webAudio, options.webAudio
      ensures old(options.webAudio) != null ==>
        && old(options.webAudio).audioContext == old(options.webAudio.audioContext)
        && old(options.webAudio).audioBuffer == old(options.webAudio.audioBuffer)
        && old(options.webAudio).multiChannel == old(options.webAudio.multiChannel)
      ensures old(options.webAudio) != null && options.audioContext.Some? ==>
        old(options.webAudio).scale == old(options.webAudio.scale)
      ensures Route(old(options.GivenSources())).Reject? ==>
        && effect == Callback(Failure(Route(old(options.GivenSources())).error))
        && xhr == old(xhr) && options.webAudio == old(options.webAudio)
        && (options.webAudio != null ==> unchanged(options.webAudio))
      ensures Route(old(options.GivenSources())).Dispatch? ==>
        if options.audioContext.Some? then
          && fresh(options.webAudio)
          && options.webAudio.audioContext == options.audioContext
          && options.webAudio.audioBuffer == None && !options.webAudio.multiChannel
        else options.webAudio == old(options.webAudio)
      ensures Route(old(options.GivenSources())) == Dispatch(RemotePath) ==>
        var request := RemoteRequest(options.dataUri, capabilities);
        && (request.Failure? ==> effect == Callback(Failure(request.error)) && xhr == old(xhr))
        && (request.Success? ==>
              && effect.Sent? && xhr == Some(effect.request) && fresh(effect.request)
              && effect.request.IsSent(request.value.1, request.value.0, options.withCredentials, WaveformFetch))
      ensures Route(old(options.GivenSources())) == Dispatch(LocalPath) ==>
        effect == Callback(BuildFromLocal(options.waveformData, create)) && xhr == old(xhr)
      ensures Route(old(options.GivenSources())) == Dispatch(AudioBufferPath) ==>
        && options.webAudio != null
        && options.webAudio.scale == FirstZoomLevel(options.zoomLevels)
        && effect == DecodeFromBuffer(BufferDecodeOptions(options.webAudio.audioBuffer,
             options.webAudio.multiChannel, FirstZoomLevel(options.zoomLevels), true))
        && xhr == old(xhr)
      ensures Route(old(options.GivenSources())) == Dispatch(WebAudioPath) ==>
        && options.webAudio != null
        && (!IsValidContext(options.webAudio.audioContext) ==>
              && effect == Callback(Failure(InvalidAudioContext)) && xhr == old(xhr)
              && options.webAudio.scale == (if options.audioContext.Some? then None else old(options.webAudio.scale)))
        && (IsValidContext(options.webAudio.audioContext) ==>
              options.webAudio.scale == FirstZoomLevel(options.zoomLevels))
        && (IsValidContext(options.webAudio.audioContext) && mediaSourceUrl == "" ==>
              effect == AwaitCanPlay(options.webAudio, options.withCredentials) && xhr == old(xhr))
        && (IsValidContext(options.webAudio.audioContext) && mediaSourceUrl != "" ==>
              && effect.Sent? && xhr == Some(effect.request) && fresh(effect.request)
              && effect.request.IsSent(mediaSourceUrl, ArrayBufferFormat, options.withCredentials,
                   AudioFetch(options.webAudio)))
    {
      if (options.dataUri != Unset && (options.webAudio != null || options.audioContext.Some?)) ||
         (options.waveformData != Unset && (options.webAudio != null || options.audioContext.Some?)) ||
         (options.dataUri != Unset && options.waveformData != Unset) {
        return Callback(Failure(OnlyOneSource));
      }

      if options.audioContext.Some? {
        options.webAudio := new WebAudioOptions.FromContext(options.audioContext.value);
      }

      if options.dataUri != Unset {
        effect := GetRemoteWaveformData(options.dataUri, options.withCredentials, capabilities);
      } else if options.waveformData != Unset {
        effect := Callback(BuildFromLocal(options.waveformData, create));
      } else if options.webAudio != null {
        if options.webAudio.audioBuffer.Some? {
          effect := BuildFromAudioBuffer(options.webAudio, options.zoomLevels);
        } else {
          effect := BuildUsingWebAudio(options.webAudio, options.zoomLevels, options.withCredentials, mediaSourceUrl);
        }
      } else {
        effect := Callback(Failure(MissingSource));
      }
    }
  }

  /** A client of the builder: after a load rejected with status 404 the
      request is still in the slot, so a later `abort` still reaches it;
      only an accepted load, here on a second request, empties the slot. */
  method RejectedLoadKeepsRequest(uris: RemoteUris, response: Payload)
    requires uris.arraybuffer != ""
  {
    var builder := new WaveformBuilder();
    var sent := builder.GetRemoteWaveformData(Given(uris), false, {ArrayBufferFormat, JsonFormat});
    assert Selection.FirstUsable(Connectors, uris, {ArrayBufferFormat, JsonFormat}) == Some(ArrayBufferFormat);
    var request := sent.request;
    assert request.url == uris.arraybuffer && request.responseType == ArrayBufferFormat;

    var rejected := builder.OnLoad(request, LoadEvent(Done, 404, None, response), _ => Threw("unused"));
    assert rejected == Callback(Failure(HttpStatus(404)));
    assert builder.xhr == Some(request);

    builder.Abort();
    assert request.abortCalls == 1;

    var again := builder.GetRemoteWaveformData(Given(uris), false, {ArrayBufferFormat, JsonFormat});
    var second := again.request;
    assert builder.xhr == Some(second) && second != request;
    var accepted := builder.OnLoad(second, LoadEvent(Done, 200, None, response), _ => Threw("bad data"));
    assert accepted == Raised("bad data") && builder.xhr == None;
  }
}
