/** The mixer's control events: the hash every public command of the
    connector builds before it is sent, and the builders themselves.

    Each builder is an instance method of the connector in the original, but
    none of them reads or writes the connector's state, so here they are
    module-level functions (and, for the `configure*` builders, which fill
    their parameter hash step by step, methods without side effects). */
module MixerEvents {
  import opened Json

  /** An event as sent to the mixer: `action`, `params`, an optional
      `filterId` and, once buffered, a `delay`. */
  type Event = Hash

  /** The keys `createEvent` may produce. */
  const EventKeys: set<string> := {"action", "params", "filterId"}

  /** The default filter id: "no target filter". */
  const NoFilter: Value := Num(0)

  /** Ruby's `filterId == 0`: only the integer zero compares equal to 0,
      and it is truthy, so `unless filterId == 0` keeps `nil` and `false`
      ids where a truthiness test would drop them. */
  function IsZero(v: Value): (zero: bool)
    ensures zero <==> v == Num(0)
    ensures zero ==> Truthy(v)
    ensures v == Null || v == Bool(false) ==> !zero
  {
    v.Num? && v.n == 0
  }

  /** `e` names `action`, has a `params` entry, and carries a `filterId`
      equal to `target` exactly when `target` is non-zero. */
  predicate Header(e: Event, action: Value, target: Value) {
    && "action" in e && e["action"] == action
    && "params" in e
    && ("filterId" in e <==> !IsZero(target))
    && ("filterId" in e ==> e["filterId"] == target)
    && e.Keys <= EventKeys
  }

  /** `e` is the event for `action` with `params`, addressed to `target`. */
  predicate Encodes(e: Event, action: Value, params: Value, target: Value) {
    Header(e, action, target) && e["params"] == params
  }

  /** The parameter hash of an event whose `params` is a hash. */
  function ParamsOf(e: Event): Hash
    requires "params" in e && e["params"].Obj?
  {
    e["params"].fields
  }

  /** `params` holds exactly those of `keys` whose option is truthy, each
      with the option's value. */
  ghost predicate CopiesTruthy(params: Hash, options: Hash, keys: set<string>) {
    && (forall k :: k in params <==> k in keys && Truthy(Field(options, k)))
    && (forall k :: k in params ==> params[k] == Field(options, k))
  }

  // ----- createEvent -----

  /** `createEvent(action, params = {}, filterId = 0)`. */
  function CreateEvent(action: Value, params: Value := Obj(EmptyHash), filterId: Value := NoFilter): (e: Event)
    ensures Encodes(e, action, params, filterId)
  {
    var e := map["action" := action, "params" := params];
    if IsZero(filterId) then e else e["filterId" := filterId]
  }

  /** The three facts `Encodes` states pin the event down completely: two
      events that encode the same command are the same hash. */
  lemma EncodesIsUnique(e1: Event, e2: Event, action: Value, params: Value, target: Value)
    requires Encodes(e1, action, params, target) && Encodes(e2, action, params, target)
    ensures e1 == e2
  {
    assert e1.Keys == e2.Keys by {
      forall k | k in e1 ensures k in e2 { assert k in EventKeys; }
      forall k | k in e2 ensures k in e1 { assert k in EventKeys; }
    }
    forall k | k in e1 ensures e1[k] == e2[k] { assert k in EventKeys; }
  }

  // ----- builders without a target filter -----

  function Reset(): (e: Event)
    ensures Encodes(e, Str("reset"), Obj(EmptyHash), NoFilter) && "filterId" !in e
  {
    CreateEvent(Str("reset"), Obj(EmptyHash))
  }

  function Stop(): (e: Event)
    ensures Encodes(e, Str("stop"), Obj(EmptyHash), NoFilter) && "filterId" !in e
  {
    CreateEvent(Str("stop"), Obj(EmptyHash))
  }

  /** `getState` relies on both defaults of `createEvent`. */
  function GetState(): (e: Event)
    ensures Encodes(e, Str("getState"), Obj(EmptyHash), NoFilter) && "filterId" !in e
  {
    CreateEvent(Str("getState"))
  }

  /** `createFilter(id, type, role, sharedFrames = true)`. */
  function CreateFilter(id: Value, filterType: Value, role: Value, sharedFrames: Value := Bool(true)): (e: Event)
    ensures Encodes(e, Str("createFilter"),
                    Obj(map["id" := id, "type" := filterType, "role" := role, "sharedFrames" := sharedFrames]),
                    NoFilter)
    ensures "filterId" !in e
  {
    var params := map["id" := id, "type" := filterType, "role" := role, "sharedFrames" := sharedFrames];
    CreateEvent(Str("createFilter"), Obj(params))
  }

  function RemoveFilter(id: Value): (e: Event)
    ensures Encodes(e, Str("removeFilter"), Obj(map["id" := id]), NoFilter) && "filterId" !in e
  {
    CreateEvent(Str("removeFilter"), Obj(map["id" := id]))
  }

  function CreatePath(id: Value, orgFilterId: Value, dstFilterId: Value, orgWriterId: Value,
                      dstReaderId: Value, midFiltersIds: Value): (e: Event)
    ensures Encodes(e, Str("createPath"),
                    Obj(map["id" := id, "orgFilterId" := orgFilterId, "dstFilterId" := dstFilterId,
                            "orgWriterId" := orgWriterId, "dstReaderId" := dstReaderId,
                            "midFiltersIds" := midFiltersIds]),
                    NoFilter)
    ensures "filterId" !in e
  {
    var params := map["id" := id, "orgFilterId" := orgFilterId, "dstFilterId" := dstFilterId,
                      "orgWriterId" := orgWriterId, "dstReaderId" := dstReaderId,
                      "midFiltersIds" := midFiltersIds];
    CreateEvent(Str("createPath"), Obj(params))
  }

  function RemovePath(id: Value): (e: Event)
    ensures Encodes(e, Str("removePath"), Obj(map["id" := id]), NoFilter) && "filterId" !in e
  {
    CreateEvent(Str("removePath"), Obj(map["id" := id]))
  }

  function AddWorker(id: Value, workerType: Value): (e: Event)
    ensures Encodes(e, Str("addWorker"), Obj(map["id" := id, "type" := workerType]), NoFilter)
    ensures "filterId" !in e
  {
    CreateEvent(Str("addWorker"), Obj(map["id" := id, "type" := workerType]))
  }

  function RemoveWorker(id: Value): (e: Event)
    ensures Encodes(e, Str("removeWorker"), Obj(map["id" := id]), NoFilter) && "filterId" !in e
  {
    CreateEvent(Str("removeWorker"), Obj(map["id" := id]))
  }

  function AddSlavesToFilter(master: Value, slaves: Value): (e: Event)
    ensures Encodes(e, Str("addSlavesToFilter"), Obj(map["master" := master, "slaves" := slaves]), NoFilter)
    ensures "filterId" !in e
  {
    CreateEvent(Str("addSlavesToFilter"), Obj(map["master" := master, "slaves" := slaves]))
  }

  function AddFiltersToWorker(worker: Value, filters: Value): (e: Event)
    ensures Encodes(e, Str("addFiltersToWorker"), Obj(map["worker" := worker, "filters" := filters]), NoFilter)
    ensures "filterId" !in e
  {
    CreateEvent(Str("addFiltersToWorker"), Obj(map["worker" := worker, "filters" := filters]))
  }

  // ----- builders addressed to a filter -----

  /** One RTP subsession description. */
  function Subsession(port: Value, medium: Value, codec: Value, bandwidth: Value,
                      timeStampFrequency: Value, channels: Value): Hash
  {
    map["port" := port, "medium" := medium, "codec" := codec, "bandwidth" := bandwidth,
        "timeStampFrequency" := timeStampFrequency, "channels" := channels]
  }

  /** `addRTPSession`: an `addSession` event whose `subsessions` list holds
      exactly one subsession carrying the six given fields. */
  function AddRTPSession(filterId: Value, port: Value, medium: Value, codec: Value, bandwidth: Value,
                         timeStampFrequency: Value, channels: Value): (e: Event)
    ensures Header(e, Str("addSession"), filterId) && e["params"].Obj?
    ensures ParamsOf(e).Keys == {"subsessions"}
    ensures var subs := ParamsOf(e)["subsessions"];
            && subs.Arr? && |subs.items| == 1 && subs.items[0].Obj?
            && subs.items[0].fields.Keys == {"port", "medium", "codec", "bandwidth", "timeStampFrequency", "channels"}
            && subs.items[0].fields["port"] == port
            && subs.items[0].fields["medium"] == medium
            && subs.items[0].fields["codec"] == codec
            && subs.items[0].fields["bandwidth"] == bandwidth
            && subs.items[0].fields["timeStampFrequency"] == timeStampFrequency
            && subs.items[0].fields["channels"] == channels
  {
    var subsessions := [Obj(Subsession(port, medium, codec, bandwidth, timeStampFrequency, channels))];
    CreateEvent(Str("addSession"), Obj(map["subsessions" := Arr(subsessions)]), filterId)
  }

  function AddOutputRTPtx(filterId: Value, readers: Value, sessionId: Value, ip: Value, port: Value,
                          txFormat: Value): (e: Event)
    ensures Encodes(e, Str("addRTPConnection"),
                    Obj(map["readers" := readers, "id" := sessionId, "ip" := ip, "port" := port,
                            "txFormat" := txFormat]),
                    filterId)
  {
    var params := map["readers" := readers, "id" := sessionId, "ip" := ip, "port" := port,
                      "txFormat" := txFormat];
    CreateEvent(Str("addRTPConnection"), Obj(params), filterId)
  }

  function AddRTSPSession(filterId: Value, progName: Value, uri: Value, id: Value): (e: Event)
    ensures Encodes(e, Str("addSession"), Obj(map["progName" := progName, "uri" := uri, "id" := id]), filterId)
  {
    CreateEvent(Str("addSession"), Obj(map["progName" := progName, "uri" := uri, "id" := id]), filterId)
  }

  function AddRTSPOutputSession(txId: Value, sessionId: Value, readers: Value, name: Value,
                                txFormat: Value): (e: Event)
    ensures Encodes(e, Str("addRTSPConnection"),
                    Obj(map["id" := sessionId, "readers" := readers, "name" := name, "txFormat" := txFormat]),
                    txId)
  {
    var params := map["id" := sessionId, "readers" := readers, "name" := name, "txFormat" := txFormat];
    CreateEvent(Str("addRTSPConnection"), Obj(params), txId)
  }

  // audio

  function MuteMaster(filterId: Value): (e: Event)
    ensures Encodes(e, Str("muteMaster"), Obj(EmptyHash), filterId)
  {
    CreateEvent(Str("muteMaster"), Obj(EmptyHash), filterId)
  }

  function MuteChannel(filterId: Value, id: Value): (e: Event)
    ensures Encodes(e, Str("muteChannel"), Obj(map["id" := id]), filterId)
  {
    CreateEvent(Str("muteChannel"), Obj(map["id" := id]), filterId)
  }

  function SoloChannel(filterId: Value, id: Value): (e: Event)
    ensures Encodes(e, Str("soloChannel"), Obj(map["id" := id]), filterId)
  {
    CreateEvent(Str("soloChannel"), Obj(map["id" := id]), filterId)
  }

  function ChangeMasterVolume(filterId: Value, volume: Value): (e: Event)
    ensures Encodes(e, Str("changeMasterVolume"), Obj(map["volume" := volume]), filterId)
  {
    CreateEvent(Str("changeMasterVolume"), Obj(map["volume" := volume]), filterId)
  }

  function ChangeChannelVolume(filterId: Value, id: Value, volume: Value): (e: Event)
    ensures Encodes(e, Str("changeChannelVolume"), Obj(map["id" := id, "volume" := volume]), filterId)
  {
    CreateEvent(Str("changeChannelVolume"), Obj(map["id" := id, "volume" := volume]), filterId)
  }

  // video

  /** The parameter hash of a `configChannel` event. */
  function ChannelParams(id: Value, width: Value, height: Value, x: Value, y: Value, layer: Value,
                         opacity: Value, enabled: Value): Hash
  {
    map["id" := id, "width" := width, "height" := height, "x" := x, "y" := y,
        "layer" := layer, "opacity" := opacity, "enabled" := enabled]
  }

  /** `setPositionSize(mixerID, id, width, height, x, y, layer, opacity, enabled = true)`. */
  function SetPositionSize(mixerId: Value, id: Value, width: Value, height: Value, x: Value, y: Value,
                           layer: Value, opacity: Value, enabled: Value := Bool(true)): (e: Event)
    ensures Header(e, Str("configChannel"), mixerId) && e["params"].Obj?
    ensures ParamsOf(e).Keys == {"id", "width", "height", "x", "y", "layer", "opacity", "enabled"}
    ensures ParamsOf(e)["id"] == id && ParamsOf(e)["width"] == width && ParamsOf(e)["height"] == height
    ensures ParamsOf(e)["x"] == x && ParamsOf(e)["y"] == y && ParamsOf(e)["layer"] == layer
    ensures ParamsOf(e)["opacity"] == opacity && ParamsOf(e)["enabled"] == enabled
  {
    CreateEvent(Str("configChannel"), Obj(ChannelParams(id, width, height, x, y, layer, opacity, enabled)), mixerId)
  }

  /** `updateVideoChannel(mixerId, channel)` reads the eight channel fields
      from a hash (a missing one reads as nil) and sends the same event
      `setPositionSize` would; in particular `enabled` is not defaulted to
      true here. */
  function UpdateVideoChannel(mixerId: Value, channel: Hash): (e: Event)
    ensures e == SetPositionSize(mixerId, Field(channel, "id"), Field(channel, "width"),
                                 Field(channel, "height"), Field(channel, "x"), Field(channel, "y"),
                                 Field(channel, "layer"), Field(channel, "opacity"),
                                 Field(channel, "enabled"))
    ensures "enabled" !in channel ==> ParamsOf(e)["enabled"] == Null
  {
    var params := ChannelParams(Field(channel, "id"), Field(channel, "width"), Field(channel, "height"),
                                Field(channel, "x"), Field(channel, "y"), Field(channel, "layer"),
                                Field(channel, "opacity"), Field(channel, "enabled"));
    CreateEvent(Str("configChannel"), Obj(params), mixerId)
  }

  // ----- configure* builders: parameters copied only when truthy -----

  const ResamplerOptions: set<string> := {"pixelFormat", "discartPeriod"}
  const VideoEncoderOptions: set<string> := {"fps", "gop", "bitrate", "threads", "annexb"}
  const AudioEncoderOptions: set<string> := {"channels", "sampleRate", "codec"}

  /** One conditional assignment `params[:k] = options[:k] if options[:k]`. */
  function CopyOption(params: Hash, options: Hash, k: string): (r: Hash)
    ensures k in r <==> k in params || Truthy(Field(options, k))
    ensures Truthy(Field(options, k)) ==> r[k] == options[k]
    ensures !Truthy(Field(options, k)) ==> r == params
    ensures forall j :: j != k ==> (j in r <==> j in params)
    ensures forall j :: j != k && j in r ==> r[j] == params[j]
  {
    if Truthy(Field(options, k)) then params[k := options[k]] else params
  }

  /** One conditional assignment extends the set of options handled by one
      key, leaving the keys in `fixed` (set unconditionally) aside. */
  lemma CopyOptionStep(params: Hash, options: Hash, fixed: set<string>, keys: set<string>, k: string)
    requires CopiesTruthy(params - fixed, options, keys)
    requires k !in keys && k !in fixed
    ensures CopiesTruthy(CopyOption(params, options, k) - fixed, options, keys + {k})
  {
    var p := CopyOption(params, options, k) - fixed;
    forall j ensures j in p <==> j in keys + {k} && Truthy(Field(options, j)) {
      if j != k {
        assert j in p <==> j in params - fixed;
      }
    }
    forall j | j in p ensures p[j] == Field(options, j) {
      if j != k {
        assert j in params - fixed;
      }
    }
  }

  /** `configureResampler(resamplerID, width, height, options = {})`:
      `width` and `height` always, each optional key only when truthy. */
  method ConfigureResampler(resamplerId: Value, width: Value, height: Value, options: Hash := EmptyHash)
    returns (e: Event)
    ensures Header(e, Str("configure"), resamplerId) && e["params"].Obj?
    ensures "width" in ParamsOf(e) && ParamsOf(e)["width"] == width
    ensures "height" in ParamsOf(e) && ParamsOf(e)["height"] == height
    ensures CopiesTruthy(ParamsOf(e) - {"width", "height"}, options, ResamplerOptions)
  {
    ghost var fixed := {"width", "height"};
    var params: Hash := map["width" := width, "height" := height];
    assert params - fixed == map[];
    params := CopyOption(params, options, "pixelFormat");
    CopyOptionStep(map["width" := width, "height" := height], options, fixed, {}, "pixelFormat");
    ghost var before := params;
    params := CopyOption(params, options, "discartPeriod");
    CopyOptionStep(before, options, fixed, {"pixelFormat"}, "discartPeriod");
    e := CreateEvent(Str("configure"), Obj(params), resamplerId);
  }

  /** `configureVideoEncoder(encoderId, options = {})`: exactly the truthy
      ones of fps, gop, bitrate, threads and annexb. */
  method ConfigureVideoEncoder(encoderId: Value, options: Hash := EmptyHash) returns (e: Event)
    ensures Header(e, Str("configure"), encoderId) && e["params"].Obj?
    ensures CopiesTruthy(ParamsOf(e), options, VideoEncoderOptions)
  {
    var params: Hash := map[];
    ghost var before := params;
    assert params - {} == map[];
    params := CopyOption(params, options, "fps");
    CopyOptionStep(before, options, {}, {}, "fps");
    before := params;
    params := CopyOption(params, options, "gop");
    CopyOptionStep(before, options, {}, {"fps"}, "gop");
    before := params;
    params := CopyOption(params, options, "bitrate");
    CopyOptionStep(before, options, {}, {"fps", "gop"}, "bitrate");
    before := params;
    params := CopyOption(params, options, "threads");
    CopyOptionStep(before, options, {}, {"fps", "gop", "bitrate"}, "threads");
    before := params;
    params := CopyOption(params, options, "annexb");
    CopyOptionStep(before, options, {}, {"fps", "gop", "bitrate", "threads"}, "annexb");
    assert params - {} == params;
    e := CreateEvent(Str("configure"), Obj(params), encoderId);
  }

  /** `configureAudioEncoder(encoderId, options = {})`: exactly the truthy
      ones of channels, sampleRate and codec. */
  method ConfigureAudioEncoder(encoderId: Value, options: Hash := EmptyHash) returns (e: Event)
    ensures Header(e, Str("configure"), encoderId) && e["params"].Obj?
    ensures CopiesTruthy(ParamsOf(e), options, AudioEncoderOptions)
  {
    var params: Hash := map[];
    ghost var before := params;
    assert params - {} == map[];
    params := CopyOption(params, options, "channels");
    CopyOptionStep(before, options, {}, {}, "channels");
    before := params;
    params := CopyOption(params, options, "sampleRate");
    CopyOptionStep(before, options, {}, {"channels"}, "sampleRate");
    before := params;
    params := CopyOption(params, options, "codec");
    CopyOptionStep(before, options, {}, {"channels", "sampleRate"}, "codec");
    assert params - {} == params;
    e := CreateEvent(Str("configure"), Obj(params), encoderId);
  }
}
