# rmixer: mixer events and the UltraGrid probe

This project models the two pieces of sequential logic in the rmixer Ruby
client and proves what they promise.

- **The mixer connector** (`rmixer/lib/connector.rb`). Every public command
  builds an *event*: a hash with `action` and `params`, and a `filterId`
  only when the target id is non-zero. The connector buffers events in
  `@eventArray`. `appendEvent` stamps a `delay` onto an event and appends
  it. `sendRequest` wraps one event or an array of events into
  `{events: [...]}`, exchanges it with the mixer, and clears the buffer.
- **The UltraGrid helper** (`rmixer/lib/ultragrid.rb`). `uv_check_and_tx`
  does the following:
  1. It defaults an empty host to `127.0.0.1`.
  2. It makes a preliminary check that the far end is reachable.
  3. It walks a fixed five-entry priority list of transmission commands.
     For each entry it checks the candidate command. When the far end
     reports `checked_local`, it runs the command. It stops at the first
     run that reports `uv_running`.
  4. Its result is the `uv_running` flag of the response stored last in
     `@hash_response`, unless the preliminary check or a candidate check
     could not connect, in which case it is `false`.

  The small REST helpers map a reply, or a failed call, to a result.

Files:

- `json.dfy` (module `Json`): JSON-like values, Ruby hashes as maps, and Ruby
  truthiness (only `nil` and `false` are falsy).
- `events.dfy` (module `MixerEvents`): `createEvent` and every builder.
  - The fixed-shape builders are functions.
  - The `configure*` builders fill their parameter hash step by step, so
    they are methods.
- `connector.dfy` (module `MixerConnector`): the `Connector` class, which
  owns the event buffer.
- `ultragrid.dfy` (module `UltraGrid`) has two parts:
  - The probe as specification functions over a trace of requests, with
    the lemmas about it.
  - The `Client` class. Its `hashResponse` field is `@hash_response` and
    `sent` lists the REST calls issued so far. Its methods are proved
    equal to the specification functions.

Each REST call is answered by an oracle `far`. It sees all earlier requests
and the new one, and yields either `ConnError` or a parsed JSON object. So
every property holds for every possible far end.

## Model

| member | source | states |
|---|---|---|
| Json.Field | rmixer/lib/connector.rb:264-271 | `h[k]` reads the stored value of a present key and nil for a missing key; so a truthy read comes from a present key |
| MixerEvents.IsZero | rmixer/lib/connector.rb:371 | `filterId == 0` holds for the integer 0 alone; that value is truthy, while nil and false are not zero, so they are kept as a `filterId` |
| MixerEvents.CreateEvent | rmixer/lib/connector.rb:365-373 | the event carries `action` and `params` as given, and a `filterId` key, with the given value, exactly when the id is non-zero; no other keys |
| MixerEvents.EncodesIsUnique | rmixer/lib/connector.rb:365-373 | those facts determine the event completely: two events that encode the same command are equal |
| MixerEvents.Reset | rmixer/lib/connector.rb:62-66 | `reset` event with empty params and no `filterId` key |
| MixerEvents.Stop | rmixer/lib/connector.rb:68-72 | `stop` event with empty params and no `filterId` key |
| MixerEvents.AddRTPSession | rmixer/lib/connector.rb:74-92 | `addSession` event for the filter; params hold only `subsessions`, a list of exactly one hash with exactly the six given fields |
| MixerEvents.AddOutputRTPtx | rmixer/lib/connector.rb:94-104 | `addRTPConnection` event for the filter with readers, id, ip, port and txFormat |
| MixerEvents.AddRTSPSession | rmixer/lib/connector.rb:106-113 | `addSession` event for the filter with progName, uri and id |
| MixerEvents.GetState | rmixer/lib/connector.rb:115-117 | `getState` event built with both defaults: empty params and no `filterId` key |
| MixerEvents.AddRTSPOutputSession | rmixer/lib/connector.rb:119-128 | `addRTSPConnection` event addressed to the transmitter id |
| MixerEvents.CreateFilter | rmixer/lib/connector.rb:130-139 | `createFilter` event with id, type, role and sharedFrames (default true), no `filterId` key |
| MixerEvents.RemoveFilter | rmixer/lib/connector.rb:141-147 | `removeFilter` event with the id, no `filterId` key |
| MixerEvents.CreatePath | rmixer/lib/connector.rb:149-160 | `createPath` event with the six path fields, no `filterId` key |
| MixerEvents.RemovePath | rmixer/lib/connector.rb:162-168 | `removePath` event with the id, no `filterId` key |
| MixerEvents.AddWorker | rmixer/lib/connector.rb:170-177 | `addWorker` event with id and type, no `filterId` key |
| MixerEvents.RemoveWorker | rmixer/lib/connector.rb:179-185 | `removeWorker` event with the id, no `filterId` key |
| MixerEvents.AddSlavesToFilter | rmixer/lib/connector.rb:187-194 | `addSlavesToFilter` event with master and slaves, no `filterId` key |
| MixerEvents.AddFiltersToWorker | rmixer/lib/connector.rb:196-203 | `addFiltersToWorker` event with worker and filters, no `filterId` key |
| MixerEvents.MuteMaster | rmixer/lib/connector.rb:209-212 | `muteMaster` event for the filter, empty params |
| MixerEvents.MuteChannel | rmixer/lib/connector.rb:214-219 | `muteChannel` event for the filter with the channel id |
| MixerEvents.SoloChannel | rmixer/lib/connector.rb:221-226 | `soloChannel` event for the filter with the channel id |
| MixerEvents.ChangeMasterVolume | rmixer/lib/connector.rb:228-233 | `changeMasterVolume` event for the filter with the volume |
| MixerEvents.ChangeChannelVolume | rmixer/lib/connector.rb:235-241 | `changeChannelVolume` event for the filter with id and volume |
| MixerEvents.SetPositionSize | rmixer/lib/connector.rb:247-260 | `configChannel` event for the mixer whose params are exactly the eight channel fields as given (`enabled` defaults to true) |
| MixerEvents.UpdateVideoChannel | rmixer/lib/connector.rb:262-275 | the same event `setPositionSize` builds from the channel hash's eight fields; a missing `enabled` is sent as nil, not defaulted to true |
| MixerEvents.CopyOption | rmixer/lib/connector.rb:282-288 | one `params[:k] = options[:k] if options[:k]`: `k` is set to the option's value exactly when the option is truthy, otherwise params are unchanged; every other key is untouched |
| MixerEvents.CopyOptionStep | rmixer/lib/connector.rb:282-288 | one conditional `params[:k] = options[:k]` extends "params holds exactly the truthy options, unchanged" by the key `k` |
| MixerEvents.ConfigureResampler | rmixer/lib/connector.rb:277-292 | `configure` event for the resampler; params always hold `width` and `height` as given, and besides those exactly the truthy ones of pixelFormat and discartPeriod, with their values |
| MixerEvents.ConfigureVideoEncoder | rmixer/lib/connector.rb:294-318 | `configure` event for the encoder; params hold exactly the truthy ones of fps, gop, bitrate, threads and annexb, with their values, and nothing else |
| MixerEvents.ConfigureAudioEncoder | rmixer/lib/connector.rb:320-336 | `configure` event for the encoder; params hold exactly the truthy ones of channels, sampleRate and codec, with their values |
| MixerConnector.WrapEvents | rmixer/lib/connector.rb:377-387 | the request's only key is `events`; an array is sent unchanged and anything else as a one-element list |
| MixerConnector.Stamp | rmixer/lib/connector.rb:402-403 | the stamped event has a `delay` with the given value, and every other key unchanged |
| MixerConnector.Connector.constructor | rmixer/lib/connector.rb:55-60 | host, port and testing are stored; the buffer starts empty |
| MixerConnector.Connector.AppendEvent | rmixer/lib/connector.rb:402-406 | the buffer grows by the stamped event at the end, and the result is `{error: nil}`; earlier entries keep the values they were appended with, which the Ruby does not promise when one hash object is appended twice or changed later (see Left out) |
| MixerConnector.Connector.SendRequest | rmixer/lib/connector.rb:375-399 | the request is the wrapped events; an unusable socket raises and keeps the buffer; once a reply arrives the buffer is empty, and the parsed reply is returned or a parse failure raises |
| UltraGrid.DefaultHost | rmixer/lib/ultragrid.rb:35-37 | an empty host becomes a non-empty one (127.0.0.1); any other host is kept |
| UltraGrid.PrelimCmd | rmixer/lib/ultragrid.rb:49 | the preliminary command is the fixed testcard command `uv -t testcard:640:480:15:UYVY -c libavcodec:codec=H.264 -P` followed by the port and nothing else |
| UltraGrid.ReplyCmd | rmixer/lib/ultragrid.rb:58 | a candidate string is, piece by piece, the list entry, ` --control-port `, the control port, one space, the mixer's address, ` -P` and the port; its length is the sum of its parts |
| UltraGrid.ReplyCmdInjective | rmixer/lib/ultragrid.rb:58 | a candidate string `cmd --control-port cport ipMixer -Pport` determines the list entry it was built from |
| UltraGrid.Candidates | rmixer/lib/ultragrid.rb:57-58 | the i-th candidate is the i-th list entry followed by the control port, mixer address and port |
| UltraGrid.PriorityCandidatesDistinct | rmixer/lib/ultragrid.rb:26-30 | the priority list has five entries, and their five candidate strings are pairwise different, so no command is checked twice |
| UltraGrid.EntriesDistinct | rmixer/lib/ultragrid.rb:26-30 | no two entries of the priority list are the same command |
| UltraGrid.UvRunSpec | rmixer/lib/ultragrid.rb:96-113 | one run request is sent; true exactly when the reply has a truthy `uv_running`; a reply is stored, a failed call stores nothing |
| UltraGrid.Attempt | rmixer/lib/ultragrid.rb:58-73 | one pass returns false exactly when the check fails to connect; it sends the check, plus the run exactly when the check reports `checked_local` |
| UltraGrid.AttemptOutcome | rmixer/lib/ultragrid.rb:69-73 | a pass breaks exactly when the check reports `checked_local` and the run reports `uv_running`; it stores the last answered reply |
| UltraGrid.AttemptRuns | rmixer/lib/ultragrid.rb:71-72 | a pass runs at most once, as its last request, right after a check of the same command that reported `checked_local` |
| UltraGrid.AttemptAborts | rmixer/lib/ultragrid.rb:60-67 | a pass returns false exactly when its last request is a check that could not connect |
| UltraGrid.AttemptChecks | rmixer/lib/ultragrid.rb:58-61 | a pass checks exactly its own candidate |
| UltraGrid.TryCandidates | rmixer/lib/ultragrid.rb:57-74 | the loop only appends requests; finishing over a non-empty list leaves a stored response |
| UltraGrid.TryHosts | rmixer/lib/ultragrid.rb:57-74 | every loop request is a check or a run addressed to the probed host |
| UltraGrid.TryOrder | rmixer/lib/ultragrid.rb:26-74 | the commands checked are a prefix of the candidate list, in priority order |
| UltraGrid.TryRunsGuarded | rmixer/lib/ultragrid.rb:71-72 | a run is issued only right after a check of the same command that reported `checked_local` |
| UltraGrid.TryAborts | rmixer/lib/ultragrid.rb:64-67 | the loop returns false exactly when its last request is a check that could not connect |
| UltraGrid.TryChecksConnect | rmixer/lib/ultragrid.rb:64-67 | every check before the last request connected |
| UltraGrid.TrySuccessIsLast | rmixer/lib/ultragrid.rb:72 | a run reporting `uv_running` is the loop's last request, and the loop finishes normally |
| UltraGrid.TryExhausts | rmixer/lib/ultragrid.rb:57-74 | a loop that finishes without a successful last run has checked every candidate |
| UltraGrid.TryCompletes | rmixer/lib/ultragrid.rb:57-74 | without a successful last run or a failed last check, every candidate was checked in order |
| UltraGrid.TryStored | rmixer/lib/ultragrid.rb:69-72 | `@hash_response` holds the reply to the last answered request, check or run |
| UltraGrid.CheckAndTx | rmixer/lib/ultragrid.rb:34-81 | the first request is the preliminary check `uv -t testcard:640:480:15:UYVY ... -P<port>`; if it fails to connect the result is false and nothing else is sent |
| UltraGrid.CheckAndTxHosts | rmixer/lib/ultragrid.rb:35-61 | every request goes to the given host, or to 127.0.0.1 when it is empty; the first is the preliminary check |
| UltraGrid.CheckAndTxOrder | rmixer/lib/ultragrid.rb:57-74 | after the preliminary check, candidates are checked in priority order without skipping, and a run follows only a `checked_local` check of the same command |
| UltraGrid.CheckAndTxStopsOnConnError | rmixer/lib/ultragrid.rb:60-67 | a check that cannot connect ends the probe with false; every earlier check connected |
| UltraGrid.CheckAndTxStopsOnSuccess | rmixer/lib/ultragrid.rb:72-78 | a run reporting `uv_running` is the last request, and the result is true |
| UltraGrid.CheckAndTxExhausts | rmixer/lib/ultragrid.rb:57-74 | with a reachable far end, no failed check and no successful run, every candidate was checked |
| UltraGrid.CheckAndTxResult | rmixer/lib/ultragrid.rb:76-80 | the stored response is the last answered one; the result is true exactly when all checks connected and that response has a truthy `uv_running` |
| UltraGrid.StreamConfig | rmixer/lib/ultragrid.rb:137-169 | `curr_stream_config` when the reply's `result` is truthy; `{}` when it is falsy or the call fails |
| UltraGrid.RunningParams | rmixer/lib/ultragrid.rb:119-135 | the whole reply when it has a truthy `uv_running`, `{}` otherwise; a non-empty result always reports `uv_running` |
| UltraGrid.Client.constructor | rmixer/lib/ultragrid.rb:32 | nothing has been sent and `@hash_response` is unset |
| UltraGrid.Client.Call | rmixer/lib/ultragrid.rb:60-67 | one `RestClient` call: the request is appended to those sent, the answer is the far end's answer to it, and `@hash_response` is untouched |
| UltraGrid.Client.UvRun | rmixer/lib/ultragrid.rb:96-113 | the result and the new state are those of `UvRunSpec` |
| UltraGrid.Client.TryCandidate | rmixer/lib/ultragrid.rb:58-73 | one pass of the loop body does what `Attempt` says; unless it aborts, a response is stored |
| UltraGrid.Client.UvCheckAndTx | rmixer/lib/ultragrid.rb:34-81 | the result and the new state are those of `CheckAndTx` over the five-entry priority list |
| UltraGrid.Client.SetControlport | rmixer/lib/ultragrid.rb:83-94 | true exactly when the call does not fail; `@hash_response` untouched |
| UltraGrid.Client.GetUltraGridParams | rmixer/lib/ultragrid.rb:119-135 | the result is `RunningParams` of the answer to the state request; `@hash_response` untouched |
| UltraGrid.Client.SetVbccMode | rmixer/lib/ultragrid.rb:137-152 | the result is `StreamConfig` of the answer to the set_vbcc request; `@hash_response` untouched |
| UltraGrid.Client.SetSizeValue | rmixer/lib/ultragrid.rb:154-169 | the result is `StreamConfig` of the answer to the set_size request; `@hash_response` untouched |

## Left out

- TCP socket I/O in `sendRequest`: opening, printing, `recv(4096*4)` with its truncation, and closing the socket. The exchange is a parameter, `exchange`. It yields an unusable socket, or a reply that parses or does not.
- JSON encoding and parsing. Replies are modelled as already parsed. The calls that parse their reply are `uv_run`, the in-loop checks of `uv_check_and_tx`, `getUltraGridParams`, `set_vbcc` and `set_size`. For these, a reply that is not a JSON object, or that does not parse, is not modelled; in Ruby it raises from `JSON.parse` or fails on `[]`. The preliminary check of `uv_check_and_tx` and `set_controlport` never look at their reply. For them `Reply(_)` stands for any reply that does not raise, whatever its body.
- `RestClient`: every exception from a call, whether a refused connection or an HTTP error status, is the single answer `ConnError`.
- `SignalException` is re-raised rather than turned into a failure result. This path is not modelled.
- All `puts` output.
- `local_ip`: the mixer's own address is an input, `ipMixer`.
- The connector's `testing` flag is stored and never read. The `get_response` behaviour its doc comment describes does not exist in the code.
- The claim about concurrent connectors in the class doc comment. Nothing in the code coordinates concurrency, and the model is sequential.
- Ruby hashes keep insertion order, and the model uses unordered maps. Keys are strings in the model. Each model `Hash` stands for a hash keyed the way its call site reads it: symbol keys for the `options` of the `configure*` builders and for parsed replies, string keys for the channel hash of `updateVideoChannel`, which reads `channel["id"]` and so on. A channel hash with symbol keys reads nil for all eight fields in Ruby; the model cannot express that input.
- Floating-point values: `Json.Value` has no floating-point case, so float arguments such as an `opacity` or a `volume`, and float values in replies, cannot be expressed. For the same reason `IsZero` tests only the integer 0, and Ruby's `0.0 == 0` is not captured.
- MixerConnector.Connector.AppendEvent: `appendEvent` writes `delay` into the caller's own hash object and buffers that object itself, not a copy. The model buffers a stamped copy, so it captures none of that aliasing. In Ruby the caller sees its hash gain `delay`. Appending the same hash twice, as in `appendEvent(e, 0)` then `appendEvent(e, 100)`, leaves two entries that are one object, both with delay 100; the model keeps delay 0 on the first. A hash changed by its caller after it was appended changes the buffered entry too, and in the model it does not.
- `@@uv_cmd_priority_list` is a class variable at the top level of the file. Newer Ruby versions reject this at run time; the model follows the code as written.
- UltraGrid.CheckAndTx and its lemmas are proved for any non-empty command list. `Client.UvCheckAndTx` passes the five-entry list.
- The builders are module-level functions, not connector methods, because none of them reads or writes connector state.
