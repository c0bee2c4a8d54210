# ExecRelay, modelled and proved

ExecRelay relays trading signals: webhooks come in at an ingress, travel as protobuf
messages over a broker to a bridge, and are executed by terminals that hold the account's
positions. This project models the parts of it that are algorithms, protocols or state
machines, and proves what they promise on every input and over every run.

| area | modules |
|---|---|
| shared | `Prelude` |
| WebSocket client and SHA-1 of the terminal DLL | `Bytes`, `WebSocketFrame`, `WebSocketReader`, `Sha1` |
| protobuf signal codec: one encoder, a lenient and a strict decoder | `Varint`, `SignalProto`, `SignalCodec`, `SignalWire`, `SignalLaws`, `SignalMerge` |
| webhook grammar and its printer | `Text`, `WebhookTables`, `WebhookAliases`, `WebhookParser`, `WebhookGrammar`, `WebhookLaws`, `TestSignal` |
| license configuration, export and hot reload | `LicenseConfig` |
| per-address token bucket | `RateLimiter` |
| bridge hub and delivery | `Hub`, `Dispatch` |
| "Option 1" trading rule: predictor, backtester, live path | `Option1`, `Backtest`, `Replay`, `ReplayFilter`, `ReplayReport`, `ReplayFeatures`, `Drawdown`, `Terminal`, `LivePipeline` |
| position sizing, one-cancels-other and breakeven | `Sizing`, `TradeStore`, `Oco` |
| indicators and features | `Indicators`, `Directional`, `Features`, `FeatureLaws`, `FeatureTrends`, `FeatureScale`, `FeatureWarmup` |

Code that updates state in place is modelled by classes and methods with loops; each is
proved against a function on values, and the laws are proved about that function. The
outside world is a parameter: the compression function, UTF-8, the model's score, the
square root, the clock, the socket's chunks and timeouts, and every answer of the broker.
Prices and times are reals.

Results that differ from what a reader may expect:

- The strict decoder is documented to raise on varint overflow (`apps/persist/app.py`, line 151); the code has no such check, and reads numbers of any size (`SignalMerge.OverflowAccepted`).
- A payload cut inside its last record, or ended by a record of another wire type, is accepted by the lenient decoder but does not merge with what follows it (`SignalMerge.MergesIffWhole`, `SignalMerge.CutPayloadHides`).
- `WsRead` with a zero timeout never receives: it only looks at what is already buffered.
- An exported license configuration is not read back when an instance key ends in a newline, which the portal's key pattern lets through (`LicenseConfig.PortalRoundTrip`).
- A signal that decodes but whose delivery metadata cannot be read is never terminated: while its instance is not connected it is redelivered without bound (`Dispatch.NakForever`, `Dispatch.DeliverySettles`).
- The backtest report's counts of opened, closed and still open trades disagree exactly when a signal on the last candle turns against the position held (`ReplayReport.ReportAddsUpIff`).
- A flip refused by sizing keeps the old position open, although the rule asked to close it (`LivePipeline.EnforcedStep`, `LivePipeline.RefusedFlip`).
- A pending order that falls back to the market keeps the lot sized at its own price, and can lose more than its budget at the stop (`Terminal.Terminal.Execute`, `Terminal.FallbackOverspends`).
- A flip that closes its position and then fails to open is reported as a rejection (`Terminal.TradeReportedHonestly`, `Terminal.HiddenClose`).
- A maximum lot that is not a whole number of steps can be passed over (`Sizing.MaximumMissedIff`).
- `dmi` over a window of one raises on bars of which one moves and a later one does not (`Directional.AdxRaisesIff`, `Directional.StallRaises`).
- While the close stays level the Bollinger distance divides by zero, so a bar on level prices has no features (`FeatureTrends.LevelPrices`).
- A zero close among later candles stops the feature builder: the one way in which later data is noticed (`Features.NoLookahead`, `Features.ZeroCloseIsNoticed`).

## Model

| member | source | states |
|---|---|---|
| WebSocketFrame.MaskedTwice | ea/mt4-ws-dll/src/ws_dll.cpp:352-354 | masking a payload twice with the same key gives it back |
| Bytes.XorBit | ea/mt4-ws-dll/src/ws_dll.cpp:301-303 | each bit of a masked octet is set exactly when the bits of octet and mask differ |
| WebSocketFrame.SendText | ea/mt4-ws-dll/src/ws_dll.cpp:278-306 | the octets sent are exactly the masked text frame of the payload: the first octet of a final text frame, the mask bit with the length, the mask, and octet i of the payload exclusive-or octet i modulo 4 of the mask (sections 5.2 and 5.3 of RFC 6455); refused exactly from 65536 octets on |
| WebSocketFrame.ParseEncoded | ea/mt4-ws-dll/src/ws_dll.cpp:327-361 | parsing inverts encoding for every frame, length form and mask, whatever octets follow, and rejects exactly the payloads over the caller's buffer |
| WebSocketFrame.ParseStrictPrefix | ea/mt4-ws-dll/src/ws_dll.cpp:327-361 | every strict prefix of a frame is answered with "need more" |
| WebSocketFrame.ReadLengthFrom | ea/mt4-ws-dll/src/ws_dll.cpp:330-345 | the three length forms read out of the buffer |
| WebSocketFrame.CopyPayload | ea/mt4-ws-dll/src/ws_dll.cpp:351-357 | the payload copied out is the buffer's octets, unmasked when the mask bit is set |
| WebSocketFrame.ParseInto | ea/mt4-ws-dll/src/ws_dll.cpp:327-361 | the buffer parser computes the parsing function: result code, frame length, opcode and payload |
| WebSocketReader.NextFrame | ea/mt4-ws-dll/src/ws_dll.cpp:459-511 | a buffer that starts on a frame boundary yields the next whole frame or asks for more with room left, so it never fills up |
| WebSocketReader.HeardIff | ea/mt4-ws-dll/src/ws_dll.cpp:474-495 | what a frame gives a caller: nothing exactly for close, ping, pong, an empty payload or an empty buffer, else its payload cut to the buffer |
| WebSocketReader.Connection.Consume | ea/mt4-ws-dll/src/ws_dll.cpp:474-477 | dropping a frame by moving the rest down leaves the buffer on the next frame boundary |
| WebSocketReader.Connection.Receive | ea/mt4-ws-dll/src/ws_dll.cpp:505-516 | received octets extend the buffer and keep it a prefix of the pending frames |
| WebSocketReader.Connection.Drain | ea/mt4-ws-dll/src/ws_dll.cpp:459-495 | control frames are swallowed, a close frame ends the connection, the first data frame is delivered |
| WebSocketReader.Connection.Read | ea/mt4-ws-dll/src/ws_dll.cpp:449-536 | each call returns the next data payload, and the "bad frame" and "buffer full" teardowns are unreachable; a zero timeout never receives |
| WebSocketReader.Session | ea/mt4-ws-dll/src/ws_dll.cpp:449-536 | for every list of frames, every cut into chunks and every pattern of timeouts, the calls return the data payloads before the first close frame, in order; an idle call means every frame wholly received has been delivered |
| Sha1.PadZerosLeast | ea/mt4-ws-dll/src/ws_dll.cpp:76-84 | the padding is the shortest that ends eight octets before a block boundary (section 4 of RFC 3174) |
| Sha1.InitialOctets | ea/mt4-ws-dll/src/ws_dll.cpp:58-62 | the initial words are the octets 01 23 45 67 89 ... of section 6.1 of RFC 3174, least octet first |
| Sha1.PaddedOctets | ea/mt4-ws-dll/src/ws_dll.cpp:76-84 | what is hashed is the message, 0x80, zeros and the bit length as eight octets, in whole blocks, with less than one block to spare |
| Sha1.DigestOctets | ea/mt4-ws-dll/src/ws_dll.cpp:83-84 | the digest's octets are its words, most significant octet first |
| Sha1.LengthOctets | ea/mt4-ws-dll/src/ws_dll.cpp:76-82 | the two 32-bit counters written out are the 64-bit big-endian bit length |
| Sha1.Context.Update | ea/mt4-ws-dll/src/ws_dll.cpp:64-74 | an update appends to the message hashed so far, whatever block offset it starts at |
| Sha1.Context.Count | ea/mt4-ws-dll/src/ws_dll.cpp:64-67 | the two-word bit counter stays exact through the carry |
| Sha1.Context.Blocks | ea/mt4-ws-dll/src/ws_dll.cpp:68-72 | every full block, buffered or in place, is compressed once and in order |
| Sha1.Context.Pad | ea/mt4-ws-dll/src/ws_dll.cpp:79-81 | the one-octet padding loop stops and adds the mandated padding |
| Sha1.Context.Final | ea/mt4-ws-dll/src/ws_dll.cpp:76-84 | the digest is the fold of the compression over the padded message (sections 4 and 6.1 of RFC 3174) |
| Sha1.HashChunks | ea/mt4-ws-dll/src/ws_dll.cpp:58-88 | for every way of cutting a message into updates the digest is that of the whole message |
| Varint.RoundTrip | apps/portal-api/app.py:448-458 | decoding inverts encoding for every natural number and leaves the octets that follow |
| Varint.DecodeAppend | apps/persist/app.py:130-138 | a number already decoded is not changed by more octets |
| SignalWire.WrittenGroups | apps/portal-api/app.py:448-458 | a written number is its groups of seven bits, least significant first, every octet but the last with its high bit, no group to spare |
| SignalWire.ReadGroups | apps/portal-api/app.py:504-512 | a number is read as its groups up to the first octet without a high bit, and without one nothing is read |
| SignalWire.MessageOctets | apps/portal-api/app.py:461-501 | the octets of a message: text fields 1 to 7, the time as varint field 8, text field 9, each parameter as field 10 of a key record 1 and a value record 2; empty text and a zero time are left out |
| SignalWire.AcceptedIff | apps/persist/app.py:149-241 | the strict decoder accepts exactly what its record loop accepts with a trace id (1), a license (2), a command (4) and a symbol (6) |
| Varint.Write | apps/portal-api/app.py:448-458 | the encoder loop writes base-128 groups, least significant first |
| Varint.ReadAt | apps/portal-api/app.py:504-512 | the decoder loop reads that number back and stops behind it, or reports truncation |
| SignalLaws.ParseRefinesDecode | apps/persist/app.py:149-241 | whenever the strict decoder accepts, the lenient one returns the same signal, with all required fields |
| SignalLaws.ParseTotal | apps/persist/app.py:149-241 | the strict decoder gives a complete signal or its own error on every octet string, never an index error |
| SignalLaws.DecodeConcat | apps/portal-api/app.py:515-558 | decoding what follows whole data merges: last scalar wins, params append, an early error stays |
| SignalLaws.MergeIs | apps/portal-api/app.py:515-558 | a merge has the later value of each field and the parameters of both in order |
| SignalMerge.MergesIffWhole | apps/portal-api/app.py:515-558 | a payload the lenient decoder accepts merges with everything put after it if and only if all its records lie inside it |
| SignalMerge.CutPayloadHides | apps/portal-api/app.py:515-558 | a payload cut inside its trace id, accepted, that hides the time put after it |
| SignalMerge.AcceptedIsWhole | apps/persist/app.py:149-241 | what the strict decoder accepts is whole |
| SignalMerge.StrictConcat | apps/persist/app.py:149-241 | after whole data the strict decoder goes on from the state it has reached, or keeps its error |
| SignalMerge.EncodedMerge | apps/portal-api/app.py:476-558 | both decoders read two encoded signals in a row as their merge, the strict one exactly when the merge has the required fields |
| SignalMerge.OverflowAccepted | apps/persist/app.py:130-151 | a time that does not fit 64 bits is accepted exactly when the required fields are set, like any other, and is read back whole |
| SignalMerge.OverflowExample | apps/persist/app.py:130-151 | the number 2^64, accepted |
| SignalLaws.RoundTrip | apps/portal-api/app.py:476-501 | both decoders invert the encoder up to absent = empty, the strict one exactly when the required fields are set |
| SignalLaws.ReplayChangesOnlyTraceAndTime | apps/portal-api/app.py:1202-1206 | decode, edit, encode changes only the trace id and the time; the strict decoder accepts the result exactly when the other required fields were set |
| SignalCodec.WriteSignal | apps/portal-api/app.py:476-501 | the encoder's buffer holds the encoding of the signal |
| SignalCodec.DecodeSignal | apps/portal-api/app.py:515-558 | the lenient decoder's loop computes the lenient meaning of the octets |
| SignalCodec.DecodeParam | apps/portal-api/app.py:541-555 | its nested loop does so for one parameter |
| SignalCodec.ParseSignal | apps/persist/app.py:149-241 | the strict decoder's loop computes the strict meaning of the octets, errors included |
| SignalCodec.ParseParam | apps/persist/app.py:204-233 | its nested loop does so for one parameter |
| WebhookTables.EqFoldLoop | packages/parser-go/lookup.go:151-165 | the octet loop decides equality up to ASCII case |
| WebhookTables.NameReadsBack | packages/parser-go/types.go:49-124 | the printed name of every command looks up that command |
| WebhookAliases.AnyCase | packages/parser-go/lookup.go:151-165 | a lower-case spelling is matched by itself with any letters in capitals, and by nothing else |
| WebhookAliases.CommandIff | packages/parser-go/lookup.go:3-78 | a word is looked up as a command exactly when it is, in any letter case, one of the words the table lists for it |
| WebhookAliases.KeyIff | packages/parser-go/lookup.go:80-149 | a key is looked up as a parameter exactly when it is, in any letter case, one of the keys the table lists for it |
| WebhookParser.TrimLoop | packages/parser-go/parser.go:199-209 | trimming drops exactly the white space at both ends |
| WebhookParser.NextField | packages/parser-go/parser.go:173-186 | successive calls yield the comma-separated fields, trimmed, the empty last one included |
| WebhookParser.SplitParamLoop | packages/parser-go/parser.go:188-197 | a parameter is cut at its first equals sign, both sides non-empty |
| WebhookParser.ParseParams | packages/parser-go/parser.go:31-61 | the parameter loop stops at the first malformed, unknown, repeated or surplus parameter with that error |
| WebhookParser.ParseLoop | packages/parser-go/parser.go:3-67 | the scanning parser computes the grammar's meaning of a body, every error in the source's order; what it accepts and why it refuses is said by `WebhookGrammar.AcceptedIff` and `WebhookGrammar.RefusedTruly` |
| WebhookGrammar.FieldsRead | packages/parser-go/parser.go:173-209 | the fields are what lies between the commas of the body, body and fields without the blanks around them |
| WebhookGrammar.AcceptedIff | packages/parser-go/parser.go:3-171 | a body is accepted as a signal exactly when its fields are a license, a word for the command, a symbol and then its parameters, each a key of its kind and a value around the first equals sign, at most 48, comments at most 20 long, at most one volume, stop, target and entry; an opening command has a volume or risk, a pending one an entry, a loss-based volume a stop, any ATR parameter a timeframe and a period, an amendment a stop or target, a partial-volume close a risk, and switching names itself as symbol |
| WebhookGrammar.RefusedTruly | packages/parser-go/parser.go:3-171 | the error of every refused body is true of it: the field it misses, the word or key it does not know, the class it repeats, the parameter the command asks for |
| WebhookLaws.FieldsClean | packages/parser-go/parser.go:173-186 | no field holds a comma or outer white space |
| WebhookLaws.ParseJoin | packages/parser-go/parser.go:3-67 | joining clean fields with commas parses as those fields |
| WebhookLaws.ParsePrint | packages/parser-go/parser.go:3-67 | printing any accepted signal from its command name and key=value pairs parses to the same signal but for the raw command |
| WebhookLaws.AddAllIsBag | packages/parser-go/parser.go:81-131 | acceptance of parameters and the flags they raise depend only on the bag of parameters |
| WebhookLaws.OrderIrrelevant | packages/parser-go/parser.go:3-67 | permuting the parameters never changes acceptance |
| TestSignal.Build | scripts/trade_dashboard.py:1559-1602 | the parts list the dashboard joins: license, command, symbol and the wanted parameters, or a refusal |
| TestSignal.BuiltIsAccepted | scripts/trade_dashboard.py:1559-1602 | a body built from comma-free fields is accepted exactly when the license is set and the comment fits, and then carries the same values |
| TestSignal.UpperNames | packages/parser-go/lookup.go:3-78 | the dashboard's upper-case command names look up the commands meant |
| TestSignal.NoLicense | packages/parser-go/parser.go:10-15 | without a license every such body is rejected |
| LicenseConfig.ParseLoop | apps/ingress/internal/ingress/config.go:165-214 | the entry loop returns the records of the text, or the first entry's error |
| LicenseConfig.EntryReads | apps/ingress/internal/ingress/config.go:179-211 | an entry of colon-separated fields is refused exactly for fewer than four or more than seven, a blank license or instance, or a last field that is no number; else every field is read in its place, the platform assumed only where there is none |
| LicenseConfig.EntriesRead | apps/ingress/internal/ingress/config.go:165-214 | a configuration is refused exactly when an entry that is not blank is, else it gives the records of such entries in order |
| LicenseConfig.ExportRoundTripIff | apps/portal-api/app.py:862-878 | parsing the exported string gives exactly the records meant, in order, if and only if every key, secret and platform is free of the separators and of outer white space |
| LicenseConfig.PortalRoundTrip | apps/portal-api/app.py:862-878 | for keys the portal itself accepts, the round trip holds exactly when no instance key ends in a newline |
| LicenseConfig.NewlineKeyIsLost | apps/portal-api/app.py:49 | one accepted key, ending in a newline, for which it fails |
| LicenseConfig.HotReloadStore.Reload | apps/ingress/internal/ingress/license.go:66-74 | after a reload the table holds exactly the last record of each license |
| LicenseConfig.HotReloadStore.Find | apps/ingress/internal/ingress/license.go:76-87 | a lookup returns that record, or says whether it is missing or inactive |
| LicenseConfig.ReloadExport | apps/ingress/internal/ingress/license.go:66-87 | export, parse, reload, look up: the answer is the last exported instance's record |
| RateLimiter.IpRateLimiter.Allow | apps/ingress/internal/ingress/handler.go:938-955 | one call refills, caps and spends the caller's bucket only |
| RateLimiter.IpRateLimiter.Cleanup | apps/ingress/internal/ingress/handler.go:958-971 | the sweep deletes exactly the buckets idle beyond the expiry |
| RateLimiter.IdleIsFull | apps/ingress/internal/ingress/handler.go:958-971 | a bucket idle for ten minutes has refilled, for every rate the constructor derives from its burst |
| RateLimiter.EvictedIffIdle | apps/ingress/internal/ingress/handler.go:958-971 | a bucket is dropped exactly when it has not been used for more than ten minutes |
| RateLimiter.EvictionUnobservable | apps/ingress/internal/ingress/handler.go:914-971 | under a non-decreasing clock, runs with and without eviction give the same answers |
| RateLimiter.RunBudget | apps/ingress/internal/ingress/handler.go:938-955 | from any sane state a run allows an address at most its level plus what time earns |
| RateLimiter.WindowBound | apps/ingress/internal/ingress/handler.go:92-94 | in every run and every window [s,t] each address is allowed at most burst + rate (t - s) times |
| RateLimiter.AllowedIffRoom | apps/ingress/internal/ingress/handler.go:938-955 | in every run a call is allowed exactly when every window that ends with it has room for it within burst + rate (t - s): the limiter refuses nothing the bound lets through |
| RateLimiter.FreshBurst | apps/ingress/internal/ingress/handler.go:92-94 | from an address not seen before exactly the first `burst` of any number of calls at one instant are allowed |
| Hub.ConnHub.Register | apps/bridge/internal/bridge/hub.go:63-73 | a registration replaces and closes the instance's old connection and no other; the gauge stays the number of connections |
| Hub.ConnHub.Unregister | apps/bridge/internal/bridge/hub.go:75-82 | only the connection still on the table is removed |
| Hub.ConnHub.Get | apps/bridge/internal/bridge/hub.go:84-89 | a lookup returns the table's entry |
| Hub.Serve | apps/bridge/internal/bridge/handler.go:121-123 | a run of registrations and unregistrations on the table itself holds the connections of the sessions the steps name, each its own object |
| Hub.HubTracksLatest | apps/bridge/internal/bridge/handler.go:121-195 | after every interleaving of sessions a lookup returns the most recently registered connection unless that one has ended, and the gauge counts the instances |
| Hub.SupersededLeavesAlone | apps/bridge/internal/bridge/hub.go:75-82 | the end of a superseded session changes nothing |
| Hub.AllEnded | apps/bridge/internal/bridge/hub.go:63-89 | when all sessions have ended the hub is empty and the gauge is 0 |
| Dispatch.LastParamWins | apps/bridge/internal/bridge/subscriber.go:80-83 | of a repeated key the last value is sent |
| Dispatch.MessageIsSignal | apps/bridge/internal/bridge/subscriber.go:76-90 | the message written is the signal's: trace, command, symbol, and under each of its keys, and no other, the last value given |
| Dispatch.WritesItsSignal | apps/bridge/internal/bridge/subscriber.go:58-99 | what a delivery writes is its own signal; it is counted as not delivered exactly when its EA is not connected |
| Dispatch.Subscriber.Dispatch | apps/bridge/internal/bridge/subscriber.go:58-99 | one delivery's write, reply and counters, on the one connection concerned |
| Dispatch.AcksAreWrites | apps/bridge/internal/bridge/subscriber.go:58-99 | in every run the delivery that is acked is the one, and the only one, whose write succeeded, and the dispatched counter equals the acks |
| Dispatch.DeliveriesBounded | apps/bridge/internal/bridge/subscriber.go:58-99 | in every run a signal with readable metadata is acked or terminated by its 11th delivery, no delivery writes it twice and none after the 10th writes it |
| Dispatch.NakForever | apps/bridge/internal/bridge/subscriber.go:58-64 | with unreadable metadata and no connection a signal is redelivered without bound |
| Dispatch.DeliverySettles | apps/bridge/internal/bridge/subscriber.go:58-99 | every delivery of a waiting signal, by its number: read as the 11th or later, or not decodable, it terminates the signal unwritten; else it is written exactly when its EA is connected, and acked and counted exactly when that write succeeds |
| Option1.Predict | apps/ml-predictor/xgb_predictor.py:94-194 | the branch-by-branch result is the "Option 1" decision: a scored signal opens exactly when the score is above the threshold and its side is not held, closes exactly when the other side is held, and closes only exactly when it closes without passing |
| Option1.DecisionRule | apps/ml-predictor/xgb_predictor.py:94-194 | every part of the decision by direction, score and position: open, close, side, each of the summaries, and the error without a direction or a score |
| Option1.PublishedRule | apps/ingress/internal/ingress/ml.go:120-157 | the command published for every position and score: the own action in shadow mode or without a score; in enforce mode a passing side from flat, a flip that passes or else the close of the opposite position, and nothing with the own side held |
| Backtest.BranchState.Exit | apps/backtester/backtest_ml.py:210-216 | the open trade, and only it, gets its exit |
| Backtest.BranchState.Enter | apps/backtester/backtest_ml.py:218-227 | a new trade is appended and held open |
| Backtest.BranchState.Apply | apps/backtester/backtest_ml.py:196-237 | a branch's update on shared trade objects equals the update on values |
| Replay.Run | apps/backtester/backtest_ml.py:312-388 | after every replay each branch's books balance: seen = opened + pyramid + filtered, opened = closed + 1 if a trade is open, and only the last trade can be open |
| Replay.CandidatesAddUp | apps/backtester/backtest_ml.py:326-363 | candidates = scored + missing candle + incomplete features, and each branch saw its share |
| Replay.UnfilteredAlternates | apps/backtester/backtest_ml.py:167-182 | unfiltered trade directions strictly alternate |
| Replay.PassingFilterChangesNothing | apps/backtester/backtest_ml.py:312-407 | when every signal that has a candle is scored and passes, both branches are identical, trade by trade, with zero uplift |
| ReplayFilter.TradesFollowSignals | apps/backtester/backtest_ml.py:312-388 | every trade of either branch was entered on a signal of its side, at the open of the bar after the signal's candle, and left, if at all, at that of a later signal of the other side; every trade of the filtered branch was entered on a score above the threshold |
| ReplayFilter.FilterCountsBlocked | apps/backtester/backtest_ml.py:365-388 | the filtered branch's position, opens, closes, pyramids and filtered count are those of the scored signals: filtered counts those whose score does not pass and that do not find their own side held |
| ReplayFilter.PnlIsGain | apps/backtester/backtest_ml.py:160-164 | a long trade gains what the price rises, a short one what it falls, as a part of the entry price |
| ReplayFilter.ProfitAddsUp | apps/backtester/backtest_ml.py:392-404 | a branch's profit adds up trade by trade, and the uplift is what the filtered branch has over the other |
| ReplayReport.ReportAddsUpIff | apps/backtester/backtest_ml.py:258-274 | in both branches the reported counts add up if and only if no signal on the last candle turns against the position held |
| ReplayReport.UnfilteredHoldsLastSide | apps/backtester/backtest_ml.py:167-182 | the unfiltered branch always holds the side of the last signal that has a candle |
| ReplayReport.UnfilteredAddsUpIff | apps/backtester/backtest_ml.py:258-274 | so for the unfiltered branch the condition is read off the candles and signals alone |
| Replay.ReportCanMiscount | apps/backtester/backtest_ml.py:258-274 | a flip on the last candle for which they do not |
| Replay.ExitPriceImpliesEntryPrice | apps/backtester/backtest_ml.py:160-164 | with candles and signals in time order every priced exit has a priced entry, so no profit is computed from a missing price |
| Replay.TimestampIndex | apps/backtester/backtest_ml.py:320-320 | the index maps each timestamp to its last candle |
| Replay.RunComparison | apps/backtester/backtest_ml.py:312-407 | the replay loop over two branch objects computes the replay on values |
| Drawdown.MaxDrawdown | apps/backtester/backtest_ml.py:245-255 | the one-pass result is the maximum over all i <= j of equity i minus equity j, the start counted, and is attained |
| Sizing.RejectedIff | scripts/ea_shim.py:138-161 | sizing gives no lot exactly when the minimum lot would lose more than the budget |
| Sizing.LargestAffordable | scripts/ea_shim.py:138-161 | otherwise the lot is whole steps or the maximum, loses at most the budget, and no affordable whole-step lot is larger |
| Sizing.MaximumMissedIff | scripts/ea_shim.py:138-161 | the maximum lot itself is passed over exactly when the budget pays for it but not for the whole step above; then it is not a whole number of steps |
| Sizing.MaximumCanBeMissed | scripts/ea_shim.py:138-161 | an instrument and budget for which it is |
| Sizing.LossIsTicks | scripts/ea_shim.py:152-155 | a lot loses the tick value for every tick between price and stop |
| Sizing.RequestedUnsized | scripts/ea_shim.py:146-154 | without a budget, a stop, a price, a distance or the instrument's tick the requested lot is sent |
| Sizing.SizedWhateverRequested | scripts/ea_shim.py:152-161 | otherwise the request plays no part, and the step is a hundredth where the broker gives none |
| Terminal.Terminal.SendMarket | scripts/ea_shim.py:508-545 | one new position exactly when the request, or its one retry, is done; it raises exactly when the retry is not answered |
| Terminal.Terminal.SendPending | scripts/ea_shim.py:548-570 | one new resting order exactly when the broker says done, an invalid price exactly when it says so |
| Terminal.Terminal.ClosePositions | scripts/ea_shim.py:573-616 | only the shim's positions of the symbol and side are closed, all of them unless the broker refuses one, and any of them exactly when the first request is done |
| Terminal.Terminal.AmendPositions | scripts/ea_shim.py:619-654 | only positions in scope are amended, a level not given is kept, all of them unless the broker refuses one |
| Terminal.Terminal.Trade | scripts/ea_shim.py:724-776 | a flip opens only after every target is closed, and then exactly when the next request is done; it raises exactly when that request's retry is not answered |
| Terminal.Terminal.Rest | scripts/ea_shim.py:739-758 | a pending order rests, or falls back to the market exactly when its price is called invalid, or leaves the book alone |
| Terminal.Terminal.Retarget | scripts/ea_shim.py:777-792 | an amendment with nothing to set is refused |
| Terminal.Terminal.Execute | scripts/ea_shim.py:666-793 | the effect of every command on both books under every pattern of broker answers; sizing refuses before anything is sent, so a refused flip keeps its old position; what is opened or rests loses at most the budget at its stop, a market fallback exactly when the market is within the lot's reach of the stop; what is opened or rests is of the side the command names, a buy at the ask and a sell at the bid, with its lot, levels and comment; what is closed or amended is the shim's, of the symbol and of the side named; and an accepting broker leaves done all that was asked: opened, resting, every position of the side closed, every position in scope amended |
| Terminal.SentIsLargest | scripts/ea_shim.py:698-720 | the lot execute sends is affordable at the price it is sized at, and no affordable whole-step lot is larger |
| Terminal.RefusedIffOverBudget | scripts/ea_shim.py:698-714 | execute refuses exactly when the minimum lot would already lose more than the budget |
| Terminal.ReachIff | scripts/ea_shim.py:138-161 | a lot is paid for exactly within its reach of the stop |
| Terminal.NearerIsWithinReach | scripts/ea_shim.py:749-757 | a fallback keeps to the budget whenever the market is no further from the stop than the order's own price |
| Terminal.WithinReachIffResized | scripts/ea_shim.py:749-757 | with a maximum of whole steps, a fallback keeps to the budget exactly when sizing at the market would send as much |
| Terminal.FallbackOverspends | scripts/ea_shim.py:749-757 | a stop order at 100 that falls back to a market at 110 and loses twice its budget |
| Terminal.HiddenClose | scripts/ea_shim.py:765-776 | a flip reported rejected that has closed its position |
| Terminal.TradeReportedHonestly | scripts/ea_shim.py:858-858 | a market command is reported rejected exactly when it leaves its opening, or a close-only command any target, undone; the book has changed all the same exactly when a position was closed |
| Terminal.RestReportedHonestly | scripts/ea_shim.py:858-858 | a pending order is reported rejected exactly when neither it nor its fallback came about |
| LivePipeline.EnforcedCommand | apps/ingress/internal/ingress/ml.go:120-144 | the command published in enforce mode opens and closes exactly what the decision says |
| LivePipeline.TradedHolds | scripts/ea_shim.py:759-776 | a market command that fits the position leaves at most one, and the one asked for when its orders go through |
| LivePipeline.EnforcedStep | apps/ingress/internal/ingress/ml.go:399-408 | predict, map, execute with the true position: never two positions, other positions untouched; with an accepting broker the book holds the rule's position if and only if sizing lets any opening leg through |
| LivePipeline.RefusedFlip | scripts/ea_shim.py:698-714 | a concrete stop and budget: the rule asks to go from short to long, sizing refuses, and the short position stays |
| LivePipeline.FilteredPosition | apps/backtester/backtest_ml.py:365-388 | the filtered branch's position after a scored signal is the rule's |
| LivePipeline.EnforcedRun | apps/backtester/backtest_ml.py:312-388 | over every run of scored signals from a flat book: at most one position whatever the broker does, and with every order accepted the position of the backtester's filtered branch |
| LivePipeline.OwnActionStep | apps/ingress/internal/ingress/ml.go:148-153 | publishing the caller's own action (shadow mode, failed prediction) agrees with the filtered branch exactly when flat with a passing score |
| TradeStore.WalkStaysInSignal | scripts/_tradestore.py:696-762 | whatever the tables hold, the walk from a ticket yields only placed orders of a signal the ticket belongs to |
| TradeStore.WalkIsExact | scripts/_tradestore.py:696-762 | from a leg that is the first order with its ticket, and whose trace one signal lists, it yields every leg of the signal and nothing else |
| TradeStore.UpsertKeepsFields | scripts/_tradestore.py:480-541 | an upsert sets every field given, keeps the others and leaves other rows alone |
| TradeStore.Store.RecordOrder | scripts/_tradestore.py:480-541 | the table becomes the upserted one, one row a trace |
| TradeStore.Store.AppendTrace | scripts/_tradestore.py:430-478 | the trace is added once, to the one signal row with the key |
| TradeStore.Store.FindSiblings | scripts/_tradestore.py:696-762 | the sequence of scans computes the walk and the signal's channel |
| Oco.ClassifyClose | scripts/ea_shim.py:267-317 | the scan decides half, full or undecidable |
| Oco.ClassifyIff | scripts/ea_shim.py:267-317 | half exactly when the leg's own row has a target and a side and another leg's target is further on that side, undecidable exactly without a row, a target or a side |
| Oco.UpwardByName | scripts/ea_shim.py:295-305 | the buying commands profit upwards and the selling ones downwards |
| Oco.OpensWhereItProfits | scripts/ea_shim.py:697-762 | what a command opens or leaves at rest is of the side its name profits on |
| Oco.FullIffFurthest | scripts/ea_shim.py:267-317 | among legs of one side that all have a target, a leg is full exactly when no target is further, and half otherwise |
| Oco.SomeLegIsFull | scripts/ea_shim.py:267-317 | some leg of every such signal is full |
| Oco.CancelPending | scripts/ea_shim.py:190-212 | exactly the shim's resting orders among the ids are tried, and gone unless refused; no position changes |
| Oco.MoveToEntry | scripts/ea_shim.py:320-372 | exactly the shim's positions among the ids get their entry as stop, unless refused; targets and all else stay |
| Oco.OnlyStopsMove | scripts/ea_shim.py:320-372 | of a position moved only the stop changes, and of the others nothing |
| Oco.LeftIff | scripts/ea_shim.py:436-445 | a leg has left when it was the shim's at the last poll and is not a position of the shim any more |
| Oco.HandleClose | scripts/ea_shim.py:375-422 | a stop-loss, or a target that is not a half one, withdraws exactly the shim's resting siblings; a half target on a channel with breakeven gives exactly the shim's open siblings their entry as stop; anything else does nothing |
| Oco.HandleClosed | scripts/ea_shim.py:436-470 | over all legs that left since the last poll: every change is justified by a leg; with an accepting broker every resting shim order among the siblings of a leg that left at its stop, or at a target that is not a half one, is gone, and every open shim position among the siblings of a half target on a breakeven channel has its entry as stop |
| Oco.Monitor | scripts/ea_shim.py:425-470 | over every run of polls, with any changes to book and tables in between: an order is withdrawn only if it is a resting shim order of the same signal as a leg closed at its stop or at a target that is not a half one, and stops move to entry only for half targets with breakeven on; with an accepting broker each poll leaves no order of such siblings resting and no such stop off its entry |
| Indicators.Sma | apps/backtester/feature_builder.py:100-110 | the running sum gives the mean of every full window |
| Indicators.Stdev | apps/backtester/feature_builder.py:113-122 | the population deviation of every full window |
| Indicators.WindowIs | apps/backtester/feature_builder.py:100-122 | length times the mean is the sum of the window, length times the variance the squared distances from the mean |
| Indicators.Ema | apps/backtester/feature_builder.py:125-135 | the exponential average seeded with the first sample |
| Indicators.EmaStep | apps/backtester/feature_builder.py:125-135 | the average starts at the first sample and goes 2 / (length + 1) of the way to each next one |
| Indicators.RmaMoves | apps/backtester/feature_builder.py:138-150 | the smoothing starts at the mean of the first samples and goes 1 / length of the way to each next one |
| Indicators.Rma | apps/backtester/feature_builder.py:138-150 | Wilder's smoothing seeded with the first window's mean |
| Indicators.SmaPrefix | apps/backtester/feature_builder.py:100-110 | the moving average of a prefix is the prefix of the moving average |
| Indicators.StdevPrefix | apps/backtester/feature_builder.py:113-122 | so for the deviation |
| Indicators.EmaPrefix | apps/backtester/feature_builder.py:125-135 | so for the exponential average |
| Indicators.RmaPrefix | apps/backtester/feature_builder.py:138-150 | so for Wilder's smoothing |
| Indicators.RmaWithin | apps/backtester/feature_builder.py:138-150 | smoothing keeps every bound of its input |
| Indicators.RmaStaysPositive | apps/backtester/feature_builder.py:138-150 | on non-negative input a positive value stays positive for windows longer than one |
| Indicators.RmaSumBelow | apps/backtester/feature_builder.py:138-150 | smoothing is additive and monotone |
| Indicators.Rsi | apps/backtester/feature_builder.py:153-172 | the index is defined from `length` on and lies in [0, 100] |
| Indicators.StrengthMirror | apps/backtester/feature_builder.py:164-171 | swapping gains and losses turns the index around 50 |
| Indicators.RsiMirror | apps/backtester/feature_builder.py:153-172 | so does turning the prices upside down |
| Directional.RangeIsSpan | apps/backtester/feature_builder.py:175-185 | the true range is the span of a bar and the close before it |
| Directional.MirrorSwaps | apps/backtester/feature_builder.py:219-252 | turning prices upside down swaps +DI and -DI and keeps DX |
| Directional.AlignPrefix | apps/backtester/feature_builder.py:188-211 | aligning a prefix gives the prefix of aligning the whole, for every filter without lookahead |
| Directional.AlignFromFirstDefined | apps/backtester/feature_builder.py:188-211 | the scan and copy loops compute the alignment, raising exactly on a hole |
| Directional.TrueRange | apps/backtester/feature_builder.py:175-185 | the true range of each bar after the first |
| Directional.Atr | apps/backtester/feature_builder.py:214-216 | the smoothed true range, first defined at bar `length` |
| Directional.MovesWithinRange | apps/backtester/feature_builder.py:227-231 | on proper candles plus and minus movement together stay within the true range |
| Directional.Dmi | apps/backtester/feature_builder.py:219-254 | the three series, never raising for windows longer than one |
| Directional.DxDefined | apps/backtester/feature_builder.py:240-252 | the imbalance is defined exactly where the smoothed range is not zero |
| Directional.AdxNeverRaises | apps/backtester/feature_builder.py:188-254 | once defined the imbalance has no hole, so its alignment never raises |
| Directional.AdxRaisesIff | apps/backtester/feature_builder.py:188-254 | for every window the alignment raises if and only if the window is one and a bar that moves is followed by one that does not |
| Directional.StallRaises | apps/backtester/feature_builder.py:188-254 | three bars on which it does |
| Directional.IndicatorsBounded | apps/backtester/feature_builder.py:240-252 | on proper candles +DI and -DI are non-negative with sum at most 100 and DX lies in [0, 100] |
| Directional.AdxWithin | apps/backtester/feature_builder.py:253-254 | the ADX series exists and lies in [0, 100] |
| Directional.DmiPrefix | apps/backtester/feature_builder.py:219-254 | none of the three series looks ahead |
| Features.LastClosedBinIsLast | apps/backtester/feature_builder.py:264-270 | the bin returned is the last whose last bar is at or before i, absent exactly before the first bin ends |
| Features.ClosedBinExists | apps/backtester/feature_builder.py:352-356 | that bin always exists in the resampled list |
| Features.Resample | apps/backtester/feature_builder.py:273-278 | the strided loop collects the close of every full bin |
| Features.ResampledPrefix | apps/backtester/feature_builder.py:273-278 | later candles only append bins |
| Features.BuildAtSame | apps/backtester/feature_builder.py:358-490 | all 35 features of a bar agree between builders whose series agree up to it; what each of them is, is said by the rows of `FeatureLaws` |
| Features.Construct | apps/backtester/feature_builder.py:307-347 | the constructor computes all series, and fails exactly when a close before the last is zero |
| Features.NoLookahead | apps/backtester/feature_builder.py:307-490 | for every extension of the series the features of a bar are unchanged; the constructor fails exactly on a zero close before the last |
| Features.ZeroCloseIsNoticed | apps/backtester/feature_builder.py:330-332 | three bars whose middle close is zero: the constructor fails, though on the first bar alone it does not |
| FeatureLaws.ReturnsMean | apps/backtester/feature_builder.py:366-377 | at each of the six lags the close is the close so many bars before, times one plus the return |
| FeatureLaws.ShapeMean | apps/backtester/feature_builder.py:379-382 | range, body and both wicks as parts of the close |
| FeatureLaws.VolatilityMean | apps/backtester/feature_builder.py:384-388 | the average range as a part of the close, and the deviations of the last 72 and 288 returns |
| FeatureLaws.TrendMean | apps/backtester/feature_builder.py:390-406 | the distances of the close from its four averages, and the two slopes over 12 and 48 bars |
| FeatureLaws.StrengthMean | apps/backtester/feature_builder.py:153-172 | relative strength is the share of smoothed gains in smoothed gains and losses, in percent, 50 without either |
| FeatureLaws.DirectionMean | apps/backtester/feature_builder.py:219-261 | plus and minus are the smoothed upward and downward movement in percent of the smoothed range, and the average is that of their imbalance from the first bar that has a range |
| FeatureLaws.BandsMean | apps/backtester/feature_builder.py:413-422 | the distance from the 20-bar mean in deviations, the width of the bands, and how many of the last 288 bars moved |
| FeatureLaws.HigherMean | apps/backtester/feature_builder.py:424-441 | the last closed bin of each timeframe against its average, and the return over 24 bins |
| FeatureLaws.CalendarMean | apps/backtester/feature_builder.py:443-448 | hour, weekday, month, minute of the day and session |
| FeatureTrends.StrengthExtremes | apps/backtester/feature_builder.py:153-172 | relative strength is 100 exactly when closes have risen and never fallen, 0 exactly when they have fallen and never risen, 50 when neither |
| FeatureTrends.DirectionSigns | apps/backtester/feature_builder.py:219-261 | plus is zero exactly when no bar has moved up and minus exactly when none has moved down; when every bar moves up, plus is positive, minus zero and the average 100, and the other way down |
| FeatureTrends.LevelPrices | apps/backtester/feature_builder.py:366-419 | while closes are level every return, every distance from an average and both slopes are zero, and for want of a deviation the bar has no features |
| FeatureScale.UnitOfPriceIsIrrelevant | apps/backtester/feature_builder.py:307-490 | multiplying every price by one positive factor changes none of the 35 features of any bar |
| FeatureWarmup.CompleteIffReady | apps/backtester/feature_builder.py:358-490 | a bar has features exactly from 288 bars, 25 bins of the one and one bin of the other timeframe on, with a range 13 bars ago and no zero close, average, mean or deviation to divide by |
| ReplayFeatures.ReplayLooksNotAhead | apps/backtester/backtest_ml.py:312-407 | with scores computed from the candles, extending the candles leaves every decision, position and count on the earlier signals as it was in both branches, and every price once its fill bar is there |

## Left out

- WebSocketFrame.ParseInto: does not model the cast of 64-bit lengths of 2^31 and more to a C `int`.
- WebSocketReader.Session: frames are at most the receive buffer and the payload buffer, payloads longer than the caller's buffer are cut to it, and empty data frames read like a timeout, as in the source; fragmented messages are read frame by frame.
- Sha1.Context.Update: a single update is shorter than 2^32 - 64 octets, the size type of the 32-bit library.
- Varint.Write: only natural numbers; the source's loop does not end on a negative one.
- WebhookParser.ParseLoop: the error for closing everything without a symbol is not modelled, since the symbol is never empty there.
- TestSignal.BuiltIsAccepted: upper-casing, stripping and number formatting are parameters with the laws used stated in `Lawful`.
- Terminal.Terminal.Execute: the symbol is already resolved (alias map and suffixes are left out), one tick serves the whole call, fills happen at the tick, and the returned order numbers are left out.
- LivePipeline.EnforcedRun: signals are scored and the position given to the predictor is the one on the book; position lookup in the database is left out.
- TradeStore.Store.FindSiblings: the `LIKE` prefilter is taken to let through every row that lists the trace, which holds for traces that JSON does not escape.
- TradeStore.Store.RecordOrder: only the columns the walk reads are kept.
- Oco.Monitor: an exception inside a poll, which the source logs and survives, is left out, as are equity snapshots and heartbeats.
- Features.Construct: lengths and factors are at least 1.
- Replay.PassingFilterChangesNothing: profit of a trade with a zero or missing entry price, where the source raises, counts as none.
- Rounding: floating point and display rounding are exact reals, except the eight-digit rounding of lots, which is modelled.
- Handshake, base64, pong and close frames of the WebSocket client; the SHA-1 compression rounds.
- HTTP handlers, HMAC and token checks, databases, NATS, model inference, the MetaTrader API itself, dashboards, reports and metrics.
- `buildMLSignal`, `resolveCurrentPosition` and the audit rows of the ML webhook.
