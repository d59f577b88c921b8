# Remote DSpark: proofs about the speculative-decoding protocol

This Dafny project models remote speculative decoding as this repository does it. A
server-side sender captures the target model's hidden states and ships those of committed
positions; an edge daemon keeps a draft KV cache and drafts a block of tokens from it; a
session service guards each engine against replays; a renderer previews accepted and
rejected tokens; a recorder and a replayer exchange golden traces. It also covers the
dashboard's log retention and streaming and its argument tokenizer.

How it is built:

- Objects whose methods change fields are classes (`Engine`, `Sender`, `Session`,
  `Service`, `Renderer`, `Recorder`, `ProcessManager`, `LogStore`, `LogFeed`), and loops
  are loops over arrays and sequences. Methods that change such an object are proved
  equal to a function of inputs and old state, and the theorems are about those
  functions; helper methods over buffers state what they put where.
- Every call into llama takes its outcome from a *fate* that the caller of the model
  chooses. Theorems hold for all fates, so they cover every way in which `llama_encode`
  and `llama_decode` can fail, between and inside chunks. The assumed contract: a decode
  refuses a batch that does not continue a non-empty cache, and one that fails may leave
  any prefix of its batch. The draft model is an arbitrary function of cache, noise batch
  and tokens drafted so far; the target's hidden states are an arbitrary function of the
  token prefix.
- The protocol, the handler threads and the renderer's queue are state machines; results
  about them quantify over all runs or schedules.

| file | content |
|---|---|
| `Bf16.dfy`, `Layout.dfy`, `Wire.dfy` | the bf16 encoding, flat feature buffers, messages |
| `DraftEngine.dfy`, `CacheCleanup.dfy` | the edge engine and its cache invariant |
| `RemoteSender.dfy`, `Accounting.dfy`, `FeatureTransport.dfy` | the sender, its statistics, transport end to end |
| `DraftService.dfy`, `Handlers.dfy`, `Serialization.dfy` | the service, its locks, any schedule as a sequential run |
| `EventOrder.dfy`, `LateReset.dfy`, `QueuedEvents.dfy` | the order in which preview events are queued, a schedule in which a reset's comes late, and which events they are |
| `Protocol.dfy`, `CacheAgreement.dfy`, `LostMessages.dfy` | sender and session over a lossy network |
| `Provenance.dfy`, `Unreliable.dfy`, `Witnesses.dfy` | the same over any run at all, with resets, prefills and captures that fail |
| `Transcript.dfy`, `EventQueue.dfy`, `Preview.dfy` | the preview renderer, its queue, the preview of a protocol run |
| `FileNames.dfy`, `GoldenTrace.dfy`, `RecordReplay.dfy`, `ReplayFaults.dfy` | recorded traces, their names, their replay, with llama failing in either |
| `ProcessLogs.dfy`, `LogStream.dfy`, `ArgTokenizer.dfy` | the dashboard's logs and argument line |
| `Lists.dfy` | common prefixes and sorting, for several of these |

What the theorems of `CacheAgreement.dfy`, `LostMessages.dfy` and `Preview.dfy` rely on
(`Protocol.Relied`), each of which the code takes for granted: `process()` captures every
decode; `reset` and `prefill` are delivered, and `prefill` succeeds (the server ignores
both results); `begin()` follows a decoded, non-empty prompt; `n_past` grows from one
draft to the next within a generation; no Draft arrives after the next `begin()`. The
theorems of `Unreliable.dfy` need none of these: over any run at all they say exactly when
a Draft, late or not, is answered ok, when one of the generation is drafted from the right
place, and when a shipment is genuine; `Preview.PreviewShowsLastDraft` holds over any run
as well. `Witnesses.dfy` gives runs in which a lost reset and
an uncaptured decode do harm.

Where code and documentation disagree the model follows the code: `proto/dspark.proto`
(lines 80-82) asks the drafter to truncate its cache at `position`, while the engine
ignores that field and truncates at its own confirmed mark; line 67 calls `n_positions` the
drafter's fill level, which an empty prefill over a non-empty cache does not report.

## Model

| member | source | states |
|---|---|---|
| `CacheAgreement.CacheAgreement` | server_patches/remote_dspark_impl.h:197-250 | Over every run (decodes, partial acceptances, new prompts that share a prefix, begins, drafts; Draft requests lost, repeated, reordered or broken half-way by llama): the edge's confirmed cells are exactly positions 0..kv_confirmed_max_, that mark never passes n_sent, and cell p holds the bf16 features of the server's committed tokens[..p+1]. |
| `CacheAgreement.DraftFromRightPlace` | tools/llama-dspark-grpcd/dspark_engine.cpp:246-346 | Any Draft of the generation that is answered ok, whichever delivery it is: the daemon held exactly positions 0..n_past-1 of that call with their genuine features, the noise block lay at n_past onward with the anchor (or, for id 0, the last confirmed token) first and masks after it, and the tokens answered are, one after another, those that the model names over that cache and block after the ones before, at most as many as both limits allow and fewer only where it names none. |
| `CacheAgreement.RejectedWorkNeverLeaks` | server_patches/remote_dspark_impl.h:211-269 | Over every run in which process() captures each decode: each packet of a prefill or a request was captured by a decode whose prefix is the committed one, prefill and request together cover exactly the unsent committed range in order, the request names the last position shipped before it and asks from id_last for no more than min(n_max, block_size), although feats also holds stale packets past n_past; the target is handed exactly the tokens of an ok reply and none otherwise. (Decodes that are skipped or fail: Unreliable.ShipsLastCaptured.) |
| `CacheAgreement.NeverWronglyStale` | tools/llama-dspark-grpcd/grpc_service.cpp:124-129 | With resets delivered, the guard never exceeds the server's step id, so a fresh request always passes it. |
| `CacheAgreement.EventAgrees` | server_patches/remote_dspark_impl.h:103-269 | Every single protocol event keeps the cache agreement. |
| `CacheAgreement.ShipmentOf` | server_patches/remote_dspark_impl.h:224-269 | What one draft ships and proposes: the prompt as prefill the first time, then the packets n_sent+1..n_past-1, under the next step id and the last shipped position; the tokens of an ok reply go to the target. |
| `CacheAgreement.ShipmentAtEdge` | tools/llama-dspark-grpcd/dspark_engine.cpp:253-276 | At an agreeing edge a shipment goes in only where the edge stopped and then extends the confirmed cells; otherwise they stay, and what is left above them is transient. |
| `CacheAgreement.FreshDelivery` | tools/llama-dspark-grpcd/dspark_engine.cpp:246-293 | A fresh request at an agreeing edge, for every fate of the llama calls: where the confirmed mark ends up, and that agreement is kept either way. |
| `CacheAgreement.DecodeCaptures` | server_patches/remote_dspark_impl.h:155-171 | A batch decoded at n_past leaves a genuine packet for every position of committed tokens plus batch, overwriting the stale ones. |
| `LostMessages.FailedShipmentSticks` | tools/llama-dspark-grpcd/dspark_engine.cpp:266-270 | A fresh delivery leaves the edge behind the request it ran exactly when its packets did not all go in. |
| `LostMessages.SkippedShipmentSticks` | tools/llama-dspark-grpcd/dspark_engine.cpp:266-270 | Running a request while an earlier non-empty one has not arrived fails and leaves the edge behind. |
| `LostMessages.StuckStays` | tools/llama-dspark-grpcd/dspark_engine.cpp:266-270 | No event short of begin() gets such an edge going; every delivery to it is answered not ok. |
| `LostMessages.MissingFailsLater` | server_patches/remote_dspark_impl.h:234-244 | Over every run, while the packets of a request have not gone in, every later request of the generation is answered not ok, and the first of those to run passes the missing one by. |
| `LostMessages.GapNeverCloses` | server_patches/remote_dspark_impl.h:234-244 | Over every run in which the edge passed a request whose packets never went in (lost, or broken by llama), and every continuation without begin(), every Draft of the generation fails rather than drafting over the gap. |
| `LostMessages.AnsweredExactlyInOrder` | tools/llama-dspark-grpcd/dspark_engine.cpp:253-276 | With llama not failing, over every run, a request is answered ok if and only if it is fresh and starts where the edge stopped: requests that arrive in order are all answered. |
| `LostMessages.BeginRecovers` | server_patches/remote_dspark_impl.h:103-126 | With llama not failing, from any reachable state with a non-empty prompt, stuck or not, begin() makes the next generation's prefill go in and its first request be answered ok. |
| `LostMessages.PrefillDecidesPlace` | server_patches/remote_dspark_impl.h:229-232 | The ignored prefill result: the first Draft is answered ok in any case, and its block sits at n_past if and only if the prefill went in; if not it sits at position 0. |
| `Unreliable.AnsweredInPlaceExactly` | tools/llama-dspark-grpcd/dspark_engine.cpp:246-346 | Over any run at all (resets and prefills lost or failing, prompts of any length, decodes not captured, any delivery): a Draft answered ok was drafted over exactly what the edge held plus what the request carried, its block right above, and holds the tokens that the model names over that cache one after another; it was drafted from the right place if and only if that is all positions below n_past, each with the cell of the current generation's tokens. |
| `Unreliable.AnsweredExactly` | tools/llama-dspark-grpcd/dspark_engine.cpp:246-293 | Over any run at all, with llama not failing, a request is answered ok if and only if it is fresh and it carries nothing, or the edge holds nothing, or it starts where the edge stopped. |
| `Unreliable.LateDraftExactly` | tools/llama-dspark-grpcd/grpc_service.cpp:124-129 | Over any run at all, a Draft that arrives after the next begin(): when it is answered ok, what it was drafted over and what stays confirmed; with llama not failing it is answered ok if and only if its id is above the restarted guard and it carries nothing, or the edge holds nothing, or it starts where the edge stopped. |
| `Unreliable.ShipsLastCaptured` | server_patches/remote_dspark_impl.h:129-174 | Over any run at all, whatever process() skipped or failed on: a draft ships for each position the packet of its last captured decode; prefill and request are genuine if and only if those packets are the committed prefix's own, in particular when the latest decode of every shipped position was captured. |
| `Unreliable.HeldExactly` | tools/llama-dspark-grpcd/dspark_engine.cpp:253-276 | An edge holds a generation's cells in place exactly when what it confirmed covers all positions below n_past with equal cells. |
| `Provenance.RunSourced` | server_patches/remote_dspark_impl.h:103-269 | Over any run at all, each packet in feats, each packet of a request and each confirmed cell is that of a known token prefix. |
| `Provenance.DeliveryOnto` | tools/llama-dspark-grpcd/dspark_engine.cpp:246-293 | A fresh request at any edge, for every fate: when it goes in, when it is answered ok, and what the edge then holds. |
| `Provenance.PrefillOnto` | tools/llama-dspark-grpcd/dspark_engine.cpp:214-229 | A prefill at any edge, leftovers or not: it goes in only where nothing is held, and otherwise changes nothing that is confirmed. |
| `Provenance.ShipmentTraced` | server_patches/remote_dspark_impl.h:211-244 | The packets that a draft ships are those of the prefixes on record. |
| `Witnesses.LostResetDraftsOverOldCells` | server_patches/remote_dspark_impl.h:103-126 | A run with one lost reset: the new prompt's prefill fails on the old cells and is ignored; the request that starts at the old mark is answered ok and is drafted over the previous generation's cells, rightly placed if and only if those equal the new tokens' own. |
| `Witnesses.OldEdgeAnswers` | tools/llama-dspark-grpcd/dspark_engine.cpp:246-293 | At an edge left over from the generation before, a fresh request is answered ok if and only if it is empty or starts at the old mark; it is rightly placed if and only if the mark then is n_past and the old cells are the new tokens' own. An empty first request is drafted at the old mark. |
| `Witnesses.UncapturedDecodeLeaks` | server_patches/remote_dspark_impl.h:134-149 | A run in which a rejected token leaks: its packet is shipped at the position where a decode that process() skipped or failed on committed another token. |
| `LostMessages.EmptyEdgeTakesAnything` | tools/llama-dspark-grpcd/dspark_engine.cpp:253-276 | With llama never failing, a shipment goes in exactly when it continues what is held or nothing is held, and agreement survives exactly in the former case: after an empty prompt a lost shipment leaves a gap that is drafted over. |
| `CacheCleanup.CleanupInvariant` | tools/llama-dspark-grpcd/dspark_engine.cpp:253-276 | In every state reachable by prefills, drafts and resets with any llama failures, as long as no prefill with tokens succeeds on top of leftovers (failed and empty prefills and retries are included; PrefillTidiesExactly shows the rest does break it): the cache is the confirmed cells plus cells strictly above kv_confirmed_max_, and the first step of draft() restores exactly the confirmed cells. |
| `CacheCleanup.DecodeOutcome` | tools/llama-dspark-grpcd/dspark_engine.cpp:203-208 | A decode of consecutive positions leaves a prefix of its batch, all of it when it reports success, and a non-empty cache only grows at its end. |
| `CacheCleanup.InjectOutcome` | tools/llama-dspark-grpcd/dspark_engine.cpp:134-212 | Chunked injection leaves the cells of a prefix of the shipment whatever chunk fails and however, the whole shipment when it reports success. |
| `CacheCleanup.TakeAcceptedTidies` | tools/llama-dspark-grpcd/dspark_engine.cpp:266-276 | Injecting at a clean cache confirms exactly the shipment, or on failure leaves the confirmed cells and only leftovers above the mark. |
| `CacheCleanup.FaultlessInjection` | tools/llama-dspark-grpcd/dspark_engine.cpp:134-212 | With llama never failing, a well-formed shipment goes in if and only if it is empty, or the cache is, or it starts right after the cache's end. |
| `CacheCleanup.NoiseStaysAbove` | tools/llama-dspark-grpcd/dspark_engine.cpp:295-346 | The noise block goes right above the cache, disturbs nothing below, and is answered ok exactly when its decode succeeds, with the tokens that the model names over the decoded block, each after the ones before it. |
| `CacheCleanup.SampleFollows` | tools/llama-dspark-grpcd/dspark_engine.cpp:320-343 | The sampling loop stops at the limit or where the model names no token, and each token is the one named after those before it. |
| `CacheCleanup.SampledIsUnique` | tools/llama-dspark-grpcd/dspark_engine.cpp:320-343 | Only one token list fits that description. |
| `CacheCleanup.DraftTidies` | tools/llama-dspark-grpcd/dspark_engine.cpp:246-293 | One draft, with any failure, keeps the invariant. |
| `CacheCleanup.PrefillTidiesExactly` | tools/llama-dspark-grpcd/dspark_engine.cpp:214-229 | prefill() drops no leftovers first: it keeps the invariant if and only if it brings nothing, or fails, or found no leftovers. |
| `CacheCleanup.PrefillReportsFill` | tools/llama-dspark-grpcd/dspark_engine.cpp:214-229 | n_positions, meant as the drafter's fill level: a successful prefill reports one past the highest position held if and only if it brought tokens or nothing is held; an empty prefill over a non-empty cache reports 0, and so does a failed one. |
| `CacheCleanup.PrefillAfterDraftConfirmsNoise` | tools/llama-dspark-grpcd/dspark_engine.cpp:214-229 | The failing case is real: with one tap layer of hidden size 1, a prefill right after a draft succeeds and leaves a noise cell below the confirmed mark. |
| `DraftEngine.MaxPos` | tools/llama-dspark-grpcd/dspark_engine.cpp:304 | llama_memory_seq_pos_max: -1 exactly for an empty cache, else the highest position in it. |
| `DraftEngine.Engine.constructor` | tools/llama-dspark-grpcd/dspark_engine.cpp:231-244 | A new engine is in the state that reset() leaves. |
| `DraftEngine.Engine.UnpackFeatures` | tools/llama-dspark-grpcd/dspark_engine.cpp:124-132 | Empty on a size mismatch (or size zero), else the unpacked row. |
| `DraftEngine.Engine.PackChunk` | tools/llama-dspark-grpcd/dspark_engine.cpp:145-165 | The copy loops: fails exactly when some packet has the wrong size, else row i of the encoder buffer is the unpacked row of packet i. |
| `DraftEngine.Engine.ChunkEntries` | tools/llama-dspark-grpcd/dspark_engine.cpp:190-198 | The decode batch: one entry a token, at the token's position, with its row. |
| `DraftEngine.Engine.InjectOneChunk` | tools/llama-dspark-grpcd/dspark_engine.cpp:143-208 | One turn of the chunk loop, with either llama call failing. |
| `DraftEngine.Engine.InjectFeatures` | tools/llama-dspark-grpcd/dspark_engine.cpp:134-212 | The chunk loop equals the recursive specification that the lemmas are about. |
| `DraftEngine.Engine.PrefillFeatures` | tools/llama-dspark-grpcd/dspark_engine.cpp:214-229 | New engine state and reply of prefill(), success and failure. |
| `DraftEngine.Engine.Reset` | tools/llama-dspark-grpcd/dspark_engine.cpp:231-244 | Back to the fresh state. |
| `DraftEngine.Engine.DraftFeatures` | tools/llama-dspark-grpcd/dspark_engine.cpp:246-293 | New engine state and reply of draft(), for every failure. |
| `DraftEngine.Engine.RunDraftBlock` | tools/llama-dspark-grpcd/dspark_engine.cpp:295-346 | The noise batch and the sampling loop: cache and reply, with the confidence and empty-candidate breaks. |
| `RemoteSender.Sender.BeginGeneration` | server_patches/remote_dspark_impl.h:103-126 | The bookkeeping restarts and exactly the packets at or past the prompt's end are dropped. |
| `RemoteSender.Sender.Process` | server_patches/remote_dspark_impl.h:129-174 | When a batch is skipped, when it fails and leaves feats alone, and else the packet stored for every position, a later one overwriting an earlier. |
| `RemoteSender.Sender.StoreAll` | server_patches/remote_dspark_impl.h:138-171 | Both loop nests of process(): concatenated, truncated and stored. |
| `RemoteSender.Sender.StoreRows` | server_patches/remote_dspark_impl.h:155-171 | The packing loop: one packet a token under its position. |
| `RemoteSender.Sender.GatherRange` | server_patches/remote_dspark_impl.h:211-222 | The packets of lo..hi in order, or nothing when one is missing. |
| `RemoteSender.Sender.DraftOnce` | server_patches/remote_dspark_impl.h:176-269 | New sender state, prefill and request of one draft(), including the early returns. |
| `RemoteSender.Sender.Send` | server_patches/remote_dspark_impl.h:234-269 | The request under the next step id, the range sent, and the counters for either answer. |
| `RemoteSender.Sender.Account` | server_patches/remote_dspark_impl.h:199-209 | The accepted-token count. |
| `RemoteSender.Sender.SelectDrafting` | server_patches/remote_dspark_impl.h:181-191 | The first sequence that wants a draft. |
| `RemoteSender.GatherStops` | server_patches/remote_dspark_impl.h:211-222 | A missing position anywhere in the range makes gather fail. |
| `RemoteSender.ShipsExactlyWhenPresent` | server_patches/remote_dspark_impl.h:211-269 | For any features: a request goes out if and only if every position it or its prefill needs is there; otherwise nothing is shipped, proposed or marked as sent, and only a draft past its prefill uses up a step id; with a request, the target gets the tokens of an ok reply. |
| `RemoteSender.DraftServesFirst` | server_patches/remote_dspark_impl.h:181-191 | draft() runs for the first sequence that wants a draft and for no other, and does nothing when none wants one. |
| `FeatureTransport.TransportIsExact` | server_patches/remote_dspark_impl.h:138-171 | For all layer counts, hidden sizes and token counts: element j of layer k of an encoder row that was unpacked from token i's packet (which row that is follows in CarryAcross) is the bf16 truncation of element j of row i of server layer k. |
| `FeatureTransport.CarryAcross` | server_patches/remote_dspark_impl.h:129-174 | Call by call: process() captures a batch, draft() gathers it, the chunk loop unpacks n packets from any offset; element j of layer k of buffer row r is the truncation of row offset + r of that server layer. |
| `FeatureTransport.RowAfterWire` | tools/llama-dspark-grpcd/dspark_engine.cpp:124-132 | A packet that process() stores unpacks at the edge, to the truncation of the token's concatenated row. |
| `FeatureTransport.InjectsOnceInOrder` | tools/llama-dspark-grpcd/dspark_engine.cpp:142-209 | For every micro-batch size, an injection that succeeds wrote each token once, in order, at its own position. |
| `Layout.ConcatLayers` | server_patches/remote_dspark_impl.h:138-153 | The first loop nest: row i of the buffer is token i's rows of all tap layers, concatenated. |
| `Layout.TokenRowAt` | proto/dspark.proto:47-51 | Element j of layer k of a token's row, at k * hidden_size + j, is that layer's value. |
| `Layout.PlaceBlock` | tools/llama-dspark-grpcd/dspark_engine.cpp:155-157 | One copied block lands in its place and every other block keeps its values. |
| `Layout.FillNext` | tools/llama-dspark-grpcd/dspark_engine.cpp:146-158 | The copy loops fill the buffer block by block, layer by layer. |
| `Layout.RowsFilled` | tools/llama-dspark-grpcd/dspark_engine.cpp:145-165 | After the last layer every row is complete. |
| `Bf16.PackRow` | server_patches/remote_dspark_impl.h:163-169 | The packing loop: two little-endian bytes a value, its upper half. |
| `Bf16.Bf16ToF32` | tools/llama-dspark-grpcd/dspark_engine.cpp:17-27 | The unpacking loop. |
| `Bf16.UnpackPack` | server_patches/remote_dspark_impl.h:163-169 | Packing then unpacking truncates each value and nothing else. |
| `Bf16.WireIsLittleEndian` | server_patches/remote_dspark_impl.h:163-169 | On the wire each value is its upper 16 bits, the lower byte first, and is read back as those bits over 16 zero bits. |
| `Bf16.TruncationBound` | server_patches/remote_dspark_impl.h:163-169 | For every finite value (binary32, section 3.4 of IEEE 754-2008): sign and exponent kept, magnitude never larger, idempotent, error below 2^-7 relative for normal and 2^-133 absolute for subnormal values. |
| `Bf16.TruncationKeepsOrder` | server_patches/remote_dspark_impl.h:163-169 | Truncation never reverses two finite values. |
| `Bf16.MagnitudeFollowsPattern` | server_patches/remote_dspark_impl.h:163-169 | The order of patterns below the sign bit is the strict order of the values they encode. |
| `Bf16.NonFiniteClass` | server_patches/remote_dspark_impl.h:163-169 | Every infinity or NaN stays non-finite with its sign; it keeps its class, infinity or NaN, if and only if its payload is zero or reaches into the kept half. |
| `Bf16.NanMayBecomeInfinity` | server_patches/remote_dspark_impl.h:163-169 | The NaN 0x7F800001 arrives as an infinity. |
| `Accounting.AcceptanceTelescopes` | server_patches/remote_dspark_impl.h:199-209 | k drafts of one generation at growing n_past add n_past_last - n_past_first - (k-1) to accepted_tokens, whatever the replies and features. |
| `Accounting.RoundTripsAddUp` | server_patches/remote_dspark_impl.h:246-263 | Over any number of generations: grpc_calls counts the requests sent, draft_blocks those answered ok and fallback_steps the others, so that both add up to grpc_calls; `connected` is the last answer's ok. |
| `Accounting.AcceptedWithinDrafted` | server_patches/remote_dspark_impl.h:199-263 | If the target accepts at most the proposed block, accepted_tokens never exceeds draft_tokens, with what is still open held in reserve. |
| `Accounting.DraftCounts` | server_patches/remote_dspark_impl.h:199-263 | How one draft moves every counter, and `connected`. |
| `DraftService.AtMostOnce` | tools/llama-dspark-grpcd/grpc_service.cpp:124-129 | Between resets the engine runs strictly increasing step ids, all above the guard it started from, however drafts are repeated or reordered; the guard is the last of them. |
| `DraftService.HistoryIndependence` | tools/llama-dspark-grpcd/grpc_service.cpp:185-192 | After a Reset all later replies equal those of a new session given the same calls, for every earlier history. |
| `DraftService.AfterReset` | tools/llama-dspark-grpcd/grpc_service.cpp:185-192 | And so does the session's state. |
| `DraftService.AnswerKinds` | tools/llama-dspark-grpcd/grpc_service.cpp:122-140 | Every Draft is refused as stale with nothing changed, or fails on its packets, or fails on its noise block, or is ok, each told apart by its error text; only an ok answer has tokens, and all but a stale one carry the request's step id. |
| `DraftService.CallAnnounces` | tools/llama-dspark-grpcd/grpc_service.cpp:96-193 | What the preview is told: a draft that is not stale announces the accepted tokens and then the tokens it is answered, a prefill its tokens unless empty, a reset that all is cleared. |
| `DraftService.Session.RunDraft` | tools/llama-dspark-grpcd/grpc_service.cpp:122-140 | Guard first, then the engine: state and reply. |
| `DraftService.Session.RunReset` | tools/llama-dspark-grpcd/grpc_service.cpp:185-192 | Engine and guard back to a new session's. |
| `DraftService.Service.constructor` | tools/llama-dspark-grpcd/grpc_service.cpp:58-63 | No sessions; ids start at 1. |
| `DraftService.Service.InitSession` | tools/llama-dspark-grpcd/grpc_service.cpp:38-81 | A session is created under an unused id exactly when a model id is given and the engine comes up; other sessions are untouched; the answer carries the model's handshake, or the reason. |
| `DraftService.Service.Describe` | tools/llama-dspark-grpcd/grpc_service.cpp:65-74 | The handshake: layer ids in order, hidden and block size, dtype, model id. |
| `DraftService.Service.CreateSession` | tools/llama-dspark-grpcd/grpc_service.cpp:58-63 | A new session under the next id. |
| `DraftService.Service.AddSession` | tools/llama-dspark-grpcd/grpc_service.cpp:58-63 | The table gains the new session and nothing else. |
| `DraftService.Service.GetSession` | tools/llama-dspark-grpcd/grpc_service.cpp:199-203 | Null exactly for an unknown id. |
| `DraftService.Service.PrefillSession` | tools/llama-dspark-grpcd/grpc_service.cpp:83-108 | Only the named session moves, by the sequential specification; the renderer is told of non-empty prefills only; unknown ids change nothing. |
| `DraftService.Service.DraftSession` | tools/llama-dspark-grpcd/grpc_service.cpp:110-171 | The same for Draft: verdict then draft events exactly when the request was not stale. |
| `DraftService.Service.LockedDraft` | tools/llama-dspark-grpcd/grpc_service.cpp:122-156 | The part of Draft that changes the session. |
| `DraftService.Service.ResetSession` | tools/llama-dspark-grpcd/grpc_service.cpp:173-197 | The same for Reset. |
| `Handlers.DeadlockFreedom` | tools/llama-dspark-grpcd/grpc_service.cpp:58-63 | For any number of handlers and sessions, in every state any schedule reaches, some unfinished thread can step. |
| `Handlers.LockOrder` | tools/llama-dspark-grpcd/grpc_service.cpp:178-193 | Locks are taken in one order: the table, a session, the renderer's queue. |
| `Handlers.StepLocks` | tools/llama-dspark-grpcd/grpc_service.cpp:88-103 | A step takes or drops exactly the lock it names. |
| `Handlers.AdvanceKeepsLocks` | tools/llama-dspark-grpcd/grpc_service.cpp:115-168 | Mutual exclusion: every step keeps each lock's owner and the threads' view of it in accord. |
| `Handlers.SomeHolderSteps` | tools/llama-dspark-grpcd/watch_renderer.cpp:27-33 | Whoever waits, a holder further along the lock order can go on. |
| `Serialization.AnyScheduleIsSequential` | tools/llama-dspark-grpcd/grpc_service.cpp:88-108 | Any interleaving equals, session by session, a sequential run of that session's calls in lock order: an unlocked session's state and every finished handler's answer are that run's. |
| `EventOrder.EventsInLockOrder` | tools/llama-dspark-grpcd/grpc_service.cpp:158-193 | In every schedule only a Reset's preview event can be queued after one of a later turn of its session, as it is pushed after the session's lock is dropped. |
| `EventOrder.WaitingCallerSeesLockOrder` | tools/llama-dspark-grpcd/grpc_service.cpp:191-193 | In every schedule in which no other call of a session is in flight while a Reset of it is, the session's events are queued in lock order. As Reset pushes before it answers, a caller that waits for each answer meets this. |
| `LateReset.ResetCanBeLate` | tools/llama-dspark-grpcd/grpc_service.cpp:178-197 | A schedule of an overlapping Reset and Prefill in which the Reset, first to take the lock, is last to queue its event. |
| `EventOrder.PushTakesItsTurn` | tools/llama-dspark-grpcd/grpc_service.cpp:96-101 | A Prefill or Draft pushes its events while its turn is the session's latest. |
| `QueuedEvents.HandlersQueueTheirEvents` | tools/llama-dspark-grpcd/grpc_service.cpp:96-193 | In every schedule a finished handler has queued exactly the events that the sequential run of its session announces at its turn, in order; one that found no session has queued nothing. |
| `QueuedEvents.QueueIsFifo` | tools/llama-dspark-grpcd/watch_renderer.cpp:12-71 | In every schedule the renderer's worker has taken what the handlers queued, in that order, up to what is still queued. |
| `Serialization.MidwayStep` | tools/llama-dspark-grpcd/grpc_service.cpp:122-156 | The separate steps inside a critical section compose to the sequential handler. |
| `Serialization.SessionWorked` | tools/llama-dspark-grpcd/grpc_service.cpp:185-192 | Leaving the lock puts the session where the sequential run has it, with that run's reply. |
| `Serialization.AdvanceSerialized` | tools/llama-dspark-grpcd/grpc_service.cpp:115-168 | Every step keeps the serialization invariant. |
| `EventQueue.QueueDelivers` | tools/llama-dspark-grpcd/watch_renderer.cpp:12-33 | In every interleaving: handled, in hand and queued events are the pushed ones in order; the worker returns only when stopped with all handled; if it sleeps on work or a stop, some thread still owes it a notify. |
| `EventQueue.EachCallPushesItsEvent` | tools/llama-dspark-grpcd/watch_renderer.cpp:27-50 | In every interleaving each event pushed is that of one call on the renderer, no call's event is pushed twice, and once a call has returned its event is pushed. |
| `EventQueue.SomebodyActs` | tools/llama-dspark-grpcd/watch_renderer.cpp:52-71 | While there is work or a stop is asked for, some thread can act. |
| `EventQueue.ScreenFollowsPushes` | tools/llama-dspark-grpcd/watch_renderer.cpp:52-71 | When the worker has returned, the confirmed text is that of all pushed events in order. |
| `EventQueue.StepKeeps` | tools/llama-dspark-grpcd/watch_renderer.cpp:52-71 | Every step of producers, worker and destructor keeps the queue's invariant. |
| `Transcript.TranscriptConservation` | tools/llama-dspark-grpcd/watch_renderer.cpp:102-183 | After any event sequence the confirmed regions, concatenated, are the detokenization of all accepted and verdict tokens since the last reset, in order. |
| `Transcript.VerdictRejectsAtMostOne` | tools/llama-dspark-grpcd/watch_renderer.cpp:155-162 | A verdict adds one rejected region exactly when the pending block was not accepted whole, else none. |
| `Transcript.VerdictStrikesFirstMiss` | tools/llama-dspark-grpcd/watch_renderer.cpp:139-170 | For the n at which the pending block and the accepted tokens first differ, or the latter end: one region is struck through, with the text of pending token n; in front of it stand the earlier text and that of the n accepted tokens that match, behind it the correction. |
| `Transcript.DetokenizeJoins` | tools/llama-dspark-grpcd/watch_renderer.cpp:73-80 | The text of two lists in a row is the text of the first and then of the second. |
| `Transcript.TextOfOne` | tools/llama-dspark-grpcd/watch_renderer.cpp:73-80 | The text of one token is its piece; with DetokenizeJoins this determines every text. |
| `Transcript.PendingInvariant` | tools/llama-dspark-grpcd/watch_renderer.cpp:111-175 | Over any stream a session emits without a prefill between a draft and its verdict: at most one pending region, the last one, showing the pending tokens. |
| `Transcript.VerdictSettlesPending` | tools/llama-dspark-grpcd/watch_renderer.cpp:121-175 | A verdict leaves nothing pending. |
| `Transcript.AcceptedDisturbsPending` | tools/llama-dspark-grpcd/watch_renderer.cpp:102-109 | Accepted tokens keep the pending region last exactly when there are none or nothing is pending. |
| `Lists.MatchIsUnique` | tools/llama-dspark-grpcd/watch_renderer.cpp:139-144 | The prefix found, by the renderer and by the replay alike, is the longest common one; no other length is. |
| `Transcript.Renderer.Detok` | tools/llama-dspark-grpcd/watch_renderer.cpp:73-80 | A piece per token, concatenated. |
| `Transcript.Renderer.HandleAccepted` | tools/llama-dspark-grpcd/watch_renderer.cpp:102-109 | New transcript of an accepted event. |
| `Transcript.Renderer.HandleDraft` | tools/llama-dspark-grpcd/watch_renderer.cpp:111-119 | New transcript and pending tokens of a draft event. |
| `Transcript.Renderer.HandleVerdict` | tools/llama-dspark-grpcd/watch_renderer.cpp:121-175 | Popping, matching and rebuilding: new transcript, nothing pending. |
| `Transcript.Renderer.HandleReset` | tools/llama-dspark-grpcd/watch_renderer.cpp:177-183 | Blank. |
| `Preview.PreviewShowsCommitted` | tools/llama-dspark-grpcd/grpc_service.cpp:96-168 | End to end, over every run: the settled tokens are the server's committed tokens up to the last request that ran if and only if, since the last begin(), no delivery overtook packets that had not arrived (skipping the empty first request is harmless); otherwise there are fewer. The confirmed text spells out the settled tokens, whatever was drafted or rejected, failed in llama or was delivered twice. |
| `Preview.PreviewStaysOrderly` | tools/llama-dspark-grpcd/grpc_service.cpp:158-168 | End to end, over every run in any order: the events that the service emits leave at most one pending region, the last one, showing the pending tokens. |
| `Preview.PreviewShowsLastDraft` | tools/llama-dspark-grpcd/grpc_service.cpp:158-168 | End to end, over any run at all: the pending tokens are those that the last Draft which ran was answered, none after a reset; in a run that PreviewStaysOrderly covers, the last region shows their text. |
| `Preview.CallSettles` | tools/llama-dspark-grpcd/grpc_service.cpp:158-168 | What one call of a session adds to the settled tokens: a prefill its tokens, a draft its accepted ones unless stale, a reset clears them. |
| `ReplayFaults.RecordedGenerationReplays` | tools/llama-dspark-grpcd/replay_mode.cpp:44-140 | A generation recorded after a reset with all prefills successful, whatever the session did before, replays on a fresh engine whose llama fails independently of the recording's but nowhere that one did not, its files listed in any order: code 0; an ok reply with no failed injection before it is repeated exactly (expected = matched = got); a reply that was not ok has recorded no tokens; if no injection failed, the confirmed cells end up the session's. With every recorded reply ok, every step is exact and the final engine is the session's. |
| `ReplayFaults.DraftRepeats` | tools/llama-dspark-grpcd/dspark_engine.cpp:246-293 | Two engines with the same confirmed cells, one of whose llama fails at most where the other's does: if the first draft's packets go in so do the second's, and an ok reply is repeated. |
| `ReplayFaults.DraftsReplayAgain` | tools/llama-dspark-grpcd/replay_mode.cpp:81-140 | The request stage of such a replay, step by step. |
| `ReplayFaults.PrefillStageAgain` | tools/llama-dspark-grpcd/replay_mode.cpp:51-77 | Replayed with llama not failing, prefills from position 0 all go in if and only if at most one holds tokens, whichever of them failed live. |
| `ReplayFaults.BrokenPrefillReplays` | tools/llama-dspark-grpcd/replay_mode.cpp:51-77 | A chunk whose llama call broke while it was recorded can replay: an instance where the recorded answer is not ok and the replay goes through. |
| `ReplayFaults.BrokenNoiseDiverges` | tools/llama-dspark-grpcd/replay_mode.cpp:131 | A draft whose noise decode broke while it was recorded can diverge: nothing recorded, a token replayed. |
| `RecordReplay.ReplaysUnderSameFaults` | tools/llama-dspark-grpcd/replay_mode.cpp:44-140 | The special case in which llama fails in the replay exactly where it did in the recording: code 0, every step exact and the session's own final engine if and only if all its prefills succeeded; otherwise the replay stops. |
| `RecordReplay.FailedPrefillStops` | server_patches/remote_dspark_client.cpp:112-120 | A chunk is recorded before it is sent: when llama breaks in the replay where it did in the recording, one that failed then fails the replay as well. |
| `RecordReplay.OneFilledPrefillReplays` | tools/llama-dspark-grpcd/replay_mode.cpp:51-77 | The prefill stage of a replay can succeed exactly when at most one recorded prefill holds any token. |
| `RecordReplay.TwoGenerationsNeverReplay` | server_patches/remote_dspark_client.cpp:112-114 | As prefill_chunk counts on over generations, a directory with the prefills of two real generations always ends in code 1. |
| `RecordReplay.PrefillsWritten` | server_patches/remote_dspark_client.cpp:112-114 | Up to 1000 chunks get distinct names, found again as prefill files and as nothing else. |
| `RecordReplay.DraftsWritten` | server_patches/remote_dspark_client.cpp:158-166 | Requests and responses of increasing four-digit step ids are all kept, apart from each other and from the prefills. |
| `RecordReplay.PrefillsFound` | tools/llama-dspark-grpcd/replay_mode.cpp:35-45 | Filtering and sorting any listing gives the chunks in the order they were written. |
| `RecordReplay.RequestsFound` | tools/llama-dspark-grpcd/replay_mode.cpp:35-45 | And the requests in step order. |
| `RecordReplay.DraftsReplay` | tools/llama-dspark-grpcd/replay_mode.cpp:81-140 | When llama breaks in the replay where it did in the recording, replaying the requests repeats the recorded replies and the session's engine states. |
| `GoldenTrace.Recorder.Prefilled` | server_patches/remote_dspark_client.cpp:112-114 | A chunk is written under the next number. |
| `GoldenTrace.Recorder.Drafted` | server_patches/remote_dspark_client.cpp:158-166 | Request and response are written under the step id. |
| `GoldenTrace.ReplayGolden` | tools/llama-dspark-grpcd/replay_mode.cpp:25-150 | Exit code, final engine and totals of the whole replay. |
| `GoldenTrace.ListTrace` | tools/llama-dspark-grpcd/replay_mode.cpp:35-42 | The two lists that the directory scan collects. |
| `GoldenTrace.ReplayPrefillFiles` | tools/llama-dspark-grpcd/replay_mode.cpp:50-77 | Every prefill in turn; stops at the first that cannot be read or fails. |
| `GoldenTrace.ReplayRequestFiles` | tools/llama-dspark-grpcd/replay_mode.cpp:80-140 | Every draft in turn, failed ones included, with the match counters. |
| `GoldenTrace.CompareReply` | tools/llama-dspark-grpcd/replay_mode.cpp:109-129 | The prefix comparison against the recorded response. |
| `GoldenTrace.ExactMeansEqual` | tools/llama-dspark-grpcd/replay_mode.cpp:131 | EXACT is reported if and only if the replayed tokens are the recorded ones. |
| `GoldenTrace.CompareCounts` | tools/llama-dspark-grpcd/replay_mode.cpp:109-129 | The matched count of a step is the number of tokens that the recorded and the replayed reply share from the start, also when they diverge. |
| `GoldenTrace.TotalsAddUp` | tools/llama-dspark-grpcd/replay_mode.cpp:125-150 | The totals of two stretches of drafts add up, and one draft adds its own counts, or nothing when no response was recorded. |
| `Lists.MatchIsWhole` | tools/llama-dspark-grpcd/replay_mode.cpp:120-124 | The count covers both lists if and only if they are equal, and the first if and only if it is a prefix of the second. |
| `FileNames.RequestsSortExactly` | server_patches/remote_dspark_client.cpp:160-161 | The request names of steps 1..n sort as their numbers if and only if n < 10^4. |
| `FileNames.FixedSorts` | server_patches/remote_dspark_client.cpp:112-114 | Zero-padded names of one width w sort as numbers for all ids below 10^w. |
| `FileNames.PaddedIsFixed` | server_patches/remote_dspark_client.cpp:112-114 | Padding to width w gives exactly w digits for ids below 10^w. |
| `FileNames.TooManySteps` | server_patches/remote_dspark_client.cpp:160-161 | step_10000 sorts before step_9999. |
| `FileNames.RequestNameFits` | tools/llama-dspark-grpcd/replay_mode.cpp:39-41 | A written request is listed as a request and leads to its own response; a response is listed as neither. |
| `FileNames.PrefillNameFits` | tools/llama-dspark-grpcd/replay_mode.cpp:37-41 | A written prefill is listed as a prefill; the handshake file as neither. |
| `FileNames.LessOrders` | tools/llama-dspark-grpcd/replay_mode.cpp:44-45 | The order of names is a strict total order on any directory. |
| `Lists.SortSorts` | tools/llama-dspark-grpcd/replay_mode.cpp:44-45 | Sorting distinct elements, here file names and log lines, puts them in strictly ascending order. |
| `Lists.SortedUnique` | tools/llama-dspark-grpcd/replay_mode.cpp:44-45 | That order is the only one: lists sorted in it with the same elements are equal. |
| `LogStream.ClientHoldsSuffix` | tools/llama-dspark-test-ui/app/api/logs/route.ts:29-36 | Over any run of output, starts, connections, losses and page clears: when what the page shows comes from a connection that found its last 400 lines uncleared (or was cleared since), it is a gap-free stretch of the history with consecutive ids, at most 2000 lines, and its very end once all has arrived, whatever earlier connections met. |
| `LogStream.NewestLinesRetained` | tools/llama-dspark-test-ui/lib/process-manager.ts:62-87 | For every k up to 4000, the last k of the merged logs are the last k lines emitted if and only if none of those was cleared by a restart. |
| `LogStream.NoRestartsNoGaps` | tools/llama-dspark-test-ui/lib/process-manager.ts:132-157 | While no process that has output is started again, that condition always holds. |
| `LogStream.HistoryIsWhatWasWritten` | tools/llama-dspark-test-ui/lib/process-manager.ts:62-178 | Over any run the history holds exactly what the processes and start() wrote, in order: line i has number i + 1 and the process, stream and text of the i-th non-empty line written. |
| `LogStream.PageShowsAllGiven` | tools/llama-dspark-test-ui/lib/store.ts:230-238 | The page shows as many lines as its last backlog and the live lines since have brought, up to 2000. |
| `LogStream.LineRetained` | tools/llama-dspark-test-ui/lib/process-manager.ts:83-84 | Among the newest 4000 of all lines, a line is in its log exactly when the log was not cleared after it. |
| `LogStream.StepGapFree` | tools/llama-dspark-test-ui/lib/store.ts:230-233 | Every step keeps the client free of gaps, whatever the connection met. |
| `LogStream.LogStore.SetBacklog` | tools/llama-dspark-test-ui/lib/store.ts:233 | The last 2000 of the snapshot. |
| `LogStream.LogStore.AppendLog` | tools/llama-dspark-test-ui/lib/store.ts:230-231 | One more line, at most 2000 kept. |
| `LogStream.LogStore.ClearLogs` | tools/llama-dspark-test-ui/lib/store.ts:238 | Empty. |
| `LogStream.LogFeed.constructor` | tools/llama-dspark-test-ui/app/api/logs/route.ts:29-36 | The stream starts with the last 400 merged lines. |
| `LogStream.LogFeed.OnLog` | tools/llama-dspark-test-ui/app/api/logs/route.ts:33-35 | Every line goes out until the stream is closed. |
| `LogStream.LogFeed.Close` | tools/llama-dspark-test-ui/app/api/logs/route.ts:47-58 | Closed; what was sent stays sent. |
| `ProcessLogs.ChunksKeepLines` | tools/llama-dspark-test-ui/lib/process-manager.ts:74 | Output that arrives in two chunks is logged as if in one if and only if the boundary is at a line's end and does not cut a CR LF pair. |
| `ProcessLogs.PushLogWrites` | tools/llama-dspark-test-ui/lib/process-manager.ts:68-87 | Output goes behind what was logged before: one line for each non-empty piece of the text, in order, with that text, its process, its stream and the next number. |
| `ProcessLogs.SplitReadsBack` | tools/llama-dspark-test-ui/lib/process-manager.ts:74 | Splitting undoes joining: pieces without newlines, joined with any mix of LF and CR LF, come back, provided no CR stands in front of a bare LF. |
| `ProcessLogs.SplitTakesAll` | tools/llama-dspark-test-ui/lib/process-manager.ts:74 | Every text is its pieces joined again in that way, so nothing but line breaks is left out. |
| `ProcessLogs.NonEmptyKeeps` | tools/llama-dspark-test-ui/lib/process-manager.ts:74-75 | Empty pieces are dropped and all others stay, in order. |
| `ProcessLogs.ProcessManager.PushText` | tools/llama-dspark-test-ui/lib/process-manager.ts:68-87 | The loop over the pieces: ids, both bounded logs, and the lines emitted. |
| `ProcessLogs.ProcessManager.PushLine` | tools/llama-dspark-test-ui/lib/process-manager.ts:76-85 | One line: numbered, appended, the oldest dropped above 4000, emitted. |
| `ProcessLogs.ProcessManager.StartProcess` | tools/llama-dspark-test-ui/lib/process-manager.ts:132-178 | Which starts clear the log and which lines they write. |
| `ProcessLogs.AddLinesRetains` | tools/llama-dspark-test-ui/lib/process-manager.ts:68-87 | Each log stays the newest 4000 lines of its process since it was cleared. |
| `ProcessLogs.StartRetains` | tools/llama-dspark-test-ui/lib/process-manager.ts:132-157 | A start keeps that, counted from the clearing. |
| `ArgTokenizer.QuotedListReadsBack` | tools/llama-dspark-test-ui/lib/process-manager.ts:247-256 | Quoting each argument with a quote it lacks and joining with spaces tokenizes back to the same list, for every list (also arguments with both quotes, if they have no white space and start with no quote). |
| `ArgTokenizer.ScanRebuilds` | tools/llama-dspark-test-ui/lib/process-manager.ts:247-256 | Matched spans and skipped characters rebuild the text, only white space is skipped, and every span is its value in quotes the value lacks, or the bare value. |
| `ArgTokenizer.WhatCanBePassed` | tools/llama-dspark-test-ui/lib/process-manager.ts:247-256 | An argument can come out of some input if and only if it lacks one kind of quote, or has no white space and does not start with a quote that it closes itself. |
| `ArgTokenizer.TrimIsRedundant` | tools/llama-dspark-test-ui/lib/process-manager.ts:248 | Trimming first changes no result. |
| `ArgTokenizer.TokenizeExtra` | tools/llama-dspark-test-ui/lib/process-manager.ts:247-256 | The exec loop terminates, each match consuming a character (section 22.2.2 of ECMA-262), and returns the specified list. |

## Left out

- The target's verification and sampling: an environment that decodes batches, keeps any prefix of one and takes new prompts; nothing is claimed about the final output text.
- Tensor graphs, samplers, GGUF loading and the model-conversion patch: one arbitrary function stands for the draft model. Log-probabilities, confidence values and latencies are not modelled; a confidence break is the model function's answer `None`.
- An empty noise block (`max_draft_tokens` of 0): whether `llama_decode` refuses it is left to its fate.
- Machine widths: token ids, positions, step ids and counters are unbounded integers. Wrap-around of 64-bit step ids and the narrowing of positions to llama's 32-bit type are not modelled; neither is a `float` outside its bit pattern.
- `last_draft_`, `last_step_id_` and the sampler object of the engine: written but never read by the modelled code.
- Byte order: the daemon and the server are little-endian.
- gRPC, protobuf and channel setup: messages are values; parsing accepts exactly the message that was written. The network may lose, delay, reorder and repeat Draft, also past a reset; Reset and Prefill may be lost but not delayed, as `begin()` and `draft()` wait for their answers.
- Several sequences in one server: `draft()` serves the first sequence that wants a draft, and the protocol runs one sender against one session. The shared preview of several sessions is not claimed to be readable: conservation holds for the merged event stream.
- Memory-model effects below the level of mutexes and condition variables: the state machines step one thread at a time.
- ANSI output and `redraw`: a region is a style and a text; text is a piece per token, concatenated.
- File input and output of golden traces: names, order and contents as values. A recording in which a request or its reply was lost is outside the replay theorems: the recorder then writes an empty response.
- ReplayFaults.RecordedGenerationReplays: step ids of at most four digits and at most 1000 chunks, as beyond those the names no longer sort as numbers (`FileNames.RequestsSortExactly`); nothing is claimed of a replay whose llama fails where the recording's did not, which may stop or diverge, nor of ok replies after an injection that failed in the recording, which the replay may have repeated with success.
- `std::sort` and the JavaScript `sort` are modelled by their result on distinct keys.
- Spawning and signalling of processes, `stop()`'s log line and status events: `start` is modelled by its effect on the logs; `stop` writes through the same `PushText`. Timestamps of lines are dropped.
- Decoding of process output from bytes: text is a sequence of characters; a multi-byte character cut by a chunk boundary is not modelled.
- React components, charts, the chat route, presets, path lookup and the animation renderer: user interface and plumbing.
