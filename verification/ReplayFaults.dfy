// Replaying a recorded generation when llama fails in the recording and the replay
// independently of each other.
module ReplayFaults {
  import opened Lists
  import opened Wire
  import opened DraftEngine
  import opened CacheCleanup
  import opened DraftService
  import opened FileNames
  import opened GoldenTrace
  import opened RecordReplay

  // llama fails again at most where it failed live.
  ghost predicate ChunksNoWorse(live: ChunkFates, again: ChunkFates) {
    forall c :: live(c) == Encoded(Decodes) ==> again(c) == Encoded(Decodes)
  }

  ghost predicate NoWorse(live: Fates, again: Fates) {
    && (forall n :: live(n).noise == Decodes ==> again(n).noise == Decodes)
    && (forall n :: ChunksNoWorse(live(n).chunks, again(n).chunks))
  }

  ghost predicate Faultless(fates: Fates) {
    && (forall n :: fates(n).noise == Decodes)
    && (forall n, c :: fates(n).chunks(c) == Encoded(Decodes))
  }

  // A replay without faults is no worse than any recording, and so is one that fails
  // exactly where the recording did.
  lemma FaultlessIsNoWorse(live: Fates, again: Fates)
    ensures Faultless(again) || again == live ==> NoWorse(live, again)
  {
  }

  // ----- one call, live and again -----

  // What went in once goes in the same way when llama fails no more than before.
  lemma {:induction false} InjectRepeats(
    cfg: Config, cache: Cache, tokens: seq<Packet>, live: ChunkFates, again: ChunkFates, chunk: nat)
    requires cfg.ubatch > 0 && ChunksNoWorse(live, again) && Inject(cfg, cache, tokens, live, chunk).1
    ensures Inject(cfg, cache, tokens, again, chunk) == Inject(cfg, cache, tokens, live, chunk)
    decreases |tokens|
  {
    if tokens == [] {
    } else {
      hide Write, Continues, Entries, Unpackable;
      var n := Min(cfg.ubatch, |tokens|);
      var d := InjectChunk(cfg, cache, tokens[..n], live(chunk));
      assert InjectChunk(cfg, cache, tokens[..n], again(chunk)) == d;
      InjectRepeats(cfg, d.0, tokens[n..], live, again, chunk + 1);
    }
  }

  lemma TakeRepeats(cfg: Config, e: EngineState, tokens: seq<Packet>, live: ChunkFates, again: ChunkFates)
    requires cfg.ubatch > 0 && ChunksNoWorse(live, again) && TakeAccepted(cfg, e, tokens, live).1
    ensures TakeAccepted(cfg, e, tokens, again) == TakeAccepted(cfg, e, tokens, live)
  {
    hide Inject, ChunksNoWorse;
    InjectRepeats(cfg, e.cache, tokens, live, again, 0);
  }

  lemma PrefillRepeats(cfg: Config, e: EngineState, tokens: seq<Packet>, live: ChunkFates, again: ChunkFates)
    requires cfg.ubatch > 0 && ChunksNoWorse(live, again) && Prefill(cfg, e, tokens, live).1.ok
    ensures Prefill(cfg, e, tokens, again) == Prefill(cfg, e, tokens, live)
  {
    hide Inject, ChunksNoWorse;
    InjectRepeats(cfg, e.cache, tokens, live, again, 0);
  }

  // The confirmed mark lies in the cache.
  ghost predicate Marked(e: EngineState) {
    e.confirmedMax >= 0 ==> e.confirmedMax in e.cache
  }

  lemma {:induction false} WriteKeeps(cache: Cache, batch: seq<Entry>)
    ensures forall p :: p in cache ==> p in Write(cache, batch)
    ensures batch != [] ==> batch[|batch| - 1].position in Write(cache, batch)
    decreases |batch|
  {
    if batch == [] {
    } else {
      WriteKeeps(cache[batch[0].position := batch[0].cell], batch[1..]);
    }
  }

  lemma {:induction false} WriteAbove(cache: Cache, batch: seq<Entry>, mark: int)
    requires forall i :: 0 <= i < |batch| ==> batch[i].position >= mark
    ensures SeqRm(Write(cache, batch), mark) == SeqRm(cache, mark)
    decreases |batch|
  {
    if batch == [] {
    } else {
      WriteAbove(cache[batch[0].position := batch[0].cell], batch[1..], mark);
      assert SeqRm(cache[batch[0].position := batch[0].cell], mark) == SeqRm(cache, mark);
    }
  }

  lemma ChunkKeeps(cfg: Config, cache: Cache, part: seq<Packet>, fate: ChunkFate)
    ensures var d := InjectChunk(cfg, cache, part, fate);
            && (forall p :: p in cache ==> p in d.0)
            && (d.1 && part != [] ==> part[|part| - 1].position in d.0)
  {
    hide Write, Continues, Unpackable, RowOf;
    WriteKeeps(cache, Entries(cfg, part));
    if fate.Encoded? && fate.decode.Breaks? {
      var kept := if fate.decode.kept <= |part| then fate.decode.kept else |part|;
      WriteKeeps(cache, Entries(cfg, part)[..kept]);
    }
  }

  lemma {:induction false} InjectKeeps(cfg: Config, cache: Cache, tokens: seq<Packet>, fates: ChunkFates, chunk: nat)
    requires cfg.ubatch > 0
    ensures var d := Inject(cfg, cache, tokens, fates, chunk);
            && (forall p :: p in cache ==> p in d.0)
            && (d.1 && tokens != [] ==> tokens[|tokens| - 1].position in d.0)
    decreases |tokens|
  {
    if tokens == [] {
    } else {
      hide InjectChunk;
      var n := Min(cfg.ubatch, |tokens|);
      ChunkKeeps(cfg, cache, tokens[..n], fates(chunk));
      InjectKeeps(cfg, InjectChunk(cfg, cache, tokens[..n], fates(chunk)).0, tokens[n..], fates, chunk + 1);
    }
  }

  lemma TakeMarks(cfg: Config, e: EngineState, tokens: seq<Packet>, fates: ChunkFates)
    requires cfg.ubatch > 0 && Marked(e)
    ensures Marked(TakeAccepted(cfg, e, tokens, fates).0)
  {
    hide Inject;
    InjectKeeps(cfg, e.cache, tokens, fates, 0);
  }

  lemma DropMarks(e: EngineState)
    requires Marked(e)
    ensures Marked(DropTransient(e))
  {
  }

  // The noise block leaves no trace that the next draft would see, whole or broken.
  lemma BlockIsTransient(cfg: Config, next: Drafter, e: EngineState, req: DraftRequest, noise: DecodeFate)
    requires Marked(e)
    ensures var d := DraftBlock(cfg, next, e, req, noise);
            && DropTransient(d.0) == DropTransient(e) && Marked(d.0)
            && (d.1.ok <==> noise == Decodes)
            && (!d.1.ok ==> d.1.tokens == [] && d.1.error == NOISE_BROKE)
  {
    hide SeqRm, Sample;
    var n := Min(req.maxDraft, cfg.blockSize);
    var anchor := if req.anchor != 0 then req.anchor else e.lastToken;
    var batch := NoiseBlock(cfg, MaxPos(e.cache) + 1, anchor, n);
    var wrote := if noise.Breaks? then (if noise.kept <= |batch| then batch[..noise.kept] else batch) else batch;
    assert batch[..|batch|] == batch;
    WriteAbove(e.cache, wrote, e.confirmedMax + 1);
    WriteKeeps(e.cache, wrote);
  }

  const NOISE_BROKE := "noise decode failed"

  // The request's packets went in, whatever became of its noise block.
  predicate Injected(reply: DraftReply) {
    reply.ok || reply.error == NOISE_BROKE
  }

  // A draft on two engines that agree on what is confirmed.
  lemma DraftRepeats(cfg: Config, next: Drafter, a: EngineState, b: EngineState, req: DraftRequest, live: Fate,
                     again: Fate)
    requires cfg.ubatch > 0 && Marked(a) && DropTransient(a) == DropTransient(b)
    requires ChunksNoWorse(live.chunks, again.chunks) && (live.noise == Decodes ==> again.noise == Decodes)
    ensures var d, r := Draft(cfg, next, a, req, live), Draft(cfg, next, b, req, again);
            && (Injected(d.1) ==> DropTransient(d.0) == DropTransient(r.0) && Marked(d.0))
            && (d.1.ok ==> d == r)
            && (!d.1.ok ==> d.1.tokens == [])
  {
    hide TakeAccepted, DropTransient, DraftBlock, Marked, ChunksNoWorse;
    var t := TakeAccepted(cfg, DropTransient(a), req.accepted, live.chunks);
    DropMarks(a);
    TakeMarks(cfg, DropTransient(a), req.accepted, live.chunks);
    if t.1 {
      TakeRepeats(cfg, DropTransient(a), req.accepted, live.chunks, again.chunks);
      BlockIsTransient(cfg, next, t.0, req, live.noise);
      BlockIsTransient(cfg, next, t.0, req, again.noise);
    }
  }

  // ----- a whole generation -----

  lemma PrefillMarks(cfg: Config, e: EngineState, tokens: seq<Packet>, fates: ChunkFates)
    requires cfg.ubatch > 0 && Marked(e)
    ensures Marked(Prefill(cfg, e, tokens, fates).0)
  {
    hide TakeAccepted, Prefill, Marked;
    PrefillTakes(cfg, e, tokens, fates);
    TakeMarks(cfg, e, tokens, fates);
  }

  lemma {:induction false} PrefillsReplayAgain(
    cfg: Config, next: Drafter, dir: Directory, prefills: seq<seq<Packet>>, live: Fates, again: Fates)
    requires cfg.ubatch > 0 && HoldsPrefills(dir, prefills) && NoWorse(live, again)
    requires Heard(Replies(cfg, next, NEW_SESSION, PrefillCalls(prefills, live)), |prefills|, [])
    ensures ReplayPrefills(cfg, FRESH, dir, ChunkNames(|prefills|), again)
         == Some(Live(cfg, next, PrefillCalls(prefills, live)).engine)
    ensures Live(cfg, next, PrefillCalls(prefills, live)).lastStepId == 0
    ensures Marked(Live(cfg, next, PrefillCalls(prefills, live)).engine)
  {
    hide Prefill, Draft, PrefillName, Heard, Replies, ChunkNames, Marked;
    if prefills == [] {
      assert PrefillCalls(prefills, live) == [];
      assert ChunkNames(0) == [];
      FreshIsMarked();
    } else {
      var n := |prefills| - 1;
      var before, call := PrefillCalls(prefills[..n], live), PrefillCall(prefills[n], live(n).chunks);
      var e := Live(cfg, next, before).engine;
      PrefillCallsGrow(prefills, live);
      LiveStep(cfg, next, before, call);
      HeardPrefill(Replies(cfg, next, NEW_SESSION, before), Handle(cfg, next, Live(cfg, next, before), call).1, n);
      FewerPrefills(dir, prefills, n);
      PrefillsReplayAgain(cfg, next, dir, prefills[..n], live, again);
      ChunkNamesGrow(n);
      PrefillRepeats(cfg, e, prefills[n], live(n).chunks, again(n).chunks);
      PrefillMarks(cfg, e, prefills[n], live(n).chunks);
      PrefillFileReplays(cfg, e, dir, ChunkNames(n), PrefillName(n), again);
    }
  }

  lemma FreshIsMarked()
    ensures Marked(FRESH)
  {
  }

  // No injection failed among the first n drafts.
  ghost predicate NoneDropped(replies: seq<DraftReply>, n: nat) {
    forall j :: 0 <= j < n && j < |replies| ==> Injected(replies[j])
  }

  // How a replayed step compares with its recorded reply: exact if that was ok and no
  // injection had failed before it; a reply that was not ok recorded no tokens.
  ghost predicate StepRepeats(replies: seq<DraftReply>, i: nat, c: Option<Compared>)
    requires i < |replies|
  {
    var n := |replies[i].tokens|;
    && c.Some? && c.value.expected == n
    && (replies[i].ok && NoneDropped(replies, i) ==> c.value == Compared(n, n, n))
    && (!replies[i].ok ==> n == 0 && c.value.matched == 0)
  }

  // The replay and the session agree as long as no injection failed in the recording,
  // and are in the same state after a recorded reply that was ok.
  ghost predicate ReplayAgrees(
    outcome: Option<(EngineState, seq<Option<Compared>>)>, final: EngineState, replies: seq<DraftReply>)
  {
    && outcome.Some? && |outcome.value.1| == |replies|
    && (forall i :: 0 <= i < |replies| ==> StepRepeats(replies, i, outcome.value.1[i]))
    && (NoneDropped(replies, |replies|) ==>
          && DropTransient(final) == DropTransient(outcome.value.0)
          && (replies == [] || replies[|replies| - 1].ok ==> final == outcome.value.0))
  }

  lemma StepsGrow(replies: seq<DraftReply>, reply: DraftReply, results: seq<Option<Compared>>, c: Option<Compared>)
    requires |results| == |replies|
    requires forall i :: 0 <= i < |replies| ==> StepRepeats(replies, i, results[i])
    requires StepRepeats(replies + [reply], |replies|, c)
    ensures forall i :: 0 <= i <= |replies| ==> StepRepeats(replies + [reply], i, (results + [c])[i])
  {
    hide Injected;
    forall i | 0 <= i < |replies|
      ensures StepRepeats(replies + [reply], i, (results + [c])[i])
    {
      assert forall j :: 0 <= j < i ==> (replies + [reply])[j] == replies[j];
    }
  }

  lemma NoneDroppedGrows(replies: seq<DraftReply>, reply: DraftReply)
    ensures NoneDropped(replies + [reply], |replies| + 1) <==> NoneDropped(replies, |replies|) && Injected(reply)
    ensures NoneDropped(replies + [reply], |replies|) <==> NoneDropped(replies, |replies|)
  {
    hide Injected;
    var all := replies + [reply];
    assert all[|replies|] == reply && forall j :: 0 <= j < |replies| ==> all[j] == replies[j];
  }

  // One recorded request more.
  lemma RequestReplaysAgain(
    cfg: Config, next: Drafter, start: EngineState, e: EngineState, dir: Directory, names: seq<string>,
    request: DraftRequest, reply: DraftReply, first: nat, replies: seq<DraftReply>, live: Fate, again: Fates)
    requires cfg.ubatch > 0 && HoldsDraft(dir, request, reply)
    requires forall i :: 0 <= i < |names| ==> IsRequestName(names[i])
    requires ReplayAgrees(ReplayDrafts(cfg, next, start, dir, names, first, again), e, replies)
    requires live.noise == Decodes ==> again(first + |names|).noise == Decodes
    requires ChunksNoWorse(live.chunks, again(first + |names|).chunks)
    requires |names| == |replies| && reply == Draft(cfg, next, e, request, live).1
    requires NoneDropped(replies, |replies|) ==> Marked(e)
    ensures IsRequestName(RequestName(request.stepId))
    ensures ReplayAgrees(ReplayDrafts(cfg, next, start, dir, names + [RequestName(request.stepId)], first, again),
                         Draft(cfg, next, e, request, live).0, replies + [reply])
    ensures NoneDropped(replies + [reply], |replies| + 1) ==> Marked(Draft(cfg, next, e, request, live).0)
  {
    hide Draft, RequestName, ResponseName, IsRequestName, IsPrefillName, ResponseFor, MatchLength, NoneDropped;
    hide Injected, StepRepeats, DropTransient, Marked;
    var name := RequestName(request.stepId);
    assert (names + [name])[..|names|] == names;
    RequestNameFits(request.stepId);
    var before := ReplayDrafts(cfg, next, start, dir, names, first, again).value;
    var d := Draft(cfg, next, before.0, request, again(first + |names|));
    var c := Compare(dir, name, d.1);
    NoneDroppedGrows(replies, reply);
    FailedDraftsNothing(cfg, next, e, request, live);
    if NoneDropped(replies, |replies|) {
      DraftRepeats(cfg, next, e, before.0, request, live, again(first + |names|));
    }
    ComparedStep(replies, reply, d.1, c);
    StepsGrow(replies, reply, before.1, c);
  }

  lemma FailedDraftsNothing(cfg: Config, next: Drafter, e: EngineState, request: DraftRequest, fate: Fate)
    requires cfg.ubatch > 0
    ensures var reply := Draft(cfg, next, e, request, fate).1; !reply.ok ==> reply.tokens == []
  {
    hide TakeAccepted, DropTransient, Decode, Sample;
  }

  lemma ComparedStep(replies: seq<DraftReply>, reply: DraftReply, replayed: DraftReply, c: Option<Compared>)
    requires var n := MatchLength(reply.tokens, replayed.tokens);
             c == Some(Compared(|reply.tokens|, n, |replayed.tokens|))
    requires NoneDropped(replies, |replies|) && reply.ok ==> replayed == reply
    requires !reply.ok ==> reply.tokens == []
    ensures StepRepeats(replies + [reply], |replies|, c)
  {
    hide Injected, NoneDropped;
    NoneDroppedGrows(replies, reply);
    MatchIsWhole(reply.tokens, reply.tokens);
  }

  lemma {:induction false} DraftsReplayAgain(
    cfg: Config, next: Drafter, dir: Directory, prefills: seq<seq<Packet>>,
    requests: seq<DraftRequest>, replies: seq<DraftReply>, live: Fates, again: Fates)
    requires cfg.ubatch > 0 && |requests| == |replies| && Increasing(requests) && FourDigits(requests)
    requires HoldsPrefills(dir, prefills) && HoldsDrafts(dir, requests, replies) && NoWorse(live, again)
    requires Heard(Replies(cfg, next, NEW_SESSION, Generation(prefills, requests, live)), |prefills|, replies)
    ensures ReplayPrefills(cfg, FRESH, dir, ChunkNames(|prefills|), again).Some?
    ensures var final := Live(cfg, next, Generation(prefills, requests, live));
            var start := ReplayPrefills(cfg, FRESH, dir, ChunkNames(|prefills|), again).value;
            && final.lastStepId == (if requests == [] then 0 else requests[|requests| - 1].stepId)
            && ReplayAgrees(ReplayDrafts(cfg, next, start, dir, StepNames(requests), |prefills|, again), final.engine,
                            replies)
            && (NoneDropped(replies, |replies|) ==> Marked(final.engine))
  {
    hide Prefill, Draft, HoldsPrefills, RequestName, IsRequestName, ReplayPrefills, Heard, Generation, Replies, Live;
    hide After, HoldsDraft, ReplayAgrees, Marked, NoneDropped;
    if requests == [] {
      NoDraftsAgain(cfg, next, dir, prefills, live, again);
    } else {
      var n := |requests| - 1;
      var before, call := Generation(prefills, requests[..n], live), DraftCall(requests[n], live(|prefills| + n));
      GenerationGrows(prefills, requests, live);
      LiveStep(cfg, next, before, call);
      HeardDraft(Replies(cfg, next, NEW_SESSION, before), Handle(cfg, next, Live(cfg, next, before), call).1,
                 |prefills|, replies);
      StepNamesGrow(requests);
      RequestNameFits(requests[n].stepId);
      DraftsReplayAgain(cfg, next, dir, prefills, requests[..n], replies[..n], live, again);
      assert replies == replies[..n] + [replies[n]];
      RequestReplaysAgain(cfg, next, ReplayPrefills(cfg, FRESH, dir, ChunkNames(|prefills|), again).value,
                          Live(cfg, next, before).engine, dir, StepNames(requests[..n]), requests[n], replies[n],
                          |prefills|, replies[..n], live(|prefills| + n), again);
    }
  }

  lemma NoDraftsAgain(
    cfg: Config, next: Drafter, dir: Directory, prefills: seq<seq<Packet>>, live: Fates, again: Fates)
    requires cfg.ubatch > 0 && HoldsPrefills(dir, prefills) && NoWorse(live, again)
    requires Heard(Replies(cfg, next, NEW_SESSION, Generation(prefills, [], live)), |prefills|, [])
    ensures var final := Live(cfg, next, Generation(prefills, [], live));
            && ReplayPrefills(cfg, FRESH, dir, ChunkNames(|prefills|), again) == Some(final.engine)
            && final.lastStepId == 0 && Marked(final.engine)
    ensures forall e :: ReplayAgrees(ReplayDrafts(cfg, next, e, dir, StepNames([]), |prefills|, again), e, [])
  {
    hide Live, Heard, HoldsPrefills, ReplayPrefills, Marked, DropTransient, NoWorse;
    assert Generation(prefills, [], live) == PrefillCalls(prefills, live);
    PrefillsReplayAgain(cfg, next, dir, prefills, live, again);
  }

  // The round trip with llama failing independently. A session that opens a generation
  // with a reset, whatever it went through before, gets prefills that go in, and drafts
  // with increasing step ids of at most four digits whose llama calls fail in any way.
  // A replay in which llama fails at most where it did then, in particular one in which
  // it does not fail at all, ends with code 0. Every step whose recorded
  // reply was ok, with no failed injection before it, is exact; every reply that was not
  // ok had recorded no tokens, so its step is exact only if the replay drafts none
  // either. If no injection failed, both sides confirm the same cells; if moreover the
  // last reply was ok, the engines end in the same state. A recording in which nothing
  // failed replays exactly.
  lemma RecordedGenerationReplays(
    cfg: Config, next: Drafter, s: SessionState, history: seq<Call>, prefills: seq<seq<Packet>>,
    requests: seq<DraftRequest>, replies: seq<DraftReply>, live: Fates, again: Fates, listing: seq<string>)
    requires cfg.ubatch > 0 && |prefills| <= 1000 && |requests| == |replies|
    requires Increasing(requests) && FourDigits(requests) && NoWorse(live, again)
    requires var answers := Replies(cfg, next, s, history + [ResetCall] + Generation(prefills, requests, live));
             Heard(answers[|history| + 1..], |prefills|, replies)
    requires Distinct(listing) && forall x :: x in listing <==> x in Recorded(prefills, requests, replies)
    ensures ReplayAgrees(
              Replay(cfg, next, FRESH, listing, Recorded(prefills, requests, replies), again),
              After(cfg, next, s, history + [ResetCall] + Generation(prefills, requests, live)).engine,
              replies)
    ensures (forall i :: 0 <= i < |replies| ==> replies[i].ok) ==>
              Repeats(
                Replay(cfg, next, FRESH, listing, Recorded(prefills, requests, replies), again),
                After(cfg, next, s, history + [ResetCall] + Generation(prefills, requests, live)).engine,
                replies)
  {
    hide Repeats;
    hide ReplayAgrees, Heard, Replies, After, Generation, Recorded, ReplayPrefills, ReplayDrafts, Replay;
    hide HoldsPrefills, HoldsDrafts, StepNames, FourDigits, Increasing, Marked, NoneDropped, NoWorse;
    var calls := Generation(prefills, requests, live);
    AfterReset(cfg, next, s, history, calls);
    HistoryIndependence(cfg, next, s, history, calls);
    ReplayOfListing(cfg, next, prefills, requests, replies, again, listing);
    DraftsReplayAgain(cfg, next, Recorded(prefills, requests, replies), prefills, requests, replies, live, again);
    if forall i :: 0 <= i < |replies| ==> replies[i].ok {
      CleanRecordingReplaysExactly(
        Replay(cfg, next, FRESH, listing, Recorded(prefills, requests, replies), again),
        After(cfg, next, s, history + [ResetCall] + calls).engine, replies);
    }
  }

  lemma CleanRecordingReplaysExactly(
    outcome: Option<(EngineState, seq<Option<Compared>>)>, final: EngineState, replies: seq<DraftReply>)
    requires ReplayAgrees(outcome, final, replies) && forall i :: 0 <= i < |replies| ==> replies[i].ok
    ensures Repeats(outcome, final, replies)
  {
    hide DropTransient;
    forall i | 0 <= i < |replies|
      ensures outcome.value.1[i] == Some(Compared(|replies[i].tokens|, |replies[i].tokens|, |replies[i].tokens|))
    {
      assert StepRepeats(replies, i, outcome.value.1[i]) && NoneDropped(replies, i);
    }
  }

  // ----- when the outcomes differ -----

  // Whatever became of the prefills while recording, a replay in which llama does not
  // fail gets through them exactly when at most one holds any token.
  lemma PrefillStageAgain(cfg: Config, dir: Directory, prefills: seq<seq<Packet>>, again: Fates)
    requires cfg.ubatch > 0 && HoldsPrefills(dir, prefills) && AllFromZero(cfg, prefills) && Faultless(again)
    ensures ReplayPrefills(cfg, FRESH, dir, ChunkNames(|prefills|), again).Some? <==> AtMostOneFilled(prefills)
  {
    hide ReplayPrefills, HoldsPrefills, AllFromZero, AtMostOneFilled, AllEmpty;
    FilledOnce(cfg, dir, prefills, again);
  }

  // So a prefill whose encoder broke while recording goes in when it is replayed.
  lemma BrokenPrefillReplays(cfg: Config, next: Drafter, tokens: seq<Packet>, live: Fates, again: Fates)
    requires cfg.ubatch > 0 && tokens != [] && FromZero(cfg, tokens)
    requires live(0).chunks(0) == EncodeBreaks && Faultless(again)
    ensures !AllWentIn(Replies(cfg, next, NEW_SESSION, Generation([tokens], [], live)), 1)
    ensures ReplayPrefills(cfg, FRESH, Recorded([tokens], [], []), ChunkNames(1), again).Some?
  {
    BrokenPrefillFails(cfg, next, tokens, live);
    hide Recorded, HoldsPrefills, AllWentIn, Replies, Generation, FromZero, Faultless, ReplayPrefills;
    OneWritten(tokens);
    PrefillStageAgain(cfg, Recorded([tokens], [], []), [tokens], again);
  }

  lemma OneWritten(tokens: seq<Packet>)
    ensures HoldsPrefills(Recorded([tokens], [], []), [tokens])
  {
    PrefillsWritten([tokens]);
  }

  lemma BrokenPrefillFails(cfg: Config, next: Drafter, tokens: seq<Packet>, live: Fates)
    requires cfg.ubatch > 0 && tokens != [] && live(0).chunks(0) == EncodeBreaks
    ensures !AllWentIn(Replies(cfg, next, NEW_SESSION, Generation([tokens], [], live)), 1)
  {
    hide Unpackable;
    var call := PrefillCall(tokens, live(0).chunks);
    assert Inject(cfg, map[], tokens, live(0).chunks, 0) == (map[], false);
    assert !Prefill(cfg, FRESH, tokens, live(0).chunks).1.ok;
    hide Prefill, Draft;
    assert PrefillCalls([tokens], live) == [call] && DraftCalls([], 1, live) == [];
    assert Generation([tokens], [], live) == [] + [call];
    LiveStep(cfg, next, [], call);
    assert Live(cfg, next, []) == NEW_SESSION && Replies(cfg, next, NEW_SESSION, []) == [];
    var answers := Replies(cfg, next, NEW_SESSION, Generation([tokens], [], live));
    assert answers[0] == Handle(cfg, next, NEW_SESSION, call).1;
  }

  // And a draft whose noise decode broke while recording diverges when it is replayed,
  // exactly when the replay drafts anything.
  lemma BrokenNoiseDiverges(
    cfg: Config, next: Drafter, request: DraftRequest, live: Fates, again: Fates, listing: seq<string>)
    requires cfg.ubatch > 0 && request.accepted == [] && 0 < request.stepId < 10000
    requires live(0).noise.Breaks? && Faultless(again)
    requires var reply := HandleDraft(cfg, next, NEW_SESSION, request, live(0)).1;
             Distinct(listing) && forall x :: x in listing <==> x in Recorded([], [request], [reply])
    ensures var reply := HandleDraft(cfg, next, NEW_SESSION, request, live(0)).1;
            var outcome := Replay(cfg, next, FRESH, listing, Recorded([], [request], [reply]), again);
            var drafted := Draft(cfg, next, FRESH, request, again(0)).1.tokens;
            && Heard(Replies(cfg, next, NEW_SESSION, Generation([], [request], live)), 0, [reply])
            && reply.tokens == []
            && outcome.Some? && outcome.value.1 == [Some(Compared(0, 0, |drafted|))]
            && (Exact(outcome.value.1[0]) <==> drafted == [])
  {
    hide Draft, RequestName, ResponseName, IsRequestName, IsPrefillName, ResponseFor, Recorded, Replay, Faultless;
    var reply := HandleDraft(cfg, next, NEW_SESSION, request, live(0)).1;
    var call := DraftCall(request, live(0));
    assert Generation([], [request], live) == [] + [call];
    LiveStep(cfg, next, [], call);
    BrokenNoiseFails(cfg, next, request, live(0));
    FailedDraftsNothing(cfg, next, FRESH, request, live(0));
    ReplayOfListing(cfg, next, [], [request], [reply], again, listing);
    RequestNameFits(request.stepId);
    assert ChunkNames(0) == [] && StepNames([request])[..0] == [];
    var name := StepNames([request])[0];
    assert HoldsDraft(Recorded([], [request], [reply]), request, reply);
  }

  lemma BrokenNoiseFails(cfg: Config, next: Drafter, request: DraftRequest, fate: Fate)
    requires cfg.ubatch > 0 && request.accepted == [] && fate.noise.Breaks?
    ensures !Draft(cfg, next, FRESH, request, fate).1.ok
  {
    FreshIsMarked();
    DropMarks(FRESH);
    BlockIsTransient(cfg, next, DropTransient(FRESH), request, fate.noise);
  }
}
