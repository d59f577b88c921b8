// What recording leaves in a directory, what a replay finds there, and how the replay
// goes when llama breaks where it did before; several generations in one directory.
module RecordReplay {
  import opened Lists
  import opened Wire
  import opened DraftEngine
  import opened DraftService
  import opened FileNames
  import opened GoldenTrace
  import opened CacheCleanup

  // ----- what a generation leaves in the directory -----

  function WritePrefills(dir: Directory, prefills: seq<seq<Packet>>): Directory {
    if prefills == [] then dir
    else
      var n := |prefills| - 1;
      WritePrefill(WritePrefills(dir, prefills[..n]), n, prefills[n])
  }

  function WriteDrafts(dir: Directory, requests: seq<DraftRequest>, replies: seq<DraftReply>): Directory
    requires |requests| == |replies|
  {
    if requests == [] then dir
    else
      var n := |requests| - 1;
      WriteDraft(WriteDrafts(dir, requests[..n], replies[..n]), requests[n], replies[n])
  }

  const HANDSHAKE: Directory := map["session.pb" := SessionFile]

  function Recorded(prefills: seq<seq<Packet>>, requests: seq<DraftRequest>, replies: seq<DraftReply>): Directory
    requires |requests| == |replies|
  {
    WriteDrafts(WritePrefills(HANDSHAKE, prefills), requests, replies)
  }

  ghost predicate Increasing(requests: seq<DraftRequest>) {
    forall i, j :: 0 <= i < j < |requests| ==> requests[i].stepId < requests[j].stepId
  }

  // Step ids that the %04d names can sort.
  ghost predicate FourDigits(requests: seq<DraftRequest>) {
    forall i :: 0 <= i < |requests| ==> 0 < requests[i].stepId < 10000
  }

  lemma PrefillNamesDiffer(a: nat, b: nat)
    requires a < b < 1000
    ensures PrefillName(a) != PrefillName(b)
  {
    hide PrefillName, Less;
    PrefillsSort(a, b);
    LessIsStrict(PrefillName(a), PrefillName(b));
  }

  lemma RequestNamesDiffer(a: nat, b: nat)
    requires a < b < 10000
    ensures RequestName(a) != RequestName(b) && ResponseName(a) != ResponseName(b)
  {
    hide Padded, Less;
    RequestsSort(a, b);
    LessIsStrict(RequestName(a), RequestName(b));
    var x, y := ResponseName(a), ResponseName(b);
    assert RequestName(a) == x[..|x| - 12] + "_request.pb";
    assert RequestName(b) == y[..|y| - 12] + "_request.pb";
  }

  ghost predicate HoldsPrefills(dir: Directory, prefills: seq<seq<Packet>>) {
    forall i: nat :: i < |prefills| ==> PrefillName(i) in dir && dir[PrefillName(i)] == PrefillFile(prefills[i])
  }

  ghost predicate HoldsDraft(dir: Directory, request: DraftRequest, reply: DraftReply) {
    && RequestName(request.stepId) in dir
    && dir[RequestName(request.stepId)] == RequestFile(request)
    && ResponseName(request.stepId) in dir
    && dir[ResponseName(request.stepId)] == ResponseFile(reply)
  }

  ghost predicate HoldsDrafts(dir: Directory, requests: seq<DraftRequest>, replies: seq<DraftReply>)
    requires |requests| == |replies|
  {
    forall i :: 0 <= i < |requests| ==> HoldsDraft(dir, requests[i], replies[i])
  }

  lemma {:induction false} PrefillsWritten(prefills: seq<seq<Packet>>)
    requires |prefills| <= 1000
    ensures var dir := WritePrefills(HANDSHAKE, prefills);
            && HoldsPrefills(dir, prefills)
            && (forall x :: x in dir && IsPrefillName(x) ==> exists i: nat :: i < |prefills| && x == PrefillName(i))
            && (forall x :: x in dir ==> !IsRequestName(x))
  {
    hide PrefillName, IsPrefillName, IsRequestName;
    PrefillNameFits(0);
    if prefills == [] {
    } else {
      var n := |prefills| - 1;
      PrefillsWritten(prefills[..n]);
      PrefillNameFits(n);
      var before, dir := WritePrefills(HANDSHAKE, prefills[..n]), WritePrefills(HANDSHAKE, prefills);
      forall i: nat | i < n
        ensures PrefillName(i) in dir && dir[PrefillName(i)] == PrefillFile(prefills[i])
      {
        PrefillNamesDiffer(i, n);
        assert before[PrefillName(i)] == PrefillFile(prefills[..n][i]);
      }
    }
  }

  lemma PrefillsSurviveDraft(dir: Directory, prefills: seq<seq<Packet>>, request: DraftRequest, reply: DraftReply)
    requires HoldsPrefills(dir, prefills)
    ensures HoldsPrefills(WriteDraft(dir, request, reply), prefills)
    ensures forall x :: x in WriteDraft(dir, request, reply) && IsPrefillName(x) ==> x in dir
    ensures forall x :: x in WriteDraft(dir, request, reply) && IsRequestName(x) ==>
              x in dir || x == RequestName(request.stepId)
  {
    hide PrefillName, RequestName, ResponseName, IsPrefillName, IsRequestName;
    RequestNameFits(request.stepId);
    forall i: nat | i < |prefills|
      ensures WriteDraft(dir, request, reply)[PrefillName(i)] == dir[PrefillName(i)]
    {
      PrefillNameFits(i);
    }
  }

  lemma DraftSurvivesDraft(dir: Directory, older: DraftRequest, was: DraftReply, request: DraftRequest,
                           reply: DraftReply)
    requires older.stepId < request.stepId < 10000 && HoldsDraft(dir, older, was)
    ensures HoldsDraft(WriteDraft(dir, request, reply), older, was)
  {
    hide RequestName, ResponseName, IsPrefillName, IsRequestName;
    RequestNamesDiffer(older.stepId, request.stepId);
    RequestNameFits(older.stepId);
    RequestNameFits(request.stepId);
  }

  lemma DraftWritten(dir: Directory, request: DraftRequest, reply: DraftReply)
    ensures HoldsDraft(WriteDraft(dir, request, reply), request, reply)
  {
    hide RequestName, ResponseName, IsPrefillName, IsRequestName;
    RequestNameFits(request.stepId);
  }

  ghost predicate RequestsOf(dir: Directory, requests: seq<DraftRequest>) {
    forall x :: x in dir && IsRequestName(x) ==> exists i :: 0 <= i < |requests| && x == RequestName(requests[i].stepId)
  }

  lemma RequestsGrow(before: Directory, dir: Directory, requests: seq<DraftRequest>)
    requires requests != [] && RequestsOf(before, requests[..|requests| - 1])
    requires forall x :: x in dir && IsRequestName(x) ==>
               x in before || x == RequestName(requests[|requests| - 1].stepId)
    ensures RequestsOf(dir, requests)
  {
    hide RequestName, IsRequestName;
    var n := |requests| - 1;
    forall x | x in dir && IsRequestName(x)
      ensures exists i :: 0 <= i < |requests| && x == RequestName(requests[i].stepId)
    {
      if x in before {
        var i :| 0 <= i < n && x == RequestName(requests[..n][i].stepId);
        assert x == RequestName(requests[i].stepId);
      }
    }
  }

  lemma {:induction false} DraftsWritten(dir: Directory, prefills: seq<seq<Packet>>,
                                         requests: seq<DraftRequest>, replies: seq<DraftReply>)
    requires |requests| == |replies| && Increasing(requests) && FourDigits(requests) && HoldsPrefills(dir, prefills)
    requires forall x :: x in dir ==> !IsRequestName(x)
    ensures var written := WriteDrafts(dir, requests, replies);
            && HoldsPrefills(written, prefills)
            && HoldsDrafts(written, requests, replies)
            && RequestsOf(written, requests)
            && (forall x :: x in written && IsPrefillName(x) ==> x in dir)
  {
    hide WriteDraft, HoldsPrefills, HoldsDraft, RequestsOf, RequestName, IsPrefillName, IsRequestName;
    if requests == [] {
      NoRequests(dir);
    } else {
      var n := |requests| - 1;
      DraftsWritten(dir, prefills, requests[..n], replies[..n]);
      var before := WriteDrafts(dir, requests[..n], replies[..n]);
      var written := WriteDraft(before, requests[n], replies[n]);
      PrefillsSurviveDraft(before, prefills, requests[n], replies[n]);
      RequestsGrow(before, written, requests);
      DraftWritten(before, requests[n], replies[n]);
      forall i | 0 <= i < n
        ensures HoldsDraft(written, requests[i], replies[i])
      {
        assert HoldsDraft(before, requests[..n][i], replies[..n][i]);
        DraftSurvivesDraft(before, requests[i], replies[i], requests[n], replies[n]);
      }
    }
  }

  lemma NoRequests(dir: Directory)
    requires forall x :: x in dir ==> !IsRequestName(x)
    ensures RequestsOf(dir, [])
  {
  }

  lemma RequestsMatch(requests: seq<DraftRequest>)
    ensures forall i :: 0 <= i < |requests| ==> IsRequestName(RequestName(requests[i].stepId))
  {
    hide RequestName, IsRequestName;
    forall i | 0 <= i < |requests|
      ensures IsRequestName(RequestName(requests[i].stepId))
    {
      RequestNameFits(requests[i].stepId);
    }
  }

  // ----- what the daemon finds there -----

  function ChunkNames(n: nat): (r: seq<string>)
    ensures |r| == n
  {
    seq(n, i requires 0 <= i => PrefillName(i))
  }

  function StepNames(requests: seq<DraftRequest>): (r: seq<string>)
    ensures |r| == |requests|
    ensures forall i :: 0 <= i < |r| ==> IsRequestName(r[i])
  {
    RequestsMatch(requests);
    seq(|requests|, i requires 0 <= i < |requests| => RequestName(requests[i].stepId))
  }

  lemma {:induction false} NamesDistinct(listing: seq<string>)
    requires Distinct(listing)
    ensures Distinct(PrefillNames(listing)) && Distinct(RequestNames(listing))
  {
    hide IsPrefillName, IsRequestName;
    if listing == [] {
    } else {
      var n := |listing| - 1;
      NamesDistinct(listing[..n]);
      assert listing[n] !in listing[..n];
      LastIsNew(PrefillNames(listing[..n]), listing[n]);
      LastIsNew(RequestNames(listing[..n]), listing[n]);
    }
  }

  lemma LastIsNew(names: seq<string>, last: string)
    requires Distinct(names) && last !in names
    ensures Distinct(names + [last]) && Distinct(names + [])
  {
    assert names + [] == names;
  }

  lemma PrefillsFound(listing: seq<string>, dir: Directory, prefills: seq<seq<Packet>>)
    requires |prefills| <= 1000 && Distinct(listing) && (forall x :: x in listing <==> x in dir)
    requires HoldsPrefills(dir, prefills)
    requires forall x :: x in dir && IsPrefillName(x) ==> exists i: nat :: i < |prefills| && x == PrefillName(i)
    ensures Sort(PrefillNames(listing), Less) == ChunkNames(|prefills|)
  {
    hide PrefillName, Less, IsPrefillName, Sort;
    var found, expected := PrefillNames(listing), ChunkNames(|prefills|);
    NamesDistinct(listing);
    var all := set x | x in found;
    LessOrders(all);
    SortSorts(found, Less, all);
    SortKeeps(found, Less);
    forall i, j | 0 <= i < j < |expected|
      ensures Less(expected[i], expected[j])
    {
      PrefillsSort(i, j);
    }
    forall i: nat | i < |prefills|
      ensures PrefillName(i) in found
    {
      PrefillNameFits(i);
    }
    forall x | x in found
      ensures x in expected
    {
      var i: nat :| i < |prefills| && x == PrefillName(i);
      assert expected[i] == x;
    }
    SortedUnique(Sort(found, Less), expected, Less, all);
  }

  lemma RequestsFound(listing: seq<string>, dir: Directory, requests: seq<DraftRequest>)
    requires Increasing(requests) && FourDigits(requests) && Distinct(listing)
    requires (forall x :: x in listing <==> x in dir)
    requires forall i :: 0 <= i < |requests| ==> RequestName(requests[i].stepId) in dir
    requires RequestsOf(dir, requests)
    ensures Sort(RequestNames(listing), Less) == StepNames(requests)
  {
    hide RequestName, Less, IsRequestName, IsPrefillName, Sort;
    var found, expected := RequestNames(listing), StepNames(requests);
    NamesDistinct(listing);
    var all := set x | x in found;
    LessOrders(all);
    SortSorts(found, Less, all);
    SortKeeps(found, Less);
    forall i, j | 0 <= i < j < |expected|
      ensures Less(expected[i], expected[j])
    {
      RequestsSort(requests[i].stepId, requests[j].stepId);
    }
    forall i | 0 <= i < |requests|
      ensures RequestName(requests[i].stepId) in found
    {
      RequestNameFits(requests[i].stepId);
    }
    forall x | x in found
      ensures x in expected
    {
      var i :| 0 <= i < |requests| && x == RequestName(requests[i].stepId);
      assert expected[i] == x;
    }
    SortedUnique(Sort(found, Less), expected, Less, all);
  }

  // ----- one generation, live and replayed -----

  function PrefillCalls(prefills: seq<seq<Packet>>, fates: Fates): (r: seq<Call>)
    ensures |r| == |prefills|
  {
    seq(|prefills|, i requires 0 <= i < |prefills| => PrefillCall(prefills[i], fates(i).chunks))
  }

  function DraftCalls(requests: seq<DraftRequest>, first: nat, fates: Fates): (r: seq<Call>)
    ensures |r| == |requests|
  {
    seq(|requests|, i requires 0 <= i < |requests| => DraftCall(requests[i], fates(first + i)))
  }

  function Generation(prefills: seq<seq<Packet>>, requests: seq<DraftRequest>, fates: Fates): seq<Call> {
    PrefillCalls(prefills, fates) + DraftCalls(requests, |prefills|, fates)
  }

  lemma PrefillCallsGrow(prefills: seq<seq<Packet>>, fates: Fates)
    requires prefills != []
    ensures var n := |prefills| - 1;
            var call := PrefillCall(prefills[n], fates(n).chunks);
            PrefillCalls(prefills, fates) == PrefillCalls(prefills[..n], fates) + [call]
  {
  }

  lemma GenerationGrows(prefills: seq<seq<Packet>>, requests: seq<DraftRequest>, fates: Fates)
    requires requests != []
    ensures Generation(prefills, requests, fates)
         == Generation(prefills, requests[..|requests| - 1], fates)
          + [DraftCall(requests[|requests| - 1], fates(|prefills| + |requests| - 1))]
  {
  }

  // The session starts from the reset that opens a generation.
  function Live(cfg: Config, next: Drafter, calls: seq<Call>): SessionState
    requires cfg.ubatch > 0
  {
    After(cfg, next, NEW_SESSION, calls)
  }

  lemma LiveStep(cfg: Config, next: Drafter, calls: seq<Call>, call: Call)
    requires cfg.ubatch > 0
    ensures Live(cfg, next, calls + [call]) == Handle(cfg, next, Live(cfg, next, calls), call).0
    ensures Replies(cfg, next, NEW_SESSION, calls + [call])
         == Replies(cfg, next, NEW_SESSION, calls) + [Handle(cfg, next, Live(cfg, next, calls), call).1]
  {
    hide Handle;
    assert (calls + [call])[..|calls|] == calls;
  }

  // The answers to a generation: some to its prefills, and these replies to its drafts.
  ghost predicate Answers(answers: seq<Reply>, prefills: nat, replies: seq<DraftReply>) {
    && |answers| == prefills + |replies|
    && (forall i :: 0 <= i < |replies| ==> answers[prefills + i] == DraftAnswer(replies[i]))
  }

  // Every prefill went through.
  ghost predicate AllWentIn(answers: seq<Reply>, prefills: nat) {
    prefills <= |answers| && forall i :: 0 <= i < prefills ==> answers[i].PrefillAnswer? && answers[i].prefill.ok
  }

  ghost predicate Heard(answers: seq<Reply>, prefills: nat, replies: seq<DraftReply>) {
    Answers(answers, prefills, replies) && AllWentIn(answers, prefills)
  }

  lemma HeardPrefill(answers: seq<Reply>, answer: Reply, n: nat)
    requires Heard(answers + [answer], n + 1, [])
    ensures Heard(answers, n, []) && answer.PrefillAnswer? && answer.prefill.ok
  {
    var all := answers + [answer];
    assert all[n] == answer && forall i :: 0 <= i < n ==> all[i] == answers[i];
  }

  lemma HeardDraft(answers: seq<Reply>, answer: Reply, prefills: nat, replies: seq<DraftReply>)
    requires replies != [] && Heard(answers + [answer], prefills, replies)
    ensures Heard(answers, prefills, replies[..|replies| - 1]) && answer == DraftAnswer(replies[|replies| - 1])
  {
    var all, n := answers + [answer], |replies| - 1;
    assert all[prefills + n] == answer && forall i :: 0 <= i < prefills + n ==> all[i] == answers[i];
  }

  lemma ChunkNamesGrow(n: nat)
    ensures ChunkNames(n + 1) == ChunkNames(n) + [PrefillName(n)]
  {
    hide PrefillName;
  }

  lemma PrefillFileReplays(cfg: Config, e: EngineState, dir: Directory, names: seq<string>, name: string, fates: Fates)
    requires cfg.ubatch > 0 && ReplayPrefills(cfg, FRESH, dir, names, fates) == Some(e)
    requires name in dir && dir[name].PrefillFile?
    requires Prefill(cfg, e, dir[name].tokens, fates(|names|).chunks).1.ok
    ensures ReplayPrefills(cfg, FRESH, dir, names + [name], fates)
         == Some(Prefill(cfg, e, dir[name].tokens, fates(|names|).chunks).0)
  {
    hide Prefill;
    assert (names + [name])[..|names|] == names;
  }

  lemma {:induction false} PrefillsReplay(
    cfg: Config, next: Drafter, dir: Directory, prefills: seq<seq<Packet>>, fates: Fates)
    requires cfg.ubatch > 0 && HoldsPrefills(dir, prefills)
    requires Heard(Replies(cfg, next, NEW_SESSION, PrefillCalls(prefills, fates)), |prefills|, [])
    ensures ReplayPrefills(cfg, FRESH, dir, ChunkNames(|prefills|), fates)
         == Some(Live(cfg, next, PrefillCalls(prefills, fates)).engine)
    ensures Live(cfg, next, PrefillCalls(prefills, fates)).lastStepId == 0
  {
    hide Prefill, Draft, PrefillName, Heard, Replies, ChunkNames;
    if prefills == [] {
      assert PrefillCalls(prefills, fates) == [];
      assert ChunkNames(0) == [];
    } else {
      var n := |prefills| - 1;
      var before, call := PrefillCalls(prefills[..n], fates), PrefillCall(prefills[n], fates(n).chunks);
      PrefillCallsGrow(prefills, fates);
      LiveStep(cfg, next, before, call);
      HeardPrefill(Replies(cfg, next, NEW_SESSION, before), Handle(cfg, next, Live(cfg, next, before), call).1, n);
      FewerPrefills(dir, prefills, n);
      PrefillsReplay(cfg, next, dir, prefills[..n], fates);
      ChunkNamesGrow(n);
      PrefillFileReplays(cfg, Live(cfg, next, before).engine, dir, ChunkNames(n), PrefillName(n), fates);
    }
  }

  lemma FewerPrefills(dir: Directory, prefills: seq<seq<Packet>>, n: nat)
    requires n < |prefills| && HoldsPrefills(dir, prefills)
    ensures HoldsPrefills(dir, prefills[..n]) && PrefillName(n) in dir
    ensures dir[PrefillName(n)] == PrefillFile(prefills[n])
  {
    hide PrefillName;
  }

  // Every draft of the replay repeats the recorded reply, and the engine ends up
  // as the session's did.
  ghost predicate Repeats(
    outcome: Option<(EngineState, seq<Option<Compared>>)>, e: EngineState, replies: seq<DraftReply>)
  {
    && outcome.Some?
    && outcome.value.0 == e
    && |outcome.value.1| == |replies|
    && forall i :: 0 <= i < |replies| ==>
         var n := |replies[i].tokens|;
         outcome.value.1[i] == Some(Compared(n, n, n))
  }

  lemma StepNamesGrow(requests: seq<DraftRequest>)
    requires requests != []
    ensures StepNames(requests)
         == StepNames(requests[..|requests| - 1]) + [RequestName(requests[|requests| - 1].stepId)]
  {
    hide RequestName;
  }

  lemma RequestFileReplays(cfg: Config, next: Drafter, start: EngineState, e: EngineState, dir: Directory,
                           names: seq<string>,
                           request: DraftRequest, reply: DraftReply, first: nat, replies: seq<DraftReply>, fates: Fates)
    requires cfg.ubatch > 0 && HoldsDraft(dir, request, reply)
    requires forall i :: 0 <= i < |names| ==> IsRequestName(names[i])
    requires Repeats(ReplayDrafts(cfg, next, start, dir, names, first, fates), e, replies)
    requires |names| == |replies| && reply == Draft(cfg, next, e, request, fates(first + |names|)).1
    ensures IsRequestName(RequestName(request.stepId))
    ensures Repeats(ReplayDrafts(cfg, next, start, dir, names + [RequestName(request.stepId)], first, fates),
                    Draft(cfg, next, e, request, fates(first + |names|)).0, replies + [reply])
  {
    hide Draft, RequestName, ResponseName, IsRequestName, IsPrefillName, ResponseFor, MatchLength;
    var name := RequestName(request.stepId);
    assert (names + [name])[..|names|] == names;
    RequestNameFits(request.stepId);
    MatchIsWhole(reply.tokens, reply.tokens);
  }

  lemma {:induction false} DraftsReplay(cfg: Config, next: Drafter, dir: Directory, prefills: seq<seq<Packet>>,
                                        requests: seq<DraftRequest>, replies: seq<DraftReply>, fates: Fates)
    requires cfg.ubatch > 0 && |requests| == |replies| && Increasing(requests) && FourDigits(requests)
    requires HoldsPrefills(dir, prefills) && HoldsDrafts(dir, requests, replies)
    requires Heard(Replies(cfg, next, NEW_SESSION, Generation(prefills, requests, fates)), |prefills|, replies)
    ensures ReplayPrefills(cfg, FRESH, dir, ChunkNames(|prefills|), fates).Some?
    ensures var live := Live(cfg, next, Generation(prefills, requests, fates));
            && live.lastStepId == (if requests == [] then 0 else requests[|requests| - 1].stepId)
            && Repeats(ReplayDrafts(cfg, next, ReplayPrefills(cfg, FRESH, dir, ChunkNames(|prefills|), fates).value,
                                    dir, StepNames(requests), |prefills|, fates), live.engine, replies)
  {
    hide Prefill, Draft, HoldsPrefills, RequestName, IsRequestName, ReplayPrefills, Heard, Generation, Replies, Live,
      After, Repeats;
    hide HoldsDraft;
    if requests == [] {
      NoDrafts(cfg, next, dir, prefills, fates);
    } else {
      var n := |requests| - 1;
      var before, call := Generation(prefills, requests[..n], fates), DraftCall(requests[n], fates(|prefills| + n));
      GenerationGrows(prefills, requests, fates);
      LiveStep(cfg, next, before, call);
      HeardDraft(Replies(cfg, next, NEW_SESSION, before), Handle(cfg, next, Live(cfg, next, before), call).1,
                 |prefills|, replies);
      StepNamesGrow(requests);
      RequestNameFits(requests[n].stepId);
      DraftsReplay(cfg, next, dir, prefills, requests[..n], replies[..n], fates);
      assert replies == replies[..n] + [replies[n]];
      RequestFileReplays(cfg, next, ReplayPrefills(cfg, FRESH, dir, ChunkNames(|prefills|), fates).value,
                         Live(cfg, next, before).engine, dir, StepNames(requests[..n]), requests[n], replies[n],
                         |prefills|, replies[..n], fates);
    }
  }

  lemma NoDrafts(cfg: Config, next: Drafter, dir: Directory, prefills: seq<seq<Packet>>, fates: Fates)
    requires cfg.ubatch > 0 && HoldsPrefills(dir, prefills)
    requires Heard(Replies(cfg, next, NEW_SESSION, Generation(prefills, [], fates)), |prefills|, [])
    ensures ReplayPrefills(cfg, FRESH, dir, ChunkNames(|prefills|), fates)
         == Some(Live(cfg, next, Generation(prefills, [], fates)).engine)
    ensures Live(cfg, next, Generation(prefills, [], fates)).lastStepId == 0
    ensures forall e :: Repeats(ReplayDrafts(cfg, next, e, dir, StepNames([]), |prefills|, fates), e, [])
  {
    hide Live, Heard, HoldsPrefills, ReplayPrefills;
    assert Generation(prefills, [], fates) == PrefillCalls(prefills, fates);
    PrefillsReplay(cfg, next, dir, prefills, fates);
  }

  lemma {:induction false} RepliesToStart(cfg: Config, next: Drafter, a: seq<Call>, b: seq<Call>)
    requires cfg.ubatch > 0
    ensures Replies(cfg, next, NEW_SESSION, a + b)[..|a|] == Replies(cfg, next, NEW_SESSION, a)
  {
    hide Handle;
    if b == [] {
      assert a + b == a;
    } else {
      var n := |b| - 1;
      RepliesToStart(cfg, next, a, b[..n]);
      assert (a + b)[..|a + b| - 1] == a + b[..n];
    }
  }

  lemma PrefillStops(
    cfg: Config, dir: Directory, names: seq<string>, name: string, e: EngineState, fates: Fates)
    requires cfg.ubatch > 0 && name in dir && dir[name].PrefillFile?
    requires var before := ReplayPrefills(cfg, FRESH, dir, names, fates);
             || before == None
             || (before == Some(e) && !Prefill(cfg, e, dir[name].tokens, fates(|names|).chunks).1.ok)
    ensures ReplayPrefills(cfg, FRESH, dir, names + [name], fates) == None
  {
    hide Prefill;
    assert (names + [name])[..|names|] == names;
  }

  lemma AllButLast(answers: seq<Reply>, answer: Reply, n: nat)
    requires |answers| == n && answer.PrefillAnswer?
    ensures AllWentIn(answers + [answer], n + 1) <==> AllWentIn(answers, n) && answer.prefill.ok
  {
    var all := answers + [answer];
    assert all[n] == answer && forall i :: 0 <= i < n ==> all[i] == answers[i];
  }

  // A chunk is recorded before it is sent, whatever becomes of it: one that failed stops
  // a replay in which llama breaks at the same places.
  lemma {:induction false} FailedPrefillStops(
    cfg: Config, next: Drafter, dir: Directory, prefills: seq<seq<Packet>>, fates: Fates)
    requires cfg.ubatch > 0 && HoldsPrefills(dir, prefills)
    requires !AllWentIn(Replies(cfg, next, NEW_SESSION, PrefillCalls(prefills, fates)), |prefills|)
    ensures ReplayPrefills(cfg, FRESH, dir, ChunkNames(|prefills|), fates) == None
  {
    hide Prefill, Draft, PrefillName, Replies, ChunkNames, ReplayPrefills, AllWentIn;
    if prefills == [] {
      NoPrefillsGoIn(Replies(cfg, next, NEW_SESSION, PrefillCalls(prefills, fates)));
    } else {
      var n := |prefills| - 1;
      var before, call := PrefillCalls(prefills[..n], fates), PrefillCall(prefills[n], fates(n).chunks);
      var answers := Replies(cfg, next, NEW_SESSION, before);
      var e := Live(cfg, next, before).engine;
      PrefillCallsGrow(prefills, fates);
      LiveStep(cfg, next, before, call);
      FewerPrefills(dir, prefills, n);
      AllButLast(answers, Handle(cfg, next, Live(cfg, next, before), call).1, n);
      if AllWentIn(answers, n) {
        PrefillsReplay(cfg, next, dir, prefills[..n], fates);
      } else {
        FailedPrefillStops(cfg, next, dir, prefills[..n], fates);
      }
      ChunkNamesGrow(n);
      PrefillStops(cfg, dir, ChunkNames(n), PrefillName(n), e, fates);
    }
  }

  lemma NoPrefillsGoIn(answers: seq<Reply>)
    ensures AllWentIn(answers, 0)
  {
  }

  // What the replay of a recorded generation comes down to, however its files are listed.
  lemma ReplayOfListing(cfg: Config, next: Drafter, prefills: seq<seq<Packet>>, requests: seq<DraftRequest>,
                        replies: seq<DraftReply>, fates: Fates, listing: seq<string>)
    requires cfg.ubatch > 0 && |prefills| <= 1000 && |requests| == |replies|
    requires Increasing(requests) && FourDigits(requests)
    requires Distinct(listing) && forall x :: x in listing <==> x in Recorded(prefills, requests, replies)
    ensures var dir := Recorded(prefills, requests, replies);
            var start := ReplayPrefills(cfg, FRESH, dir, ChunkNames(|prefills|), fates);
            && HoldsPrefills(dir, prefills) && HoldsDrafts(dir, requests, replies)
            && Replay(cfg, next, FRESH, listing, dir, fates)
                 == (if start.None? then None
                     else ReplayDrafts(cfg, next, start.value, dir, StepNames(requests), |prefills|, fates))
  {
    hide WriteDrafts, WritePrefills, ReplayPrefills, ReplayDrafts, HoldsPrefills, HoldsDrafts, IsRequestName;
    hide IsPrefillName, RequestName, PrefillName, StepNames, Sort, FourDigits, Increasing, RequestsOf;
    var dir := Recorded(prefills, requests, replies);
    PrefillsWritten(prefills);
    DraftsWritten(WritePrefills(HANDSHAKE, prefills), prefills, requests, replies);
    PrefillsFound(listing, dir, prefills);
    assert forall i :: 0 <= i < |requests| ==> RequestName(requests[i].stepId) in dir by {
      DraftsAreThere(dir, requests, replies);
    }
    RequestsFound(listing, dir, requests);
  }

  // The round trip when llama breaks in the replay exactly where it broke in the
  // recording. A session that opens a generation with a reset, whatever it went through
  // before, gets prefills and then drafts with increasing step ids of at most four
  // digits. The files its client writes, listed in any order, replay on a fresh engine
  // to code 0, every response exact, and the same final engine, if and only if all
  // prefills succeeded; else the replay stops at the first that did not.
  lemma ReplaysUnderSameFaults(
    cfg: Config, next: Drafter, s: SessionState, history: seq<Call>, prefills: seq<seq<Packet>>,
    requests: seq<DraftRequest>, replies: seq<DraftReply>, fates: Fates, listing: seq<string>)
    requires cfg.ubatch > 0 && |prefills| <= 1000 && |requests| == |replies|
    requires Increasing(requests) && FourDigits(requests)
    requires var answers := Replies(cfg, next, s, history + [ResetCall] + Generation(prefills, requests, fates));
             Answers(answers[|history| + 1..], |prefills|, replies)
    requires Distinct(listing) && forall x :: x in listing <==> x in Recorded(prefills, requests, replies)
    ensures var answers := Replies(cfg, next, s, history + [ResetCall] + Generation(prefills, requests, fates));
            var outcome := Replay(cfg, next, FRESH, listing, Recorded(prefills, requests, replies), fates);
            var final := After(cfg, next, s, history + [ResetCall] + Generation(prefills, requests, fates)).engine;
            if AllWentIn(answers[|history| + 1..], |prefills|) then Repeats(outcome, final, replies)
            else outcome == None
  {
    hide Repeats, Answers, AllWentIn, Replies, After, Generation, Recorded, ReplayPrefills, ReplayDrafts, Replay;
    hide HoldsPrefills, HoldsDrafts, StepNames, FourDigits, Increasing;
    var live, dir := Generation(prefills, requests, fates), Recorded(prefills, requests, replies);
    AfterReset(cfg, next, s, history, live);
    HistoryIndependence(cfg, next, s, history, live);
    ReplayOfListing(cfg, next, prefills, requests, replies, fates, listing);
    var answers := Replies(cfg, next, NEW_SESSION, live);
    if AllWentIn(answers, |prefills|) {
      DraftsReplay(cfg, next, dir, prefills, requests, replies, fates);
    } else {
      FirstAnswers(cfg, next, prefills, requests, fates);
      FailedPrefillStops(cfg, next, dir, prefills, fates);
    }
  }

  lemma FirstAnswers(cfg: Config, next: Drafter, prefills: seq<seq<Packet>>, requests: seq<DraftRequest>, fates: Fates)
    requires cfg.ubatch > 0
    ensures AllWentIn(Replies(cfg, next, NEW_SESSION, Generation(prefills, requests, fates)), |prefills|)
       <==> AllWentIn(Replies(cfg, next, NEW_SESSION, PrefillCalls(prefills, fates)), |prefills|)
  {
    hide Replies;
    var first := PrefillCalls(prefills, fates);
    RepliesToStart(cfg, next, first, DraftCalls(requests, |prefills|, fates));
    var all := Replies(cfg, next, NEW_SESSION, Generation(prefills, requests, fates));
    assert forall i :: 0 <= i < |prefills| ==> all[i] == all[..|prefills|][i];
  }

  lemma DraftsAreThere(dir: Directory, requests: seq<DraftRequest>, replies: seq<DraftReply>)
    requires |requests| == |replies| && HoldsDrafts(dir, requests, replies)
    ensures forall i :: 0 <= i < |requests| ==> RequestName(requests[i].stepId) in dir
  {
    hide RequestName;
  }

  // ----- several generations in one directory -----

  // The prefill of every generation starts at position 0 again, and the chunk counter
  // of the client goes on counting, so one directory collects them all.
  ghost predicate FromZero(cfg: Config, tokens: seq<Packet>) {
    forall i :: 0 <= i < |tokens| ==> tokens[i].position == i && Unpackable(cfg, tokens[i])
  }

  ghost predicate AllFromZero(cfg: Config, prefills: seq<seq<Packet>>) {
    forall i :: 0 <= i < |prefills| ==> FromZero(cfg, prefills[i])
  }

  ghost predicate AtMostOneFilled(prefills: seq<seq<Packet>>) {
    forall i, j :: 0 <= i < j < |prefills| ==> prefills[i] == [] || prefills[j] == []
  }

  ghost predicate AllEmpty(prefills: seq<seq<Packet>>) {
    forall i :: 0 <= i < |prefills| ==> prefills[i] == []
  }

  lemma PrefillFromZero(cfg: Config, e: EngineState, tokens: seq<Packet>, chunks: ChunkFates)
    requires cfg.ubatch > 0 && FromZero(cfg, tokens)
    ensures var d := Prefill(cfg, e, tokens, chunks);
            && (d.1.ok ==> tokens == [] || e.cache == map[])
            && (d.1.ok ==> (d.0.cache == map[] <==> e.cache == map[] && tokens == []))
            && ((forall c :: chunks(c) == Encoded(Decodes)) ==> (d.1.ok <==> tokens == [] || e.cache == map[]))
  {
    hide MaxPos, Span, Inject;
    var cells := Shipped(cfg, tokens);
    ShippedShips(cfg, tokens);
    var kept := InjectOutcome(cfg, e.cache, tokens, cells, 0, chunks, 0);
    if kept > 0 {
      SpanHasCells(e.cache, cells, 0, kept);
    } else {
      EmptySpan(e.cache, cells, 0);
    }
    if forall c :: chunks(c) == Encoded(Decodes) {
      FaultlessInjection(cfg, e.cache, tokens, cells, 0, chunks, 0);
    }
  }

  lemma {:induction false} FilledOnce(cfg: Config, dir: Directory, prefills: seq<seq<Packet>>, fates: Fates)
    requires cfg.ubatch > 0 && HoldsPrefills(dir, prefills) && AllFromZero(cfg, prefills)
    ensures var r := ReplayPrefills(cfg, FRESH, dir, ChunkNames(|prefills|), fates);
            && (r.Some? ==> AtMostOneFilled(prefills) && (r.value.cache == map[] <==> AllEmpty(prefills)))
            && ((forall i, c :: fates(i).chunks(c) == Encoded(Decodes)) && AtMostOneFilled(prefills) ==> r.Some?)
  {
    hide Prefill, PrefillName, FromZero;
    if prefills == [] {
    } else {
      var n := |prefills| - 1;
      var names := ChunkNames(n);
      FewerPrefills(dir, prefills, n);
      FilledOnce(cfg, dir, prefills[..n], fates);
      ChunkNamesGrow(n);
      assert (names + [PrefillName(n)])[..n] == names;
      var before := ReplayPrefills(cfg, FRESH, dir, names, fates);
      if before.Some? {
        PrefillFromZero(cfg, before.value, prefills[n], fates(n).chunks);
      }
    }
  }

  // The prefill stage of a replay can get through exactly when at most one recorded
  // prefill holds any token.
  lemma OneFilledPrefillReplays(cfg: Config, dir: Directory, prefills: seq<seq<Packet>>)
    requires cfg.ubatch > 0 && HoldsPrefills(dir, prefills) && AllFromZero(cfg, prefills)
    ensures (exists fates: Fates :: ReplayPrefills(cfg, FRESH, dir, ChunkNames(|prefills|), fates).Some?)
       <==> AtMostOneFilled(prefills)
  {
    hide ReplayPrefills, HoldsPrefills, AllFromZero, AtMostOneFilled, AllEmpty;
    forall fates: Fates
      ensures ReplayPrefills(cfg, FRESH, dir, ChunkNames(|prefills|), fates).Some? ==> AtMostOneFilled(prefills)
    {
      FilledOnce(cfg, dir, prefills, fates);
    }
    var well: Fates := n => Fate(c => Encoded(Decodes), Decodes);
    FilledOnce(cfg, dir, prefills, well);
  }

  // So a directory with the prefills of two real generations never replays.
  lemma TwoGenerationsNeverReplay(cfg: Config, next: Drafter, dir: Directory, prefills: seq<seq<Packet>>,
                                  listing: seq<string>, fates: Fates)
    requires cfg.ubatch > 0 && |prefills| <= 1000 && Distinct(listing) && (forall x :: x in listing <==> x in dir)
    requires HoldsPrefills(dir, prefills) && AllFromZero(cfg, prefills) && !AtMostOneFilled(prefills)
    requires forall x :: x in dir && IsPrefillName(x) ==> exists i: nat :: i < |prefills| && x == PrefillName(i)
    ensures Replay(cfg, next, FRESH, listing, dir, fates) == None
  {
    hide ReplayPrefills, ReplayDrafts, HoldsPrefills, AllFromZero, AtMostOneFilled, AllEmpty, IsPrefillName,
      PrefillName;
    PrefillsFound(listing, dir, prefills);
    FilledOnce(cfg, dir, prefills, fates);
  }
}
