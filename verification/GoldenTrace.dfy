// Recording a session's calls as files, and replaying the files on a fresh engine.
module GoldenTrace {
  import opened Lists
  import opened Wire
  import opened DraftEngine
  import opened DraftService
  import opened FileNames

  // A trace file, as the message it holds.
  datatype File =
    | SessionFile
    | PrefillFile(tokens: seq<Packet>)
    | RequestFile(request: DraftRequest)
    | ResponseFile(reply: DraftReply)

  type Directory = map<string, File>

  // ----- the client writes -----

  function WritePrefill(dir: Directory, chunk: nat, tokens: seq<Packet>): Directory {
    dir[PrefillName(chunk) := PrefillFile(tokens)]
  }

  function WriteDraft(dir: Directory, request: DraftRequest, reply: DraftReply): Directory {
    dir[RequestName(request.stepId) := RequestFile(request)][ResponseName(request.stepId) := ResponseFile(reply)]
  }

  // The dumping side of the gRPC client; the chunk counter outlives generations.
  class Recorder {
    var prefillChunk: nat
    var dir: Directory

    constructor ()
      ensures prefillChunk == 0 && dir == map["session.pb" := SessionFile]
    {
      prefillChunk, dir := 0, map["session.pb" := SessionFile];
    }

    method Prefilled(tokens: seq<Packet>)
      modifies this
      ensures dir == WritePrefill(old(dir), old(prefillChunk), tokens) && prefillChunk == old(prefillChunk) + 1
    {
      dir := dir[PrefillName(prefillChunk) := PrefillFile(tokens)];
      prefillChunk := prefillChunk + 1;
    }

    method Drafted(request: DraftRequest, reply: DraftReply)
      modifies this
      ensures dir == WriteDraft(old(dir), request, reply) && prefillChunk == old(prefillChunk)
    {
      dir := dir[RequestName(request.stepId) := RequestFile(request)];
      dir := dir[ResponseName(request.stepId) := ResponseFile(reply)];
    }
  }

  // ----- the daemon replays -----

  // How a replayed draft compares with the recorded response: tokens expected, length
  // of the common prefix, tokens got. None when no response was recorded.
  datatype Compared = Compared(expected: nat, matched: nat, got: nat)

  predicate Exact(c: Option<Compared>) {
    c.Some? && c.value.matched == c.value.expected == c.value.got
  }

  function Compare(dir: Directory, name: string, reply: DraftReply): Option<Compared>
    requires IsRequestName(name)
  {
    if ResponseFor(name) in dir && dir[ResponseFor(name)].ResponseFile? then
      var expected := dir[ResponseFor(name)].reply.tokens;
      Some(Compared(|expected|, MatchLength(expected, reply.tokens), |reply.tokens|))
    else None
  }

  // The fate of the i-th engine call of a replay.
  type Fates = nat -> Fate

  // None when a file cannot be read, parsed or prefilled.
  function ReplayPrefills(cfg: Config, e: EngineState, dir: Directory, names: seq<string>, fates: Fates)
    : Option<EngineState>
    requires cfg.ubatch > 0
  {
    if names == [] then Some(e)
    else
      var n := |names| - 1;
      match ReplayPrefills(cfg, e, dir, names[..n], fates)
      case None => None
      case Some(e') =>
        if names[n] !in dir || !dir[names[n]].PrefillFile? then None
        else
          var d := Prefill(cfg, e', dir[names[n]].tokens, fates(n).chunks);
          if d.1.ok then Some(d.0) else None
  }

  function ReplayDrafts(cfg: Config, next: Drafter, e: EngineState, dir: Directory, names: seq<string>, first: nat,
                        fates: Fates)
    : Option<(EngineState, seq<Option<Compared>>)>
    requires cfg.ubatch > 0 && forall i :: 0 <= i < |names| ==> IsRequestName(names[i])
  {
    if names == [] then Some((e, []))
    else
      var n := |names| - 1;
      match ReplayDrafts(cfg, next, e, dir, names[..n], first, fates)
      case None => None
      case Some((e', results)) =>
        if names[n] !in dir || !dir[names[n]].RequestFile? then None
        else
          var d := Draft(cfg, next, e', dir[names[n]].request, fates(first + n));
          Some((d.0, results + [Compare(dir, names[n], d.1)]))
  }

  function PrefillNames(listing: seq<string>): (r: seq<string>)
    ensures forall x :: x in r <==> x in listing && IsPrefillName(x)
  {
    if listing == [] then []
    else
      var last := listing[|listing| - 1];
      PrefillNames(listing[..|listing| - 1]) + (if IsPrefillName(last) then [last] else [])
  }

  function RequestNames(listing: seq<string>): (r: seq<string>)
    ensures forall x :: x in r <==> x in listing && !IsPrefillName(x) && IsRequestName(x)
  {
    if listing == [] then []
    else
      var last := listing[|listing| - 1];
      RequestNames(listing[..|listing| - 1]) + (if !IsPrefillName(last) && IsRequestName(last) then [last] else [])
  }

  // Tokens expected and tokens matched, over the drafts that have a recorded response.
  function Totals(results: seq<Option<Compared>>): (t: (nat, nat)) {
    if results == [] then (0, 0)
    else
      var t := Totals(results[..|results| - 1]);
      match results[|results| - 1]
      case None => t
      case Some(c) => (t.0 + c.expected, t.1 + c.matched)
  }

  lemma TotalsGrow(results: seq<Option<Compared>>, c: Option<Compared>)
    ensures Totals(results + [c]).0 == Totals(results).0 + (if c.Some? then c.value.expected else 0)
    ensures Totals(results + [c]).1 == Totals(results).1 + (if c.Some? then c.value.matched else 0)
  {
    assert (results + [c])[..|results|] == results;
  }

  function Replay(cfg: Config, next: Drafter, e: EngineState, listing: seq<string>, dir: Directory, fates: Fates)
    : Option<(EngineState, seq<Option<Compared>>)>
    requires cfg.ubatch > 0
  {
    var prefills, requests := Sort(PrefillNames(listing), Less), Sort(RequestNames(listing), Less);
    SortKeeps(RequestNames(listing), Less);
    match ReplayPrefills(cfg, e, dir, prefills, fates)
    case None => None
    case Some(e') => ReplayDrafts(cfg, next, e', dir, requests, |prefills|, fates)
  }

  datatype Report = Report(code: nat, steps: nat, expected: nat, matched: nat)

  // The exit code and the totals; code 1 when some file stops the replay.
  function Reported(replayed: Option<(EngineState, seq<Option<Compared>>)>): Report {
    match replayed
    case None => Report(1, 0, 0, 0)
    case Some((e, results)) => Report(0, |results|, Totals(results).0, Totals(results).1)
  }

  // replay_golden: code 1 when the directory is missing or some file stops the replay.
  method ReplayGolden(engine: Engine, isDirectory: bool, listing: seq<string>, dir: Directory, fates: Fates)
    returns (report: Report)
    requires engine.Valid()
    modifies engine
    ensures !isDirectory ==> report.code == 1
    ensures isDirectory ==>
              match Replay(engine.cfg, engine.next, old(engine.State()), listing, dir, fates)
              case None => report == Report(1, 0, 0, 0)
              case Some((e, results)) =>
                engine.State() == e && report == Report(0, |results|, Totals(results).0, Totals(results).1)
  {
    if !isDirectory {
      return Report(1, 0, 0, 0);
    }
    var prefillFiles, requestFiles := ListTrace(listing);
    prefillFiles, requestFiles := Sort(prefillFiles, Less), Sort(requestFiles, Less);
    SortKeeps(RequestNames(listing), Less);
    var ok := ReplayPrefillFiles(engine, dir, prefillFiles, fates);
    if !ok {
      return Report(1, 0, 0, 0);
    }
    report := ReplayRequestFiles(engine, dir, requestFiles, |prefillFiles|, fates);
  }

  method ListTrace(listing: seq<string>) returns (prefillFiles: seq<string>, requestFiles: seq<string>)
    ensures prefillFiles == PrefillNames(listing) && requestFiles == RequestNames(listing)
  {
    hide IsPrefillName, IsRequestName;
    prefillFiles, requestFiles := [], [];
    for i := 0 to |listing|
      invariant prefillFiles == PrefillNames(listing[..i]) && requestFiles == RequestNames(listing[..i])
    {
      assert listing[..i + 1][..i] == listing[..i];
      if IsPrefillName(listing[i]) {
        prefillFiles := prefillFiles + [listing[i]];
      } else if IsRequestName(listing[i]) {
        requestFiles := requestFiles + [listing[i]];
      }
    }
    assert listing[..|listing|] == listing;
  }

  method ReplayPrefillFiles(engine: Engine, dir: Directory, names: seq<string>, fates: Fates) returns (ok: bool)
    requires engine.Valid()
    modifies engine
    ensures ok <==> ReplayPrefills(engine.cfg, old(engine.State()), dir, names, fates).Some?
    ensures ok ==> ReplayPrefills(engine.cfg, old(engine.State()), dir, names, fates) == Some(engine.State())
  {
    hide Prefill;
    for i := 0 to |names|
      invariant ReplayPrefills(engine.cfg, old(engine.State()), dir, names[..i], fates) == Some(engine.State())
    {
      assert names[..i + 1][..i] == names[..i];
      if names[i] !in dir || !dir[names[i]].PrefillFile? {
        NoneStays(engine.cfg, old(engine.State()), dir, names, i + 1, fates);
        return false;
      }
      var reply := engine.PrefillFeatures(dir[names[i]].tokens, fates(i).chunks);
      if !reply.ok {
        NoneStays(engine.cfg, old(engine.State()), dir, names, i + 1, fates);
        return false;
      }
    }
    assert names[..|names|] == names;
    return true;
  }

  method ReplayRequestFiles(engine: Engine, dir: Directory, names: seq<string>, first: nat, fates: Fates)
    returns (report: Report)
    requires engine.Valid() && forall i :: 0 <= i < |names| ==> IsRequestName(names[i])
    modifies engine
    ensures var replayed := ReplayDrafts(engine.cfg, engine.next, old(engine.State()), dir, names, first, fates);
            report == Reported(replayed) && (replayed.Some? ==> engine.State() == replayed.value.0)
  {
    ghost var cfg, next, start := engine.cfg, engine.next, engine.State();
    NoDraftYet(cfg, next, start, dir, names, first, fates);
    hide DraftsSoFar, ReplayDrafts, Draft, IsRequestName, Compare, Totals, Reported;
    var expected: nat, matched: nat := 0, 0;
    for i := 0 to |names|
      invariant engine.cfg == cfg && engine.next == next
      invariant DraftsSoFar(cfg, next, start, dir, names, i, first, fates, engine.State(), expected, matched)
    {
      OneMoreDraft(cfg, next, start, dir, names, i, first, fates, engine.State(), expected, matched);
      if names[i] !in dir || !dir[names[i]].RequestFile? {
        return Report(1, 0, 0, 0);
      }
      var reply := engine.DraftFeatures(dir[names[i]].request, fates(first + i));
      var compared := CompareReply(dir, names[i], reply);
      if compared.Some? {
        expected, matched := expected + compared.value.expected, matched + compared.value.matched;
      }
    }
    AllDrafts(cfg, next, start, dir, names, first, fates, engine.State(), expected, matched);
    return Report(0, |names|, expected, matched);
  }

  method CompareReply(dir: Directory, name: string, reply: DraftReply) returns (c: Option<Compared>)
    requires IsRequestName(name)
    ensures c == Compare(dir, name, reply)
  {
    var response := name[..|name| - 10] + "response.pb";
    if response !in dir || !dir[response].ResponseFile? {
      return None;
    }
    var recorded := dir[response].reply.tokens;
    var matched := 0;
    while matched < |recorded| && matched < |reply.tokens| && recorded[matched] == reply.tokens[matched]
      invariant matched <= |recorded| && matched <= |reply.tokens|
      invariant MatchLength(recorded, reply.tokens)
             == matched + MatchLength(recorded[matched..], reply.tokens[matched..])
    {
      matched := matched + 1;
    }
    return Some(Compared(|recorded|, matched, |reply.tokens|));
  }

  lemma {:induction false} NoneStays(cfg: Config, e: EngineState, dir: Directory, names: seq<string>, n: nat,
                                     fates: Fates)
    requires cfg.ubatch > 0 && n <= |names| && ReplayPrefills(cfg, e, dir, names[..n], fates).None?
    ensures ReplayPrefills(cfg, e, dir, names, fates).None?
    decreases |names| - n
  {
    hide Prefill;
    if n < |names| {
      assert names[..n + 1][..n] == names[..n];
      NoneStays(cfg, e, dir, names, n + 1, fates);
    } else {
      assert names[..n] == names;
    }
  }

  lemma {:induction false} DraftNoneStays(
    cfg: Config, next: Drafter, e: EngineState, dir: Directory, names: seq<string>, n: nat, first: nat, fates: Fates)
    requires cfg.ubatch > 0 && n <= |names| && forall i :: 0 <= i < |names| ==> IsRequestName(names[i])
    requires ReplayDrafts(cfg, next, e, dir, names[..n], first, fates).None?
    ensures ReplayDrafts(cfg, next, e, dir, names, first, fates).None?
    decreases |names| - n
  {
    hide Draft, IsRequestName;
    if n < |names| {
      assert names[..n + 1][..n] == names[..n];
      DraftNoneStays(cfg, next, e, dir, names, n + 1, first, fates);
    } else {
      assert names[..n] == names;
    }
  }

  // The first n of the named requests leave the engine at e, with these totals.
  ghost predicate DraftsSoFar(cfg: Config, next: Drafter, start: EngineState, dir: Directory, names: seq<string>,
                              n: nat, first: nat, fates: Fates, e: EngineState, expected: nat, matched: nat)
    requires cfg.ubatch > 0 && n <= |names| && forall i :: 0 <= i < |names| ==> IsRequestName(names[i])
  {
    var replayed := ReplayDrafts(cfg, next, start, dir, names[..n], first, fates);
    replayed.Some? && replayed.value.0 == e && Reported(replayed) == Report(0, n, expected, matched)
  }

  lemma NoDraftYet(cfg: Config, next: Drafter, start: EngineState, dir: Directory, names: seq<string>, first: nat,
                   fates: Fates)
    requires cfg.ubatch > 0 && forall i :: 0 <= i < |names| ==> IsRequestName(names[i])
    ensures DraftsSoFar(cfg, next, start, dir, names, 0, first, fates, start, 0, 0)
  {
  }

  lemma OneMoreDraft(cfg: Config, next: Drafter, start: EngineState, dir: Directory, names: seq<string>, n: nat,
                     first: nat, fates: Fates, e: EngineState, expected: nat, matched: nat)
    requires cfg.ubatch > 0 && n < |names| && forall i :: 0 <= i < |names| ==> IsRequestName(names[i])
    requires DraftsSoFar(cfg, next, start, dir, names, n, first, fates, e, expected, matched)
    ensures if names[n] !in dir || !dir[names[n]].RequestFile?
            then ReplayDrafts(cfg, next, start, dir, names, first, fates).None?
            else var d := Draft(cfg, next, e, dir[names[n]].request, fates(first + n));
                 var c := Compare(dir, names[n], d.1);
                 var more := if c.Some? then c.value else Compared(0, 0, 0);
                 DraftsSoFar(cfg, next, start, dir, names, n + 1, first, fates, d.0,
                             expected + more.expected, matched + more.matched)
  {
    hide Draft, Compare, IsRequestName, Totals;
    assert names[..n + 1][..n] == names[..n];
    if names[n] !in dir || !dir[names[n]].RequestFile? {
      DraftNoneStays(cfg, next, start, dir, names, n + 1, first, fates);
    } else {
      var d := Draft(cfg, next, e, dir[names[n]].request, fates(first + n));
      TotalsGrow(ReplayDrafts(cfg, next, start, dir, names[..n], first, fates).value.1, Compare(dir, names[n], d.1));
    }
  }

  lemma AllDrafts(cfg: Config, next: Drafter, start: EngineState, dir: Directory, names: seq<string>, first: nat,
                  fates: Fates, e: EngineState, expected: nat, matched: nat)
    requires cfg.ubatch > 0 && forall i :: 0 <= i < |names| ==> IsRequestName(names[i])
    requires DraftsSoFar(cfg, next, start, dir, names, |names|, first, fates, e, expected, matched)
    ensures var replayed := ReplayDrafts(cfg, next, start, dir, names, first, fates);
            replayed.Some? && replayed.value.0 == e && Reported(replayed) == Report(0, |names|, expected, matched)
  {
    assert names[..|names|] == names;
  }

  // What a replayed draft is compared by: the n tokens that it shares with the recorded
  // reply from the start, up to the first that differs or the end of either.
  lemma CompareCounts(dir: Directory, name: string, reply: DraftReply, n: nat)
    requires IsRequestName(name) && ResponseFor(name) in dir && dir[ResponseFor(name)].ResponseFile?
    requires var recorded := dir[ResponseFor(name)].reply.tokens;
             && n <= |recorded| && n <= |reply.tokens| && recorded[..n] == reply.tokens[..n]
             && (n == |recorded| || n == |reply.tokens| || recorded[n] != reply.tokens[n])
    ensures Compare(dir, name, reply)
         == Some(Compared(|dir[ResponseFor(name)].reply.tokens|, n, |reply.tokens|))
  {
    MatchIsUnique(dir[ResponseFor(name)].reply.tokens, reply.tokens, n);
  }

  // The totals of two parts add up, and a single draft adds its own counts, or nothing
  // when no response was recorded for it.
  lemma {:induction false} TotalsAddUp(a: seq<Option<Compared>>, b: seq<Option<Compared>>)
    ensures Totals(a + b).0 == Totals(a).0 + Totals(b).0
    ensures Totals(a + b).1 == Totals(a).1 + Totals(b).1
    ensures |b| == 1 ==> Totals(b) == if b[0].Some? then (b[0].value.expected, b[0].value.matched) else (0, 0)
  {
    if b == [] {
      assert a + b == a;
    } else {
      var n := |b| - 1;
      TotalsAddUp(a, b[..n]);
      assert (a + b)[..|a| + n] == a + b[..n];
      assert b[..n] == [] ==> Totals(b[..n]) == (0, 0);
    }
  }

  // EXACT in the log means that the replayed tokens are the recorded ones.
  lemma ExactMeansEqual(dir: Directory, name: string, reply: DraftReply)
    requires IsRequestName(name) && ResponseFor(name) in dir && dir[ResponseFor(name)].ResponseFile?
    ensures Exact(Compare(dir, name, reply)) <==> reply.tokens == dir[ResponseFor(name)].reply.tokens
  {
    MatchIsWhole(dir[ResponseFor(name)].reply.tokens, reply.tokens);
  }
}
