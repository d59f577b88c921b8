// The acceptance statistics that draft() keeps.
module Accounting {
  import opened Wire
  import opened RemoteSender

  // What can happen to the counters: process() replaces the features, begin() starts
  // a generation, draft() runs with some n_past and gets some reply.
  datatype Turn =
    | Captures(feats: Features)
    | Begins(promptLength: nat)
    | Drafts(nPast: nat, idLast: int, reply: DraftReply)

  function Take(cfg: SenderConfig, s: SenderState, turn: Turn): (r: (SenderState, Shipment))
    requires s.nSent >= -1
    ensures r.0.nSent >= -1
  {
    match turn
    case Captures(feats) => (s.(feats := feats), NOTHING)
    case Begins(promptLength) => (Begin(s, promptLength), NOTHING)
    case Drafts(nPast, idLast, reply) => DraftStep(cfg, s, nPast, idLast, reply)
  }

  function TakeAll(cfg: SenderConfig, s: SenderState, turns: seq<Turn>): (r: SenderState)
    requires s.nSent >= -1
    ensures r.nSent >= -1
  {
    if turns == [] then s else Take(cfg, TakeAll(cfg, s, turns[..|turns| - 1]), turns[|turns| - 1]).0
  }

  // How one draft moves the counters.
  lemma DraftCounts(cfg: SenderConfig, s: SenderState, nPast: nat, idLast: int, reply: DraftReply)
    requires s.nSent >= -1
    ensures var (s', shipment) := DraftStep(cfg, s, nPast, idLast, reply);
            && s'.prevNPast == nPast
            && s'.stats.acceptedTokens - s.stats.acceptedTokens
                 == (if s.prevNPast >= 0 && nPast > s.prevNPast + 1 then nPast - s.prevNPast - 1 else 0)
            && s'.stats.draftTokens == s.stats.draftTokens + |shipment.proposed|
            && s'.stats.grpcCalls - s.stats.grpcCalls == (if shipment.request.Some? then 1 else 0)
            && s'.stats.draftBlocks - s.stats.draftBlocks == (if shipment.request.Some? && reply.ok then 1 else 0)
            && s'.stats.fallbackSteps - s.stats.fallbackSteps == (if shipment.request.Some? && !reply.ok then 1 else 0)
            && s'.stats.connected == (if shipment.request.Some? then reply.ok else s.stats.connected)
  {
    hide Gather;
  }

  // The n_past values of the drafts among some turns.
  function Pasts(turns: seq<Turn>): seq<nat> {
    if turns == [] then []
    else
      var rest, last := Pasts(turns[..|turns| - 1]), turns[|turns| - 1];
      if last.Drafts? then rest + [last.nPast] else rest
  }

  // Telescoping: whatever the replies and the features, k drafts of one generation at
  // growing n_past add n_past_last - n_past_first - (k - 1) accepted tokens.
  lemma {:induction false} AcceptanceTelescopes(cfg: SenderConfig, s: SenderState, turns: seq<Turn>)
    requires s.nSent >= -1 && s.prevNPast == -1
    requires forall i :: 0 <= i < |turns| ==> !turns[i].Begins?
    requires forall i, j :: 0 <= i < j < |Pasts(turns)| ==> Pasts(turns)[i] < Pasts(turns)[j]
    ensures var ns := Pasts(turns);
            var s' := TakeAll(cfg, s, turns);
            && s'.prevNPast == (if ns == [] then -1 else ns[|ns| - 1])
            && s'.stats.acceptedTokens - s.stats.acceptedTokens
                 == (if ns == [] then 0 else ns[|ns| - 1] - ns[0] - (|ns| - 1))
  {
    if turns == [] {
    } else {
      hide DraftStep;
      var init, last := turns[..|turns| - 1], turns[|turns| - 1];
      assert Pasts(init) <= Pasts(turns);
      forall i, j | 0 <= i < j < |Pasts(init)|
        ensures Pasts(init)[i] < Pasts(init)[j]
      {
        assert Pasts(init)[i] == Pasts(turns)[i] && Pasts(init)[j] == Pasts(turns)[j];
      }
      AcceptanceTelescopes(cfg, s, init);
      if last.Drafts? {
        var before := TakeAll(cfg, s, init);
        DraftCounts(cfg, before, last.nPast, last.idLast, last.reply);
        var n := |Pasts(init)|;
        assert n > 0 ==> Pasts(turns)[n - 1] < Pasts(turns)[n];
      }
    }
  }

  // The answers that some turns got: one for each draft that sent a request.
  function Answered(cfg: SenderConfig, s: SenderState, turns: seq<Turn>): seq<bool>
    requires s.nSent >= -1
  {
    if turns == [] then []
    else
      var init, last := turns[..|turns| - 1], turns[|turns| - 1];
      Answered(cfg, s, init)
      + (if last.Drafts? && Take(cfg, TakeAll(cfg, s, init), last).1.request.Some? then [last.reply.ok] else [])
  }

  function Count(answers: seq<bool>, ok: bool): nat {
    if answers == [] then 0
    else Count(answers[..|answers| - 1], ok) + (if answers[|answers| - 1] == ok then 1 else 0)
  }

  lemma CountGrows(answers: seq<bool>, answer: bool, ok: bool)
    ensures Count(answers + [answer], ok) == Count(answers, ok) + (if answer == ok then 1 else 0)
  {
    assert (answers + [answer])[..|answers|] == answers;
  }

  // Every round trip is a drafted block if it was answered ok and a fallback if not, and
  // the connection shows as the last answer left it.
  lemma {:induction false} RoundTripsAddUp(cfg: SenderConfig, s: SenderState, turns: seq<Turn>)
    requires s.nSent >= -1
    ensures var st, answers := TakeAll(cfg, s, turns).stats, Answered(cfg, s, turns);
            && st.grpcCalls - s.stats.grpcCalls == |answers|
            && st.draftBlocks - s.stats.draftBlocks == Count(answers, true)
            && st.fallbackSteps - s.stats.fallbackSteps == Count(answers, false)
            && st.draftBlocks - s.stats.draftBlocks + st.fallbackSteps - s.stats.fallbackSteps == |answers|
            && st.connected == (if answers == [] then s.stats.connected else answers[|answers| - 1])
  {
    if turns == [] {
    } else {
      hide DraftStep, Count;
      var init, last := turns[..|turns| - 1], turns[|turns| - 1];
      RoundTripsAddUp(cfg, s, init);
      if last.Drafts? {
        DraftCounts(cfg, TakeAll(cfg, s, init), last.nPast, last.idLast, last.reply);
        assert Answered(cfg, s, init) + [] == Answered(cfg, s, init);
        CountGrows(Answered(cfg, s, init), last.reply.ok, true);
        CountGrows(Answered(cfg, s, init), last.reply.ok, false);
      }
    }
  }

  // The block that the target may still accept from: what the generation's last draft
  // proposed.
  function Open(cfg: SenderConfig, s: SenderState, turns: seq<Turn>): nat
    requires s.nSent >= -1
  {
    if turns == [] then 0
    else
      var init, last := turns[..|turns| - 1], turns[|turns| - 1];
      match last
      case Captures(_) => Open(cfg, s, init)
      case Begins(_) => 0
      case Drafts(_, _, _) => |Take(cfg, TakeAll(cfg, s, init), last).1.proposed|
  }

  // The target commits at most the proposed block and the token it sampled itself,
  // and drafts once a decode.
  ghost predicate Fair(cfg: SenderConfig, s: SenderState, turns: seq<Turn>)
    requires s.nSent >= -1
  {
    turns == [] ||
    (var init, last := turns[..|turns| - 1], turns[|turns| - 1];
     var before := TakeAll(cfg, s, init);
     && Fair(cfg, s, init)
     && (last.Drafts? && before.prevNPast >= 0 ==> last.nPast <= before.prevNPast + 1 + Open(cfg, s, init)))
  }

  // Then accepted tokens never outnumber drafted ones, over any number of generations,
  // with what is still open held in reserve.
  lemma {:induction false} AcceptedWithinDrafted(cfg: SenderConfig, s: SenderState, turns: seq<Turn>)
    requires s.nSent >= -1 && s.stats.acceptedTokens <= s.stats.draftTokens && s.prevNPast == -1
    requires Fair(cfg, s, turns)
    ensures var s' := TakeAll(cfg, s, turns);
            s'.stats.acceptedTokens + Open(cfg, s, turns) <= s'.stats.draftTokens
  {
    if turns == [] {
    } else {
      hide DraftStep;
      var init, last := turns[..|turns| - 1], turns[|turns| - 1];
      AcceptedWithinDrafted(cfg, s, init);
      if last.Drafts? {
        DraftCounts(cfg, TakeAll(cfg, s, init), last.nPast, last.idLast, last.reply);
      }
    }
  }
}
