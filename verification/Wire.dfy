// The messages that cross between server and daemon (proto/dspark.proto).
module Wire {
  import opened Bf16

  datatype Option<+T> = None | Some(value: T)

  // One token's tap-layer hidden states, packed as bf16.
  datatype Packet = Packet(token: int, position: nat, features: seq<Byte>)

  datatype DraftRequest = DraftRequest(
    stepId: nat,
    position: nat,
    maxDraft: int,
    anchor: int,
    accepted: seq<Packet>)

  datatype DraftReply = DraftReply(stepId: nat, ok: bool, error: string, tokens: seq<int>)

  datatype PrefillReply = PrefillReply(ok: bool, positions: nat)

  function Tokens(packets: seq<Packet>): (r: seq<int>) {
    seq(|packets|, i requires 0 <= i < |packets| => packets[i].token)
  }

  // Positions that count up by one, as every shipment of the server has.
  predicate Consecutive(packets: seq<Packet>) {
    forall i :: 0 <= i < |packets| ==> packets[i].position == packets[0].position + i
  }
}
