/** The hub's queue and the client's hello fit together. */
module Hello {
  import opened Wire
  import opened HubSpec
  import opened HubViews
  import opened HubRefine
  import C = SessionClient

  /** The first frame of a live slot's stream is the reply its client waits for, so the hello consumes
      that frame and nothing else: every notice after the reply is left to the read loop. */
  lemma HelloTakesOnlyTheReply(states: seq<HubState>, labels: seq<Label>, i: nat, id: Id, r: C.Awaited, n: nat)
    requires Run(states, labels) && i < |states| && !states[i].over
    requires id in states[i].clients && !states[i].clients[id].held
    requires states[i].clients[id].stream != []
    requires C.Awaits(states[i].clients[id].stream, states[i].clients[id].stream[0].SessionCreated?, r, n)
    ensures var c := states[i].clients[id];
      n == 1 && r == C.Reply(c.stream[0]) && c.stream[0].id == id && c.stream[0].token == c.token
  {
    ViewsAgree(states, labels, i, id);
  }

  /** A slot held through an outage: the resuming connection reads the reply and then the outage's
      frames, in order and from the first, as many as fit behind the reply. */
  lemma ResumeReplaysOutage(states: seq<HubState>, labels: seq<Label>, i: nat, id: Id, conn: ConnId)
    requires Run(states, labels) && i < |states| && !states[i].over
    requires id in states[i].clients && states[i].clients[id].held
    ensures states[i].clients[id].taken == 0 <= |states[i].clients[id].stream|
    ensures var s, c := states[i], states[i].clients[id];
      ResumedSlot(s, id, conn).clients[id].stream ==
        [JoinResult(id, PeersExcept(s, id), s.host, c.token)] + c.stream[..Min(|c.stream|, SEND_BUFFER - 1)]
  {
    RunKeeps(states, labels, i);
    assert SlotOk(states[i], id);
    var c := states[i].clients[id];
    assert c.stream[0..] == c.stream;
  }

  /** Session traffic of any kind in front of the first other frame is skipped, and that frame decides: the
      reply waited for, a refusal with its code, or something unexpected. */
  lemma HelloSkipsTraffic(frames: seq<Frame>, k: nat, created: bool, r: C.Awaited, n: nat)
    requires k < |frames| && !IsTraffic(frames[k]) && forall i :: 0 <= i < k ==> IsTraffic(frames[i])
    requires C.Awaits(frames, created, r, n)
    ensures n == k + 1
    ensures r == C.Reply(frames[k]) <==> if created then frames[k].SessionCreated? else frames[k].JoinResult?
    ensures r.Refused? <==> frames[k].Error?
    ensures r.Refused? ==> r.code == frames[k].code
  {
    assert forall i :: 0 <= i < |frames| ==> (C.Traffic(frames[i]) <==> IsTraffic(frames[i]));
  }

  /** With nothing but traffic the connection ended first. */
  lemma HelloLost(frames: seq<Frame>, created: bool, r: C.Awaited, n: nat)
    requires C.Awaits(frames, created, r, n) && forall i :: 0 <= i < |frames| ==> IsTraffic(frames[i])
    ensures r == C.Lost && n == |frames|
  {
    assert forall i :: 0 <= i < |frames| ==> (C.Traffic(frames[i]) <==> IsTraffic(frames[i]));
  }
}
