/** Every state a session can reach satisfies the invariant. */
module SessionRuns {
  import opened Wire
  import opened Ends
  import opened Session
  import opened SessionPipes
  import opened KeyAgreement
  import opened SessionInv
  import opened SessionSteps
  import opened SessionRelay

  lemma StartOk()
    ensures Inv(Start())
  {
    var s := Start();
    assert NodeOk(s, FIRST);
  }

  lemma StepKeeps(s: Sys, a: Step)
    requires Inv(s) && Enabled(s, a)
    ensures Inv(Next(s, a))
  {
    match a
    case DoJoin(observer) => JoinKeeps(s, observer);
    case DoLeave(x) => LeaveKeeps(s, x);
    case DoClaim(x) => ClaimKeeps(s, x);
    case DoRoute(x) => RouteKeeps(s, x);
    case DoRead(x, role, outs) => ReadKeeps(s, x, role, outs);
    case DoWrite(x) => WriteKeeps(s, x);
    case DoSwap(x) => SwapKeeps(s, x);
    case DoDerive(x) => DeriveKeeps(s, x);
    case DoCommit(x) => CommitKeeps(s, x);
    case DoSeal(x) => SealKeeps(s, x);
    case DoSend(x, i, to) => SendKeeps(s, x, i, to);
    case DoPromote(x) => PromoteKeeps(s, x);
    case DoRotate(x) => RotateKeeps(s, x);
    case DoFollow(x, host) => FollowKeeps(s, x, host);
    case DoAsk(x) => AskKeeps(s, x);
    case DoFly(x) => FlyKeeps(s, x);
  }

  lemma {:induction false} RunKeeps(ss: seq<Sys>, steps: seq<Step>, i: nat)
    requires Run(ss, steps) && i < |ss|
    ensures Inv(ss[i])
  {
    if i == 0 {
      StartOk();
    } else {
      RunKeeps(ss, steps, i - 1);
      assert Takes(ss, steps, i - 1);
      StepKeeps(ss[i - 1], steps[i - 1]);
    }
  }

  lemma RunStep(ss: seq<Sys>, steps: seq<Step>, i: nat)
    requires Run(ss, steps) && i < |steps|
    ensures Inv(ss[i]) && Enabled(ss[i], steps[i]) && ss[i + 1] == Next(ss[i], steps[i]) && Inv(ss[i + 1])
  {
    assert Takes(ss, steps, i);
    RunKeeps(ss, steps, i);
    RunKeeps(ss, steps, i + 1);
  }

  // ----- Who a step changes -----

  /** The end whose state a step may change; the relay's steps change none. */
  function Actor(a: Step): Option<Id> {
    match a
    case DoJoin(_) => None
    case DoLeave(_) => None
    case DoClaim(_) => None
    case DoRoute(_) => None
    case DoRead(x, _, _) => Some(x)
    case DoWrite(x) => Some(x)
    case DoSwap(x) => Some(x)
    case DoDerive(x) => Some(x)
    case DoCommit(x) => Some(x)
    case DoSeal(x) => Some(x)
    case DoSend(x, _, _) => Some(x)
    case DoPromote(x) => Some(x)
    case DoRotate(x) => Some(x)
    case DoFollow(x, _) => Some(x)
    case DoAsk(x) => Some(x)
    case DoFly(x) => Some(x)
  }

  lemma OthersUnchanged(s: Sys, a: Step, y: Id)
    requires Enabled(s, a) && y in s.nodes && Actor(a) != Some(y) && (a.DoJoin? ==> y != s.nextId)
    ensures y in Next(s, a).nodes && Next(s, a).nodes[y].end == s.nodes[y].end
    ensures Next(s, a).nodes[y].read == s.nodes[y].read
  {
  }

  /** The actor's end after the step. */
  function EndAfter(s: Sys, a: Step): End
    requires Enabled(s, a) && Actor(a).Some?
  {
    var x := Actor(a).value;
    var e := s.nodes[x].end;
    match a
    case DoRead(_, role, outs) => Receive(e, NextFrame(s, x), s.minted, s.nonce, role, outs)
    case DoWrite(_) => e.(writing := e.writing[1..])
    case DoSwap(_) => Swapped(e)
    case DoDerive(_) => Derived(e)
    case DoCommit(_) => Committed(e)
    case DoPromote(_) => Promoted(e)
    case DoRotate(_) => RotatedForMigration(e, s.minted)
    case DoFollow(_, host) => Followed(e, host)
    case DoAsk(_) => Asked(e, s.nonce)
    case DoFly(_) => e.(flight := None)
    case _ => e
  }

  /** The reader's end, and what reading leaves of it. */
  lemma ReaderChanged(s: Sys, a: Step)
    requires Enabled(s, a) && a.DoRead?
    ensures var e, e' := s.nodes[a.x].end, EndAfter(s, a);
      && e'.hist.asked == e.hist.asked && e'.hist.crossed == e.hist.crossed && e'.flight == e.flight
      && e'.hist.minted == (if Rotates(e, NextFrame(s, a.x)) then e.hist.minted + {s.minted} else e.hist.minted)
      && (if Rotates(e, NextFrame(s, a.x)) then e'.swapTo == Some(s.minted) else e'.swapTo == e.swapTo)
      && (e.v.keyed ==> e'.v == e.v)
      && Next(s, a).minted == if Rotates(e, NextFrame(s, a.x)) then s.minted + 1 else s.minted
  {
    ReceiveHistory(s.nodes[a.x].end, NextFrame(s, a.x), s.minted, s.nonce, a.role, a.outs);
  }

  lemma ActorChanged(s: Sys, a: Step)
    requires Enabled(s, a) && Actor(a).Some?
    ensures var x := Actor(a).value; x in Next(s, a).nodes && Next(s, a).nodes[x].end == EndAfter(s, a)
  {
  }

  /** Nobody is forgotten, and ids and keys are only issued. */
  lemma StepLater(s: Sys, a: Step)
    requires Inv(s) && Enabled(s, a)
    ensures Later(s, Next(s, a)) && s.nodes.Keys <= Next(s, a).nodes.Keys
  {
  }
}
