/** The merged event stream of the mux: any number of goroutines emit into one bounded channel
    while another shuts it down. */
module MuxSpec {
  import opened Wire

  const EVENT_BUFFER: nat := 256

  type Thread = nat
  type Event = nat

  /** Where an emitting goroutine is between its two locked sections. */
  datatype Phase = Sending(e: Event) | Done

  /** `panicked` records a send on, or a close of, a channel that is closed already. `sent` and
      `received` are histories of the channel. */
  datatype State = State(
    closed: bool,
    pending: int,
    quitClosed: bool,
    eventsClosed: bool,
    panicked: bool,
    buffer: seq<Event>,
    emitters: map<Thread, Phase>,
    sent: seq<Event>,
    received: seq<Event>)

  function Init(): State {
    State(false, 0, false, false, false, [], map[], [], [])
  }

  datatype Step =
    | Enter(t: Thread, e: Event)
    | Send(t: Thread)
    | GiveUp(t: Thread)
    | Exit(t: Thread)
    | Shutdown
    | Consume

  function CloseEvents(s: State): State {
    if s.eventsClosed then s.(panicked := true) else s.(eventsClosed := true)
  }

  /** The first locked section of an emit: refused once the mux is closed. */
  function Entered(s: State, t: Thread, e: Event): State {
    if s.closed then s else s.(pending := s.pending + 1, emitters := s.emitters[t := Sending(e)])
  }

  /** The send alternative of the select. */
  function SentOn(s: State, t: Thread): State
    requires t in s.emitters && s.emitters[t].Sending?
  {
    if s.eventsClosed then s.(panicked := true)
    else s.(buffer := s.buffer + [s.emitters[t].e], sent := s.sent + [s.emitters[t].e],
            emitters := s.emitters[t := Done])
  }

  /** The last locked section: the last one out closes the channel. */
  function Exited(s: State, t: Thread): State {
    var s' := s.(pending := s.pending - 1, emitters := s.emitters - {t});
    if s'.closed && s'.pending == 0 then CloseEvents(s') else s'
  }

  function ShutDown(s: State): State {
    if s.closed then s
    else
      var s' := s.(closed := true, quitClosed := true, panicked := s.panicked || s.quitClosed);
      if s'.pending == 0 then CloseEvents(s') else s'
  }

  predicate Enabled(s: State, a: Step) {
    match a
    case Enter(t, _) => t !in s.emitters
    case Send(t) => t in s.emitters && s.emitters[t].Sending? && (s.eventsClosed || |s.buffer| < EVENT_BUFFER)
    case GiveUp(t) => t in s.emitters && s.emitters[t].Sending? && s.quitClosed
    case Exit(t) => t in s.emitters && s.emitters[t].Done?
    case Shutdown => true
    case Consume => s.buffer != []
  }

  function Next(s: State, a: Step): State
    requires Enabled(s, a)
  {
    match a
    case Enter(t, e) => Entered(s, t, e)
    case Send(t) => SentOn(s, t)
    case GiveUp(t) => s.(emitters := s.emitters[t := Done])
    case Exit(t) => Exited(s, t)
    case Shutdown => ShutDown(s)
    case Consume => s.(buffer := s.buffer[1..], received := s.received + [s.buffer[0]])
  }

  ghost predicate Takes(ss: seq<State>, steps: seq<Step>, i: nat)
    requires |ss| == |steps| + 1 && i < |steps|
  {
    Enabled(ss[i], steps[i]) && ss[i + 1] == Next(ss[i], steps[i])
  }

  ghost predicate Run(ss: seq<State>, steps: seq<Step>) {
    && |ss| == |steps| + 1
    && ss[0] == Init()
    && forall i {:trigger Takes(ss, steps, i)} :: 0 <= i < |steps| ==> Takes(ss, steps, i)
  }

  // ----- Safety -----

  ghost predicate Inv(s: State) {
    && !s.panicked
    && s.quitClosed == s.closed
    && s.pending == |s.emitters|
    && (s.eventsClosed <==> s.closed && s.emitters == map[])
    && s.sent == s.received + s.buffer
    && |s.buffer| <= EVENT_BUFFER
  }

  lemma Replaced(m: map<Thread, Phase>, t: Thread, p: Phase)
    requires t in m
    ensures |m[t := p]| == |m|
  {
    assert m[t := p].Keys == m.Keys;
    assert |m[t := p].Keys| == |m[t := p]|;
  }

  lemma Added(m: map<Thread, Phase>, t: Thread, p: Phase)
    requires t !in m
    ensures |m[t := p]| == |m| + 1 && m[t := p] != map[]
  {
    assert m[t := p].Keys == m.Keys + {t};
    assert |m[t := p].Keys| == |m[t := p]| && |m.Keys| == |m|;
    assert t in m[t := p];
  }

  lemma Removed(m: map<Thread, Phase>, t: Thread)
    requires t in m
    ensures |m - {t}| == |m| - 1
  {
    assert (m - {t}).Keys == m.Keys - {t};
    assert |(m - {t}).Keys| == |m - {t}|;
    assert |m.Keys| == |m|;
  }

  lemma Nobody(m: map<Thread, Phase>)
    ensures |m| == 0 <==> m == map[]
  {
  }

  lemma EnterKeeps(s: State, t: Thread, e: Event)
    requires Inv(s) && t !in s.emitters
    ensures Inv(Entered(s, t, e))
  {
    Added(s.emitters, t, Sending(e));
  }

  lemma SendKeeps(s: State, t: Thread)
    requires Inv(s) && Enabled(s, Send(t))
    ensures Inv(SentOn(s, t))
  {
    Replaced(s.emitters, t, Done);
    assert s.emitters != map[];
    var e := s.emitters[t].e;
    assert s.sent + [e] == s.received + (s.buffer + [e]);
  }

  lemma ExitKeeps(s: State, t: Thread)
    requires Inv(s) && t in s.emitters
    ensures Inv(Exited(s, t))
  {
    Removed(s.emitters, t);
    Nobody(s.emitters - {t});
    assert s.emitters != map[];
  }

  lemma StepKeeps(s: State, a: Step)
    requires Inv(s) && Enabled(s, a)
    ensures Inv(Next(s, a))
  {
    match a
    case Enter(t, e) => EnterKeeps(s, t, e);
    case Send(t) => SendKeeps(s, t);
    case GiveUp(t) => Replaced(s.emitters, t, Done);
    case Exit(t) => ExitKeeps(s, t);
    case Shutdown => Nobody(s.emitters);
    case Consume => assert s.received + s.buffer == s.received + [s.buffer[0]] + s.buffer[1..];
  }

  /** In every run, with any number of emitters: no channel is closed twice or sent to after it is
      closed, `pending` counts the emitters between their locked sections, the channel is closed
      exactly when shutdown has begun and none is left, and the consumer receives what was sent,
      in order. */
  lemma {:induction false} ShutdownIsSafe(ss: seq<State>, steps: seq<Step>, i: nat)
    requires Run(ss, steps) && i < |ss|
    ensures !ss[i].panicked && ss[i].pending == |ss[i].emitters|
    ensures ss[i].eventsClosed <==> ss[i].closed && ss[i].emitters == map[]
    ensures ss[i].received <= ss[i].sent && |ss[i].sent| - |ss[i].received| <= EVENT_BUFFER
    ensures Inv(ss[i])
  {
    if i > 0 {
      ShutdownIsSafe(ss, steps, i - 1);
      assert Takes(ss, steps, i - 1);
      StepKeeps(ss[i - 1], steps[i - 1]);
    }
  }

  // ----- What a run sends -----

  /** The event thread `t` last came with. */
  function LastEntry(steps: seq<Step>, i: nat, t: Thread): Option<Event>
    requires i <= |steps|
  {
    if i == 0 then None
    else if steps[i - 1].Enter? && steps[i - 1].t == t then Some(steps[i - 1].e)
    else LastEntry(steps, i - 1, t)
  }

  /** The events that the threads taking a send step came with, in the order of those steps. */
  function Deliveries(steps: seq<Step>, i: nat): seq<Event>
    requires i <= |steps|
  {
    if i == 0 then []
    else if steps[i - 1].Send? && LastEntry(steps, i - 1, steps[i - 1].t).Some? then
      Deliveries(steps, i - 1) + [LastEntry(steps, i - 1, steps[i - 1].t).value]
    else Deliveries(steps, i - 1)
  }

  function Consumed(steps: seq<Step>, i: nat): nat
    requires i <= |steps|
  {
    if i == 0 then 0 else Consumed(steps, i - 1) + if steps[i - 1].Consume? then 1 else 0
  }

  ghost predicate Entries(s: State, steps: seq<Step>, i: nat)
    requires i <= |steps|
  {
    forall t :: t in s.emitters && s.emitters[t].Sending? ==> LastEntry(steps, i, t) == Some(s.emitters[t].e)
  }

  /** In every run the channel has been sent exactly those events, in that order; the consumer has had as
      many of them, from the first, as it took receive steps; and the mux is closed exactly when
      shutdown was called. */
  lemma {:induction false} SentExactly(ss: seq<State>, steps: seq<Step>, i: nat)
    requires Run(ss, steps) && i < |ss|
    ensures Entries(ss[i], steps, i)
    ensures ss[i].sent == Deliveries(steps, i)
    ensures |ss[i].received| == Consumed(steps, i) <= |ss[i].sent| && ss[i].received == ss[i].sent[..Consumed(steps, i)]
    ensures ss[i].closed <==> Shutdown in steps[..i]
  {
    ShutdownIsSafe(ss, steps, i);
    if i > 0 {
      SentExactly(ss, steps, i - 1);
      ShutdownIsSafe(ss, steps, i - 1);
      assert Takes(ss, steps, i - 1);
      assert steps[..i] == steps[..i - 1] + [steps[i - 1]];
      SendsOn(ss[i - 1], steps, i - 1);
    }
  }

  lemma SendsOn(s: State, steps: seq<Step>, i: nat)
    requires Inv(s) && i < |steps| && Enabled(s, steps[i]) && Entries(s, steps, i)
    requires s.sent == Deliveries(steps, i) && |s.received| == Consumed(steps, i)
    ensures
      var s' := Next(s, steps[i]);
      Entries(s', steps, i + 1) && s'.sent == Deliveries(steps, i + 1) && |s'.received| == Consumed(steps, i + 1)
  {
  }

  /** Between its two locked sections. */
  ghost predicate Stays(steps: seq<Step>, i: nat, j: nat, t: Thread)
    requires i < j <= |steps|
  {
    forall k :: i < k < j ==> steps[k] != Exit(t)
  }

  predicate Decides(steps: seq<Step>, k: nat, t: Thread) {
    k < |steps| && (steps[k] == Send(t) || steps[k] == GiveUp(t))
  }

  /** Step `k` sends `e`, or gives it up after shutdown. */
  ghost predicate Fate(ss: seq<State>, steps: seq<Step>, k: nat, t: Thread, e: Event)
    requires |ss| == |steps| + 1 && k < |steps|
  {
    if steps[k] == Send(t) then ss[k + 1].sent == ss[k].sent + [e]
    else steps[k] == GiveUp(t) && Shutdown in steps[..k]
  }

  /** What becomes of an emit that got in at step `i`: it waits with its event until the one step that
      sends it or gives it up. */
  lemma {:induction false} EmitFate(ss: seq<State>, steps: seq<Step>, i: nat, j: nat, t: Thread, e: Event)
    requires Run(ss, steps) && i < j < |ss| && steps[i] == Enter(t, e) && Shutdown !in steps[..i] && Stays(steps, i, j, t)
    ensures t in ss[j].emitters
    ensures ss[j].emitters[t].Sending? ==> ss[j].emitters[t] == Sending(e) && forall k :: i < k < j ==> !Decides(steps, k, t)
    ensures ss[j].emitters[t].Done? ==> exists k ::
      i < k < j && Decides(steps, k, t) && Fate(ss, steps, k, t, e) && forall l :: i < l < j && Decides(steps, l, t) ==> l == k
    decreases j
  {
    assert Takes(ss, steps, j - 1);
    SentExactly(ss, steps, j - 1);
    ShutdownIsSafe(ss, steps, j - 1);
    if j > i + 1 {
      EmitFate(ss, steps, i, j - 1, t, e);
      if ss[j - 1].emitters[t].Done? {
        var k :| i < k < j - 1 && Decides(steps, k, t) && Fate(ss, steps, k, t, e)
                 && forall l :: i < l < j - 1 && Decides(steps, l, t) ==> l == k;
        assert i < k < j && Decides(steps, k, t) && forall l :: i < l < j && Decides(steps, l, t) ==> l == k;
      } else if Decides(steps, j - 1, t) {
        assert Fate(ss, steps, j - 1, t, e);
      }
    }
  }

  /** An emit that is through before shutdown has sent its event, once. */
  lemma SentBeforeShutdown(ss: seq<State>, steps: seq<Step>, i: nat, j: nat, t: Thread, e: Event) returns (k: nat)
    requires Run(ss, steps) && i < j < |steps| && steps[i] == Enter(t, e) && steps[j] == Exit(t) && Stays(steps, i, j, t)
    requires Shutdown !in steps[..j]
    ensures i < k < j && steps[k] == Send(t) && ss[k + 1].sent == ss[k].sent + [e]
    ensures forall l :: i < l < j && steps[l] == Send(t) ==> l == k
  {
    assert forall l :: 0 <= l < i ==> steps[..i][l] == steps[..j][l];
    EmitFate(ss, steps, i, j, t, e);
    assert Takes(ss, steps, j);
    k :| i < k < j && Decides(steps, k, t) && Fate(ss, steps, k, t, e)
         && forall l :: i < l < j && Decides(steps, l, t) ==> l == k;
    assert forall l :: 0 <= l < k ==> steps[..k][l] == steps[..j][l];
    assert forall l :: i < l < j && steps[l] == Send(t) ==> Decides(steps, l, t);
  }

  // ----- Progress after shutdown -----

  function Work(p: Phase): nat {
    if p.Sending? then 2 else 1
  }

  /** The steps the emitters still owe. */
  ghost function Owed(m: map<Thread, Phase>): nat
    decreases |m|
  {
    if m == map[] then 0
    else
      var t := Least(m.Keys);
      Removed(m, t);
      Work(m[t]) + Owed(m - {t})
  }

  ghost function Least(ts: set<Thread>): (t: Thread)
    requires ts != {}
    ensures t in ts && forall u :: u in ts ==> t <= u
    decreases |ts|
  {
    var t :| t in ts;
    if ts == {t} then t
    else
      var u := Least(ts - {t});
      assert forall v :: v in ts ==> v == t || v in ts - {t};
      if t <= u then t else u
  }

  /** The sum does not depend on the order in which it is taken. */
  lemma {:induction false} OwedSplits(m: map<Thread, Phase>, t: Thread)
    requires t in m
    ensures Owed(m) == Work(m[t]) + Owed(m - {t})
    decreases |m|
  {
    var u := Least(m.Keys);
    Removed(m, u);
    if u != t {
      var n := m - {t};
      assert n != map[] by { assert u in n; }
      assert Least(n.Keys) == u;
      OwedSplits(m - {u}, t);
      assert m - {u} - {t} == n - {u};
    }
  }

  lemma OwedReplaced(m: map<Thread, Phase>, t: Thread, p: Phase)
    requires t in m
    ensures Owed(m[t := p]) == Owed(m) - Work(m[t]) + Work(p)
  {
    OwedSplits(m, t);
    OwedSplits(m[t := p], t);
    assert m[t := p] - {t} == m - {t};
  }

  predicate ByEmitter(a: Step) {
    a.Send? || a.GiveUp? || a.Exit?
  }

  /** Once shutdown has begun nobody new gets in, every step of an emitter leaves it with less to do,
      and nothing else changes that: however full the buffer, the channel closes after as many
      emitter steps as are owed. */
  lemma OwedDecreases(s: State, a: Step)
    requires Inv(s) && s.closed && Enabled(s, a)
    ensures Next(s, a).closed
    ensures Owed(Next(s, a).emitters) == Owed(s.emitters) - (if ByEmitter(a) then 1 else 0)
  {
    match a
    case Send(t) => OwedReplaced(s.emitters, t, Done);
    case GiveUp(t) => OwedReplaced(s.emitters, t, Done);
    case Exit(t) => OwedSplits(s.emitters, t);
    case _ =>
  }

  /** An emitter that is still inside can always take a step, without the consumer. */
  lemma EmittersNeverStuck(s: State, t: Thread)
    requires Inv(s) && s.closed && t in s.emitters
    ensures Enabled(s, GiveUp(t)) || Enabled(s, Exit(t))
  {
  }

  lemma {:induction false} OwedZero(m: map<Thread, Phase>)
    ensures Owed(m) == 0 <==> m == map[]
    decreases |m|
  {
  }

  function EmitterSteps(steps: seq<Step>): nat {
    if steps == [] then 0
    else EmitterSteps(steps[..|steps| - 1]) + (if ByEmitter(steps[|steps| - 1]) then 1 else 0)
  }

  lemma EmitterStepsSnoc(steps: seq<Step>, i: nat, j: nat)
    requires i <= j < |steps|
    ensures EmitterSteps(steps[i..j + 1]) == EmitterSteps(steps[i..j]) + (if ByEmitter(steps[j]) then 1 else 0)
  {
    assert steps[i..j + 1][..j - i] == steps[i..j];
  }

  lemma ClosedExactly(ss: seq<State>, steps: seq<Step>, j: nat)
    requires Run(ss, steps) && j < |ss|
    ensures ss[j].closed ==> (ss[j].eventsClosed <==> Owed(ss[j].emitters) == 0)
  {
    ShutdownIsSafe(ss, steps, j);
    OwedZero(ss[j].emitters);
  }

  lemma OwedAt(ss: seq<State>, steps: seq<Step>, j: nat)
    requires Run(ss, steps) && j < |steps| && ss[j].closed
    ensures ss[j + 1].closed
    ensures Owed(ss[j + 1].emitters) == Owed(ss[j].emitters) - (if ByEmitter(steps[j]) then 1 else 0)
  {
    ShutdownIsSafe(ss, steps, j);
    assert Takes(ss, steps, j);
    OwedDecreases(ss[j], steps[j]);
  }

  /** From the moment `i` at which the mux is closed, the channel is closed at `j` exactly when the
      emitters have taken all the steps they owed. */
  lemma {:induction false} ClosesWhenDone(ss: seq<State>, steps: seq<Step>, i: nat, j: nat)
    requires Run(ss, steps) && i <= j < |ss| && ss[i].closed
    ensures ss[j].closed && Owed(ss[j].emitters) == Owed(ss[i].emitters) - EmitterSteps(steps[i..j])
    ensures ss[j].eventsClosed <==> EmitterSteps(steps[i..j]) == Owed(ss[i].emitters)
    decreases j
  {
    ClosedExactly(ss, steps, j);
    if i < j {
      ClosesWhenDone(ss, steps, i, j - 1);
      OwedAt(ss, steps, j - 1);
      EmitterStepsSnoc(steps, i, j - 1);
    } else {
      assert steps[i..j] == [];
    }
  }
}

/** The mux's locked sections as methods; goroutines interleave between them, never inside. */
module Mux {
  import opened MuxSpec

  class Mux {
    var closed: bool
    var pending: int
    var quitClosed: bool
    var eventsClosed: bool
    var buffer: seq<Event>
    ghost var emitters: map<Thread, Phase>
    ghost var sent: seq<Event>
    ghost var received: seq<Event>

    ghost function Value(): State
      reads this
    {
      State(closed, pending, quitClosed, eventsClosed, false, buffer, emitters, sent, received)
    }

    ghost predicate Valid()
      reads this
    {
      Inv(Value())
    }

    constructor ()
      ensures Valid() && Value() == Init()
    {
      closed, pending, quitClosed, eventsClosed, buffer := false, 0, false, false, [];
      emitters, sent, received := map[], [], [];
    }

    /** What a close of the channel does here: it is open whenever this is called. */
    method CloseEvents()
      requires !eventsClosed
      modifies this`eventsClosed
      ensures Value() == MuxSpec.CloseEvents(old(Value()))
    {
      eventsClosed := true;
    }

    method BeginEmit(ghost t: Thread, e: Event) returns (inside: bool)
      requires Valid() && t !in emitters
      modifies this`pending, this`emitters
      ensures Valid() && Value() == Entered(old(Value()), t, e) && inside == !closed
    {
      StepKeeps(Value(), Enter(t, e));
      if closed { return false; }
      pending := pending + 1;
      emitters := emitters[t := Sending(e)];
      return true;
    }

    /** The select: `preferQuit` says which alternative is taken when both are ready. */
    method SelectSend(ghost t: Thread, e: Event, preferQuit: bool) returns (blocked: bool)
      requires Valid() && t in emitters && emitters[t] == Sending(e)
      modifies this`buffer, this`emitters, this`sent
      ensures Valid()
      ensures blocked <==> old(|buffer|) == EVENT_BUFFER && !closed
      ensures !blocked && closed && (preferQuit || old(|buffer|) == EVENT_BUFFER) ==>
        Value() == old(Value()).(emitters := old(emitters)[t := Done])
      ensures !blocked && !(closed && (preferQuit || old(|buffer|) == EVENT_BUFFER)) ==>
        && buffer == old(buffer) + [e] && sent == old(sent) + [e] && emitters == old(emitters)[t := Done]
        && Value() == SentOn(old(Value()), t)
      ensures blocked ==> Value() == old(Value())
    {
      if quitClosed && (preferQuit || |buffer| == EVENT_BUFFER) {
        StepKeeps(Value(), GiveUp(t));
        emitters := emitters[t := Done];
        return false;
      }
      if |buffer| == EVENT_BUFFER { return true; }
      StepKeeps(Value(), Send(t));
      assert emitters != map[];
      buffer := buffer + [e];
      sent := sent + [e];
      emitters := emitters[t := Done];
      return false;
    }

    method FinishEmit(ghost t: Thread)
      requires Valid() && t in emitters && emitters[t].Done?
      modifies this`pending, this`emitters, this`eventsClosed
      ensures Valid() && Value() == Exited(old(Value()), t)
    {
      StepKeeps(Value(), Exit(t));
      assert emitters != map[];
      pending := pending - 1;
      emitters := emitters - {t};
      if closed && pending == 0 {
        CloseEvents();
      }
    }

    method Shutdown()
      requires Valid()
      modifies this`closed, this`quitClosed, this`eventsClosed
      ensures Valid() && Value() == ShutDown(old(Value()))
    {
      StepKeeps(Value(), MuxSpec.Shutdown);
      if closed { return; }
      closed := true;
      quitClosed := true;
      if pending == 0 {
        CloseEvents();
      }
    }
  }
}
