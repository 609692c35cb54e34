/** The plain join/leave machine that the hub implements: a set of members, each with the token
    it was issued, and a counter. There are no connections, queues, holds or evictions here. */
module Membership {
  import opened Wire

  datatype Roster = Roster(members: map<Id, Token>, nextId: Id)

  datatype Event = Arrive(id: Id, token: Token) | Depart(id: Id)

  predicate Enabled(r: Roster, e: Event) {
    match e
    case Arrive(id, _) => id == r.nextId && id !in r.members
    case Depart(id) => id in r.members
  }

  function Apply(r: Roster, e: Event): Roster {
    match e
    case Arrive(id, token) => Roster(r.members[id := token], id + 1)
    case Depart(id) => Roster(r.members - {id}, r.nextId)
  }

  function ApplyAll(r: Roster, es: seq<Event>): Roster {
    if es == [] then r else Apply(ApplyAll(r, es[..|es| - 1]), es[|es| - 1])
  }

  predicate EnabledAll(r: Roster, es: seq<Event>) {
    es == [] || (EnabledAll(r, es[..|es| - 1]) && Enabled(ApplyAll(r, es[..|es| - 1]), es[|es| - 1]))
  }

  function NoticeOf(e: Event): Frame {
    match e
    case Arrive(id, _) => ParticipantJoined(id)
    case Depart(id) => ParticipantLeft(id)
  }

  function NoticesOf(es: seq<Event>): seq<Frame> {
    seq(|es|, i requires 0 <= i < |es| => NoticeOf(es[i]))
  }

  lemma ApplyMore(r: Roster, es: seq<Event>, e: Event)
    ensures ApplyAll(r, es + [e]) == Apply(ApplyAll(r, es), e)
    ensures EnabledAll(r, es + [e]) <==> EnabledAll(r, es) && Enabled(ApplyAll(r, es), e)
  {
    assert (es + [e])[..|es|] == es;
  }

  lemma ApplyOne(r: Roster, e: Event)
    ensures ApplyAll(r, [e]) == Apply(r, e)
    ensures EnabledAll(r, [e]) <==> Enabled(r, e)
  {
    ApplyMore(r, [], e);
    assert [] + [e] == [e];
  }

  lemma {:induction false} ApplyConcat(r: Roster, es: seq<Event>, fs: seq<Event>)
    requires EnabledAll(r, es) && EnabledAll(ApplyAll(r, es), fs)
    ensures EnabledAll(r, es + fs) && ApplyAll(r, es + fs) == ApplyAll(ApplyAll(r, es), fs)
    decreases |fs|
  {
    if fs == [] {
      assert es + fs == es;
    } else {
      var n := |fs| - 1;
      ApplyConcat(r, es, fs[..n]);
      ApplyMore(r, es + fs[..n], fs[n]);
      assert es + fs == es + fs[..n] + [fs[n]];
    }
  }
}
