/** Chat history: a bounded window of distinct messages, filled live and from snapshots. */
module ChatSpec {
  import opened Wire

  const HISTORY_CAP: nat := 200

  /** In bytes, which the characters of a text stand for here. */
  const MAX_TEXT: nat := 4096

  type MsgId = nat

  datatype Msg = Msg(id: MsgId, from: Id, text: string)

  type History = seq<Msg>

  predicate Seen(h: History, id: MsgId) {
    exists i :: 0 <= i < |h| && h[i].id == id
  }

  /** The last `HISTORY_CAP` messages of a log. */
  function Window(log: History): History {
    if |log| <= HISTORY_CAP then log else log[|log| - HISTORY_CAP..]
  }

  function Recorded(h: History, m: Msg): History {
    if Seen(h, m.id) then h else Window(h + [m])
  }

  predicate Distinct(h: History) {
    forall i, j :: 0 <= i < j < |h| ==> h[i].id != h[j].id
  }

  // ----- Any sequence of offered messages -----

  /** The history after `offered`, and the log of what was accepted on the way. */
  function After(h: History, offered: seq<Msg>): History {
    if offered == [] then h else Recorded(After(h, offered[..|offered| - 1]), offered[|offered| - 1])
  }

  function Log(h: History, offered: seq<Msg>): History {
    if offered == [] then h
    else
      var n := |offered| - 1;
      var before := Log(h, offered[..n]);
      if Seen(After(h, offered[..n]), offered[n].id) then before else before + [offered[n]]
  }

  lemma WindowGrows(log: History, m: Msg)
    ensures Window(log + [m]) == Window(Window(log) + [m])
  {
    var n := |log|;
    if n > HISTORY_CAP {
      var w := Window(log);
      assert Window(w + [m]) == (w + [m])[1..];
      assert (log + [m])[n + 1 - HISTORY_CAP..] == (w + [m])[1..];
    }
  }

  lemma WindowDistinct(h: History, m: Msg)
    requires Distinct(h) && !Seen(h, m.id)
    ensures Distinct(Window(h + [m]))
  {
    var g := h + [m];
    assert Distinct(g) by {
      forall i, j | 0 <= i < j < |g| ensures g[i].id != g[j].id {
        if j == |h| { assert g[i] == h[i]; }
      }
    }
    var w, d := Window(g), |g| - |Window(g)|;
    assert forall i :: 0 <= i < |w| ==> w[i] == g[i + d];
  }

  /** Whatever is offered, the history is the window of the log of accepted messages, and its ids are
      distinct. */
  lemma {:induction false} HistoryIsWindow(offered: seq<Msg>)
    ensures After([], offered) == Window(Log([], offered)) && Distinct(After([], offered))
    ensures |After([], offered)| <= HISTORY_CAP
  {
    if offered != [] {
      var n := |offered| - 1;
      HistoryIsWindow(offered[..n]);
      var h, m := After([], offered[..n]), offered[n];
      if !Seen(h, m.id) {
        WindowGrows(Log([], offered[..n]), m);
        WindowDistinct(h, m);
      }
    }
  }

  /** An id is accepted twice only with a whole window of other acceptances in between. */
  lemma {:induction false} AcceptedApart(offered: seq<Msg>, i: nat, j: nat)
    requires i < j < |Log([], offered)| && Log([], offered)[i].id == Log([], offered)[j].id
    ensures j - i > HISTORY_CAP
  {
    var n := |offered| - 1;
    var before, h := Log([], offered[..n]), After([], offered[..n]);
    HistoryIsWindow(offered[..n]);
    if j < |before| {
      AcceptedApart(offered[..n], i, j);
    } else {
      var d := |before| - |h|;
      assert forall k :: 0 <= k < |h| ==> h[k].id != offered[n].id;
      assert forall k :: d <= k < |before| ==> before[k] == h[k - d];
    }
  }

  /** An id offered again is accepted again exactly when a whole window of others has been accepted
      since: forgetting is what lets it in. */
  lemma AcceptedAgainExactly(offered: seq<Msg>, m: Msg, i: nat)
    requires i < |Log([], offered)| && Log([], offered)[i].id == m.id
    requires forall j :: i < j < |Log([], offered)| ==> Log([], offered)[j].id != m.id
    ensures !Seen(After([], offered), m.id) <==> |Log([], offered)| - i > HISTORY_CAP
  {
    HistoryIsWindow(offered);
    var log, h := Log([], offered), After([], offered);
    var d := |log| - |h|;
    assert forall k :: 0 <= k < |h| ==> h[k] == log[k + d];
    if i >= d { assert h[i - d] == log[i]; }
  }

  // ----- Snapshots -----

  lemma {:induction false} RestorePrefix(snap: History, n: nat)
    requires Distinct(snap) && n <= |snap| <= HISTORY_CAP
    ensures After([], snap[..n]) == snap[..n]
  {
    if n > 0 {
      RestorePrefix(snap, n - 1);
      assert snap[..n][..n - 1] == snap[..n - 1];
      assert snap[..n] == snap[..n - 1] + [snap[n - 1]];
    }
  }

  lemma {:induction false} AllSeen(h: History, offered: seq<Msg>)
    requires forall i :: 0 <= i < |offered| ==> Seen(h, offered[i].id)
    ensures After(h, offered) == h && Log(h, offered) == h
  {
    if offered != [] {
      AllSeen(h, offered[..|offered| - 1]);
    }
  }

  /** A snapshot restored into a fresh service reproduces the history, and restored again, it accepts
      nothing. */
  lemma RestoreRoundTrip(offered: seq<Msg>)
    ensures var h := After([], offered);
      After([], h) == h && After(h, h) == h && Log(h, h) == h
  {
    HistoryIsWindow(offered);
    var h := After([], offered);
    RestorePrefix(h, |h|);
    assert h[..|h|] == h;
    forall i | 0 <= i < |h| ensures Seen(h, h[i].id) { }
    AllSeen(h, h);
  }
}

module Chat {
  import opened Wire
  import opened ChatSpec

  /** The service: its history, and the messages it has emitted. */
  class Service {
    var history: History
    var emitted: seq<Msg>

    constructor ()
      ensures history == [] && emitted == []
    {
      history, emitted := [], [];
    }

    method Record(m: Msg) returns (isNew: bool)
      modifies this`history
      ensures history == Recorded(old(history), m) && isNew == !Seen(old(history), m.id)
    {
      for i := 0 to |history|
        invariant forall j :: 0 <= j < i ==> history[j].id != m.id
      {
        if history[i].id == m.id { return false; }
      }
      history := history + [m];
      if |history| > HISTORY_CAP {
        history := history[|history| - HISTORY_CAP..];
      }
      return true;
    }

    method HandleFrame(m: Msg) returns (ok: bool)
      modifies this
      ensures ok <==> |m.text| <= MAX_TEXT
      ensures history == if ok then Recorded(old(history), m) else old(history)
      ensures emitted == old(emitted) + if ok && !Seen(old(history), m.id) then [m] else []
    {
      if |m.text| > MAX_TEXT { return false; }
      var isNew := Record(m);
      if isNew { emitted := emitted + [m]; }
      return true;
    }

    method Snapshot() returns (snap: History)
      ensures snap == history
    {
      return history;
    }

    /** Every message of the snapshot that is new is recorded and emitted, in order. */
    method Restore(snap: History)
      modifies this
      ensures history == After(old(history), snap)
      ensures old(emitted) <= emitted && old(history) + emitted[|old(emitted)|..] == Log(old(history), snap)
    {
      for i := 0 to |snap|
        invariant history == After(old(history), snap[..i])
        invariant old(emitted) <= emitted
        invariant old(history) + emitted[|old(emitted)|..] == Log(old(history), snap[..i])
      {
        assert snap[..i + 1][..i] == snap[..i];
        ghost var fresher := emitted[|old(emitted)|..];
        var isNew := Record(snap[i]);
        if isNew {
          emitted := emitted + [snap[i]];
          assert emitted[|old(emitted)|..] == fresher + [snap[i]];
          assert old(history) + (fresher + [snap[i]]) == old(history) + fresher + [snap[i]];
        }
      }
      assert snap[..|snap|] == snap;
    }
  }
}
