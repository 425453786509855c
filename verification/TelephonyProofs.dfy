/** What holds of the telephony service over every run and every behaviour of its environment. */
module TelephonyProofs {
  import opened Basics
  import opened TelephonySpec

  // ---------------------------------------------------------------- no lost link is forgotten

  lemma {:induction false} StepKeepsNotForgotten(s: State, e: Event)
    requires WF(s) && NotForgotten(s)
    ensures NotForgotten(Step(s, e))
  {
  }

  lemma {:induction false} RunKeepsNotForgotten(s: State, es: seq<Event>)
    requires WF(s) && NotForgotten(s)
    ensures NotForgotten(Run(s, es))
    decreases |es|
  {
    if es != [] {
      StepKeepsNotForgotten(s, es[0]);
      RunKeepsNotForgotten(Step(s, es[0]), es[1..]);
    }
  }

  /** In every reachable state a lost link has a notification on its way or a running timer. */
  lemma NoLinkForgotten(attempts: seq<Attempt>, es: seq<Event>)
    ensures NotForgotten(Run(Init(attempts), es))
  {
    RunKeepsNotForgotten(Init(attempts), es);
  }

  // ---------------------------------------------------------------- one handshake per accepted Send()

  /** A reader of the trace that checks the pairing as it goes. */
  datatype Ledger = Broken | Even | Owes(client: nat)

  function Read(l: Ledger, a: Act): Ledger {
    if l == Even then
      if a.Sent? && a.accepted then Owes(a.client) else if a.Handshake? then Broken else Even
    else if l.Owes? && a.Handshake? && a.client == l.client then Even
    else Broken
  }

  function LedgerOf(t: seq<Act>): Ledger {
    Fold(Read, Even, t)
  }

  /** In the first n acts, accepted calls of Send() and handshakes come in adjacent pairs on one client. */
  ghost predicate PairedTo(t: seq<Act>, n: nat)
    requires n <= |t|
  {
    && (forall i :: 0 <= i < n && t[i].Sent? && t[i].accepted ==>
          i + 1 < n && t[i+1].Handshake? && t[i+1].client == t[i].client)
    && (forall i :: 0 <= i < n && t[i].Handshake? ==> i > 0 && t[i-1] == Sent(t[i].client, true))
  }

  lemma {:induction false} LedgerMeaning(t: seq<Act>, n: nat)
    requires n <= |t|
    ensures FoldTo(Read, Even, t, n) == Even ==> PairedTo(t, n)
    ensures FoldTo(Read, Even, t, n).Owes? ==>
      n > 0 && t[n-1] == Sent(FoldTo(Read, Even, t, n).client, true) && PairedTo(t, n - 1)
  {
    if n > 0 {
      LedgerMeaning(t, n - 1);
    }
  }

  function AddHandshake(n: nat, a: Act): nat {
    n + (if a.Handshake? then 1 else 0)
  }

  function AddAccepted(n: nat, a: Act): nat {
    n + (if a.Sent? && a.accepted then 1 else 0)
  }

  lemma {:induction false} LedgerCounts(t: seq<Act>, n: nat)
    requires n <= |t|
    ensures FoldTo(Read, Even, t, n) == Even ==> FoldTo(AddHandshake, 0, t, n) == FoldTo(AddAccepted, 0, t, n)
    ensures FoldTo(Read, Even, t, n).Owes? ==> FoldTo(AddHandshake, 0, t, n) + 1 == FoldTo(AddAccepted, 0, t, n)
  {
    if n > 0 {
      LedgerCounts(t, n - 1);
    }
  }

  lemma LedgerLog(s: State, a: Act)
    ensures LedgerOf(Log(s, a).trace) == Read(LedgerOf(s.trace), a)
  {
    FoldSnoc(Read, Even, s.trace, a);
  }

  lemma {:induction false} ReconnectPairs(s: State)
    requires WF(s) && LedgerOf(s.trace) == Even
    ensures LedgerOf(OnReconnect(s).trace) == Even
    decreases |s.attempts|, 2, 0
  {
    if s.conn.Some? && s.reconnect != NoTimer {
      if Lost(s) {
        TrySendPairs(s.(reconnect := NoTimer));
      } else {
        LedgerLog(CloseClient(s, s.conn.value), ForcedClose(s.conn.value));
      }
    }
  }

  lemma {:induction false} TrySendPairs(s: State)
    requires WF(s) && s.conn.Some? && LedgerOf(s.trace) == Even
    ensures LedgerOf(TrySend(s).trace) == Even
    decreases |s.attempts|, 1, 1
  {
    SendOwes(s);
    var sent := Send(s);
    if sent.1 {
      LedgerLog(sent.0, Handshake(s.conn.value, s.selfId));
    } else {
      ReconnectPairs(sent.0);
    }
  }

  lemma {:induction false} SendOwes(s: State)
    requires WF(s) && s.conn.Some? && LedgerOf(s.trace) == Even
    ensures LedgerOf(Send(s).0.trace) == if Send(s).1 then Owes(s.conn.value) else Even
    decreases |s.attempts|, 1, 0
  {
    var c := s.conn.value;
    var begun := SetClient(s, c, Connecting);
    if s.attempts == [] {
      LedgerLog(begun, Sent(c, true));
    } else {
      var begun' := begun.(attempts := s.attempts[1..]);
      ReportsPair(begun', s.attempts[0].reports);
      LedgerLog(ApplyReports(begun', s.attempts[0].reports), Sent(c, s.attempts[0].accepted));
    }
  }

  lemma {:induction false} ReportsPair(s: State, reports: seq<Report>)
    requires WF(s) && s.conn.Some? && LedgerOf(s.trace) == Even
    ensures LedgerOf(ApplyReports(s, reports).trace) == Even
    decreases |s.attempts|, 4, |reports|
  {
    if reports != [] {
      ReportPairs(s, reports[0]);
      ReportsPair(ApplyReport(s, reports[0]), reports[1..]);
    }
  }

  lemma {:induction false} ReportPairs(s: State, report: Report)
    requires WF(s) && s.conn.Some? && LedgerOf(s.trace) == Even
    ensures LedgerOf(ApplyReport(s, report).trace) == Even
    decreases |s.attempts|, 4, 0
  {
    var c := s.conn.value;
    if MayBecome(s.clients[c], report.state) && report.sync && IsLost(report.state) {
      ReconnectPairs(SetClient(s, c, report.state).(connected := false));
    }
  }

  lemma {:induction false} RunPairs(s: State, es: seq<Event>)
    requires WF(s) && LedgerOf(s.trace) == Even
    ensures LedgerOf(Run(s, es).trace) == Even
    decreases |es|
  {
    if es != [] {
      StepPairs(s, es[0]);
      RunPairs(Step(s, es[0]), es[1..]);
    }
  }

  lemma ConnectPairs(s: State, id: string)
    requires WF(s) && s.conn.None? && LedgerOf(s.trace) == Even
    ensures LedgerOf(Connect(s, id, true).0.trace) == Even
  {
    var c := |s.clients|;
    var begun := s.(conn := Some(c), clients := s.clients + [Closed], selfId := id);
    LedgerLog(begun, Opened(c, id));
    TrySendPairs(Log(begun, Opened(c, id)));
  }

  /** The calls that have nothing to do with reconnecting. */
  predicate IsCall(e: Event) {
    e.EAnswer? || e.EHangUp? || e.EHangUpMessage? || e.EAudioIn? || e.ESendTick?
  }

  lemma TickPairs(s: State)
    requires LedgerOf(s.trace) == Even
    ensures LedgerOf(OnSendAudioData(s).trace) == Even
  {
    if s.conn.Some? && s.inCall {
      var p := Min(s.sendBytes, |s.queued|);
      LedgerLog(s, Frame(s.conn.value, s.queued[..p] + Zeros(s.sendBytes - p), p));
    }
  }

  lemma AnswerPairs(s: State, format: Option<AudioFormat>)
    requires LedgerOf(s.trace) == Even
    ensures LedgerOf(Answer(s, format).0.trace) == Even && LedgerOf(HangUp(s).0.trace) == Even
  {
    if s.conn.Some? {
      LedgerLog(s, AnswerMsg(s.conn.value));
      LedgerLog(s, HangUpMsg(s.conn.value));
    }
  }

  lemma CallPairs(s: State, e: Event)
    requires WF(s) && LedgerOf(s.trace) == Even && IsCall(e)
    ensures LedgerOf(Step(s, e).trace) == Even
  {
    match e
    case ESendTick => TickPairs(s);
    case EAudioIn(audio) => LedgerLog(s, Heard(audio));
    case EAnswer(format) => AnswerPairs(s, format);
    case EHangUp => AnswerPairs(s, None);
    case _ =>
  }

  lemma CallbackPairs(s: State, c: nat)
    requires WF(s) && LedgerOf(s.trace) == Even
    ensures LedgerOf(OnListenState(s, c).trace) == Even
  {
    if s.conn == Some(c) && Lost(s) {
      ReconnectPairs(s.(connected := false));
    }
  }

  lemma StepPairs(s: State, e: Event)
    requires WF(s) && LedgerOf(s.trace) == Even
    ensures LedgerOf(Step(s, e).trace) == Even
  {
    if IsCall(e) {
      CallPairs(s, e);
    } else {
      match e
      case EConnect(id, credentials) =>
        if s.conn.None? && credentials {
          ConnectPairs(s, id);
        }
      case EDisconnect =>
        if s.conn.Some? {
          LedgerLog(CloseClient(s, s.conn.value), UserClose(s.conn.value));
        }
      case EReconnectTimer => ReconnectPairs(s.(reconnect := Fired));
      case EDeliver(c) => CallbackPairs(s.(undelivered := s.undelivered - multiset{c}), c);
      case _ =>
    }
  }

  /**
    In every run each accepted Send() is followed at once by its handshake, there is no other handshake,
    and so there are as many handshakes as accepted calls of Send().
  */
  lemma HandshakePerAcceptedSend(attempts: seq<Attempt>, es: seq<Event>)
    ensures
      var t := Run(Init(attempts), es).trace;
      PairedTo(t, |t|) && Fold(AddHandshake, 0, t) == Fold(AddAccepted, 0, t)
  {
    var t := Run(Init(attempts), es).trace;
    RunPairs(Init(attempts), es);
    LedgerMeaning(t, |t|);
    LedgerCounts(t, |t|);
  }

  /** t' is t with more acts, of which the last two are a new accepted Send() on the client and its handshake. */
  ghost predicate Introduces(t: seq<Act>, t': seq<Act>, c: nat, id: string) {
    && Extends(t, t') && |t'| >= |t| + 2
    && t'[|t'|-2] == Sent(c, true) && t'[|t'|-1] == Handshake(c, id)
  }

  lemma {:induction false} AcceptedIsLast(s: State)
    requires WF(s) && s.conn.Some? && Send(s).1
    ensures
      var t := Send(s).0.trace;
      |t| > |s.trace| && t[|t|-1] == Sent(s.conn.value, true)
  {
    var c := s.conn.value;
    var begun := SetClient(s, c, Connecting);
    if s.attempts == [] {
      assert Send(s).0 == Log(begun, Sent(c, true));
    } else {
      var r := ApplyReports(begun.(attempts := s.attempts[1..]), s.attempts[0].reports);
      assert Send(s).0 == Log(r, Sent(c, true));
    }
  }

  lemma {:induction false} AcceptedIntroduces(s: State)
    requires WF(s) && s.conn.Some? && Send(s).1
    ensures Introduces(s.trace, TrySend(s).trace, s.conn.value, s.selfId)
  {
    AcceptedIsLast(s);
    assert TrySend(s) == Log(Send(s).0, Handshake(s.conn.value, s.selfId));
  }

  /** However Send() re-enters, a round on a lost link ends with the timer running or with a new handshake. */
  lemma {:induction false} ReconnectEnds(s: State)
    requires WF(s) && Lost(s)
    ensures
      var r := OnReconnect(s);
      r.reconnect == Pending || Introduces(s.trace, r.trace, s.conn.value, s.selfId)
    decreases |s.attempts|
  {
    if s.reconnect != NoTimer {
      var sent := Send(s.(reconnect := NoTimer));
      if sent.1 {
        AcceptedIntroduces(s.(reconnect := NoTimer));
      } else {
        ReconnectEnds(sent.0);
      }
    }
  }

  // ---------------------------------------------------------------- reconnecting never closes a live link

  predicate SomeLoss(reports: seq<Report>) {
    exists i :: 0 <= i < |reports| && IsLost(reports[i].state)
  }

  lemma {:induction false} ReconnectHolds(s: State)
    requires WF(s) && Lost(s)
    ensures Held(OnReconnect(s))
    ensures CountForced(OnReconnect(s).trace) == CountForced(s.trace)
    decreases |s.attempts|, 2, 0
  {
    if s.reconnect != NoTimer {
      TrySendHolds(s.(reconnect := NoTimer));
    }
  }

  lemma {:induction false} TrySendHolds(s: State)
    requires WF(s) && s.conn.Some?
    ensures CountForced(TrySend(s).trace) == CountForced(s.trace)
    ensures s.reconnect == NoTimer ==> Held(TrySend(s))
    ensures Armed(TrySend(s)) <==> s.reconnect != Pending || !GoesThrough(s.attempts)
    decreases |s.attempts|, 1, 1
  {
    SendHolds(s);
    var sent := Send(s);
    if sent.1 {
      ForcedLog(sent.0, Handshake(s.conn.value, s.selfId));
    } else {
      ReconnectHolds(sent.0);
    }
  }

  /** The next Send() is accepted and reports no loss while it runs. */
  predicate GoesThrough(attempts: seq<Attempt>) {
    attempts == [] || (attempts[0].accepted && !SomeLoss(attempts[0].reports))
  }

  lemma {:induction false} SendHolds(s: State)
    requires WF(s) && s.conn.Some?
    ensures CountForced(Send(s).0.trace) == CountForced(s.trace)
    ensures s.reconnect == NoTimer ==> Held(Send(s).0) || !Send(s).1
    ensures Send(s).1 ==> (Armed(Send(s).0) <==> s.reconnect != Pending || !GoesThrough(s.attempts))
    ensures !Send(s).1 ==> !GoesThrough(s.attempts)
    decreases |s.attempts|, 1, 0
  {
    var c := s.conn.value;
    var begun := SetClient(s, c, Connecting);
    if s.attempts == [] {
      ForcedLog(begun, Sent(c, true));
    } else {
      var a := s.attempts[0];
      var begun' := begun.(attempts := s.attempts[1..]);
      ReportsHold(begun', a.reports);
      var r := ApplyReports(begun', a.reports);
      ForcedLog(r, Sent(c, a.accepted));
      if a.accepted {
        assert Send(s).0 == Log(r, Sent(c, true));
      }
    }
  }

  lemma {:induction false} ReportsHold(s: State, reports: seq<Report>)
    requires WF(s) && s.conn.Some?
    ensures CountForced(ApplyReports(s, reports).trace) == CountForced(s.trace)
    ensures Held(s) ==> Held(ApplyReports(s, reports))
    ensures Armed(s) || SomeLoss(reports) ==> Armed(ApplyReports(s, reports))
    ensures !SomeLoss(reports) ==>
      ApplyReports(s, reports).reconnect == s.reconnect && Lost(ApplyReports(s, reports)) == Lost(s)
    decreases |s.attempts|, 4, |reports|
  {
    if reports != [] {
      ReportHolds(s, reports[0]);
      ReportsHold(ApplyReport(s, reports[0]), reports[1..]);
      assert SomeLoss(reports) <==> IsLost(reports[0].state) || SomeLoss(reports[1..]) by {
        if SomeLoss(reports[1..]) {
          var i :| 0 <= i < |reports[1..]| && IsLost(reports[1..][i].state);
          assert IsLost(reports[i+1].state);
        }
      }
    }
  }

  lemma {:induction false} ReportHolds(s: State, report: Report)
    requires WF(s) && s.conn.Some?
    ensures CountForced(ApplyReport(s, report).trace) == CountForced(s.trace)
    ensures Held(s) ==> Held(ApplyReport(s, report))
    ensures Armed(s) || IsLost(report.state) ==> Armed(ApplyReport(s, report))
    ensures !IsLost(report.state) ==>
      ApplyReport(s, report).reconnect == s.reconnect && Lost(ApplyReport(s, report)) == Lost(s)
    decreases |s.attempts|, 4, 0
  {
    var c := s.conn.value;
    if MayBecome(s.clients[c], report.state) && report.sync && IsLost(report.state) {
      ReconnectHolds(SetClient(s, c, report.state).(connected := false));
    }
  }

  lemma ForcedLog(s: State, a: Act)
    ensures CountForced(Log(s, a).trace) == CountForced(s.trace) + (if a.ForcedClose? then 1 else 0)
  {
    FoldSnoc(AddForced, 0, s.trace, a);
  }

  ghost predicate SameLink(s: State, r: State) {
    && r.conn == s.conn && r.clients == s.clients && r.reconnect == s.reconnect && r.connected == s.connected
    && CountForced(r.trace) == CountForced(s.trace)
  }

  lemma TickKeepsLink(s: State)
    ensures SameLink(s, OnSendAudioData(s))
  {
    if s.conn.Some? && s.inCall {
      var p := Min(s.sendBytes, |s.queued|);
      ForcedLog(s, Frame(s.conn.value, s.queued[..p] + Zeros(s.sendBytes - p), p));
    }
  }

  lemma AnswerKeepsLink(s: State, format: Option<AudioFormat>)
    ensures SameLink(s, Answer(s, format).0)
  {
    if s.conn.Some? {
      ForcedLog(s, AnswerMsg(s.conn.value));
      assert Answer(s, format).0.trace == Log(s, AnswerMsg(s.conn.value)).trace;
    }
  }

  lemma HangUpKeepsLink(s: State)
    ensures SameLink(s, HangUp(s).0)
  {
    if s.conn.Some? {
      ForcedLog(s, HangUpMsg(s.conn.value));
      assert HangUp(s).0.trace == Log(s, HangUpMsg(s.conn.value)).trace;
    }
  }

  lemma CallKeepsLink(s: State, e: Event)
    requires WF(s) && IsCall(e)
    ensures SameLink(s, Step(s, e))
  {
    match e
    case ESendTick => TickKeepsLink(s);
    case EAudioIn(audio) => ForcedLog(s, Heard(audio));
    case EAnswer(format) => AnswerKeepsLink(s, format);
    case EHangUp => HangUpKeepsLink(s);
    case _ =>
  }

  lemma CallbackInSession(s: State, c: nat)
    requires WF(s) && s.conn.Some? && Armed(s)
    ensures
      var r := OnListenState(s, c);
      Armed(r) && (Held(s) ==> Held(r)) && CountForced(r.trace) == CountForced(s.trace)
  {
    if s.conn == Some(c) && Lost(s) {
      ReconnectHolds(s.(connected := false));
    }
  }

  lemma StepInSession(s: State, e: Event)
    requires WF(s) && s.conn.Some? && Armed(s) && e != EDisconnect
    ensures Step(s, e).conn == s.conn && Armed(Step(s, e)) && (Held(s) ==> Held(Step(s, e)))
    ensures CountForced(Step(s, e).trace) == CountForced(s.trace)
  {
    if IsCall(e) {
      CallKeepsLink(s, e);
    } else {
      match e
      case EReconnectTimer =>
        if s.reconnect == Pending {
          ReconnectHolds(s.(reconnect := Fired));
        }
      case EDeliver(c) => CallbackInSession(s.(undelivered := s.undelivered - multiset{c}), c);
      case _ =>
    }
  }

  lemma {:induction false} RunInSession(s: State, es: seq<Event>)
    requires WF(s) && s.conn.Some? && Armed(s) && EDisconnect !in es
    ensures Run(s, es).conn == s.conn && Armed(Run(s, es)) && (Held(s) ==> Held(Run(s, es)))
    ensures CountForced(Run(s, es).trace) == CountForced(s.trace)
    decreases |es|
  {
    if es != [] {
      StepInSession(s, es[0]);
      RunInSession(Step(s, es[0]), es[1..]);
    }
  }

  /**
    A session begun with no timer outstanding: the timer pointer is set only while the link is lost,
    and the branch that closes the client by force is never taken.
  */
  lemma CleanSessionNeverForcesClose(s: State, id: string, es: seq<Event>)
    requires WF(s) && s.conn.None? && s.reconnect == NoTimer && EDisconnect !in es
    ensures Held(Run(Connect(s, id, true).0, es))
    ensures CountForced(Run(Connect(s, id, true).0, es).trace) == CountForced(s.trace)
  {
    var c := |s.clients|;
    var begun := s.(conn := Some(c), clients := s.clients + [Closed], selfId := id);
    ForcedLog(begun, Opened(c, id));
    TrySendHolds(Log(begun, Opened(c, id)));
    RunInSession(Connect(s, id, true).0, es);
  }

  /** Some continuation of the session closes the client by force. */
  ghost predicate MayForceClose(s: State)
    requires WF(s)
  {
    exists es: seq<Event> :: EDisconnect !in es && CountForced(Run(s, es).trace) > CountForced(s.trace)
  }

  lemma ForcedCloseIff(s: State)
    requires WF(s) && s.conn.Some?
    ensures MayForceClose(s) <==> s.reconnect == Pending && !Lost(s)
  {
    if Armed(s) {
      forall es: seq<Event> | EDisconnect !in es
        ensures CountForced(Run(s, es).trace) == CountForced(s.trace)
      {
        RunInSession(s, es);
      }
    } else {
      var es := [EReconnectTimer];
      var fired := s.(reconnect := Fired);
      ForcedLog(CloseClient(fired, s.conn.value), ForcedClose(s.conn.value));
      assert Run(s, es) == Run(Step(s, es[0]), es[1..]) == OnReconnect(fired);
      assert CountForced(Run(s, es).trace) > CountForced(s.trace);
    }
  }

  /**
    Disconnect() keeps the timer pointer. A new session may close its own live client by force exactly
    when it inherits a timer that is still running and its first Send() goes through.
  */
  lemma NewSessionMayForceCloseIff(s: State, id: string)
    requires WF(s) && s.conn.None?
    ensures MayForceClose(Connect(s, id, true).0) <==> s.reconnect == Pending && GoesThrough(s.attempts)
  {
    var c := |s.clients|;
    var begun := s.(conn := Some(c), clients := s.clients + [Closed], selfId := id);
    TrySendHolds(Log(begun, Opened(c, id)));
    ForcedCloseIff(Connect(s, id, true).0);
  }

  /** Such a timer is left behind when the user disconnects after a loss and before the timer fires. */
  lemma DisconnectLeavesTimer(s: State)
    requires WF(s) && s.conn.Some? && s.reconnect == NoTimer
    ensures
      var c := s.conn.value;
      var told := OnListenState(SetClient(s, c, Disconnected), c);
      var r := Disconnect(told).0;
      r.conn == None && r.reconnect == Pending && r.attempts == s.attempts
  {
    var c := s.conn.value;
    var lost := SetClient(s, c, Disconnected).(connected := false);
    assert OnListenState(SetClient(s, c, Disconnected), c) == OnReconnect(lost);
    assert OnReconnect(lost) == lost.(reconnect := Pending);
  }

  /** Inherited by a session whose link comes up, that timer closes the connected client. */
  lemma InheritedTimerClosesLiveLink(s: State)
    requires WF(s) && s.conn.Some? && s.reconnect == Pending && !Lost(s)
    ensures
      var c := s.conn.value;
      var live := OnListenState(SetClient(s, c, Connected), c);
      && live.conn == Some(c) && live.clients[c] == Connected && live.connected
      && Step(live, EReconnectTimer).trace == live.trace + [ForcedClose(c)]
      && Step(live, EReconnectTimer).clients[c] == Closing
  {
    var c := s.conn.value;
    var live := OnListenState(SetClient(s, c, Connected), c);
    assert live == SetClient(s, c, Connected).(connected := true);
    assert Step(live, EReconnectTimer) == OnReconnect(live.(reconnect := Fired));
  }

  /** Disconnect() closes the client it forgets. */
  lemma DisconnectCloses(s: State)
    requires WF(s) && s.conn.Some?
    ensures
      var c := s.conn.value;
      var st := Disconnect(s).0.clients[c];
      st == (if Lost(s) then s.clients[c] else Closing) && Disconnect(s).0.clients == s.clients[c := st]
  {
  }

  // ---------------------------------------------------------------- what the service says of the link

  /** No Send() of the script reports CONNECTED before it returns. */
  predicate NeverConnectsAtOnce(attempts: seq<Attempt>) {
    forall i, j :: 0 <= i < |attempts| && 0 <= j < |attempts[i].reports| ==>
      !(attempts[i].reports[j].sync && attempts[i].reports[j].state == Connected)
  }

  ghost predicate Unconnected(s: State) {
    WF(s) && !s.connected && NeverConnectsAtOnce(s.attempts)
  }

  lemma {:induction false} ReconnectUnconnected(s: State)
    requires Unconnected(s)
    ensures Unconnected(OnReconnect(s))
    decreases |s.attempts|, 2, 0
  {
    if s.conn.Some? && s.reconnect != NoTimer && Lost(s) {
      var sent := Send(s.(reconnect := NoTimer));
      SendUnconnected(s.(reconnect := NoTimer));
      if !sent.1 {
        ReconnectUnconnected(sent.0);
      }
    }
  }

  lemma {:induction false} SendUnconnected(s: State)
    requires Unconnected(s) && s.conn.Some?
    ensures Unconnected(Send(s).0)
    decreases |s.attempts|, 1, 0
  {
    if s.attempts != [] {
      var begun := SetClient(s, s.conn.value, Connecting).(attempts := s.attempts[1..]);
      ReportsUnconnected(begun, s.attempts[0].reports);
    }
  }

  lemma {:induction false} ReportsUnconnected(s: State, reports: seq<Report>)
    requires Unconnected(s) && s.conn.Some?
    requires forall j :: 0 <= j < |reports| ==> !(reports[j].sync && reports[j].state == Connected)
    ensures Unconnected(ApplyReports(s, reports))
    decreases |s.attempts|, 4, |reports|
  {
    if reports != [] {
      ReportUnconnected(s, reports[0]);
      ReportsUnconnected(ApplyReport(s, reports[0]), reports[1..]);
    }
  }

  lemma {:induction false} ReportUnconnected(s: State, report: Report)
    requires Unconnected(s) && s.conn.Some? && !(report.sync && report.state == Connected)
    ensures Unconnected(ApplyReport(s, report))
    decreases |s.attempts|, 4, 0
  {
    var c := s.conn.value;
    if MayBecome(s.clients[c], report.state) && report.sync && IsLost(report.state) {
      ReconnectUnconnected(SetClient(s, c, report.state));
    }
  }

  /**
    A callback of the current client leaves the service connected exactly when the client is CONNECTED, or
    neither CONNECTED nor lost and the service was connected already.
  */
  lemma {:induction false} ConnectedIff(s: State, c: nat)
    requires WF(s) && s.conn == Some(c) && NeverConnectsAtOnce(s.attempts)
    ensures OnListenState(s, c).connected <==> s.clients[c] == Connected || (s.connected && !Lost(s))
  {
    if Lost(s) {
      ReconnectUnconnected(s.(connected := false));
    }
  }

  // ---------------------------------------------------------------- a timer pointer that outlives its timer

  /**
    The pointer is kept when the timer fires with no session, and when it closes a live client. The first
    attempt that fails after that finds it set and is repeated at once.
  */
  lemma {:induction false} FirstFailureRetriesIff(s: State, id: string)
    requires WF(s) && s.conn.None? && s.attempts != [] && s.attempts[0] == Attempt([], false)
    ensures CountSends(Connect(s, id, true).0.trace) == CountSends(s.trace) + 1 <==> s.reconnect == NoTimer
    ensures Step(s, EReconnectTimer).reconnect == (if s.reconnect == Pending then Fired else s.reconnect)
  {
    var c := |s.clients|;
    var begun := s.(conn := Some(c), clients := s.clients + [Closed], selfId := id);
    var ready := Log(begun, Opened(c, id));
    SendsLog(begun, Opened(c, id));
    var tried := SetClient(ready, c, Connecting).(attempts := s.attempts[1..]);
    var failed := Log(SetClient(tried, c, Disconnected), Sent(c, false));
    SendsLog(SetClient(tried, c, Disconnected), Sent(c, false));
    assert ApplyReports(tried, []) == tried;
    assert Send(ready) == (failed, false);
    assert Connect(s, id, true).0 == OnReconnect(failed);
    if s.reconnect != NoTimer {
      RetrySends(failed);
    }
  }

  /** A client closed by force is sent to again as soon as its loss is told. */
  lemma {:induction false} ForcedCloseRetriesAtOnce(s: State, st: ClientState)
    requires WF(s) && s.conn.Some? && s.reconnect == Pending && !Lost(s) && IsLost(st)
    ensures
      var c := s.conn.value;
      var told := Step(Step(Step(s, EReconnectTimer), EClient(c, st)), EDeliver(c));
      CountSends(told.trace) > CountSends(s.trace)
  {
    var c := s.conn.value;
    var closed := Step(s, EReconnectTimer);
    var fired := s.(reconnect := Fired);
    assert closed == OnReconnect(fired) == Log(CloseClient(fired, c), ForcedClose(c));
    SendsLog(CloseClient(fired, c), ForcedClose(c));
    var lost := SetClient(closed, c, st).(undelivered := closed.undelivered + multiset{c});
    assert Step(closed, EClient(c, st)) == lost;
    var told := lost.(undelivered := lost.undelivered - multiset{c}, connected := false);
    assert Step(lost, EDeliver(c)) == OnReconnect(told);
    RetrySends(told);
  }

  // ---------------------------------------------------------------- a lost link comes back

  lemma SendRevives(s: State)
    requires WF(s) && s.conn.Some? && GoesThrough(s.attempts)
    ensures Send(s).1 && !Lost(Send(s).0)
  {
    if s.attempts != [] {
      var begun := SetClient(s, s.conn.value, Connecting).(attempts := s.attempts[1..]);
      ReportsHold(begun, s.attempts[0].reports);
    }
  }

  /** From before to after the client was sent to and introduced, and it is the current one and alive. */
  ghost predicate Revived(before: State, after: State, c: nat) {
    WF(after) && after.conn == Some(c) && !Lost(after) && Introduces(before.trace, after.trace, c, after.selfId)
  }

  /** A Send() that goes through leaves the link alive and ends with its handshake. */
  lemma GoodSendRevives(s: State)
    requires WF(s) && s.conn.Some? && GoesThrough(s.attempts)
    ensures Revived(s, TrySend(s), s.conn.value)
  {
    SendRevives(s);
    AcceptedIntroduces(s);
    assert TrySend(s) == Log(Send(s).0, Handshake(s.conn.value, s.selfId));
  }

  /** Connect() on a client whose Send() goes through introduces the new client under the caller's id. */
  lemma ConnectIntroduces(s: State, id: string)
    requires WF(s) && s.conn.None? && GoesThrough(s.attempts)
    ensures Revived(s, Connect(s, id, true).0, |s.clients|) && Connect(s, id, true).0.selfId == id
  {
    var c := |s.clients|;
    GoodSendRevives(Log(s.(conn := Some(c), clients := s.clients + [Closed], selfId := id), Opened(c, id)));
  }

  /** What the service waits for on a lost link: its timer, or the notification on its way. */
  function Awaited(s: State): State
    requires WF(s) && s.conn.Some?
  {
    if s.reconnect == Pending then Step(s, EReconnectTimer) else Step(s, EDeliver(s.conn.value))
  }

  /**
    From any reachable state with a lost link: once what the service waits for has come, at most twice,
    and if the next Send() goes through, the link is alive again and a new handshake was sent.
  */
  lemma LostLinkRecovers(attempts: seq<Attempt>, es: seq<Event>)
    requires Lost(Run(Init(attempts), es)) && GoesThrough(Run(Init(attempts), es).attempts)
    ensures
      var s := Run(Init(attempts), es);
      var c := s.conn.value;
      Revived(s, Awaited(s), c) || (Awaited(s).conn == s.conn && Revived(s, Awaited(Awaited(s)), c))
  {
    var s := Run(Init(attempts), es);
    NoLinkForgotten(attempts, es);
    var c := s.conn.value;
    if s.reconnect == NoTimer {
      var told := s.(undelivered := s.undelivered - multiset{c}, connected := false);
      assert Awaited(s) == OnReconnect(told) == told.(reconnect := Pending);
      TimerRevives(Awaited(s));
    } else if s.reconnect == Fired {
      var told := s.(undelivered := s.undelivered - multiset{c}, connected := false);
      assert Awaited(s) == OnReconnect(told) == TrySend(told.(reconnect := NoTimer));
      GoodSendRevives(told.(reconnect := NoTimer));
    } else {
      TimerRevives(s);
    }
  }

  lemma TimerRevives(s: State)
    requires WF(s) && Lost(s) && s.reconnect == Pending && GoesThrough(s.attempts)
    ensures Revived(s, Step(s, EReconnectTimer), s.conn.value)
  {
    var fired := s.(reconnect := Fired);
    assert Step(s, EReconnectTimer) == OnReconnect(fired) == TrySend(fired.(reconnect := NoTimer));
    GoodSendRevives(fired.(reconnect := NoTimer));
  }

  // ---------------------------------------------------------------- the pause between attempts

  /** How often one attempt tells the service that the link is lost, a false return included. */
  function LossReports(a: Attempt): nat {
    CountLoss(a.reports) + (if a.accepted then 0 else 1)
  }

  function CountLoss(reports: seq<Report>): nat {
    if reports == [] then 0
    else (if reports[0].sync && IsLost(reports[0].state) then 1 else 0) + CountLoss(reports[1..])
  }

  lemma SendsLog(s: State, a: Act)
    ensures CountSends(Log(s, a).trace) == CountSends(s.trace) + (if a.Sent? then 1 else 0)
  {
    FoldSnoc(AddSend, 0, s.trace, a);
  }

  lemma {:induction false} SendsGrowTo(t: seq<Act>, n: nat, m: nat)
    requires n <= m <= |t|
    ensures FoldTo(AddSend, 0, t, n) <= FoldTo(AddSend, 0, t, m)
    decreases m
  {
    if n < m {
      SendsGrowTo(t, n, m - 1);
    }
  }

  lemma SendsGrow(t: seq<Act>, t': seq<Act>)
    requires Adds(t, t')
    ensures CountSends(t) <= CountSends(t')
  {
    SendsGrowTo(t', |t|, |t'|);
    FoldToPrefix(AddSend, 0, t, t', |t|);
  }

  /** A round of OnReconnect that finds a timer pointer and a lost link sends at least once. */
  lemma RetrySends(s: State)
    requires WF(s) && Lost(s) && s.reconnect != NoTimer
    ensures CountSends(OnReconnect(s).trace) > CountSends(s.trace)
  {
    TrySendCount(s.(reconnect := NoTimer));
  }

  lemma TrySendCount(s: State)
    requires WF(s) && s.conn.Some?
    ensures CountSends(TrySend(s).trace) > CountSends(s.trace)
  {
    SendSends(s);
    var sent := Send(s);
    if sent.1 {
      SendsLog(sent.0, Handshake(s.conn.value, s.selfId));
    } else {
      SendsGrow(sent.0.trace, OnReconnect(sent.0).trace);
    }
  }

  lemma SendSends(s: State)
    requires WF(s) && s.conn.Some?
    ensures CountSends(Send(s).0.trace) > CountSends(s.trace)
  {
    var c := s.conn.value;
    var begun := SetClient(s, c, Connecting);
    if s.attempts == [] {
      SendsLog(begun, Sent(c, true));
    } else {
      var r := ApplyReports(begun.(attempts := s.attempts[1..]), s.attempts[0].reports);
      SendsGrow(s.trace, r.trace);
      SendsLog(r, Sent(c, s.attempts[0].accepted));
    }
  }

  lemma ReportCount(s: State, report: Report)
    requires WF(s) && s.conn.Some?
    requires s.reconnect == NoTimer || (s.reconnect == Pending && Lost(s))
    ensures
      var r := ApplyReport(s, report);
      if !report.sync || !IsLost(report.state) then
        r.trace == s.trace && r.reconnect == s.reconnect && (Lost(s) ==> Lost(r))
      else if s.reconnect == NoTimer then r.trace == s.trace && r.reconnect == Pending && Lost(r)
      else CountSends(r.trace) > CountSends(s.trace)
  {
    var c := s.conn.value;
    if report.sync && IsLost(report.state) {
      var lost := SetClient(s, c, report.state).(connected := false);
      assert ApplyReport(s, report) == OnReconnect(lost);
      if s.reconnect == Pending {
        RetrySends(lost);
      }
    }
  }

  /** Inside Send() the first loss report starts the timer and the second one sends again. */
  lemma {:induction false} ReportsCount(s: State, reports: seq<Report>)
    requires WF(s) && s.conn.Some?
    requires s.reconnect == NoTimer || (s.reconnect == Pending && Lost(s))
    ensures
      var r := ApplyReports(s, reports);
      var k := (if s.reconnect == NoTimer then 0 else 1) + CountLoss(reports);
      if k <= 1 then
        && CountSends(r.trace) == CountSends(s.trace)
        && (if k == 0 then r.reconnect == NoTimer else r.reconnect == Pending && Lost(r))
      else CountSends(r.trace) > CountSends(s.trace)
    decreases |reports|
  {
    if reports != [] {
      var s' := ApplyReport(s, reports[0]);
      ReportCount(s, reports[0]);
      if reports[0].sync && IsLost(reports[0].state) && s.reconnect == Pending {
        SendsGrow(s'.trace, ApplyReports(s', reports[1..]).trace);
      } else {
        ReportsCount(s', reports[1..]);
      }
    }
  }

  /**
    A retry is one single Send() exactly when that attempt tells its loss at most once. An attempt that
    both reports the loss from inside Send() and returns false is repeated at once, without the pause.
  */
  lemma SingleSendIff(s: State)
    requires WF(s) && Lost(s) && s.reconnect != NoTimer && s.attempts != []
    ensures CountSends(OnReconnect(s).trace) == CountSends(s.trace) + 1 <==> LossReports(s.attempts[0]) <= 1
  {
    var s' := s.(reconnect := NoTimer);
    var sent := Send(s').0;
    SendCount(s');
    if s.attempts[0].accepted {
      SendsLog(sent, Handshake(s.conn.value, s.selfId));
    } else {
      SendsGrow(sent.trace, OnReconnect(sent).trace);
      if sent.reconnect != NoTimer {
        RetrySends(sent);
      }
    }
  }

  lemma SendCount(s: State)
    requires WF(s) && s.conn.Some? && s.reconnect == NoTimer && s.attempts != []
    ensures
      var k := CountLoss(s.attempts[0].reports);
      var r := Send(s).0;
      && Send(s).1 == s.attempts[0].accepted
      && (if k <= 1 then CountSends(r.trace) == CountSends(s.trace) + 1
          else CountSends(r.trace) > CountSends(s.trace) + 1)
      && (k == 0 ==> r.reconnect == NoTimer)
      && (k == 1 ==> r.reconnect == Pending)
  {
    var c := s.conn.value;
    var a := s.attempts[0];
    var begun := SetClient(s, c, Connecting).(attempts := s.attempts[1..]);
    ReportsCount(begun, a.reports);
    SendsLog(ApplyReports(begun, a.reports), Sent(c, a.accepted));
  }

  /** An attempt that fails inside Send(): the loss is reported at once and Send() returns false. */
  const STUBBORN_FAILURE := Attempt([Report(Disconnected, true)], false)

  lemma StubbornSend(s: State)
    requires WF(s) && s.conn.Some? && s.reconnect == NoTimer
    requires s.attempts != [] && s.attempts[0] == STUBBORN_FAILURE
    ensures
      var r := Send(s).0;
      && !Send(s).1 && Lost(r) && r.reconnect == Pending && r.attempts == s.attempts[1..]
      && r.trace == s.trace + [Sent(s.conn.value, false)]
  {
    var c := s.conn.value;
    var begun := SetClient(s, c, Connecting).(attempts := s.attempts[1..]);
    var reports := STUBBORN_FAILURE.reports;
    var lost := SetClient(begun, c, Disconnected).(connected := false);
    assert reports[1..] == [];
    assert ApplyReports(begun, reports) == ApplyReport(begun, reports[0]) == OnReconnect(lost);
    assert OnReconnect(lost) == lost.(reconnect := Pending);
  }

  /** While Send() keeps failing so, one firing of the timer never gets to the pause: it sends n + 1 times. */
  lemma {:induction false} FailuresDefeatThePause(s: State, n: nat)
    requires WF(s) && Lost(s) && s.reconnect != NoTimer
    requires s.attempts == seq(n, _ => STUBBORN_FAILURE)
    ensures CountSends(OnReconnect(s).trace) == CountSends(s.trace) + n + 1
    ensures OnReconnect(s).attempts == []
    decreases n
  {
    var c := s.conn.value;
    var s' := s.(reconnect := NoTimer);
    var sent := Send(s').0;
    if n == 0 {
      SendsLog(SetClient(s', c, Connecting), Sent(c, true));
      SendsLog(sent, Handshake(c, s.selfId));
    } else {
      StubbornSend(s');
      SendsLog(s, Sent(c, false));
      assert s.attempts[1..] == seq(n - 1, _ => STUBBORN_FAILURE);
      FailuresDefeatThePause(sent, n - 1);
    }
  }
}
