/**
  The telephony service (nexmo/services/Telephony.cpp) as a transition system on values.

  The environment is explicit. A web client only changes state by itself or inside a call of
  Send(); it reports every change, either at once (from inside Send(), so the callback re-enters
  the service) or later, as an undelivered notification. What the following calls of Send() will do
  is a finite script of attempts; when the script is used up, Send() is accepted and reports later.
  The only assumptions on a client are:
    - a lost client (CLOSED or DISCONNECTED) stays lost until Send() is called on it;
    - a refused Send() leaves it lost;
    - every other change of state is reported.
*/
module TelephonySpec {
  import opened Basics

  newtype Byte = x: int | 0 <= x < 256
  type Bytes = seq<Byte>

  // ---------------------------------------------------------------- environment

  datatype ClientState = Connecting | Connected | Closing | Closed | Disconnected

  predicate IsLost(st: ClientState) {
    st == Closed || st == Disconnected
  }

  /** A change of state seen inside Send(): reported at once (sync) or by a later notification. */
  datatype Report = Report(state: ClientState, sync: bool)

  /** One call of Send(): what it reports while it runs, and what it returns. */
  datatype Attempt = Attempt(reports: seq<Report>, accepted: bool)

  /** The reconnect timer pointer: null, running, or kept after its one shot. */
  datatype Timer = NoTimer | Pending | Fired

  /** Everything the service does that another party can see, in order. */
  datatype Act =
    | Opened(client: nat, selfId: string)
    | Sent(client: nat, accepted: bool)
    | Handshake(client: nat, selfId: string)
    | ForcedClose(client: nat)
    | UserClose(client: nat)
    | AnswerMsg(client: nat)
    | HangUpMsg(client: nat)
    | Heard(audio: Bytes)
    | Frame(client: nat, data: Bytes, payload: nat)

  /** The audio format after parsing: sample rate, bits per sample, channels. */
  datatype AudioFormat = AudioFormat(freq: nat, bps: nat, channels: nat)

  const FRAME_SIZE := 320
  const UINT_RANGE := 0x1_0000_0000

  /** Bytes of one frame; the product is taken in 32-bit unsigned arithmetic. */
  function FrameBytes(f: AudioFormat): nat {
    (FRAME_SIZE * (f.bps / 8) * f.channels) % UINT_RANGE
  }

  datatype State = State(
    conn: Option<nat>,              // m_spConnection, as an index into clients
    clients: seq<ClientState>,      // every client ever created
    undelivered: multiset<nat>,     // clients with a state notification still to arrive
    selfId: string,
    connected: bool,
    inCall: bool,
    reconnect: Timer,
    sendTimer: bool,
    sendBytes: nat,
    queued: Bytes,                  // m_Outgoing with the chunk boundaries forgotten
    attempts: seq<Attempt>,         // what the next calls of Send() will do
    trace: seq<Act>)

  predicate WF(s: State) {
    s.conn.Some? ==> s.conn.value < |s.clients|
  }

  predicate Lost(s: State)
    requires WF(s)
  {
    s.conn.Some? && IsLost(s.clients[s.conn.value])
  }

  /** A lost link is waiting for a notification or for a timer that is really running. */
  predicate NotForgotten(s: State)
    requires WF(s)
  {
    Lost(s) && s.conn.value !in s.undelivered ==> s.reconnect == Pending
  }

  /** No timer is running while the link is alive. */
  predicate Armed(s: State)
    requires WF(s)
  {
    s.reconnect == Pending ==> Lost(s)
  }

  /** The timer pointer is set only while the link is lost, and then the service says so. */
  predicate Held(s: State)
    requires WF(s)
  {
    s.reconnect != NoTimer ==> Lost(s) && !s.connected
  }

  function Init(attempts: seq<Attempt>): State {
    State(None, [], multiset{}, "", false, false, NoTimer, false, FRAME_SIZE * 2, [], attempts, [])
  }

  function Log(s: State, a: Act): State {
    s.(trace := s.trace + [a])
  }

  function SetClient(s: State, c: nat, st: ClientState): State
    requires c < |s.clients|
  {
    s.(clients := s.clients[c := st])
  }

  /** Close() only starts closing; the outcome is reported later. */
  function CloseClient(s: State, c: nat): State
    requires c < |s.clients|
  {
    if IsLost(s.clients[c]) then s else SetClient(s, c, Closing)
  }

  // ---------------------------------------------------------------- projections of the trace

  function AddForced(n: nat, a: Act): nat {
    n + (if a.ForcedClose? then 1 else 0)
  }

  function CountForced(t: seq<Act>): nat {
    Fold(AddForced, 0, t)
  }

  function AddSend(n: nat, a: Act): nat {
    n + (if a.Sent? then 1 else 0)
  }

  function CountSends(t: seq<Act>): nat {
    Fold(AddSend, 0, t)
  }

  function AddPayload(sent: Bytes, a: Act): Bytes {
    sent + (if a.Frame? then a.data[..Min(a.payload, |a.data|)] else [])
  }

  /** The audio bytes carried by the frames of a trace, without the padding. */
  function PayloadOf(t: seq<Act>): Bytes {
    Fold(AddPayload, [], t)
  }

  function AddHeard(heard: Bytes, a: Act): Bytes {
    heard + (if a.Heard? then a.audio else [])
  }

  /** The audio bytes the service accepted. */
  function HeardOf(t: seq<Act>): Bytes {
    Fold(AddHeard, [], t)
  }

  // ---------------------------------------------------------------- reconnecting

  /** What reconnecting never touches. */
  ghost predicate Quiet(s: State, r: State) {
    && r.conn == s.conn && |r.clients| == |s.clients| && r.selfId == s.selfId
    && r.inCall == s.inCall && r.sendTimer == s.sendTimer && r.sendBytes == s.sendBytes
    && r.queued == s.queued
    && Adds(s.trace, r.trace)
  }

  /** t' is t followed by more. */
  ghost predicate Extends(t: seq<Act>, t': seq<Act>) {
    |t| <= |t'| && forall i :: 0 <= i < |t| ==> t'[i] == t[i]
  }

  /** t' is t followed by connection handling. */
  ghost predicate Adds(t: seq<Act>, t': seq<Act>) {
    && Extends(t, t')
    && (forall i :: |t| <= i < |t'| ==> t'[i].Sent? || t'[i].Handshake? || t'[i].ForcedClose?)
  }

  function OnReconnect(s: State): (r: State)
    requires WF(s)
    ensures WF(r) && Quiet(s, r)
    ensures |r.attempts| <= |s.attempts|
    ensures NotForgotten(r)
    decreases |s.attempts|, 2, 0
  {
    if s.conn.None? then s
    else if s.reconnect == NoTimer then s.(reconnect := Pending, connected := false)
    else if Lost(s) then TrySend(s.(reconnect := NoTimer))
    else Log(CloseClient(s, s.conn.value), ForcedClose(s.conn.value))
  }

  /** Send(), then either the handshake or the next round of OnReconnect. */
  function TrySend(s: State): (r: State)
    requires WF(s) && s.conn.Some?
    ensures WF(r) && Quiet(s, r)
    ensures |r.attempts| <= |s.attempts|
    ensures NotForgotten(r)
    decreases |s.attempts|, 1, 1
  {
    var sent := Send(s);
    if sent.1 then Log(sent.0, Handshake(s.conn.value, s.selfId)) else OnReconnect(sent.0)
  }

  /** IWebClient::Send() on the current client. */
  function Send(s: State): (res: (State, bool))
    requires WF(s) && s.conn.Some?
    ensures WF(res.0) && Quiet(s, res.0)
    ensures |res.0.attempts| <= |s.attempts|
    ensures s.attempts != [] ==> |res.0.attempts| < |s.attempts|
    ensures if res.1 then NotForgotten(res.0) else Lost(res.0) && s.attempts != []
    decreases |s.attempts|, 1, 0
  {
    var c := s.conn.value;
    var begun := SetClient(s, c, Connecting);
    if s.attempts == [] then (Log(begun, Sent(c, true)), true)
    else
      var a := s.attempts[0];
      var r := ApplyReports(begun.(attempts := s.attempts[1..]), a.reports);
      if a.accepted then (Log(r, Sent(c, true)), true)
      else (Log(if Lost(r) then r else SetClient(r, c, Disconnected), Sent(c, false)), false)
  }

  /** The reports a client makes while Send() runs. */
  function ApplyReports(s: State, reports: seq<Report>): (r: State)
    requires WF(s) && s.conn.Some?
    ensures WF(r) && Quiet(s, r)
    ensures |r.attempts| <= |s.attempts|
    ensures NotForgotten(s) ==> NotForgotten(r)
    decreases |s.attempts|, 4, |reports|
  {
    if reports == [] then s
    else ApplyReports(ApplyReport(s, reports[0]), reports[1..])
  }

  function ApplyReport(s: State, report: Report): (r: State)
    requires WF(s) && s.conn.Some?
    ensures WF(r) && Quiet(s, r)
    ensures |r.attempts| <= |s.attempts|
    ensures NotForgotten(s) ==> NotForgotten(r)
    decreases |s.attempts|, 4, 0
  {
    var c := s.conn.value;
    if !MayBecome(s.clients[c], report.state) then s
    else if report.sync then OnListenState(SetClient(s, c, report.state), c)
    else SetClient(s, c, report.state).(undelivered := s.undelivered + multiset{c})
  }

  predicate MayBecome(now: ClientState, next: ClientState) {
    IsLost(now) ==> IsLost(next)
  }

  /** The callback reads the client's state when it runs, not when the change happened. */
  function OnListenState(s: State, client: nat): (r: State)
    requires WF(s)
    ensures WF(r) && Quiet(s, r)
    ensures |r.attempts| <= |s.attempts|
    ensures s.conn == Some(client) ==> NotForgotten(r)
    decreases |s.attempts|, 3, 0
  {
    if s.conn != Some(client) then s
    else if IsLost(s.clients[client]) then OnReconnect(s.(connected := false))
    else if s.clients[client] == Connected then s.(connected := true)
    else s
  }

  // ---------------------------------------------------------------- the public calls

  function Connect(s: State, selfId: string, credentials: bool): (State, bool)
    requires WF(s)
  {
    if s.conn.Some? || !credentials then (s, false)
    else
      var c := |s.clients|;
      var begun := s.(conn := Some(c), clients := s.clients + [Closed], selfId := selfId);
      (TrySend(Log(begun, Opened(c, selfId))), true)
  }

  function Disconnect(s: State): (State, bool)
    requires WF(s)
  {
    if s.conn.None? then (s, false)
    else
      var closed := Log(CloseClient(s, s.conn.value), UserClose(s.conn.value));
      (closed.(conn := None, connected := false, inCall := false), true)
  }

  /** format is the parse of m_AudioOutFormat, None when it is not supported. */
  function Answer(s: State, format: Option<AudioFormat>): (State, bool) {
    if s.conn.None? then (s, false)
    else (StartSendTimer(Log(s, AnswerMsg(s.conn.value)).(inCall := true), format), true)
  }

  function StartSendTimer(s: State, format: Option<AudioFormat>): State {
    if format.None? then s else s.(sendBytes := FrameBytes(format.value), sendTimer := true)
  }

  function HangUp(s: State): (State, bool) {
    if s.conn.None? then (s, false)
    else (Log(s, HangUpMsg(s.conn.value)).(inCall := false), true)
  }

  /** A hang_up command from the other side. */
  function OnHangUpMessage(s: State): State {
    s.(inCall := false)
  }

  function SendAudioIn(s: State, audio: Bytes): State {
    if s.conn.Some? && s.inCall then Log(s, Heard(audio)).(queued := s.queued + audio) else s
  }

  function Zeros(n: nat): (z: Bytes)
    ensures |z| == n && forall i :: 0 <= i < n ==> z[i] == 0
  {
    seq(n, _ => 0)
  }

  /** One tick of the send timer, as a step on the byte stream. */
  function OnSendAudioData(s: State): State {
    if s.conn.Some? && s.inCall then
      var p := Min(s.sendBytes, |s.queued|);
      Log(s, Frame(s.conn.value, s.queued[..p] + Zeros(s.sendBytes - p), p)).(queued := s.queued[p..])
    else s.(sendTimer := false)
  }

  // ---------------------------------------------------------------- whole runs

  datatype Event =
    | EConnect(id: string, credentials: bool)
    | EDisconnect
    | EAnswer(format: Option<AudioFormat>)
    | EHangUp
    | EHangUpMessage
    | EAudioIn(audio: Bytes)
    | ESendTick                                 // the send timer fires
    | EReconnectTimer                           // the reconnect timer fires
    | EClient(client: nat, state: ClientState)  // a client changes state, or repeats it
    | EDeliver(client: nat)                     // a state notification arrives

  /** An event that cannot happen in s leaves it as it is. */
  function Step(s: State, e: Event): (r: State)
    requires WF(s)
    ensures WF(r)
  {
    match e
    case EConnect(id, credentials) => Connect(s, id, credentials).0
    case EDisconnect => Disconnect(s).0
    case EAnswer(format) => Answer(s, format).0
    case EHangUp => HangUp(s).0
    case EHangUpMessage => OnHangUpMessage(s)
    case EAudioIn(audio) => SendAudioIn(s, audio)
    case ESendTick => if s.sendTimer then OnSendAudioData(s) else s
    case EReconnectTimer => if s.reconnect == Pending then OnReconnect(s.(reconnect := Fired)) else s
    case EClient(c, st) =>
      if c < |s.clients| && MayBecome(s.clients[c], st)
      then SetClient(s, c, st).(undelivered := s.undelivered + multiset{c})
      else s
    case EDeliver(c) =>
      if c in s.undelivered
      then OnListenState(s.(undelivered := s.undelivered - multiset{c}), c)
      else s
  }

  function Run(s: State, es: seq<Event>): (r: State)
    requires WF(s)
    ensures WF(r)
    decreases |es|
  {
    if es == [] then s else Run(Step(s, es[0]), es[1..])
  }
}
