/**
  The telephony service in its own form: one object whose callbacks update its fields. Every method is
  proved to take the step that TelephonySpec gives for it. The one difference between the two states is
  the audio queue: a list of chunks of arbitrary length here, the plain byte stream there.
*/
module Telephony {
  import opened Basics
  import opened TelephonySpec
  import Spec = TelephonySpec

  function Flatten(chunks: seq<Bytes>): Bytes {
    if chunks == [] then [] else chunks[0] + Flatten(chunks[1..])
  }

  lemma {:induction false} FlattenAppend(chunks: seq<Bytes>, chunk: Bytes)
    ensures Flatten(chunks + [chunk]) == Flatten(chunks) + chunk
  {
    if chunks == [] {
      assert chunks + [chunk] == [chunk];
    } else {
      FlattenAppend(chunks[1..], chunk);
      assert (chunks + [chunk])[1..] == chunks[1..] + [chunk];
    }
  }

  /** Moving bytes from the first chunk to the frame keeps the stream; an empty rest is dropped. */
  lemma CutChunk(frame: Bytes, chunks: seq<Bytes>, bytes: nat)
    requires chunks != [] && bytes <= |chunks[0]|
    ensures
      var rest := if bytes == |chunks[0]| then chunks[1..] else [chunks[0][bytes..]] + chunks[1..];
      frame + chunks[0][..bytes] + Flatten(rest) == frame + Flatten(chunks)
  {
    var data, tail := chunks[0], Flatten(chunks[1..]);
    assert data == data[..bytes] + data[bytes..];
    assert frame + data[..bytes] + (data[bytes..] + tail) == frame + (data[..bytes] + data[bytes..] + tail);
    if bytes == |data| {
      assert data[bytes..] + tail == tail;
    } else {
      assert ([data[bytes..]] + chunks[1..])[1..] == chunks[1..];
    }
  }

  class Telephony {
    var connection: Option<nat>
    var selfId: string
    var connected: bool
    var inCall: bool
    var reconnectTimer: Timer
    var outgoing: seq<Bytes>
    var sendTimer: bool
    var sendBytes: nat

    // the environment
    var clients: seq<ClientState>
    var undelivered: multiset<nat>
    var attempts: seq<Attempt>
    ghost var trace: seq<Act>

    ghost function Abs(): State
      reads this
    {
      State(connection, clients, undelivered, selfId, connected, inCall, reconnectTimer, sendTimer,
            sendBytes, Flatten(outgoing), attempts, trace)
    }

    ghost predicate Valid()
      reads this
    {
      WF(Abs())
    }

    constructor (attempts: seq<Attempt>)
      ensures Valid() && Abs() == Spec.Init(attempts)
    {
      connection, selfId, connected, inCall := None, "", false, false;
      reconnectTimer, outgoing, sendTimer, sendBytes := NoTimer, [], false, FRAME_SIZE * 2;
      clients, undelivered := [], multiset{};
      this.attempts := attempts;
      trace := [];
    }

    method Connect(id: string, credentials: bool) returns (ok: bool)
      requires Valid()
      modifies this
      ensures Valid() && (Abs(), ok) == Spec.Connect(old(Abs()), id, credentials)
    {
      if connection.Some? || !credentials {
        return false;
      }
      selfId := id;
      connection := Some(|clients|);
      clients := clients + [Closed];
      trace := trace + [Opened(|clients| - 1, id)];
      ghost var begun := Abs();
      var accepted := Send();
      if !accepted {
        OnReconnect();
      } else {
        SendHandshake();
      }
      assert Abs() == TrySend(begun);
      return true;
    }

    method Disconnect() returns (ok: bool)
      requires Valid()
      modifies this
      ensures Valid() && (Abs(), ok) == Spec.Disconnect(old(Abs()))
    {
      if connection.None? {
        return false;
      }
      Close();
      trace := trace + [UserClose(connection.value)];
      connection := None;
      connected := false;
      inCall := false;
      return true;
    }

    method Answer(format: Option<AudioFormat>) returns (ok: bool)
      requires Valid()
      modifies this
      ensures Valid() && (Abs(), ok) == Spec.Answer(old(Abs()), format)
    {
      if connection.None? {
        return false;
      }
      trace := trace + [AnswerMsg(connection.value)];
      inCall := true;
      StartSendTimer(format);
      return true;
    }

    method StartSendTimer(format: Option<AudioFormat>)
      modifies this`sendBytes, this`sendTimer
      ensures Abs() == Spec.StartSendTimer(old(Abs()), format)
    {
      if format.Some? {
        sendBytes := FrameBytes(format.value);
        sendTimer := true;
      }
    }

    method HangUp() returns (ok: bool)
      requires Valid()
      modifies this
      ensures Valid() && (Abs(), ok) == Spec.HangUp(old(Abs()))
    {
      if connection.None? {
        return false;
      }
      trace := trace + [HangUpMsg(connection.value)];
      inCall := false;
      return true;
    }

    method OnHangUpMessage()
      modifies this`inCall
      ensures Abs() == Spec.OnHangUpMessage(old(Abs()))
    {
      inCall := false;
    }

    method SendAudioIn(audio: Bytes)
      requires Valid()
      modifies this`outgoing, this`trace
      ensures Valid() && Abs() == Spec.SendAudioIn(old(Abs()), audio)
    {
      if connection.Some? && inCall {
        FlattenAppend(outgoing, audio);
        outgoing := outgoing + [audio];
        trace := trace + [Heard(audio)];
      }
    }

    /** Cuts the chunks into one frame; whatever the chunking, this is one step on the byte stream. */
    method OnSendAudioData()
      requires Valid()
      modifies this`outgoing, this`sendTimer, this`trace
      ensures Valid() && Abs() == Spec.OnSendAudioData(old(Abs()))
    {
      if connection.Some? && inCall {
        var frame: Bytes := [];
        ghost var all := Flatten(outgoing);
        while |outgoing| > 0 && |frame| < sendBytes
          invariant |frame| <= sendBytes
          invariant frame + Flatten(outgoing) == all
          invariant unchanged(this`sendTimer) && unchanged(this`trace)
          decreases |outgoing|, sendBytes - |frame|
        {
          var data := outgoing[0];
          var bytes := |data|;
          var remaining := sendBytes - |frame|;
          if bytes > remaining {
            bytes := remaining;
          }
          CutChunk(frame, outgoing, bytes);
          frame := frame + data[..bytes];
          if bytes == |data| {
            outgoing := outgoing[1..];
          } else {
            outgoing := [data[bytes..]] + outgoing[1..];
          }
        }
        ghost var payload := |frame|;
        assert frame == all[..payload] && Flatten(outgoing) == all[payload..];
        if |frame| < sendBytes {
          frame := frame + Zeros(sendBytes - |frame|);
        }
        assert frame == all[..payload] + Zeros(sendBytes - payload);
        trace := trace + [Frame(connection.value, frame, payload)];
      } else {
        sendTimer := false;
      }
    }

    method OnListenState(client: nat)
      requires Valid()
      modifies this`connected, this`reconnectTimer, this`clients, this`undelivered, this`attempts, this`trace
      ensures Valid() && Abs() == Spec.OnListenState(old(Abs()), client)
      decreases |attempts|, 3, 0
    {
      if connection == Some(client) {
        if clients[client] == Disconnected || clients[client] == Closed {
          connected := false;
          OnReconnect();
        } else if clients[client] == Connected {
          connected := true;
        }
      }
    }

    method OnReconnect()
      requires Valid()
      modifies this`connected, this`reconnectTimer, this`clients, this`undelivered, this`attempts, this`trace
      ensures Valid() && Abs() == Spec.OnReconnect(old(Abs()))
      decreases |attempts|, 2, 0
    {
      if connection.Some? {
        if reconnectTimer == NoTimer {
          reconnectTimer := Pending;
          connected := false;
        } else if IsLost(clients[connection.value]) {
          reconnectTimer := NoTimer;
          ghost var begun := Abs();
          var accepted := Send();
          if !accepted {
            OnReconnect();
          } else {
            SendHandshake();
          }
          assert Abs() == TrySend(begun);
        } else {
          Close();
          trace := trace + [ForcedClose(connection.value)];
        }
      }
    }

    /** What the framework does with one event: it calls the method or the callback meant for it. */
    method Handle(e: Event)
      requires Valid()
      modifies this
      ensures Valid() && Abs() == Step(old(Abs()), e)
    {
      match e
      case EConnect(id, credentials) => var _ := Connect(id, credentials);
      case EDisconnect => var _ := Disconnect();
      case EAnswer(format) => var _ := Answer(format);
      case EHangUp => var _ := HangUp();
      case EHangUpMessage => OnHangUpMessage();
      case EAudioIn(audio) => SendAudioIn(audio);
      case ESendTick =>
        if sendTimer {
          OnSendAudioData();
        }
      case EReconnectTimer => ReconnectTimerFires();
      case EClient(c, st) => ClientChanges(c, st);
      case EDeliver(c) => Deliver(c);
    }

    method ReconnectTimerFires()
      requires Valid()
      modifies this
      ensures Valid() && Abs() == Step(old(Abs()), EReconnectTimer)
    {
      if reconnectTimer == Pending {
        reconnectTimer := Fired;
        OnReconnect();
      }
    }

    method ClientChanges(c: nat, st: ClientState)
      requires Valid()
      modifies this`clients, this`undelivered
      ensures Valid() && Abs() == Step(old(Abs()), EClient(c, st))
    {
      if c < |clients| && MayBecome(clients[c], st) {
        clients := clients[c := st];
        undelivered := undelivered + multiset{c};
      }
    }

    method Deliver(c: nat)
      requires Valid()
      modifies this
      ensures Valid() && Abs() == Step(old(Abs()), EDeliver(c))
    {
      if c in undelivered {
        undelivered := undelivered - multiset{c};
        OnListenState(c);
      }
    }

    method SendHandshake()
      requires Valid() && connection.Some?
      modifies this`trace
      ensures Abs() == Log(old(Abs()), Handshake(connection.value, selfId))
    {
      trace := trace + [Handshake(connection.value, selfId)];
    }

    // ------------------------------------------------------------ the web client

    method Close()
      requires Valid() && connection.Some?
      modifies this`clients
      ensures Valid() && Abs() == CloseClient(old(Abs()), connection.value)
    {
      if !IsLost(clients[connection.value]) {
        clients := clients[connection.value := Closing];
      }
    }

    /** Runs the next attempt of the script; its immediate reports call back into the service. */
    method Send() returns (accepted: bool)
      requires Valid() && connection.Some?
      modifies this`connected, this`reconnectTimer, this`clients, this`undelivered, this`attempts, this`trace
      ensures Valid() && (Abs(), accepted) == Spec.Send(old(Abs()))
      decreases |attempts|, 1, 0
    {
      var c := connection.value;
      clients := clients[c := Connecting];
      if attempts == [] {
        accepted := true;
      } else {
        var a := attempts[0];
        attempts := attempts[1..];
        ApplyReports(a.reports);
        accepted := a.accepted;
        if !accepted && !IsLost(clients[c]) {
          clients := clients[c := Disconnected];
        }
      }
      trace := trace + [Sent(c, accepted)];
    }

    method ApplyReports(reports: seq<Report>)
      requires Valid() && connection.Some?
      modifies this`connected, this`reconnectTimer, this`clients, this`undelivered, this`attempts, this`trace
      ensures Valid() && Abs() == Spec.ApplyReports(old(Abs()), reports)
      decreases |attempts|, 4, |reports|
    {
      if reports != [] {
        ApplyReport(reports[0]);
        ApplyReports(reports[1..]);
      }
    }

    method ApplyReport(report: Report)
      requires Valid() && connection.Some?
      modifies this`connected, this`reconnectTimer, this`clients, this`undelivered, this`attempts, this`trace
      ensures Valid() && Abs() == Spec.ApplyReport(old(Abs()), report)
      decreases |attempts|, 4, 0
    {
      var c := connection.value;
      if MayBecome(clients[c], report.state) {
        clients := clients[c := report.state];
        if report.sync {
          OnListenState(c);
        } else {
          undelivered := undelivered + multiset{c};
        }
      }
    }
  }
}
