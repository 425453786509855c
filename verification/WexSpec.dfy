/**
  The WEX agent (watson/agent/WEXAgent.cpp): it serves intents one at a time and queues the others. A
  Search may answer before it returns, so OnMessage and ExecuteRequest call each other. What the next
  calls of ExecuteRequest meet is a finite script; after it, every Search answers later.
*/
module WexSpec {
  import opened Basics

  type Intent = nat

  /** No service; or a Search answered by a later message; or one answered at once. */
  datatype Meets = Missing | Later | Now(ok: bool)

  /** The states given to the intents, in order. */
  datatype Mark = Processing(intent: Intent) | Completed(intent: Intent) | Error(intent: Intent)

  datatype State = State(
    active: Option<Intent>,
    queue: seq<Intent>,
    inFlight: nat,              // searches without an answer
    script: seq<Meets>,
    trace: seq<Mark>)

  function Init(script: seq<Meets>): State {
    State(None, [], 0, script, [])
  }

  function Next(script: seq<Meets>): Meets {
    if script == [] then Later else script[0]
  }

  function Rest(script: seq<Meets>): seq<Meets> {
    if script == [] then [] else script[1..]
  }

  function Log(s: State, m: Mark): State {
    s.(trace := s.trace + [m])
  }

  /** The active intent is processed and its search is on its way. */
  function Begin(s: State, i: Intent): State {
    Log(s, Processing(i)).(active := Some(i), inFlight := s.inFlight + 1, script := Rest(s.script))
  }

  function OnWexIntent(s: State, i: Intent): State {
    if s.active.None? then ExecuteRequest(s, i) else s.(queue := s.queue + [i])
  }

  function ExecuteRequest(s: State, i: Intent): State
    decreases |s.queue|, 1
  {
    match Next(s.script)
    case Missing => Log(s, Error(i)).(script := Rest(s.script))
    case Later => Begin(s, i)
    case Now(ok) => OnMessage(Begin(s, i), ok)
  }

  function OnMessage(s: State, ok: bool): State
    requires s.active.Some? && s.inFlight > 0
    decreases |s.queue|, 0
  {
    var i := s.active.value;
    var r := Log(s, if ok then Completed(i) else Error(i)).(inFlight := s.inFlight - 1);
    if s.queue != [] then ExecuteRequest(r.(queue := s.queue[1..]), s.queue[0])
    else r.(active := None)
  }

  // ---------------------------------------------------------------- whole runs

  datatype Event = EIntent(intent: Intent) | EMessage(ok: bool)

  function Step(s: State, e: Event): State {
    match e
    case EIntent(i) => OnWexIntent(s, i)
    case EMessage(ok) => if s.active.Some? && s.inFlight > 0 then OnMessage(s, ok) else s
  }

  function Run(s: State, es: seq<Event>): State
    decreases |es|
  {
    if es == [] then s else Run(Step(s, es[0]), es[1..])
  }

  function Arrivals(es: seq<Event>): seq<Intent> {
    if es == [] then [] else (if es[0].EIntent? then [es[0].intent] else []) + Arrivals(es[1..])
  }

  // ---------------------------------------------------------------- first in, first out

  /**
    A reader of the trace. Each intent is either processed and then, before any other mark, completed or
    failed; or failed at once. served lists the intents that are done with, in order.
  */
  datatype Ledger = Broken | Idle(served: seq<Intent>) | Busy(served: seq<Intent>, intent: Intent)

  function Read(l: Ledger, m: Mark): Ledger {
    match l
    case Broken => Broken
    case Idle(served) =>
      if m.Processing? then Busy(served, m.intent)
      else if m.Error? then Idle(served + [m.intent])
      else Broken
    case Busy(served, i) => if !m.Processing? && m.intent == i then Idle(served + [i]) else Broken
  }

  function LedgerOf(t: seq<Mark>): Ledger {
    Fold(Read, Idle([]), t)
  }

  lemma LedgerLog(s: State, m: Mark)
    ensures LedgerOf(Log(s, m).trace) == Read(LedgerOf(s.trace), m)
  {
    FoldSnoc(Read, Idle([]), s.trace, m);
  }

  /** An answered intent is still active and no search is on its way: nothing will start the queue. */
  predicate Stalled(s: State) {
    s.active.Some? && s.inFlight == 0
  }

  /** served intents, then the one being searched, then the queue: that is the order of arrival. */
  ghost predicate Fifo(s: State, arrived: seq<Intent>) {
    && s.inFlight <= 1
    && (s.inFlight == 1 ==> s.active.Some?)
    && (s.active.None? ==> s.queue == [])
    && match LedgerOf(s.trace)
       case Broken => false
       case Idle(served) => s.inFlight == 0 && arrived == served + s.queue
       case Busy(served, i) => s.inFlight == 1 && s.active == Some(i) && arrived == served + [i] + s.queue
  }

  lemma {:induction false} ExecuteFifo(s: State, i: Intent, arrived: seq<Intent>, served: seq<Intent>)
    requires LedgerOf(s.trace) == Idle(served) && s.inFlight == 0 && arrived == served + [i] + s.queue
    requires s.active.None? ==> s.queue == []
    ensures Fifo(ExecuteRequest(s, i), arrived)
    decreases |s.queue|, 1
  {
    match Next(s.script)
    case Missing => LedgerLog(s, Error(i));
    case Later => LedgerLog(s, Processing(i));
    case Now(ok) =>
      LedgerLog(s, Processing(i));
      MessageFifo(Begin(s, i), ok, arrived);
  }

  lemma {:induction false} MessageFifo(s: State, ok: bool, arrived: seq<Intent>)
    requires Fifo(s, arrived) && s.inFlight == 1
    ensures Fifo(OnMessage(s, ok), arrived)
    decreases |s.queue|, 0
  {
    var i := s.active.value;
    var m := if ok then Completed(i) else Error(i);
    LedgerLog(s, m);
    if s.queue != [] {
      var served := LedgerOf(s.trace).served + [i];
      assert [s.queue[0]] + s.queue[1..] == s.queue;
      ExecuteFifo(Log(s, m).(inFlight := 0, queue := s.queue[1..]), s.queue[0], arrived, served);
    }
  }

  lemma StepFifo(s: State, e: Event, arrived: seq<Intent>)
    requires Fifo(s, arrived)
    ensures Fifo(Step(s, e), arrived + Arrivals([e]))
  {
    assert [e][1..] == [] && arrived + [] == arrived;
    match e
    case EIntent(i) =>
      if s.active.None? {
        ExecuteFifo(s, i, arrived + [i], LedgerOf(s.trace).served);
      } else {
        assert arrived + [i] == arrived[..|arrived|-|s.queue|] + (s.queue + [i]);
      }
    case EMessage(ok) =>
      if s.inFlight > 0 {
        MessageFifo(s, ok, arrived);
      }
  }

  lemma ArrivalsSplit(es: seq<Event>)
    requires es != []
    ensures Arrivals(es) == Arrivals([es[0]]) + Arrivals(es[1..])
  {
    assert [es[0]][1..] == [];
  }

  lemma {:induction false} RunFifo(s: State, es: seq<Event>, arrived: seq<Intent>)
    requires Fifo(s, arrived)
    ensures Fifo(Run(s, es), arrived + Arrivals(es))
    decreases |es|
  {
    if es == [] {
      assert arrived + Arrivals(es) == arrived;
    } else {
      var arrived' := arrived + Arrivals([es[0]]);
      StepFifo(s, es[0], arrived);
      RunFifo(Step(s, es[0]), es[1..], arrived');
      ArrivalsSplit(es);
      assert arrived' + Arrivals(es[1..]) == arrived + Arrivals(es);
    }
  }

  /**
    In every run, with or without the service: intents are served in order of arrival, none twice and
    none forgotten; each passes PROCESSING to exactly one of COMPLETED and ERROR before the next one
    starts, or meets no service and fails; and an idle agent has an empty queue.
  */
  lemma ServesInOrder(script: seq<Meets>, es: seq<Event>)
    ensures Fifo(Run(Init(script), es), Arrivals(es))
  {
    RunFifo(Init(script), es, []);
    assert [] + Arrivals(es) == Arrivals(es);
  }

  // ---------------------------------------------------------------- stalling

  /** Request k finds no service, and all before it were answered at once. */
  predicate BreaksAt(script: seq<Meets>, k: nat) {
    k < |script| && script[k] == Missing && forall i :: 0 <= i < k ==> script[i].Now?
  }

  /** This happens to the request of some queued intent. */
  predicate ChainBreaks(queue: seq<Intent>, script: seq<Meets>) {
    exists k: nat :: k < |queue| && BreaksAt(script, k)
  }

  lemma BreaksShift(script: seq<Meets>, k: nat)
    requires Next(script).Now?
    ensures BreaksAt(script, k) <==> k > 0 && BreaksAt(Rest(script), k - 1)
  {
    if k > 0 && BreaksAt(Rest(script), k - 1) {
      forall i | 0 <= i < k
        ensures script[i].Now?
      {
        assert i > 0 ==> Rest(script)[i-1] == script[i];
      }
    }
  }

  lemma ChainStep(queue: seq<Intent>, script: seq<Meets>)
    requires queue != []
    ensures Next(script) == Missing ==> ChainBreaks(queue, script)
    ensures Next(script) == Later ==> !ChainBreaks(queue, script)
    ensures Next(script).Now? ==> (ChainBreaks(queue, script) <==> ChainBreaks(queue[1..], Rest(script)))
  {
    if Next(script) == Missing {
      assert BreaksAt(script, 0);
    } else if Next(script).Now? {
      if ChainBreaks(queue, script) {
        var k: nat :| k < |queue| && BreaksAt(script, k);
        BreaksShift(script, k);
      } else if ChainBreaks(queue[1..], Rest(script)) {
        var k: nat :| k < |queue[1..]| && BreaksAt(Rest(script), k);
        BreaksShift(script, k + 1);
      }
    }
  }

  /** The answer of a search stalls the agent exactly when the requests it starts meet no service. */
  lemma {:induction false} MessageStallsIff(s: State, ok: bool)
    requires s.active.Some? && s.inFlight == 1
    ensures Stalled(OnMessage(s, ok)) <==> ChainBreaks(s.queue, s.script)
    decreases |s.queue|
  {
    if s.queue != [] {
      ChainStep(s.queue, s.script);
      var i := s.active.value;
      var r := Log(s, if ok then Completed(i) else Error(i)).(inFlight := 0, queue := s.queue[1..]);
      if Next(s.script).Now? {
        assert ExecuteRequest(r, s.queue[0]) == OnMessage(Begin(r, s.queue[0]), Next(s.script).ok);
        MessageStallsIff(Begin(r, s.queue[0]), Next(s.script).ok);
      }
    }
  }

  /** A new intent never stalls the agent. */
  lemma IntentNeverStalls(s: State, i: Intent, arrived: seq<Intent>)
    requires Fifo(s, arrived) && !Stalled(s)
    ensures !Stalled(OnWexIntent(s, i))
  {
    if s.active.None? && Next(s.script).Now? {
      MessageStallsIff(Begin(s, i), Next(s.script).ok);
    }
  }

  /** The service disappears while an intent is queued. */
  lemma StallExample(i: Intent, j: Intent)
    ensures Stalled(Run(Init([Later, Missing]), [EIntent(i), EIntent(j), EMessage(true)]))
  {
    var es := [EIntent(i), EIntent(j), EMessage(true)];
    var s1 := Step(Init([Later, Missing]), es[0]);
    var s2 := Step(s1, es[1]);
    assert es[1..][1..] == [es[2]] && [es[2]][1..] == [];
    assert Run(Init([Later, Missing]), es) == Run(s1, es[1..]) == Run(s2, [es[2]]) == Step(s2, es[2]);
    MessageStallsIff(s2, true);
    assert BreaksAt(s2.script, 0);
  }

  /** A stalled agent serves nothing any more and queues every new intent. */
  lemma {:induction false} StallIsForever(s: State, es: seq<Event>)
    requires Stalled(s)
    ensures
      var r := Run(s, es);
      Stalled(r) && r.trace == s.trace && r.queue == s.queue + Arrivals(es)
    decreases |es|
  {
    if es != [] {
      StallIsForever(Step(s, es[0]), es[1..]);
    }
  }

  lemma {:induction false} ServicePresent(s: State, i: Intent)
    requires Missing !in s.script && s.inFlight == 0
    ensures Missing !in ExecuteRequest(s, i).script && !Stalled(ExecuteRequest(s, i))
    decreases |s.queue|, 1
  {
    if Next(s.script).Now? {
      MessagePresent(Begin(s, i), Next(s.script).ok);
    }
  }

  lemma {:induction false} MessagePresent(s: State, ok: bool)
    requires Missing !in s.script && s.active.Some? && s.inFlight == 1
    ensures Missing !in OnMessage(s, ok).script && !Stalled(OnMessage(s, ok))
    decreases |s.queue|, 0
  {
    if s.queue != [] {
      var i := s.active.value;
      ServicePresent(Log(s, if ok then Completed(i) else Error(i)).(inFlight := 0, queue := s.queue[1..]), s.queue[0]);
    }
  }

  /** While the service is always found, a search is on its way exactly when an intent is active. */
  lemma {:induction false} NeverStallsWithService(s: State, es: seq<Event>, arrived: seq<Intent>)
    requires Missing !in s.script && Fifo(s, arrived) && !Stalled(s)
    ensures Run(s, es).inFlight == (if Run(s, es).active.Some? then 1 else 0)
    decreases |es|
  {
    if es != [] {
      var s1 := Step(s, es[0]);
      if es[0].EIntent? && s.active.None? {
        ServicePresent(s, es[0].intent);
      } else if es[0].EMessage? && s.inFlight == 1 {
        MessagePresent(s, es[0].ok);
      }
      StepFifo(s, es[0], arrived);
      NeverStallsWithService(s1, es[1..], arrived + Arrivals([es[0]]));
    }
  }
}
