/**
  The whole trace of the WEX agent, told without its methods: which intent met what, in order of arrival,
  and which answer decided it.
*/
module WexHistory {
  import opened Basics
  import opened WexSpec

  /** What the k-th executed request meets. */
  function MeetsAt(script: seq<Meets>, k: nat): Meets {
    if k < |script| then script[k] else Later
  }

  /** How many of the first k requests wait for a message. */
  function WaitsBefore(script: seq<Meets>, k: nat): nat {
    if k == 0 then 0 else WaitsBefore(script, k - 1) + (if MeetsAt(script, k - 1) == Later then 1 else 0)
  }

  /** The messages of a run that answer a search, in order: whether each was a good answer. */
  function Answers(s: State, es: seq<Event>): seq<bool>
    decreases |es|
  {
    if es == [] then [] else AnswerIn(s, es[0]) + Answers(Step(s, es[0]), es[1..])
  }

  function AnswerIn(s: State, e: Event): seq<bool> {
    if e.EMessage? && s.active.Some? && s.inFlight > 0 then [e.ok] else []
  }

  function Verdict(i: Intent, ok: bool): Mark {
    if ok then Completed(i) else Error(i)
  }

  /**
    The marks of the k-th intent. Without the service: ERROR. With it: PROCESSING, and then COMPLETED or
    ERROR as its own answer says, which is the one given at once or the next message nobody else used.
  */
  function MarksOf(arrived: seq<Intent>, script: seq<Meets>, answers: seq<bool>, k: nat): seq<Mark>
    requires k < |arrived|
  {
    var i, j := arrived[k], WaitsBefore(script, k);
    match MeetsAt(script, k)
    case Missing => [Error(i)]
    case Now(ok) => [Processing(i), Verdict(i, ok)]
    case Later => if j < |answers| then [Processing(i), Verdict(i, answers[j])] else [Processing(i)]
  }

  /** The marks of the first n intents. */
  function Marks(arrived: seq<Intent>, script: seq<Meets>, answers: seq<bool>, n: nat): seq<Mark>
    requires n <= |arrived|
  {
    if n == 0 then [] else Marks(arrived, script, answers, n - 1) + MarksOf(arrived, script, answers, n - 1)
  }

  lemma {:induction false} MarksArrive(arrived: seq<Intent>, i: Intent, script: seq<Meets>, answers: seq<bool>, n: nat)
    requires n <= |arrived|
    ensures Marks(arrived + [i], script, answers, n) == Marks(arrived, script, answers, n)
  {
    if n > 0 {
      MarksArrive(arrived, i, script, answers, n - 1);
    }
  }

  /** One more answer only matters to the search that waits for it. */
  lemma {:induction false} MarksAnswer(arrived: seq<Intent>, script: seq<Meets>, answers: seq<bool>, ok: bool, n: nat)
    requires n <= |arrived| && WaitsBefore(script, n) <= |answers|
    ensures Marks(arrived, script, answers + [ok], n) == Marks(arrived, script, answers, n)
  {
    if n > 0 {
      MarksAnswer(arrived, script, answers, ok, n - 1);
    }
  }

  /** What is left of a sequence after n elements. */
  function Drop<A>(all: seq<A>, n: nat): seq<A> {
    if n <= |all| then all[n..] else []
  }

  lemma NextLeft(script: seq<Meets>, n: nat)
    ensures Next(Drop(script, n)) == MeetsAt(script, n) && Rest(Drop(script, n)) == Drop(script, n + 1)
  {
  }

  /** The queue is what arrived behind the first n. */
  ghost predicate Queued(queue: seq<Intent>, arrived: seq<Intent>, n: nat) {
    n + |queue| == |arrived| && queue == Drop(arrived, n)
  }

  /** The state between two steps, after n requests were executed. */
  ghost predicate Told(s: State, arrived: seq<Intent>, script: seq<Meets>, answers: seq<bool>, n: nat) {
    && Queued(s.queue, arrived, n) && s.script == Drop(script, n)
    && (s.active.None? ==> s.queue == [])
    && s.trace == Marks(arrived, script, answers, n)
    && s.inFlight <= 1 && WaitsBefore(script, n) == |answers| + s.inFlight
    && (s.inFlight == 1 ==> n > 0 && s.active == Some(arrived[n-1]) && MeetsAt(script, n - 1) == Later)
  }

  /** For some number of executed requests, which the queue determines. */
  ghost predicate History(s: State, arrived: seq<Intent>, script: seq<Meets>, answers: seq<bool>) {
    |s.queue| <= |arrived| && Told(s, arrived, script, answers, |arrived| - |s.queue|)
  }

  /** Request n is about to be executed. */
  ghost predicate Ready(s: State, i: Intent, arrived: seq<Intent>, script: seq<Meets>, answers: seq<bool>, n: nat) {
    && n < |arrived| && arrived[n] == i && Queued(s.queue, arrived, n + 1) && s.script == Drop(script, n)
    && (s.active.None? ==> s.queue == [])
    && s.trace == Marks(arrived, script, answers, n)
    && s.inFlight == 0 && WaitsBefore(script, n) == |answers|
  }

  /** Request n - 1 is being searched, and with this answer its marks are complete. */
  ghost predicate Answering(s: State, ok: bool, arrived: seq<Intent>, script: seq<Meets>, answers: seq<bool>, n: nat) {
    && 0 < n && Queued(s.queue, arrived, n) && s.script == Drop(script, n)
    && s.active == Some(arrived[n-1]) && s.inFlight == 1
    && s.trace + [Verdict(arrived[n-1], ok)] == Marks(arrived, script, answers, n)
    && WaitsBefore(script, n) == |answers|
  }

  lemma {:induction false} MissingTold(
      s: State, i: Intent, arrived: seq<Intent>, script: seq<Meets>, answers: seq<bool>, n: nat)
    requires Ready(s, i, arrived, script, answers, n) && MeetsAt(script, n) == Missing
    ensures Told(Log(s, Error(i)).(script := Rest(s.script)), arrived, script, answers, n + 1)
  {
    NextLeft(script, n);
  }

  lemma {:induction false} LaterTold(
      s: State, i: Intent, arrived: seq<Intent>, script: seq<Meets>, answers: seq<bool>, n: nat)
    requires Ready(s, i, arrived, script, answers, n) && MeetsAt(script, n) == Later
    ensures Told(Begin(s, i), arrived, script, answers, n + 1)
  {
    NextLeft(script, n);
  }

  lemma {:induction false} NowAnswering(
      s: State, i: Intent, ok: bool, arrived: seq<Intent>, script: seq<Meets>, answers: seq<bool>, n: nat)
    requires Ready(s, i, arrived, script, answers, n) && MeetsAt(script, n) == Now(ok)
    ensures Answering(Begin(s, i), ok, arrived, script, answers, n + 1)
  {
    NextLeft(script, n);
    assert Begin(s, i).trace + [Verdict(i, ok)] == s.trace + [Processing(i), Verdict(i, ok)];
  }

  lemma {:induction false} ExecuteTold(
      s: State, i: Intent, arrived: seq<Intent>, script: seq<Meets>, answers: seq<bool>, n: nat)
    requires Ready(s, i, arrived, script, answers, n)
    ensures History(ExecuteRequest(s, i), arrived, script, answers)
    decreases |s.queue|, 1
  {
    NextLeft(script, n);
    match Next(s.script)
    case Missing => MissingTold(s, i, arrived, script, answers, n);
    case Later => LaterTold(s, i, arrived, script, answers, n);
    case Now(ok) =>
      NowAnswering(s, i, ok, arrived, script, answers, n);
      MessageTold(Begin(s, i), ok, arrived, script, answers, n + 1);
  }

  /** The state in which an answered agent takes the next intent from its queue. */
  function TakeNext(s: State, ok: bool): State
    requires s.active.Some? && s.inFlight > 0 && s.queue != []
  {
    Log(s, Verdict(s.active.value, ok)).(inFlight := s.inFlight - 1, queue := s.queue[1..])
  }

  lemma {:induction false} NextReady(
      s: State, ok: bool, arrived: seq<Intent>, script: seq<Meets>, answers: seq<bool>, n: nat)
    requires Answering(s, ok, arrived, script, answers, n) && s.queue != []
    ensures n < |arrived| && Ready(TakeNext(s, ok), s.queue[0], arrived, script, answers, n)
  {
    assert s.queue[0] == arrived[n] && s.queue[1..] == Drop(arrived, n + 1);
  }

  lemma {:induction false} MessageTold(
      s: State, ok: bool, arrived: seq<Intent>, script: seq<Meets>, answers: seq<bool>, n: nat)
    requires Answering(s, ok, arrived, script, answers, n)
    ensures History(OnMessage(s, ok), arrived, script, answers)
    decreases |s.queue|, 0
  {
    if s.queue != [] {
      NextReady(s, ok, arrived, script, answers, n);
      assert OnMessage(s, ok) == ExecuteRequest(TakeNext(s, ok), s.queue[0]);
      ExecuteTold(TakeNext(s, ok), s.queue[0], arrived, script, answers, n);
    }
  }

  lemma {:induction false} IdleReady(
      s: State, i: Intent, arrived: seq<Intent>, script: seq<Meets>, answers: seq<bool>)
    requires History(s, arrived, script, answers) && s.active.None?
    ensures Ready(s, i, arrived + [i], script, answers, |arrived|)
  {
    MarksArrive(arrived, i, script, answers, |arrived|);
  }

  lemma {:induction false} BusyTold(
      s: State, i: Intent, arrived: seq<Intent>, script: seq<Meets>, answers: seq<bool>, n: nat)
    requires Told(s, arrived, script, answers, n) && s.active.Some?
    ensures Told(s.(queue := s.queue + [i]), arrived + [i], script, answers, n)
  {
    MarksArrive(arrived, i, script, answers, n);
    QueueGrows(s.queue, arrived, n, i);
    assert n > 0 ==> (arrived + [i])[n-1] == arrived[n-1];
  }

  lemma QueueGrows(queue: seq<Intent>, arrived: seq<Intent>, n: nat, i: Intent)
    requires Queued(queue, arrived, n)
    ensures Queued(queue + [i], arrived + [i], n)
  {
  }

  lemma {:induction false} IntentTold(
      s: State, i: Intent, arrived: seq<Intent>, script: seq<Meets>, answers: seq<bool>)
    requires History(s, arrived, script, answers)
    ensures History(OnWexIntent(s, i), arrived + [i], script, answers)
  {
    if s.active.None? {
      IdleReady(s, i, arrived, script, answers);
      ExecuteTold(s, i, arrived + [i], script, answers, |arrived|);
    } else {
      BusyTold(s, i, arrived, script, answers, |arrived| - |s.queue|);
      assert |arrived + [i]| - |s.queue + [i]| == |arrived| - |s.queue|;
    }
  }

  lemma {:induction false} AnswerTold(
      s: State, ok: bool, arrived: seq<Intent>, script: seq<Meets>, answers: seq<bool>)
    requires History(s, arrived, script, answers) && s.inFlight == 1
    ensures History(OnMessage(s, ok), arrived, script, answers + [ok])
  {
    var n := |arrived| - |s.queue|;
    MarksAnswer(arrived, script, answers, ok, n - 1);
    assert MarksOf(arrived, script, answers, n - 1) == [Processing(arrived[n-1])];
    MessageTold(s, ok, arrived, script, answers + [ok], n);
  }

  lemma {:induction false} StepTold(
      s: State, e: Event, arrived: seq<Intent>, script: seq<Meets>, answers: seq<bool>)
    requires History(s, arrived, script, answers)
    ensures History(Step(s, e), arrived + ArrivalIn(e), script, answers + AnswerIn(s, e))
  {
    assert arrived + [] == arrived && answers + [] == answers;
    match e
    case EIntent(i) => IntentTold(s, i, arrived, script, answers);
    case EMessage(ok) =>
      if s.active.Some? && s.inFlight > 0 {
        AnswerTold(s, ok, arrived, script, answers);
      }
  }

  function ArrivalIn(e: Event): seq<Intent> {
    if e.EIntent? then [e.intent] else []
  }

  predicate StepHolds(
      p: (State, seq<Intent>, seq<bool>) -> bool, s: State, e: Event, arrived: seq<Intent>, answers: seq<bool>) {
    p(s, arrived, answers) ==> p(Step(s, e), arrived + ArrivalIn(e), answers + AnswerIn(s, e))
  }

  lemma Assoc<A>(a: seq<A>, b: seq<A>, c: seq<A>)
    ensures a + b + c == a + (b + c)
  {
  }

  /** What every step keeps holds after any run. */
  lemma {:induction false} RunKeeps(
      p: (State, seq<Intent>, seq<bool>) -> bool, s: State, es: seq<Event>, arrived: seq<Intent>, answers: seq<bool>)
    requires p(s, arrived, answers)
    requires forall t, e, a, b :: StepHolds(p, t, e, a, b)
    ensures p(Run(s, es), arrived + Arrivals(es), answers + Answers(s, es))
    decreases |es|
  {
    if es == [] {
      assert arrived + [] == arrived && answers + [] == answers;
    } else {
      var e, s' := es[0], Step(s, es[0]);
      assert StepHolds(p, s, e, arrived, answers);
      RunKeeps(p, s', es[1..], arrived + ArrivalIn(e), answers + AnswerIn(s, e));
      Assoc(arrived, ArrivalIn(e), Arrivals(es[1..]));
      Assoc(answers, AnswerIn(s, e), Answers(s', es[1..]));
    }
  }

  lemma {:induction false} RunTold(script: seq<Meets>, es: seq<Event>)
    ensures History(Run(Init(script), es), Arrivals(es), script, Answers(Init(script), es))
  {
    var p := (s, arrived, answers) => History(s, arrived, script, answers);
    forall s, e, a, b
      ensures StepHolds(p, s, e, a, b)
    {
      if p(s, a, b) {
        StepTold(s, e, a, script, b);
      }
    }
    RunKeeps(p, Init(script), es, [], []);
    assert [] + Arrivals(es) == Arrivals(es);
    assert [] + Answers(Init(script), es) == Answers(Init(script), es);
  }

  /**
    In every run the trace is: for each intent but the queued ones, in order of arrival, its own marks, of
    which the last is decided by its own answer.
  */
  lemma {:induction false} AnswersDecide(script: seq<Meets>, es: seq<Event>)
    ensures
      var r := Run(Init(script), es);
      && |r.queue| <= |Arrivals(es)|
      && r.trace == Marks(Arrivals(es), script, Answers(Init(script), es), |Arrivals(es)| - |r.queue|)
  {
    RunTold(script, es);
  }
}
