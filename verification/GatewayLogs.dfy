/**
  How the robot gateway batches log records for upload (rg/services/RobotGateway.cpp), as a transition
  system on values. Times are whole seconds since the epoch. A record logged while the upload request is
  being built re-enters Process() after the batch was copied and before it is cleared.
*/
module GatewayLogs {

  datatype Record = Record(level: int, time: int, subsystem: string, message: string)

  datatype Upload = Upload(start: int, end: int, logs: seq<Record>)

  datatype State = State(
    level: int,
    filter: seq<string>,
    pending: seq<Record>,
    oldest: int,
    newest: int,
    timer: bool,
    registered: bool,
    uploads: seq<Upload>)

  /** The constructor leaves the two times uninitialised. */
  function Init(level: int, filter: seq<string>, oldest: int, newest: int): State {
    State(level, filter, [], oldest, newest, false, false, [])
  }

  predicate Passes(s: State, r: Record) {
    r.level >= s.level && (s.filter == [] || r.subsystem in s.filter)
  }

  function Newer(newest: int, time: int): int {
    if time > newest || newest == 0 then time else newest
  }

  function Older(oldest: int, time: int): int {
    if time < oldest || oldest == 0 then time else oldest
  }

  function Process(s: State, r: Record): State {
    if !Passes(s, r) then s
    else
      s.(newest := Newer(s.newest, r.time), oldest := Older(s.oldest, r.time),
         pending := s.pending + [r], timer := true)
  }

  function ProcessAll(s: State, rs: seq<Record>): State {
    if rs == [] then s else Process(ProcessAll(s, rs[..|rs|-1]), rs[|rs|-1])
  }

  function OnPersistLogs(s: State, during: seq<Record>): State {
    var upload := Upload(s.oldest, s.newest, s.pending);
    var r := ProcessAll(s.(timer := false), during);
    r.(pending := [], oldest := 0, newest := 0, uploads := s.uploads + [upload])
  }

  // ---------------------------------------------------------------- whole runs

  datatype Event =
    | EStart
    | EStop
    | ESetLevel(level: int)
    | ELog(record: Record)
    | EUploadTimer(during: seq<Record>)

  function Step(s: State, e: Event): State {
    match e
    case EStart => s.(registered := true)
    case EStop => s.(registered := false, timer := false)
    case ESetLevel(level) => s.(level := level)
    case ELog(r) => if s.registered then Process(s, r) else s
    case EUploadTimer(during) => if s.timer then OnPersistLogs(s, during) else s
  }

  function Run(s: State, es: seq<Event>): State {
    if es == [] then s else Step(Run(s, es[..|es|-1]), es[|es|-1])
  }

  function Filter(s: State, rs: seq<Record>): seq<Record> {
    if rs == [] then []
    else Filter(s, rs[..|rs|-1]) + (if Passes(s, rs[|rs|-1]) then [rs[|rs|-1]] else [])
  }

  /** The records an event logs that pass level and filter. */
  function KeptNow(s: State, e: Event): seq<Record> {
    match e
    case ELog(r) => if s.registered then Filter(s, [r]) else []
    case EUploadTimer(during) => if s.timer then Filter(s, during) else []
    case _ => []
  }

  /** The records of a run that passed level and filter when they were logged, in order. */
  function Kept(s: State, es: seq<Event>): seq<Record> {
    if es == [] then [] else Kept(s, es[..|es|-1]) + KeptNow(Run(s, es[..|es|-1]), es[|es|-1])
  }

  /** How many of them were logged while an upload request was being built. */
  function Reentered(s: State, es: seq<Event>): nat {
    if es == [] then 0
    else
      var before, e := Run(s, es[..|es|-1]), es[|es|-1];
      Reentered(s, es[..|es|-1]) + (if e.EUploadTimer? then |KeptNow(before, e)| else 0)
  }

  function Uploaded(uploads: seq<Upload>): seq<Record> {
    if uploads == [] then [] else Uploaded(uploads[..|uploads|-1]) + uploads[|uploads|-1].logs
  }

  // ---------------------------------------------------------------- conservation

  lemma {:induction false} ProcessAllMeaning(s: State, rs: seq<Record>)
    ensures
      var r := ProcessAll(s, rs);
      && r.pending == s.pending + Filter(s, rs) && r.level == s.level && r.filter == s.filter
      && r.registered == s.registered && r.uploads == s.uploads
      && (r.timer <==> s.timer || Filter(s, rs) != [])
  {
    if rs != [] {
      ProcessAllMeaning(s, rs[..|rs|-1]);
    }
  }

  /** The records that are uploaded or still pending. */
  function Accounted(s: State): seq<Record> {
    Uploaded(s.uploads) + s.pending
  }

  lemma FilterOne(s: State, r: Record)
    ensures Filter(s, [r]) == if Passes(s, r) then [r] else []
  {
    assert [r][..0] == [];
  }

  lemma StepAccounts(s: State, e: Event)
    ensures Accounted(Step(s, e)) ==
      Accounted(s) + (if e.ELog? then KeptNow(s, e) else [])
  {
    match e
    case ELog(r) => FilterOne(s, r);
    case EUploadTimer(during) =>
      if s.timer {
        ProcessAllMeaning(s.(timer := false), during);
        var r := OnPersistLogs(s, during);
        assert r.uploads[..|s.uploads|] == s.uploads;
      }
    case _ =>
  }

  lemma {:induction false} CountAccounted(s: State, es: seq<Event>)
    requires s.pending == [] && s.uploads == []
    ensures |Accounted(Run(s, es))| + Reentered(s, es) == |Kept(s, es)|
    ensures Reentered(s, es) == 0 ==> Accounted(Run(s, es)) == Kept(s, es)
    decreases |es|
  {
    if es != [] {
      CountAccounted(s, es[..|es|-1]);
      StepAccounts(Run(s, es[..|es|-1]), es[|es|-1]);
    }
  }

  /**
    The uploaded batches followed by the pending list are exactly the records that passed level and
    filter, in order, if and only if none of them was logged while an upload request was being built.
  */
  lemma LogConservationIff(level: int, filter: seq<string>, oldest: int, newest: int, es: seq<Event>)
    ensures
      var s := Init(level, filter, oldest, newest);
      Accounted(Run(s, es)) == Kept(s, es) <==> Reentered(s, es) == 0
  {
    CountAccounted(Init(level, filter, oldest, newest), es);
  }

  lemma RunSnoc(s: State, es: seq<Event>, e: Event)
    ensures Run(s, es + [e]) == Step(Run(s, es), e)
    ensures Kept(s, es + [e]) == Kept(s, es) + KeptNow(Run(s, es), e)
  {
    assert (es + [e])[..|es|] == es;
  }

  /** The state with one pending record, after starting and logging it. */
  lemma OneRecord(r: Record, oldest: int)
    ensures
      var s := Init(r.level, [], oldest, 0);
      && Run(s, [EStart, ELog(r)]) == Process(s.(registered := true), r)
      && Kept(s, [EStart, ELog(r)]) == [r]
  {
    var s := Init(r.level, [], oldest, 0);
    RunSnoc(s, [], EStart);
    RunSnoc(s, [EStart], ELog(r));
    assert [] + [EStart] == [EStart] && [EStart] + [ELog(r)] == [EStart, ELog(r)];
    FilterOne(s.(registered := true), r);
  }

  /** A record logged while the request is built passes the filter and is neither uploaded nor pending. */
  lemma ReentrantRecordIsLost(r: Record)
    ensures
      var s := Init(r.level, [], 0, 0);
      var es := [EStart, ELog(r), EUploadTimer([r])];
      Kept(s, es) == [r, r] && Accounted(Run(s, es)) == [r]
  {
    var s := Init(r.level, [], 0, 0);
    OneRecord(r, 0);
    var s2 := Run(s, [EStart, ELog(r)]);
    RunSnoc(s, [EStart, ELog(r)], EUploadTimer([r]));
    assert [EStart, ELog(r)] + [EUploadTimer([r])] == [EStart, ELog(r), EUploadTimer([r])];
    FilterOne(s2, r);
    StepAccounts(s2, EUploadTimer([r]));
  }

  // ---------------------------------------------------------------- which records are kept

  /** The level in force after a run. */
  function LevelAfter(level: int, es: seq<Event>): int {
    if es == [] then level
    else match es[|es|-1]
      case ESetLevel(l) => l
      case _ => LevelAfter(level, es[..|es|-1])
  }

  /** Started, and not stopped since. */
  function Listening(es: seq<Event>): bool {
    if es == [] then false
    else match es[|es|-1]
      case EStart => true
      case EStop => false
      case _ => Listening(es[..|es|-1])
  }

  /** At least of this level, and of one of the subsystems, if any are named. */
  predicate Wanted(level: int, filter: seq<string>, r: Record) {
    level <= r.level && (|filter| == 0 || exists i :: 0 <= i < |filter| && filter[i] == r.subsystem)
  }

  function Select(level: int, filter: seq<string>, rs: seq<Record>): seq<Record> {
    if rs == [] then []
    else
      var r := rs[|rs|-1];
      Select(level, filter, rs[..|rs|-1]) + (if Wanted(level, filter, r) then [r] else [])
  }

  /** The wanted records of a run in order: logged while listening, or while an upload is built. */
  function WantedOf(s: State, es: seq<Event>): seq<Record> {
    if es == [] then []
    else
      var before := es[..|es|-1];
      WantedOf(s, before) +
      match es[|es|-1]
      case ELog(r) => if Listening(before) then Select(LevelAfter(s.level, before), s.filter, [r]) else []
      case EUploadTimer(during) =>
        if Run(s, before).timer then Select(LevelAfter(s.level, before), s.filter, during) else []
      case _ => []
  }

  lemma {:induction false} FilterIsSelect(s: State, rs: seq<Record>)
    ensures Filter(s, rs) == Select(s.level, s.filter, rs)
  {
    if rs != [] {
      FilterIsSelect(s, rs[..|rs|-1]);
      var r := rs[|rs|-1];
      if r.subsystem in s.filter {
        var i :| 0 <= i < |s.filter| && s.filter[i] == r.subsystem;
        assert Passes(s, r) <==> Wanted(s.level, s.filter, r);
      }
    }
  }

  lemma {:induction false} StepSettings(s: State, e: Event)
    ensures
      var r := Step(s, e);
      && r.filter == s.filter
      && r.level == (if e.ESetLevel? then e.level else s.level)
      && r.registered == (if e.EStart? then true else if e.EStop? then false else s.registered)
  {
    if e.EUploadTimer? {
      ProcessAllMeaning(s.(timer := false), e.during);
    }
  }

  lemma {:induction false} Settings(s: State, es: seq<Event>)
    requires !s.registered
    ensures
      var r := Run(s, es);
      r.filter == s.filter && r.level == LevelAfter(s.level, es) && r.registered == Listening(es)
    decreases |es|
  {
    if es != [] {
      Settings(s, es[..|es|-1]);
      StepSettings(Run(s, es[..|es|-1]), es[|es|-1]);
    }
  }

  lemma {:induction false} KeptIsWanted(s: State, es: seq<Event>)
    requires !s.registered
    ensures Kept(s, es) == WantedOf(s, es)
    decreases |es|
  {
    if es != [] {
      var before := Run(s, es[..|es|-1]);
      KeptIsWanted(s, es[..|es|-1]);
      Settings(s, es[..|es|-1]);
      match es[|es|-1]
      case ELog(r) => FilterIsSelect(before, [r]);
      case EUploadTimer(during) => FilterIsSelect(before, during);
      case _ =>
    }
  }

  /** The records a run keeps are the wanted ones, by the level last set and the subsystems configured. */
  lemma KeptMeaning(level: int, filter: seq<string>, oldest: int, newest: int, es: seq<Event>)
    ensures Kept(Init(level, filter, oldest, newest), es) == WantedOf(Init(level, filter, oldest, newest), es)
  {
    KeptIsWanted(Init(level, filter, oldest, newest), es);
  }

  // ---------------------------------------------------------------- the upload timer

  /** Records were kept while the last upload was being built. */
  function LastUploadReentered(s: State, es: seq<Event>): bool {
    if es == [] then false
    else
      var before, e := Run(s, es[..|es|-1]), es[|es|-1];
      if e.EUploadTimer? && before.timer then KeptNow(before, e) != []
      else LastUploadReentered(s, es[..|es|-1])
  }

  lemma {:induction false} FilterSame(s: State, t: State, rs: seq<Record>)
    requires s.level == t.level && s.filter == t.filter
    ensures Filter(s, rs) == Filter(t, rs)
  {
    if rs != [] {
      FilterSame(s, t, rs[..|rs|-1]);
    }
  }

  lemma StepTimer(s: State, e: Event)
    ensures
      var r := Step(s, e);
      match e
      case EStop => !r.timer && r.pending == s.pending
      case ELog(_) => if KeptNow(s, e) == [] then r.timer == s.timer && r.pending == s.pending
                      else r.timer && r.pending != []
      case EUploadTimer(_) => if s.timer then r.pending == [] && (r.timer <==> KeptNow(s, e) != []) else r == s
      case _ => r.timer == s.timer && r.pending == s.pending
  {
    match e
    case ELog(r) => FilterOne(s, r);
    case EUploadTimer(during) =>
      ProcessAllMeaning(s.(timer := false), during);
      FilterSame(s, s.(timer := false), during);
    case _ =>
  }

  lemma {:induction false} RunTimer(s: State, es: seq<Event>)
    requires !s.timer && s.pending == []
    ensures Run(s, es).timer ==> Run(s, es).pending != [] || LastUploadReentered(s, es)
    ensures EStop !in es ==> (Run(s, es).timer <==> Run(s, es).pending != [] || LastUploadReentered(s, es))
    decreases |es|
  {
    if es != [] {
      RunTimer(s, es[..|es|-1]);
      StepTimer(Run(s, es[..|es|-1]), es[|es|-1]);
    }
  }

  /**
    Until Stop() pending records always have a running timer. The timer runs exactly when records are
    pending, unless the last upload lost records and none came since; then the next batch will be empty.
    A timer that runs after Stop() has one of the same two reasons.
  */
  lemma TimerIffPending(level: int, filter: seq<string>, oldest: int, newest: int, es: seq<Event>)
    ensures
      var s := Init(level, filter, oldest, newest);
      var r := Run(s, es);
      && (r.timer ==> r.pending != [] || LastUploadReentered(s, es))
      && (EStop !in es ==> (r.pending != [] ==> r.timer))
      && (EStop !in es ==>
            ((r.timer <==> r.pending != []) <==> r.pending != [] || !LastUploadReentered(s, es)))
  {
    RunTimer(Init(level, filter, oldest, newest), es);
  }

  /** No upload lost records in a run in which none was kept during an upload. */
  lemma {:induction false} NoneReentered(s: State, es: seq<Event>)
    requires Reentered(s, es) == 0
    ensures !LastUploadReentered(s, es)
    decreases |es|
  {
    if es != [] {
      NoneReentered(s, es[..|es|-1]);
    }
  }

  /** What Stop() finds pending is not uploaded until another record passes. */
  lemma {:induction false} StopStrandsPending(s: State, es: seq<Event>)
    requires Kept(Step(s, EStop), es) == []
    ensures
      var r := Run(Step(s, EStop), es);
      r.pending == s.pending && r.uploads == s.uploads && !r.timer
    decreases |es|
  {
    if es != [] {
      StopStrandsPending(s, es[..|es|-1]);
      if es[|es|-1].ELog? {
        FilterOne(Run(Step(s, EStop), es[..|es|-1]), es[|es|-1].record);
      }
    }
  }

  // ---------------------------------------------------------------- the times of a batch

  function MinTime(rs: seq<Record>): int
    requires rs != []
  {
    if |rs| == 1 then rs[0].time
    else
      var m := MinTime(rs[..|rs|-1]);
      if rs[|rs|-1].time < m then rs[|rs|-1].time else m
  }

  function MaxTime(rs: seq<Record>): int
    requires rs != []
  {
    if |rs| == 1 then rs[0].time
    else
      var m := MaxTime(rs[..|rs|-1]);
      if rs[|rs|-1].time > m then rs[|rs|-1].time else m
  }

  /** They are the bounds of the times, and times of records. */
  lemma {:induction false} MinMaxMeaning(rs: seq<Record>)
    requires rs != []
    ensures forall r :: r in rs ==> MinTime(rs) <= r.time <= MaxTime(rs)
    ensures (exists r :: r in rs && r.time == MinTime(rs)) && (exists r :: r in rs && r.time == MaxTime(rs))
  {
    var last := rs[|rs|-1];
    if |rs| == 1 {
      assert last in rs;
    } else {
      var front := rs[..|rs|-1];
      MinMaxMeaning(front);
      assert rs == front + [last];
      var a :| a in front && a.time == MinTime(front);
      var b :| b in front && b.time == MaxTime(front);
      assert a in rs && b in rs && last in rs;
    }
  }

  function OldestFrom(oldest: int, rs: seq<Record>): int {
    if rs == [] then oldest else Older(OldestFrom(oldest, rs[..|rs|-1]), rs[|rs|-1].time)
  }

  function NewestFrom(newest: int, rs: seq<Record>): int {
    if rs == [] then newest else Newer(NewestFrom(newest, rs[..|rs|-1]), rs[|rs|-1].time)
  }

  /**
    A start value other than 0 takes part like a record. So does any time but 0: that one is kept as the
    least or greatest time only until the next record comes.
  */
  lemma {:induction false} FoldMeaning(oldest: int, newest: int, rs: seq<Record>)
    requires rs != []
    ensures
      var m, r := MinTime(rs), OldestFrom(oldest, rs);
      if oldest != 0 && oldest < m then r == oldest
      else if m != 0 then r == m
      else r >= 0 && (r == 0 <==> rs[|rs|-1].time == 0)
    ensures
      var m, r := MaxTime(rs), NewestFrom(newest, rs);
      if newest != 0 && newest > m then r == newest
      else if m != 0 then r == m
      else r <= 0 && (r == 0 <==> rs[|rs|-1].time == 0)
  {
    if |rs| == 1 {
      assert rs[..0] == [];
    } else {
      FoldMeaning(oldest, newest, rs[..|rs|-1]);
    }
  }

  /** Batch i was timed from these start values: whatever memory held for the first one, 0 afterwards. */
  ghost predicate Timed(s: State, oldest: int, newest: int) {
    && (forall i :: 0 <= i < |s.uploads| ==>
          && s.uploads[i].start == OldestFrom(if i == 0 then oldest else 0, s.uploads[i].logs)
          && s.uploads[i].end == NewestFrom(if i == 0 then newest else 0, s.uploads[i].logs))
    && s.oldest == OldestFrom(if s.uploads == [] then oldest else 0, s.pending)
    && s.newest == NewestFrom(if s.uploads == [] then newest else 0, s.pending)
  }

  lemma {:induction false} RunTimed(s: State, es: seq<Event>)
    requires s.pending == [] && s.uploads == []
    ensures Timed(Run(s, es), s.oldest, s.newest)
    decreases |es|
  {
    if es != [] {
      RunTimed(s, es[..|es|-1]);
      var before := Run(s, es[..|es|-1]);
      match es[|es|-1]
      case ELog(r) => assert (before.pending + [r])[..|before.pending|] == before.pending;
      case _ =>
    }
  }

  ghost predicate TrueTimes(u: Upload) {
    u.logs != [] ==> u.start == MinTime(u.logs) && u.end == MaxTime(u.logs)
  }

  /** A bound is not 0, the mark of an unset time, or the record that carries it is the last one. */
  predicate Recorded(bound: int, rs: seq<Record>)
    requires rs != []
  {
    bound != 0 || rs[|rs|-1].time == 0
  }

  /**
    The start and end of a non-empty batch are the least and the greatest time of its records, unless one
    of these is 0 and forgotten again; for the first batch exactly if what memory held was harmless, too.
  */
  lemma BatchTimesIff(level: int, filter: seq<string>, oldest: int, newest: int, es: seq<Event>, i: nat)
    requires i < |Run(Init(level, filter, oldest, newest), es).uploads|
    ensures
      var u := Run(Init(level, filter, oldest, newest), es).uploads[i];
      TrueTimes(u) <==>
        u.logs == [] ||
        (var min, max := MinTime(u.logs), MaxTime(u.logs);
         && Recorded(min, u.logs) && Recorded(max, u.logs)
         && (i > 0 || ((oldest == 0 || oldest >= min) && (newest == 0 || newest <= max))))
  {
    var s := Init(level, filter, oldest, newest);
    RunTimed(s, es);
    var u := Run(s, es).uploads[i];
    if u.logs != [] {
      FoldMeaning(if i == 0 then oldest else 0, if i == 0 then newest else 0, u.logs);
    }
  }

  /** With 7 in memory the first batch claims to start at 7. */
  lemma GarbageStartTime(r: Record)
    requires r.time > 7
    ensures
      var s := Run(Init(r.level, [], 7, 0), [EStart, ELog(r), EUploadTimer([])]);
      s.uploads == [Upload(7, r.time, [r])]
  {
    var s := Init(r.level, [], 7, 0);
    OneRecord(r, 7);
    RunSnoc(s, [EStart, ELog(r)], EUploadTimer([]));
    assert [EStart, ELog(r)] + [EUploadTimer([])] == [EStart, ELog(r), EUploadTimer([])];
    var s2 := Run(s, [EStart, ELog(r)]);
    assert s2.timer && s2.pending == [r] && s2.oldest == 7 && s2.newest == r.time;
  }
}
