/**
  The startup gate of the robot gateway (rg/services/RobotGateway.cpp): Start() sends one request and
  then waits for two flags, which a tree of asynchronous replies sets.
*/
module GatewayStartup {
  import opened Basics

  /** How many requests of each kind wait for their reply. */
  datatype Requests = Requests(register: nat, organization: nat, adminList: nat, services: nat, parent: nat)

  const NO_REQUESTS := Requests(0, 0, 0, 0, 0)

  /** The organization reply: none, one without a string "parent", or one with it. */
  datatype OrgReply = OrgFailed | OrgWithoutParent | OrgParent(id: string)

  datatype Event =
    | ERegistered(ok: bool)
    | EOrganization(reply: OrgReply)
    | EAdminList
    | EServices          // a service list or a failure
    | EParent            // the parent's address or a failure
    | EConfigTimer       // the services are requested again, every 300 seconds

  datatype State = State(
    applyParentHost: bool,
    configsFetched: bool,
    parentFetched: bool,
    configTimer: bool,
    outstanding: Requests)

  function Constructed(applyParentHost: bool): State {
    State(applyParentHost, false, false, false, NO_REQUESTS)
  }

  /** Start() sends the first request. */
  function Begin(s: State): State {
    s.(outstanding := s.outstanding.(register := s.outstanding.register + 1))
  }

  function Start(applyParentHost: bool): State {
    Begin(Constructed(applyParentHost))
  }

  predicate Open(s: State) {
    s.configsFetched && s.parentFetched
  }

  /** A reply needs its request; the timer must run. */
  predicate Enabled(s: State, e: Event) {
    match e
    case ERegistered(_) => s.outstanding.register > 0
    case EOrganization(_) => s.outstanding.organization > 0
    case EAdminList => s.outstanding.adminList > 0
    case EServices => s.outstanding.services > 0
    case EParent => s.outstanding.parent > 0
    case EConfigTimer => s.configTimer
  }

  /** The requests without the one that e answers. */
  function Answered(q: Requests, e: Event): Requests {
    match e
    case ERegistered(_) => if q.register > 0 then q.(register := q.register - 1) else q
    case EOrganization(_) => if q.organization > 0 then q.(organization := q.organization - 1) else q
    case EAdminList => if q.adminList > 0 then q.(adminList := q.adminList - 1) else q
    case EServices => if q.services > 0 then q.(services := q.services - 1) else q
    case EParent => if q.parent > 0 then q.(parent := q.parent - 1) else q
    case EConfigTimer => q
  }

  function OnRegisteredEmbodiment(s: State, ok: bool): State {
    if ok then
      var q := s.outstanding;
      UpdateConfig(s.(outstanding := q.(organization := q.organization + 1, adminList := q.adminList + 1)))
    else s.(configsFetched := true, parentFetched := true)
  }

  function UpdateConfig(s: State): State {
    s.(configTimer := true, outstanding := s.outstanding.(services := s.outstanding.services + 1))
  }

  function OnOrganization(s: State, reply: OrgReply): State {
    if reply.OrgParent? && s.applyParentHost then
      if reply.id != "" then s.(outstanding := s.outstanding.(parent := s.outstanding.parent + 1)) else s
    else s.(parentFetched := true)
  }

  function OnConfigured(s: State): State {
    s.(configsFetched := true)
  }

  function OnParent(s: State): State {
    s.(parentFetched := true)
  }

  function Step(s: State, e: Event): State {
    if !Enabled(s, e) then s
    else
      var r := s.(outstanding := Answered(s.outstanding, e));
      match e
      case ERegistered(ok) => OnRegisteredEmbodiment(r, ok)
      case EOrganization(reply) => OnOrganization(r, reply)
      case EAdminList => r
      case EServices => OnConfigured(r)
      case EParent => OnParent(r)
      case EConfigTimer => UpdateConfig(r)
  }

  /** The state after the first n events. */
  function RunTo(s: State, es: seq<Event>, n: nat): State
    requires n <= |es|
  {
    FoldTo(Step, s, es, n)
  }

  function Run(s: State, es: seq<Event>): State {
    RunTo(s, es, |es|)
  }

  /** now is the state after n events, none of which was served with the gate open already. */
  ghost predicate Served(s: State, es: seq<Event>, n: nat, now: State) {
    n <= |es| && now == RunTo(s, es, n) && (n > 0 ==> !Open(RunTo(s, es, n - 1)))
  }

  /** The step on which the parent is never asked for and its flag never set. */
  predicate EmptyParent(s: State, e: Event) {
    e == EOrganization(OrgParent("")) && s.applyParentHost && Enabled(s, e)
  }

  predicate SawEmptyParentTo(s: State, es: seq<Event>, n: nat)
    requires n <= |es|
  {
    n > 0 && (SawEmptyParentTo(s, es, n - 1) || EmptyParent(RunTo(s, es, n - 1), es[n-1]))
  }

  predicate SawEmptyParent(s: State, es: seq<Event>) {
    SawEmptyParentTo(s, es, |es|)
  }

  /** Some reply still to come is on a path that sets the flag. */
  predicate ConfigsComing(s: State) {
    s.outstanding.register > 0 || s.outstanding.services > 0
  }

  predicate ParentComing(s: State) {
    s.outstanding.register > 0 || s.outstanding.organization > 0 || s.outstanding.parent > 0
  }

  /** stuck: an empty parent id was received. */
  ghost predicate Inv(s: State, stuck: bool) {
    && (s.outstanding.register > 0 ==>
          && s.outstanding == NO_REQUESTS.(register := 1)
          && !s.configsFetched && !s.parentFetched && !s.configTimer && !stuck)
    && s.outstanding.organization + s.outstanding.parent <= 1
    && (ParentComing(s) ==> !s.parentFetched && !stuck)
    && (s.configsFetched || ConfigsComing(s))
    && (if stuck then !s.parentFetched else s.parentFetched || ParentComing(s))
  }

  /** How many replies the gate still waits for, at most. */
  function Waiting(s: State): nat {
    if s.outstanding.register > 0 then 4
    else
      (if s.configsFetched then 0 else 1) +
      (if s.parentFetched then 0 else if s.outstanding.organization > 0 then 2 else 1)
  }

  /** A reply on a path to a flag that is not set yet. */
  predicate Useful(s: State, e: Event) {
    Enabled(s, e) &&
    match e
    case ERegistered(_) => true
    case EOrganization(_) => true
    case EParent => true
    case EServices => !s.configsFetched
    case _ => false
  }

  function CountUsefulTo(s: State, es: seq<Event>, n: nat): nat
    requires n <= |es|
  {
    if n == 0 then 0
    else CountUsefulTo(s, es, n - 1) + (if Useful(RunTo(s, es, n - 1), es[n-1]) then 1 else 0)
  }

  function CountUseful(s: State, es: seq<Event>): nat {
    CountUsefulTo(s, es, |es|)
  }

  lemma StepInv(s: State, e: Event, stuck: bool)
    requires Inv(s, stuck)
    ensures Inv(Step(s, e), stuck || EmptyParent(s, e))
    ensures Waiting(Step(s, e)) + (if Useful(s, e) then 1 else 0) <= Waiting(s)
    ensures s.configsFetched ==> Step(s, e).configsFetched
    ensures s.parentFetched ==> Step(s, e).parentFetched
  {
  }

  lemma {:induction false} RunInv(s: State, es: seq<Event>, n: nat, stuck: bool)
    requires Inv(s, stuck) && n <= |es|
    ensures Inv(RunTo(s, es, n), stuck || SawEmptyParentTo(s, es, n))
    ensures Waiting(RunTo(s, es, n)) + CountUsefulTo(s, es, n) <= Waiting(s)
    ensures (s.configsFetched ==> RunTo(s, es, n).configsFetched) && (s.parentFetched ==> RunTo(s, es, n).parentFetched)
  {
    if n > 0 {
      RunInv(s, es, n - 1, stuck);
      StepInv(RunTo(s, es, n - 1), es[n-1], stuck || SawEmptyParentTo(s, es, n - 1));
    }
  }

  lemma StartInv(applyParentHost: bool)
    ensures Inv(Start(applyParentHost), false) && Waiting(Start(applyParentHost)) == 4
  {
  }

  /** A flag once set stays set. */
  lemma FlagsMonotone(applyParentHost: bool, es: seq<Event>, more: seq<Event>)
    ensures
      var s := Run(Start(applyParentHost), es);
      var r := Run(s, more);
      (s.configsFetched ==> r.configsFetched) && (s.parentFetched ==> r.parentFetched)
  {
    var s := Start(applyParentHost);
    StartInv(applyParentHost);
    RunInv(s, es, |es|, false);
    RunInv(Run(s, es), more, |more|, SawEmptyParent(s, es));
  }

  /**
    Unless an empty parent id is received, a flag that is not set has a reply coming on a path that sets
    it, at most four replies are waited for in all, and the fourth opens the gate.
  */
  lemma GateOpensWithinFourReplies(applyParentHost: bool, es: seq<Event>)
    requires !SawEmptyParent(Start(applyParentHost), es)
    ensures
      var s := Run(Start(applyParentHost), es);
      && (s.configsFetched || ConfigsComing(s)) && (s.parentFetched || ParentComing(s))
      && CountUseful(Start(applyParentHost), es) <= 4
      && (CountUseful(Start(applyParentHost), es) == 4 ==> Open(s))
  {
    StartInv(applyParentHost);
    RunInv(Start(applyParentHost), es, |es|, false);
  }

  /** When every reply on those paths has arrived, the gate is open exactly if no parent id was empty. */
  lemma GateOpensIff(applyParentHost: bool, es: seq<Event>)
    requires !ConfigsComing(Run(Start(applyParentHost), es)) && !ParentComing(Run(Start(applyParentHost), es))
    ensures Open(Run(Start(applyParentHost), es)) <==> !SawEmptyParent(Start(applyParentHost), es)
  {
    StartInv(applyParentHost);
    RunInv(Start(applyParentHost), es, |es|, false);
  }

  /** After an empty parent id no reply opens the gate any more. */
  lemma EmptyParentShutsForGood(applyParentHost: bool, es: seq<Event>, more: seq<Event>)
    requires SawEmptyParent(Start(applyParentHost), es)
    ensures !Open(Run(Run(Start(applyParentHost), es), more))
  {
    StartInv(applyParentHost);
    RunInv(Start(applyParentHost), es, |es|, false);
    RunInv(Run(Start(applyParentHost), es), more, |more|, true);
  }

  // ---------------------------------------------------------------- the books

  /** How many replies of each kind were served. */
  datatype Tally = Tally(
    registered: nat, refused: nat, organizations: nat, withParent: nat, settled: nat,
    adminLists: nat, services: nat, parents: nat, timers: nat)

  function Add(t: Tally, e: Event, applyParentHost: bool): Tally {
    match e
    case ERegistered(true) => t.(registered := t.registered + 1)
    case ERegistered(false) => t.(refused := t.refused + 1)
    case EOrganization(OrgParent(id)) =>
      var o := t.(organizations := t.organizations + 1);
      if !applyParentHost then o.(settled := o.settled + 1)
      else if |id| > 0 then o.(withParent := o.withParent + 1)
      else o
    case EOrganization(_) => t.(organizations := t.organizations + 1, settled := t.settled + 1)
    case EAdminList => t.(adminLists := t.adminLists + 1)
    case EServices => t.(services := t.services + 1)
    case EParent => t.(parents := t.parents + 1)
    case EConfigTimer => t.(timers := t.timers + 1)
  }

  function TallyTo(s: State, es: seq<Event>, n: nat): Tally
    requires n <= |es|
  {
    if n == 0 then Tally(0, 0, 0, 0, 0, 0, 0, 0, 0)
    else
      var t := TallyTo(s, es, n - 1);
      if Enabled(RunTo(s, es, n - 1), es[n-1]) then Add(t, es[n-1], s.applyParentHost) else t
  }

  /** Each request was caused once and is outstanding or answered; each flag has its reasons. */
  predicate Balanced(s: State, t: Tally) {
    RequestsBalance(s.outstanding, t) && FlagsBalance(s, t)
  }

  predicate RequestsBalance(q: Requests, t: Tally) {
    && q.register + t.registered + t.refused == 1
    && q.organization + t.organizations == t.registered
    && q.adminList + t.adminLists == t.registered
    && q.services + t.services == t.registered + t.timers
    && q.parent + t.parents == t.withParent
  }

  predicate FlagsBalance(s: State, t: Tally) {
    && (s.configsFetched <==> t.services > 0 || t.refused > 0)
    && (s.parentFetched <==> t.parents > 0 || t.settled > 0 || t.refused > 0)
    && (s.configTimer <==> t.registered > 0)
  }

  lemma {:induction false} RegisteredRequests(s: State, ok: bool, t: Tally)
    requires Enabled(s, ERegistered(ok)) && RequestsBalance(s.outstanding, t)
    ensures RequestsBalance(Step(s, ERegistered(ok)).outstanding, Add(t, ERegistered(ok), s.applyParentHost))
  {
  }

  lemma {:induction false} OrganizationRequests(s: State, reply: OrgReply, t: Tally)
    requires Enabled(s, EOrganization(reply)) && RequestsBalance(s.outstanding, t)
    ensures RequestsBalance(Step(s, EOrganization(reply)).outstanding, Add(t, EOrganization(reply), s.applyParentHost))
  {
  }

  lemma {:induction false} StepRequests(s: State, e: Event, t: Tally)
    requires Enabled(s, e) && RequestsBalance(s.outstanding, t)
    ensures RequestsBalance(Step(s, e).outstanding, Add(t, e, s.applyParentHost))
  {
    match e
    case ERegistered(ok) => RegisteredRequests(s, ok, t);
    case EOrganization(reply) => OrganizationRequests(s, reply, t);
    case _ =>
  }

  lemma StepFlags(s: State, e: Event, t: Tally)
    requires Enabled(s, e) && FlagsBalance(s, t)
    ensures FlagsBalance(Step(s, e), Add(t, e, s.applyParentHost))
    ensures Step(s, e).applyParentHost == s.applyParentHost
  {
  }

  lemma StepBalanced(s: State, e: Event, t: Tally)
    requires Balanced(s, t)
    ensures Balanced(Step(s, e), if Enabled(s, e) then Add(t, e, s.applyParentHost) else t)
    ensures Step(s, e).applyParentHost == s.applyParentHost
  {
    if Enabled(s, e) {
      StepRequests(s, e, t);
      StepFlags(s, e, t);
    }
  }

  lemma {:induction false} RunBalanced(applyParentHost: bool, es: seq<Event>, n: nat)
    requires n <= |es|
    ensures Balanced(RunTo(Start(applyParentHost), es, n), TallyTo(Start(applyParentHost), es, n))
    ensures RunTo(Start(applyParentHost), es, n).applyParentHost == applyParentHost
  {
    if n > 0 {
      RunBalanced(applyParentHost, es, n - 1);
      StepBalanced(RunTo(Start(applyParentHost), es, n - 1), es[n-1], TallyTo(Start(applyParentHost), es, n - 1));
    }
  }

  /**
    In every run: one registration; organization, administrators and services are asked for once per
    success, the services once more per timer, the parent once per non-empty id that counts; and each flag
    is set exactly if a reply came that sets it.
  */
  lemma RepliesBalance(applyParentHost: bool, es: seq<Event>)
    ensures Balanced(Run(Start(applyParentHost), es), TallyTo(Start(applyParentHost), es, |es|))
  {
    RunBalanced(applyParentHost, es, |es|);
  }

  /** Every request answered, none failed, and the gate is shut: the organization's parent id was empty. */
  lemma EmptyParentExample()
    ensures
      var s := Run(Start(true), [ERegistered(true), EOrganization(OrgParent("")), EAdminList, EServices]);
      !Open(s) && s.outstanding == NO_REQUESTS
  {
    var es := [ERegistered(true), EOrganization(OrgParent("")), EAdminList, EServices];
    var s1 := State(true, false, false, true, Requests(0, 1, 1, 1, 0));
    var s2 := State(true, false, false, true, Requests(0, 0, 1, 1, 0));
    var s3 := State(true, false, false, true, Requests(0, 0, 0, 1, 0));
    assert Step(Start(true), ERegistered(true)) == s1;
    assert Step(s1, EOrganization(OrgParent(""))) == s2;
    assert Step(s2, EAdminList) == s3;
    assert RunTo(Start(true), es, 0) == Start(true);
    assert RunTo(Start(true), es, 1) == s1;
    assert RunTo(Start(true), es, 2) == s2;
    assert RunTo(Start(true), es, 3) == s3;
  }
}
