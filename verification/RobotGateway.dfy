/** The robot gateway as one object whose callbacks update its fields. */
module RobotGateway {
  import Logs = GatewayLogs
  import Gate = GatewayStartup

  class RobotGateway {
    // log batching
    var persistLogLevel: int
    var persistLogFilter: seq<string>
    var persistLogs: seq<Logs.Record>
    var oldestLogTime: int
    var newestLogTime: int
    var persistLogTimer: bool
    var registered: bool
    ghost var uploads: seq<Logs.Upload>

    // startup
    const applyParentHost: bool
    var configsFetched: bool
    var parentFetched: bool
    var configTimer: bool
    var outstanding: Gate.Requests

    ghost function LogState(): Logs.State
      reads this
    {
      Logs.State(persistLogLevel, persistLogFilter, persistLogs, oldestLogTime, newestLogTime,
                 persistLogTimer, registered, uploads)
    }

    ghost function GateState(): Gate.State
      reads this
    {
      Gate.State(applyParentHost, configsFetched, parentFetched, configTimer, outstanding)
    }

    /** oldest and newest are what memory happens to hold. */
    constructor (level: int, filter: seq<string>, applyParentHost: bool, oldest: int, newest: int)
      ensures LogState() == Logs.Init(level, filter, oldest, newest)
      ensures GateState() == Gate.Constructed(applyParentHost)
      ensures this.applyParentHost == applyParentHost
    {
      persistLogLevel, persistLogFilter, persistLogs := level, filter, [];
      oldestLogTime, newestLogTime, persistLogTimer, registered := oldest, newest, false, false;
      uploads := [];
      this.applyParentHost := applyParentHost;
      configsFetched, parentFetched, configTimer := false, false, false;
      outstanding := Gate.NO_REQUESTS;
    }

    // ------------------------------------------------------------ log batching

    method Process(record: Logs.Record)
      modifies this`persistLogs, this`oldestLogTime, this`newestLogTime, this`persistLogTimer
      ensures LogState() == Logs.Process(old(LogState()), record)
    {
      if record.level >= persistLogLevel {
        var filtered := |persistLogFilter| > 0;
        var i := 0;
        while i < |persistLogFilter| && filtered
          invariant 0 <= i <= |persistLogFilter|
          invariant filtered ==> persistLogFilter != [] && record.subsystem !in persistLogFilter[..i]
          invariant !filtered ==> persistLogFilter == [] || record.subsystem in persistLogFilter
        {
          if persistLogFilter[i] == record.subsystem {
            filtered := false;
          }
          i := i + 1;
        }
        assert filtered ==> persistLogFilter[..i] == persistLogFilter;
        if !filtered {
          if record.time > newestLogTime || newestLogTime == 0 {
            newestLogTime := record.time;
          }
          if record.time < oldestLogTime || oldestLogTime == 0 {
            oldestLogTime := record.time;
          }
          persistLogs := persistLogs + [record];
          if !persistLogTimer {
            persistLogTimer := true;
          }
        }
      }
    }

    /** during: the records logged while the upload request is built and posted. */
    method OnPersistLogs(during: seq<Logs.Record>)
      modifies this`persistLogs, this`oldestLogTime, this`newestLogTime, this`persistLogTimer, this`uploads
      ensures LogState() == Logs.OnPersistLogs(old(LogState()), during)
    {
      persistLogTimer := false;
      var start, end := oldestLogTime, newestLogTime;
      var logs := [];
      var i := 0;
      while i < |persistLogs|
        invariant 0 <= i <= |persistLogs| && logs == persistLogs[..i]
      {
        logs := logs + [persistLogs[i]];
        i := i + 1;
      }
      assert logs == persistLogs;
      uploads := uploads + [Logs.Upload(start, end, logs)];
      ghost var posted := LogState();
      var k := 0;
      while k < |during|
        invariant 0 <= k <= |during| && LogState() == Logs.ProcessAll(posted, during[..k])
      {
        assert during[..k+1][..k] == during[..k];
        Process(during[k]);
        k := k + 1;
      }
      assert during[..k] == during;
      UploadFirst(old(LogState()), during, posted);
      persistLogs := [];
      oldestLogTime := 0;
      newestLogTime := 0;
    }

    method SetLogLevel(level: int)
      modifies this`persistLogLevel
      ensures LogState() == Logs.Step(old(LogState()), Logs.ESetLevel(level))
    {
      persistLogLevel := level;
    }

    method Stop()
      modifies this`persistLogTimer, this`registered, this`configTimer
      ensures LogState() == Logs.Step(old(LogState()), Logs.EStop) && !configTimer
    {
      configTimer := false;
      persistLogTimer := false;
      registered := false;
    }

    // ------------------------------------------------------------ startup

    /**
      Registers and then serves the main thread until both flags are set; events are what arrives there.
      The call returns true when the gate opened, and has then consumed no more events than that took.
    */
    method Start(events: seq<Gate.Event>) returns (done: bool, served: nat)
      modifies this`registered, this`configsFetched, this`parentFetched, this`configTimer, this`outstanding
      ensures registered && Gate.Served(Gate.Begin(old(GateState())), events, served, GateState())
      ensures done <==> configsFetched && parentFetched
      ensures !done ==> served == |events|
    {
      registered := true;
      RegisterEmbodiment();
      ghost var begun := GateState();
      served := 0;
      while (!configsFetched || !parentFetched) && served < |events|
        invariant Gate.Served(begun, events, served, GateState())
        modifies this`configsFetched, this`parentFetched, this`configTimer, this`outstanding
      {
        Serve(begun, events, served);
        served := served + 1;
      }
      done := configsFetched && parentFetched;
    }

    method RegisterEmbodiment()
      modifies this`outstanding
      ensures GateState() == Gate.Begin(old(GateState()))
    {
      outstanding := outstanding.(register := outstanding.register + 1);
    }

    /** One round of the main thread in a run from begun. */
    method Serve(ghost begun: Gate.State, events: seq<Gate.Event>, n: nat)
      requires n < |events| && Gate.Served(begun, events, n, GateState()) && !(configsFetched && parentFetched)
      modifies this`configsFetched, this`parentFetched, this`configTimer, this`outstanding
      ensures Gate.Served(begun, events, n + 1, GateState())
    {
      Handle(events[n]);
    }

    function Enabled(e: Gate.Event): bool
      reads this
    {
      Gate.Enabled(Gate.State(applyParentHost, configsFetched, parentFetched, configTimer, outstanding), e)
    }

    /** What the main thread does with one reply. */
    method Handle(e: Gate.Event)
      modifies this`configsFetched, this`parentFetched, this`configTimer, this`outstanding
      ensures GateState() == Gate.Step(old(GateState()), e)
    {
      if !Enabled(e) {
        return;
      }
      outstanding := Gate.Answered(outstanding, e);
      match e
      case ERegistered(ok) => OnRegisteredEmbodiment(ok);
      case EOrganization(reply) => OnOrganization(reply);
      case EAdminList =>
      case EServices => OnConfigured();
      case EParent => OnParent();
      case EConfigTimer => UpdateConfig();
    }

    method OnRegisteredEmbodiment(ok: bool)
      modifies this`configsFetched, this`parentFetched, this`configTimer, this`outstanding
      ensures GateState() == Gate.OnRegisteredEmbodiment(old(GateState()), ok)
    {
      if ok {
        outstanding := outstanding.(
          organization := outstanding.organization + 1, adminList := outstanding.adminList + 1);
        UpdateConfig();
      } else {
        configsFetched := true;
        parentFetched := true;
      }
    }

    method UpdateConfig()
      modifies this`configTimer, this`outstanding
      ensures GateState() == Gate.UpdateConfig(old(GateState()))
    {
      if !configTimer {
        configTimer := true;
      }
      outstanding := outstanding.(services := outstanding.services + 1);
    }

    method OnOrganization(reply: Gate.OrgReply)
      modifies this`parentFetched, this`outstanding
      ensures GateState() == Gate.OnOrganization(old(GateState()), reply)
    {
      if !reply.OrgFailed? {
        if applyParentHost {
          if reply.OrgParent? {
            if |reply.id| > 0 {
              outstanding := outstanding.(parent := outstanding.parent + 1);
            }
          } else {
            parentFetched := true;
          }
        } else {
          parentFetched := true;
        }
      } else {
        parentFetched := true;
      }
    }

    method OnConfigured()
      modifies this`configsFetched
      ensures GateState() == Gate.OnConfigured(old(GateState()))
    {
      configsFetched := true;
    }

    method OnParent()
      modifies this`parentFetched
      ensures GateState() == Gate.OnParent(old(GateState()))
    {
      parentFetched := true;
    }
  }

  /** Recording the upload before or after the re-entrant records makes no difference. */
  lemma {:induction false} UploadFirst(s: Logs.State, during: seq<Logs.Record>, posted: Logs.State)
    requires posted == s.(timer := false, uploads := posted.uploads)
    ensures Logs.ProcessAll(posted, during) ==
      Logs.ProcessAll(s.(timer := false), during).(uploads := posted.uploads)
    decreases |during|
  {
    if during != [] {
      UploadFirst(s, during[..|during|-1], posted);
    }
  }
}
