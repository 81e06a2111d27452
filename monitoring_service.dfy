/** `services/monitoring/scripts/monitoring_service.py`: the enhanced monitoring service.
    It polls six services, reports every change of a service's healthy flag since the
    previous cycle as one alert, and sends a health summary on every tenth cycle. */
module MonitoringService {
  import opened Common

  /** A monitored service: its key and display name (its URL only matters to the GET). */
  datatype Service = Service(key: string, name: string)

  /** The services in the order the constructor's dict lists them. */
  const Services: seq<Service> := [
    Service("api", "FastAPI ML Service"),
    Service("mlflow", "MLflow Tracking"),
    Service("prefect", "Prefect Orchestration"),
    Service("prometheus", "Prometheus Metrics"),
    Service("grafana", "Grafana Dashboards"),
    Service("uptime_kuma", "Uptime Kuma Monitor")
  ]

  /** The colours of the service's embeds. */
  const Colours: map<string, int> := map[
    "Succès" := 5814783, "Échec" := 15158332, "Avertissement" := 16776960,
    "Info" := 3447003, "Critical" := 10038562, "Recovery" := 3066993
  ]

  /** `color_map.get(status, 3447003)`. */
  function Colour(status: string): (c: int)
    ensures status in Colours ==> c == Colours[status]
    ensures status !in Colours ==> c == 3447003
  {
    if status in Colours then Colours[status] else 3447003
  }

  /** A health GET: status code and elapsed seconds, or any raised exception. */
  datatype HealthAnswer = Answer(code: int, elapsed: real) | Raised(error: string)

  /** The dict `check_service_health` returns; an absent key is `None`. */
  datatype Status = Status(service: string, name: string, healthy: bool,
                           statusCode: Option<int>, responseTime: Option<real>, error: Option<string>)

  /** `check_service_health`: healthy exactly on 200, 201 or 202; an exception is
      unhealthy, carries the error and no status code. */
  function CheckServiceHealth(s: Service, a: HealthAnswer): (r: Status)
    ensures r.service == s.key && r.name == s.name
    ensures r.healthy <==> a.Answer? && a.code in {200, 201, 202}
    ensures a.Answer? ==> r.statusCode == Some(a.code) && r.responseTime == Some(a.elapsed) && r.error.None?
    ensures a.Raised? ==> r.statusCode.None? && r.responseTime.None? && r.error == Some(a.error)
  {
    match a
    case Answer(code, elapsed) =>
      Status(s.key, s.name, code == 200 || code == 201 || code == 202, Some(code), Some(elapsed), None)
    case Raised(e) => Status(s.key, s.name, false, None, None, Some(e))
  }

  /** The results of one `check_all_services`, one per service in order. */
  function AllStatuses(answers: seq<HealthAnswer>): (r: seq<Status>)
    requires |answers| == |Services|
    ensures |r| == |Services|
    ensures forall i :: 0 <= i < |r| ==> r[i] == CheckServiceHealth(Services[i], answers[i])
  {
    seq(|Services|, i requires 0 <= i < |Services| => CheckServiceHealth(Services[i], answers[i]))
  }

  /** No two results are about the same service. */
  predicate DistinctServices(s: seq<Status>)
  {
    forall i, j :: 0 <= i < j < |s| ==> s[i].service != s[j].service
  }

  lemma AllStatusesDistinct(answers: seq<HealthAnswer>)
    requires |answers| == |Services|
    ensures DistinctServices(AllStatuses(answers))
  {
    var r := AllStatuses(answers);
    forall i, j | 0 <= i < j < |r| ensures r[i].service != r[j].service {
      assert r[i].service == Services[i].key && r[j].service == Services[j].key;
    }
  }

  /** `self.last_status.get(key)`: the entry stored for a service, if any. */
  function Lookup(last: seq<Status>, key: string): (r: Option<Status>)
    ensures r.Some? ==> r.value in last && r.value.service == key
    ensures r.None? <==> forall i :: 0 <= i < |last| ==> last[i].service != key
    decreases |last|
  {
    if last == [] then None
    else if last[0].service == key then Some(last[0])
    else Lookup(last[1..], key)
  }

  lemma {:induction false} LookupOwn(s: seq<Status>, i: nat)
    requires DistinctServices(s) && i < |s|
    ensures Lookup(s, s[i].service) == Some(s[i])
    decreases i
  {
    if i > 0 {
      assert DistinctServices(s[1..]) by {
        forall a, b | 0 <= a < b < |s[1..]| ensures s[1..][a].service != s[1..][b].service {
          assert s[1..][a] == s[a + 1] && s[1..][b] == s[b + 1];
        }
      }
      assert s[0].service != s[i].service;
      LookupOwn(s[1..], i - 1);
      assert s[1..][i - 1] == s[i];
    }
  }

  /** Whether a result is a change: a missing previous entry has no healthy flag, which
      differs from both `True` and `False`. */
  predicate Differs(last: seq<Status>, cur: Status)
  {
    var p := Lookup(last, cur.service);
    p.None? || p.value.healthy != cur.healthy
  }

  datatype ChangeType = Recovery | Failure

  datatype Change = Change(service: string, name: string, changeType: ChangeType,
                           current: Status, previous: Option<Status>)

  /** The change record for a result that differs from its previous entry. */
  function ChangeOf(last: seq<Status>, cur: Status): (c: Change)
    ensures c.current == cur && c.service == cur.service && c.name == cur.name
    ensures c.changeType == Recovery <==> cur.healthy
    ensures c.previous == Lookup(last, cur.service)
  {
    Change(cur.service, cur.name, if cur.healthy then Recovery else Failure, cur, Lookup(last, cur.service))
  }

  /** The changes of `current` against `last`, in the order of `current`. */
  function Changes(last: seq<Status>, current: seq<Status>): (r: seq<Change>)
    ensures |r| <= |current|
    decreases |current|
  {
    if current == [] then []
    else
      var cur := current[|current| - 1];
      Changes(last, current[..|current| - 1]) + (if Differs(last, cur) then [ChangeOf(last, cur)] else [])
  }

  /** A change is reported exactly for the results whose healthy flag differs. */
  lemma {:induction false} ChangesMeaning(last: seq<Status>, current: seq<Status>)
    ensures forall j :: 0 <= j < |Changes(last, current)| ==>
      var c := Changes(last, current)[j];
      c.current in current && Differs(last, c.current) && c == ChangeOf(last, c.current)
    ensures forall i :: 0 <= i < |current| && Differs(last, current[i]) ==>
      ChangeOf(last, current[i]) in Changes(last, current)
    decreases |current|
  {
    if current != [] {
      var init := current[..|current| - 1];
      ChangesMeaning(last, init);
      forall i | 0 <= i < |current| - 1 ensures current[i] == init[i] { }
    }
  }

  /** From an empty history every result is reported, healthy ones as recoveries and
      the others as failures, none with a previous entry. */
  lemma {:induction false} FirstCycleReportsAll(current: seq<Status>)
    ensures |Changes([], current)| == |current|
    ensures forall i :: 0 <= i < |current| ==>
      Changes([], current)[i] == Change(current[i].service, current[i].name,
                                        if current[i].healthy then Recovery else Failure, current[i], None)
    decreases |current|
  {
    if current != [] {
      var init := current[..|current| - 1];
      FirstCycleReportsAll(init);
      forall i | 0 <= i < |current| - 1 ensures current[i] == init[i] { }
    }
  }

  /** A cycle that repeats the remembered results reports no change. */
  lemma {:induction false} RepeatedCycleReportsNothing(last: seq<Status>, current: seq<Status>)
    requires DistinctServices(last)
    requires forall i :: 0 <= i < |current| ==> current[i] in last
    ensures Changes(last, current) == []
    decreases |current|
  {
    if current != [] {
      var init := current[..|current| - 1];
      forall i | 0 <= i < |init| ensures init[i] in last {
        assert init[i] == current[i];
      }
      RepeatedCycleReportsNothing(last, init);
      var cur := current[|current| - 1];
      var k :| 0 <= k < |last| && last[k] == cur;
      LookupOwn(last, k);
    }
  }

  /** The line a message or summary adds about one service. */
  datatype Detail = ErrorLine(error: string) | StatusCodeLine(code: int) | ResponseTimeLine(seconds: real) | NoLine

  /** One line of the summary: the name, the icon's verdict and its extra line. */
  datatype SummaryLine = SummaryLine(name: string, healthy: bool, extra: Detail)

  /** The summary text as data: the two counts and one line per service. */
  datatype HealthSummary = HealthSummary(healthyCount: nat, totalCount: nat, lines: seq<SummaryLine>)

  /** The statuses the service sends with its embeds. */
  datatype Level = Success | Failed | Warning | Info | Critical | Recovered

  /** The status string of a level, as the embed's Status field shows it. */
  function LevelName(l: Level): string
  {
    match l
    case Success => "Succès"
    case Failed => "Échec"
    case Warning => "Avertissement"
    case Info => "Info"
    case Critical => "Critical"
    case Recovered => "Recovery"
  }

  /** The embed colour of a level. */
  function LevelColour(l: Level): int
  {
    match l
    case Success => 5814783
    case Failed => 15158332
    case Warning => 16776960
    case Info => 3447003
    case Critical => 10038562
    case Recovered => 3066993
  }

  /** Every level the service sends has its own entry in the colour map. */
  lemma LevelColourAgrees(l: Level)
    ensures LevelName(l) in Colours && Colour(LevelName(l)) == LevelColour(l)
  {
  }

  /** What is sent: the embed's level and title, and what its text reports. A report's
      text is `GenerateHealthSummary` of the statuses it carries. */
  datatype Body =
    | ChangeAlert(serviceName: string, detail: Detail)
    | Report(statuses: seq<Status>)
    | Startup(servicesMonitored: nat)
    | Shutdown

  datatype Notification = Notification(level: Level, title: string, body: Body)

  /** Python truthiness of an optional response time. */
  predicate TruthyTime(t: Option<real>)
  {
    t.Some? && t.value != 0.0
  }

  /** The one alert `send_status_change_alerts` sends for a change. */
  function AlertOf(c: Change): (n: Notification)
    ensures n.level == (if c.changeType == Failure then Critical else Recovered)
    ensures LevelColour(n.level) == (if c.changeType == Failure then 10038562 else 3066993)
    ensures n.body.ChangeAlert? && n.body.serviceName == c.name
    ensures c.changeType == Failure ==>
      n.body.detail == (if c.current.error.Some? then ErrorLine(c.current.error.value)
                        else if c.current.statusCode.Some? then StatusCodeLine(c.current.statusCode.value)
                        else NoLine)
    ensures c.changeType == Recovery ==>
      n.body.detail == (if TruthyTime(c.current.responseTime) then ResponseTimeLine(c.current.responseTime.value) else NoLine)
  {
    match c.changeType
    case Failure =>
      var cur := c.current;
      var d := if cur.error.Some? then ErrorLine(cur.error.value)
               else if cur.statusCode.Some? then StatusCodeLine(cur.statusCode.value)
               else NoLine;
      Notification(Critical, "🚨 Service Alert", ChangeAlert(c.name, d))
    case Recovery =>
      var rt := c.current.responseTime;
      Notification(Recovered, "✅ Service Recovery", ChangeAlert(c.name, if TruthyTime(rt) then ResponseTimeLine(rt.value) else NoLine))
  }

  /** The alerts for a list of changes, one per change in order. */
  function AlertsFor(changes: seq<Change>): (r: seq<Notification>)
    ensures |r| == |changes|
    ensures forall i :: 0 <= i < |r| ==> r[i] == AlertOf(changes[i])
    decreases |changes|
  {
    if changes == [] then []
    else AlertsFor(changes[..|changes| - 1]) + [AlertOf(changes[|changes| - 1])]
  }

  /** A failure alert of an unreachable service names its error, one of a reachable
      service its status code. */
  lemma FailureAlertDetail(s: Service, a: HealthAnswer, last: seq<Status>)
    requires !CheckServiceHealth(s, a).healthy
    ensures var n := AlertOf(ChangeOf(last, CheckServiceHealth(s, a)));
      n.level == Critical
      && n.body.detail == (if a.Raised? then ErrorLine(a.error) else StatusCodeLine(a.code))
  {
  }

  /** The number of healthy results. */
  function HealthyCount(status: seq<Status>): (n: nat)
    ensures n <= |status|
    ensures n == |status| <==> forall i :: 0 <= i < |status| ==> status[i].healthy
    ensures n == 0 <==> forall i :: 0 <= i < |status| ==> !status[i].healthy
    decreases |status|
  {
    if status == [] then 0
    else HealthyCount(status[..|status| - 1]) + (if status[|status| - 1].healthy then 1 else 0)
  }

  /** A summary line: the response time for a healthy service that has a truthy one,
      the error cut to 50 characters for an unhealthy one that has one. */
  function SummaryLineOf(s: Status): (l: SummaryLine)
    ensures l.name == s.name && l.healthy == s.healthy
    ensures l.extra.ResponseTimeLine? <==> s.healthy && TruthyTime(s.responseTime)
    ensures l.extra.ErrorLine? <==> !s.healthy && s.error.Some?
    ensures l.extra.ErrorLine? ==> |l.extra.error| <= 50 && StartsWith(s.error.value, l.extra.error)
  {
    if s.healthy && TruthyTime(s.responseTime) then SummaryLine(s.name, true, ResponseTimeLine(s.responseTime.value))
    else if !s.healthy && s.error.Some? then
      SummaryLine(s.name, false, ErrorLine(s.error.value[..Min(50, |s.error.value|)]))
    else SummaryLine(s.name, s.healthy, NoLine)
  }

  /** `generate_health_summary`. */
  function GenerateHealthSummary(status: seq<Status>): (r: HealthSummary)
    ensures r.healthyCount <= r.totalCount && r.totalCount == |status|
    ensures r.healthyCount == HealthyCount(status)
    ensures |r.lines| == |status| && forall i :: 0 <= i < |status| ==> r.lines[i] == SummaryLineOf(status[i])
  {
    HealthSummary(HealthyCount(status), |status|, seq(|status|, i requires 0 <= i < |status| => SummaryLineOf(status[i])))
  }

  function SummaryNotice(status: seq<Status>): Notification
  {
    Notification(Info, "📊 Periodic Health Report", Report(status))
  }

  /** What cycle number `cycle` sends when its results `current` follow `last`. */
  function CycleNotices(last: seq<Status>, cycle: nat, current: seq<Status>): seq<Notification>
  {
    AlertsFor(Changes(last, current)) + (if cycle % 10 == 0 then [SummaryNotice(current)] else [])
  }

  /** Every round holds one answer per service. */
  predicate WellFormed(rounds: seq<seq<HealthAnswer>>)
  {
    forall k :: 0 <= k < |rounds| ==> |rounds[k]| == |Services|
  }

  lemma WellFormedFrom(rounds: seq<seq<HealthAnswer>>, i: nat)
    requires WellFormed(rounds) && i <= |rounds|
    ensures WellFormed(rounds[i..])
  {
    forall k | 0 <= k < |rounds[i..]| ensures |rounds[i..][k]| == |Services| {
      assert rounds[i..][k] == rounds[i + k];
    }
  }

  /** The service's memory after a run of cycles: the last results, the cycle
      counter and what was sent. */
  datatype Memory = Memory(lastStatus: seq<Status>, cycleCount: nat, sent: seq<Notification>)

  /** One cycle on results `current`: the counter moves on, the results are
      remembered and the cycle's notifications are sent. */
  function Step(m: Memory, current: seq<Status>): Memory
  {
    Memory(current, m.cycleCount + 1, m.sent + CycleNotices(m.lastStatus, m.cycleCount + 1, current))
  }

  /** The memory after the cycles `rounds`, one list of answers per cycle, starting
      from `last` and `cycles`. */
  function Replay(last: seq<Status>, cycles: nat, rounds: seq<seq<HealthAnswer>>): (m: Memory)
    requires WellFormed(rounds)
    ensures m.cycleCount == cycles + |rounds|
    ensures rounds != [] ==> m.lastStatus == AllStatuses(rounds[|rounds| - 1])
    decreases |rounds|
  {
    if rounds == [] then Memory(last, cycles, [])
    else
      var init := rounds[..|rounds| - 1];
      assert WellFormed(init) by {
        forall k | 0 <= k < |init| ensures |init[k]| == |Services| {
          assert init[k] == rounds[k];
        }
      }
      Step(Replay(last, cycles, init), AllStatuses(rounds[|rounds| - 1]))
  }

  lemma ReplayStep(last: seq<Status>, cycles: nat, rounds: seq<seq<HealthAnswer>>, i: nat)
    requires WellFormed(rounds)
    requires i < |rounds|
    ensures WellFormed(rounds[..i]) && WellFormed(rounds[..i + 1])
    ensures Replay(last, cycles, rounds[..i + 1]) == Step(Replay(last, cycles, rounds[..i]), AllStatuses(rounds[i]))
  {
    assert rounds[..i + 1][..i] == rounds[..i];
    forall k | 0 <= k < i + 1 ensures rounds[..i + 1][k] == rounds[k] { }
  }

  /** The number of periodic reports in a list of notifications. */
  function Reports(ns: seq<Notification>): (n: nat)
    ensures n <= |ns|
    decreases |ns|
  {
    if ns == [] then 0 else (if ns[0].body.Report? then 1 else 0) + Reports(ns[1..])
  }

  lemma {:induction false} ReportsAppend(a: seq<Notification>, b: seq<Notification>)
    ensures Reports(a + b) == Reports(a) + Reports(b)
    decreases |a|
  {
    if a == [] {
      assert a + b == b;
    } else {
      assert (a + b)[0] == a[0];
      assert (a + b)[1..] == a[1..] + b;
      ReportsAppend(a[1..], b);
    }
  }

  lemma {:induction false} AlertsAreNotReports(changes: seq<Change>)
    ensures Reports(AlertsFor(changes)) == 0
    decreases |changes|
  {
    if changes != [] {
      var init := changes[..|changes| - 1];
      AlertsAreNotReports(init);
      ReportsAppend(AlertsFor(init), [AlertOf(changes[|changes| - 1])]);
      assert Reports([AlertOf(changes[|changes| - 1])]) == 0 by {
        assert [AlertOf(changes[|changes| - 1])][1..] == [];
      }
    }
  }

  /** A cycle sends one report when its number is a multiple of ten, none otherwise. */
  lemma CycleReports(last: seq<Status>, cycle: nat, current: seq<Status>)
    ensures Reports(CycleNotices(last, cycle, current)) == if cycle % 10 == 0 then 1 else 0
  {
    var alerts := AlertsFor(Changes(last, current));
    var tail := if cycle % 10 == 0 then [SummaryNotice(current)] else [];
    AlertsAreNotReports(Changes(last, current));
    ReportsAppend(alerts, tail);
    if cycle % 10 == 0 {
      assert tail[1..] == [];
    }
  }

  /** One more cycle adds one report exactly when the counter passes a multiple of ten. */
  lemma ReportStep(m: Memory, current: seq<Status>, next: Memory)
    requires next == Step(m, current)
    ensures Reports(next.sent) == Reports(m.sent) + (next.cycleCount / 10 - m.cycleCount / 10)
  {
    CycleReports(m.lastStatus, m.cycleCount + 1, current);
    ReportsAppend(m.sent, CycleNotices(m.lastStatus, m.cycleCount + 1, current));
    NextTenth(m.cycleCount);
  }

  lemma NextTenth(k: nat)
    ensures (k + 1) / 10 == k / 10 + (if (k + 1) % 10 == 0 then 1 else 0)
  {
  }

  /** The periodic summary is sent exactly on the cycles whose number is a multiple
      of ten: as many as multiples of ten were passed by the counter. */
  lemma {:induction false} ReportEveryTenthCycle(last: seq<Status>, cycles: nat, rounds: seq<seq<HealthAnswer>>)
    requires WellFormed(rounds)
    ensures Reports(Replay(last, cycles, rounds).sent) == Replay(last, cycles, rounds).cycleCount / 10 - cycles / 10
    decreases |rounds|
  {
    if rounds != [] {
      var n := |rounds| - 1;
      ReplayStep(last, cycles, rounds, n);
      assert rounds[..n + 1] == rounds;
      ReportEveryTenthCycle(last, cycles, rounds[..n]);
      ReportStep(Replay(last, cycles, rounds[..n]), AllStatuses(rounds[n]), Replay(last, cycles, rounds));
    }
  }

  /** From a fresh counter, `n` cycles send `n / 10` summaries. */
  lemma FreshRunReports(last: seq<Status>, rounds: seq<seq<HealthAnswer>>)
    requires WellFormed(rounds)
    ensures Reports(Replay(last, 0, rounds).sent) == |rounds| / 10
  {
    ReportEveryTenthCycle(last, 0, rounds);
  }

  const StartupNotice: Notification := Notification(Success, "🎯 Monitoring Startup", Startup(|Services|))
  const ShutdownNotice: Notification := Notification(Warning, "⚠️ Service Shutdown", Shutdown)

  class EnhancedMonitoringService {
    /** `self.last_status`: the results of the latest cycle. */
    var lastStatus: seq<Status>
    /** `self.cycle_count`, created at zero by the first cycle. */
    var cycleCount: nat
    /** Every call of `send_discord_notification`, in order. */
    var outbox: seq<Notification>

    constructor ()
      ensures lastStatus == [] && cycleCount == 0 && outbox == []
    {
      lastStatus := [];
      cycleCount := 0;
      outbox := [];
    }

    /** `check_all_services`: one check per service, in order. */
    method CheckAllServices(answers: seq<HealthAnswer>) returns (results: seq<Status>)
      requires |answers| == |Services|
      ensures results == AllStatuses(answers)
    {
      results := [];
      for i := 0 to |Services|
        invariant |results| == i
        invariant forall k :: 0 <= k < i ==> results[k] == CheckServiceHealth(Services[k], answers[k])
      {
        results := results + [CheckServiceHealth(Services[i], answers[i])];
      }
    }

    /** `detect_status_changes(current_status)`. */
    method DetectStatusChanges(current: seq<Status>) returns (changes: seq<Change>)
      ensures changes == Changes(lastStatus, current)
    {
      changes := [];
      for i := 0 to |current|
        invariant changes == Changes(lastStatus, current[..i])
      {
        assert current[..i + 1][..i] == current[..i];
        if Differs(lastStatus, current[i]) {
          changes := changes + [ChangeOf(lastStatus, current[i])];
        }
      }
      assert current[..|current|] == current;
    }

    /** `send_status_change_alerts(changes)`. */
    method SendStatusChangeAlerts(changes: seq<Change>)
      modifies this`outbox
      ensures outbox == old(outbox) + AlertsFor(changes)
    {
      for i := 0 to |changes|
        invariant outbox == old(outbox) + AlertsFor(changes[..i])
      {
        assert changes[..i + 1][..i] == changes[..i];
        outbox := outbox + [AlertOf(changes[i])];
      }
      assert changes[..|changes|] == changes;
    }

    /** The first half of `run_monitoring_cycle`: check every service, detect the
        changes against the remembered results and alert on them. */
    method CheckAndAlert(answers: seq<HealthAnswer>) returns (current: seq<Status>)
      requires |answers| == |Services|
      modifies this`outbox
      ensures current == AllStatuses(answers)
      ensures outbox == old(outbox) + AlertsFor(Changes(lastStatus, current))
    {
      current := CheckAllServices(answers);
      var changes := DetectStatusChanges(current);
      if changes != [] {
        SendStatusChangeAlerts(changes);
      } else {
        assert AlertsFor(changes) == [];
      }
    }

    /** `run_monitoring_cycle` on this cycle's answers. */
    method RunMonitoringCycle(answers: seq<HealthAnswer>)
      requires |answers| == |Services|
      modifies this
      ensures lastStatus == AllStatuses(answers)
      ensures cycleCount == old(cycleCount) + 1
      ensures outbox == old(outbox) + CycleNotices(old(lastStatus), cycleCount, AllStatuses(answers))
    {
      var current := CheckAndAlert(answers);
      ghost var alerts := AlertsFor(Changes(lastStatus, current));
      lastStatus := current;
      cycleCount := cycleCount + 1;
      if cycleCount % 10 == 0 {
        outbox := outbox + [SummaryNotice(current)];
        AppendAssoc(old(outbox), alerts, [SummaryNotice(current)]);
      } else {
        assert alerts + [] == alerts;
      }
    }

    /** The `while True` loop of `run()`: one cycle per element of `rounds`. */
    method RunCycles(rounds: seq<seq<HealthAnswer>>)
      requires WellFormed(rounds)
      modifies this
      ensures var m := Replay(old(lastStatus), old(cycleCount), rounds);
        lastStatus == m.lastStatus && cycleCount == m.cycleCount && outbox == old(outbox) + m.sent
    {
      ghost var sent: seq<Notification> := [];
      for i := 0 to |rounds|
        invariant WellFormed(rounds[..i])
        invariant Memory(lastStatus, cycleCount, sent) == Replay(old(lastStatus), old(cycleCount), rounds[..i])
        invariant outbox == old(outbox) + sent
      {
        ReplayStep(old(lastStatus), old(cycleCount), rounds, i);
        ghost var step := CycleNotices(lastStatus, cycleCount + 1, AllStatuses(rounds[i]));
        RunMonitoringCycle(rounds[i]);
        AppendAssoc(old(outbox), sent, step);
        sent := sent + step;
      }
      assert rounds[..|rounds|] == rounds;
    }

    /** `run()`: the startup notice, the cycles, and the shutdown notice once the
        rounds run out (the keyboard interrupt). */
    method Run(rounds: seq<seq<HealthAnswer>>)
      requires WellFormed(rounds)
      modifies this
      ensures var m := Replay(old(lastStatus), old(cycleCount), rounds);
        lastStatus == m.lastStatus && cycleCount == m.cycleCount
        && outbox == old(outbox) + [StartupNotice] + m.sent + [ShutdownNotice]
    {
      outbox := outbox + [StartupNotice];
      RunCycles(rounds);
      outbox := outbox + [ShutdownNotice];
    }
  }
}
