/** `simple_uptime_monitor.py`: a poller of the API's health endpoint that remembers the
    last status and when the current outage began, and notifies on every up/down
    transition. */
module SimpleUptimeMonitor {
  import opened Common

  datatype State = Up | Down

  /** The health GET: status code and the measured response time, or a raised
      `RequestException`. */
  datatype HealthAnswer = Answer(code: int, responseTime: real) | Raised(error: string)

  /** The dict `check_api_health` returns. */
  datatype CheckResult = CheckResult(state: State, statusCode: Option<int>, error: Option<string>)

  /** `check_api_health`: up exactly on a 200; any other code is down with an "HTTP" error,
      and a raise is down with no status code. */
  function CheckApiHealth(a: HealthAnswer): (r: CheckResult)
    ensures r.state == Up <==> a.Answer? && a.code == 200
    ensures a.Answer? ==> r.statusCode == Some(a.code)
    ensures a.Raised? ==> r == CheckResult(Down, None, Some(a.error))
    ensures r.state == Up ==> r.error.None?
  {
    match a
    case Answer(code, _) =>
      if code == 200 then CheckResult(Up, Some(code), None)
      else CheckResult(Down, Some(code), Some("HTTP " + IntToString(code)))
    case Raised(e) => CheckResult(Down, None, Some(e))
  }

  /** One notification: its status, its colour and, for a recovery, the outage length. */
  datatype Notice = Notice(status: string, colour: int, downtime: Option<int>)

  /** The notifications `handle_status_change` sends for `current`, given the last
      status and the outage start, at clock reading `now`. */
  function ChangeNotices(last: Option<CheckResult>, downtimeStart: Option<int>, current: CheckResult, now: int): seq<Notice>
  {
    if last.None? then
      if current.state == Up then [Notice("Online", 5814783, None)] else [Notice("Offline", 15158332, None)]
    else if last.value.state != current.state then
      if current.state == Up then
        [Notice("Recovered", 5814783, if downtimeStart.Some? then Some(now - downtimeStart.value) else None)]
      else [Notice("Down", 15158332, None)]
    else []
  }

  /** The outage start after `handle_status_change`. */
  function NextDowntime(last: Option<CheckResult>, downtimeStart: Option<int>, current: CheckResult, now: int): Option<int>
  {
    if last.None? then
      if current.state == Up then downtimeStart else Some(now)
    else if last.value.state != current.state then
      if current.state == Up then None else Some(now)
    else downtimeStart
  }

  /** The monitor's invariant: an outage start is recorded exactly while the most
      recently handled status is down. */
  predicate DowntimeTracksState(last: Option<CheckResult>, downtimeStart: Option<int>)
  {
    downtimeStart.Some? <==> last.Some? && last.value.state == Down
  }

  /** Handling a status and then remembering it keeps the invariant. */
  lemma HandlingKeepsInvariant(last: Option<CheckResult>, downtimeStart: Option<int>, current: CheckResult, now: int)
    requires DowntimeTracksState(last, downtimeStart)
    ensures DowntimeTracksState(Some(current), NextDowntime(last, downtimeStart, current, now))
  {
  }

  /** The first check sends exactly one notice, Online or Offline; a later check sends one
      exactly when the state differs from the last one. */
  lemma NoticeOnTransitionOnly(last: Option<CheckResult>, downtimeStart: Option<int>, current: CheckResult, now: int)
    ensures last.None? ==> |ChangeNotices(last, downtimeStart, current, now)| == 1
    ensures last.None? ==> ChangeNotices(last, downtimeStart, current, now)[0].status == (if current.state == Up then "Online" else "Offline")
    ensures last.Some? ==> (ChangeNotices(last, downtimeStart, current, now) != [] <==> last.value.state != current.state)
    ensures last.Some? && last.value.state == Down && current.state == Up ==>
      ChangeNotices(last, downtimeStart, current, now)[0].status == "Recovered"
      && NextDowntime(last, downtimeStart, current, now).None?
    ensures last.Some? && last.value.state == Up && current.state == Down ==>
      ChangeNotices(last, downtimeStart, current, now)[0].status == "Down"
      && NextDowntime(last, downtimeStart, current, now) == Some(now)
  {
  }

  /** One pass of the loop: the health answer and the clock reading (seconds) taken
      after it. */
  datatype Sample = Sample(answer: HealthAnswer, now: int)

  /** Whether the demo mode stops after a check at `now`: a truthy duration and at
      least that many minutes elapsed since `start`. */
  predicate StopsAfter(duration: Option<int>, start: int, now: int)
  {
    duration.Some? && duration.value != 0 && (now - start) as real / 60.0 >= duration.value as real
  }

  /** How many checks run: up to and including the first that stops the loop, or all
      samples when none does. */
  function ChecksRun(duration: Option<int>, start: int, xs: seq<Sample>): (n: nat)
    ensures n <= |xs|
    ensures xs != [] ==> n >= 1
    decreases |xs|
  {
    if xs == [] then 0
    else if StopsAfter(duration, start, xs[0].now) then 1
    else 1 + ChecksRun(duration, start, xs[1..])
  }

  /** One more check on top of `i` already run. */
  lemma ChecksRunStep(duration: Option<int>, start: int, xs: seq<Sample>, i: nat)
    requires i < |xs|
    ensures ChecksRun(duration, start, xs[i..])
      == if StopsAfter(duration, start, xs[i].now) then 1 else 1 + ChecksRun(duration, start, xs[i + 1..])
  {
    assert xs[i..][1..] == xs[i + 1..];
  }

  datatype Memory = Memory(lastStatus: Option<CheckResult>, downtimeStart: Option<int>, notices: seq<Notice>)

  /** The monitor's memory after handling the samples `xs` in order, starting from
      `last` and `downtimeStart`; `notices` collects what was sent. */
  function Replay(last: Option<CheckResult>, downtimeStart: Option<int>, xs: seq<Sample>): (m: Memory)
    ensures xs != [] ==> m.lastStatus == Some(CheckApiHealth(xs[|xs| - 1].answer))
    decreases |xs|
  {
    if xs == [] then Memory(last, downtimeStart, [])
    else
      var m := Replay(last, downtimeStart, xs[..|xs| - 1]);
      var s := xs[|xs| - 1];
      var c := CheckApiHealth(s.answer);
      Memory(Some(c), NextDowntime(m.lastStatus, m.downtimeStart, c, s.now),
             m.notices + ChangeNotices(m.lastStatus, m.downtimeStart, c, s.now))
  }

  /** Replaying one more sample is one more handled check. */
  lemma ReplayStep(last: Option<CheckResult>, downtimeStart: Option<int>, xs: seq<Sample>, i: nat)
    requires i < |xs|
    ensures var m := Replay(last, downtimeStart, xs[..i]);
      var c := CheckApiHealth(xs[i].answer);
      Replay(last, downtimeStart, xs[..i + 1])
        == Memory(Some(c), NextDowntime(m.lastStatus, m.downtimeStart, c, xs[i].now),
                  m.notices + ChangeNotices(m.lastStatus, m.downtimeStart, c, xs[i].now))
  {
    assert xs[..i + 1][..i] == xs[..i];
  }

  /** The invariant holds after any run of checks that starts where it holds. */
  lemma {:induction false} ReplayKeepsInvariant(last: Option<CheckResult>, downtimeStart: Option<int>, xs: seq<Sample>)
    requires DowntimeTracksState(last, downtimeStart)
    ensures DowntimeTracksState(Replay(last, downtimeStart, xs).lastStatus, Replay(last, downtimeStart, xs).downtimeStart)
    decreases |xs|
  {
    if xs != [] {
      var m := Replay(last, downtimeStart, xs[..|xs| - 1]);
      ReplayKeepsInvariant(last, downtimeStart, xs[..|xs| - 1]);
      var s := xs[|xs| - 1];
      HandlingKeepsInvariant(m.lastStatus, m.downtimeStart, CheckApiHealth(s.answer), s.now);
    }
  }

  /** A run of identical up answers after an initial up check sends only the Online notice. */
  lemma {:induction false} SteadyUpSendsOnce(xs: seq<Sample>)
    requires xs != []
    requires forall i :: 0 <= i < |xs| ==> xs[i].answer.Answer? && xs[i].answer.code == 200
    ensures Replay(None, None, xs).notices == [Notice("Online", 5814783, None)]
    ensures Replay(None, None, xs).downtimeStart.None?
    decreases |xs|
  {
    if |xs| > 1 {
      var init := xs[..|xs| - 1];
      assert forall i :: 0 <= i < |init| ==> init[i] == xs[i];
      SteadyUpSendsOnce(init);
    } else {
      assert xs[..0] == [];
    }
  }

  class Monitor {
    const webhook: Option<string>
    const uptimeStart: int
    var lastStatus: Option<CheckResult>
    var downtimeStart: Option<int>
    /** Every call of `send_discord_notification`, in order. */
    var outbox: seq<Notice>

    ghost predicate Valid()
      reads this
    {
      DowntimeTracksState(lastStatus, downtimeStart)
    }

    constructor (webhook: Option<string>, now: int)
      ensures Valid()
      ensures this.webhook == webhook && uptimeStart == now
      ensures lastStatus.None? && downtimeStart.None? && outbox == []
    {
      this.webhook := webhook;
      uptimeStart := now;
      lastStatus := None;
      downtimeStart := None;
      outbox := [];
    }

    /** `handle_status_change(current)` at clock reading `now`. */
    method HandleStatusChange(current: CheckResult, now: int)
      modifies this`downtimeStart, this`outbox
      ensures downtimeStart == NextDowntime(lastStatus, old(downtimeStart), current, now)
      ensures outbox == old(outbox) + ChangeNotices(lastStatus, old(downtimeStart), current, now)
    {
      if lastStatus.None? {
        if current.state == Up {
          outbox := outbox + [Notice("Online", 5814783, None)];
        } else {
          outbox := outbox + [Notice("Offline", 15158332, None)];
          downtimeStart := Some(now);
        }
      } else if lastStatus.value.state != current.state {
        if current.state == Up {
          var d := if downtimeStart.Some? then Some(now - downtimeStart.value) else None;
          outbox := outbox + [Notice("Recovered", 5814783, d)];
          downtimeStart := None;
        } else {
          outbox := outbox + [Notice("Down", 15158332, None)];
          downtimeStart := Some(now);
        }
      }
    }

    /** One loop pass: check, handle the change, then remember the status. */
    method CheckOnce(s: Sample)
      requires Valid()
      modifies this`lastStatus, this`downtimeStart, this`outbox
      ensures Valid()
      ensures lastStatus == Some(CheckApiHealth(s.answer))
      ensures downtimeStart == NextDowntime(old(lastStatus), old(downtimeStart), CheckApiHealth(s.answer), s.now)
      ensures outbox == old(outbox) + ChangeNotices(old(lastStatus), old(downtimeStart), CheckApiHealth(s.answer), s.now)
    {
      var current := CheckApiHealth(s.answer);
      HandlingKeepsInvariant(lastStatus, downtimeStart, current, s.now);
      HandleStatusChange(current, s.now);
      lastStatus := Some(current);
    }

    /** The checking loop of `run_monitoring`: the passes that happen before the run
        is stopped, either by the demo duration or by the samples running out. */
    method RunChecks(duration: Option<int>, start: int, xs: seq<Sample>) returns (checkCount: nat)
      requires Valid()
      modifies this`lastStatus, this`downtimeStart, this`outbox
      ensures Valid()
      ensures checkCount == ChecksRun(duration, start, xs)
      ensures |outbox| >= |old(outbox)| && outbox[..|old(outbox)|] == old(outbox)
      ensures Replay(old(lastStatus), old(downtimeStart), xs[..checkCount])
        == Memory(lastStatus, downtimeStart, outbox[|old(outbox)|..])
    {
      checkCount := 0;
      ghost var sent: seq<Notice> := [];
      while checkCount < |xs|
        invariant Valid()
        invariant checkCount <= |xs|
        invariant ChecksRun(duration, start, xs) == checkCount + ChecksRun(duration, start, xs[checkCount..])
        invariant outbox == old(outbox) + sent
        invariant Memory(lastStatus, downtimeStart, sent) == Replay(old(lastStatus), old(downtimeStart), xs[..checkCount])
        decreases |xs| - checkCount
      {
        var s := xs[checkCount];
        ChecksRunStep(duration, start, xs, checkCount);
        ghost var notices := ChangeNotices(lastStatus, downtimeStart, CheckApiHealth(s.answer), s.now);
        ReplayStep(old(lastStatus), old(downtimeStart), xs, checkCount);
        CheckOnce(s);
        AppendAssoc(old(outbox), sent, notices);
        sent := sent + notices;
        checkCount := checkCount + 1;
        if StopsAfter(duration, start, s.now) {
          break;
        }
      }
      DropPrefix(old(outbox), sent);
    }

    /** `run_monitoring(duration_minutes)` from loop start `start`: the checking loop,
        then the summary when a webhook is set. */
    method RunMonitoring(duration: Option<int>, start: int, xs: seq<Sample>) returns (checkCount: nat)
      requires Valid()
      modifies this`lastStatus, this`downtimeStart, this`outbox
      ensures Valid()
      ensures checkCount == ChecksRun(duration, start, xs)
      ensures var m := Replay(old(lastStatus), old(downtimeStart), xs[..checkCount]);
        lastStatus == m.lastStatus && downtimeStart == m.downtimeStart
        && outbox == old(outbox) + m.notices + (if Truthy(webhook) then [Notice("Summary", 3447003, None)] else [])
    {
      checkCount := RunChecks(duration, start, xs);
      assert outbox == old(outbox) + outbox[|old(outbox)|..];
      if Truthy(webhook) {
        outbox := outbox + [Notice("Summary", 3447003, None)];
      }
    }
  }
}
