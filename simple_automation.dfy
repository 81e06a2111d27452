/** `services/monitoring/simple_automation.py`: the stand-alone automation loop that,
    every 30 seconds, checks the API, simulates drift with one random draw, answers drift
    by generating data, and sends periodic status reports. */
module SimpleAutomation {
  import opened Common

  const Colours: map<string, int> :=
    map["Succès" := 5814783, "Échec" := 15158332, "Avertissement" := 16776960, "Info" := 3447003, "Drift" := 16753920]

  function Colour(status: string): (c: int)
    ensures status in Colours ==> c == Colours[status]
    ensures status !in Colours ==> c == 3447003
  {
    if status in Colours then Colours[status] else 3447003
  }

  /** `send_discord_notification`: False without a webhook, else True iff 204. */
  function SendDiscordNotification(webhook: Option<string>, post: Post): (r: SendResult)
    ensures !Truthy(webhook) ==> !r.posted && !r.ok
    ensures r.ok <==> Truthy(webhook) && post == Answered(204)
  {
    WebhookSend(webhook, post)
  }

  /** The login POST: status code and the `access_token` field if present. */
  datatype LoginAnswer = Login(code: int, token: Option<string>) | LoginRaised

  /** `authenticate`: the token of a 200 answer; None otherwise (a missing field raises
      and is caught). */
  function Authenticate(a: LoginAnswer): (t: Option<string>)
    ensures t.Some? <==> a.Login? && a.code == 200 && a.token.Some?
    ensures t.Some? ==> t == a.token
  {
    if a.Login? && a.code == 200 then a.token else None
  }

  datatype DriftInfo = DriftInfo(driftDetected: bool, randomValue: real, detectionMethod: string)

  /** `detect_drift` on the draw of `random.random()`. */
  function DetectDrift(randomValue: real): (d: DriftInfo)
    ensures d.driftDetected <==> randomValue < 0.5
    ensures d.randomValue == randomValue && d.detectionMethod == "random_simulation"
  {
    DriftInfo(randomValue < 0.5, randomValue, "random_simulation")
  }

  /** The health GET: a status code or a raise. */
  datatype Answer = Status(code: int) | Raised

  /** The generate POST: a status code and whether its body parses, or a raise. */
  datatype GenerateAnswer = Generate(code: int, jsonBody: bool) | GenerateRaised

  /** What one cycle reads from the outside world. */
  datatype CycleInputs = CycleInputs(health: Answer, randomValue: real, login: LoginAnswer, gen: GenerateAnswer)

  /** A notification: its status and, for periodic reports, the uptime in minutes shown. */
  datatype Notice = Notice(status: string, uptimeMinutes: Option<int>)

  datatype CycleOutcome = CycleOutcome(driftChecked: bool, generateRequested: bool, sent: seq<Notice>)

  /** `cycle_count * 30 // 60`: half the completed cycles, rounded down. */
  function UptimeMinutes(cycleCount: nat): (m: nat)
    ensures m * 2 <= cycleCount < m * 2 + 2
  {
    cycleCount * 30 / 60
  }

  /** `run_automation_cycle(cycle_count)`, with the notifications it sends. */
  function RunAutomationCycle(cycleCount: nat, x: CycleInputs): (r: CycleOutcome)
    ensures x.health != Status(200) ==> r == CycleOutcome(false, false, [Notice("Échec", None)])
    ensures x.health == Status(200) ==> r.driftChecked
    ensures r.generateRequested <==> x.health == Status(200) && x.randomValue < 0.5 && Truthy(Authenticate(x.login))
    ensures x.health == Status(200) && x.randomValue < 0.5 && !Truthy(Authenticate(x.login)) ==> r.sent == []
    ensures r.generateRequested ==>
      r.sent == [Notice(if x.gen == Generate(200, true) then "Drift" else "Échec", None)]
    ensures x.health == Status(200) && x.randomValue >= 0.5 ==>
      r.sent == (if cycleCount % 10 == 0 && cycleCount > 0 then [Notice("Info", Some(UptimeMinutes(cycleCount)))] else [])
    ensures |r.sent| <= 1
    ensures forall i :: 0 <= i < |r.sent| ==> r.sent[i].status != "Succès"
  {
    if x.health.Raised? || x.health.code != 200 then CycleOutcome(false, false, [Notice("Échec", None)])
    else
      var drift := DetectDrift(x.randomValue);
      if drift.driftDetected then
        var token := Authenticate(x.login);
        if Truthy(token) then
          match x.gen
          case GenerateRaised => CycleOutcome(true, true, [Notice("Échec", None)])
          case Generate(code, jsonBody) =>
            if code == 200 then
              CycleOutcome(true, true, [Notice(if jsonBody then "Drift" else "Échec", None)])
            else CycleOutcome(true, true, [Notice("Échec", None)])
        else CycleOutcome(true, false, [])
      else if cycleCount % 10 == 0 && cycleCount > 0 then
        CycleOutcome(true, false, [Notice("Info", Some(UptimeMinutes(cycleCount)))])
      else if cycleCount % 20 == 0 && cycleCount > 0 then
        CycleOutcome(true, false, [Notice("Succès", Some(UptimeMinutes(cycleCount)))])
      else CycleOutcome(true, false, [])
  }

  /** The extended-report branch (`% 20`) is dead: every positive multiple of 20 is a
      positive multiple of 10, which the first branch already takes. */
  lemma ExtendedReportUnreachable(cycleCount: nat)
    requires cycleCount % 20 == 0 && cycleCount > 0
    ensures cycleCount % 10 == 0
  {
    assert cycleCount == 20 * (cycleCount / 20);
  }

  /** One pass of the main loop: the cycle's inputs, and whether the cycle raised an
      unexpected exception (then only the critical alert is sent). */
  datatype Iteration = Iteration(inputs: CycleInputs, raises: bool)

  /** The number of iterations whose cycle completed. */
  function Completed(xs: seq<Iteration>): (n: nat)
    ensures n <= |xs|
    decreases |xs|
  {
    if xs == [] then 0 else Completed(xs[..|xs| - 1]) + (if xs[|xs| - 1].raises then 0 else 1)
  }

  /** The notifications of the iterations `xs` when the counter starts at `c`. */
  function LoopNotices(xs: seq<Iteration>, c: nat): seq<Notice>
    decreases |xs|
  {
    if xs == [] then []
    else if xs[0].raises then [Notice("Échec", None)] + LoopNotices(xs[1..], c)
    else RunAutomationCycle(c, xs[0].inputs).sent + LoopNotices(xs[1..], c + 1)
  }

  /** The `__main__` block: a startup notice, then the loop over the iterations that
      happen before the process is stopped. */
  method AutomationMain(xs: seq<Iteration>) returns (cycleCount: nat, sent: seq<Notice>)
    ensures cycleCount == Completed(xs)
    ensures sent == [Notice("Succès", None)] + LoopNotices(xs, 0)
  {
    sent := [Notice("Succès", None)];
    cycleCount := 0;
    var i := 0;
    while i < |xs|
      invariant 0 <= i <= |xs|
      invariant cycleCount == Completed(xs[..i])
      invariant sent + LoopNotices(xs[i..], cycleCount) == [Notice("Succès", None)] + LoopNotices(xs, 0)
    {
      assert xs[..i + 1][..i] == xs[..i];
      assert xs[i..][1..] == xs[i + 1..];
      if xs[i].raises {
        sent := sent + [Notice("Échec", None)];
      } else {
        sent := sent + RunAutomationCycle(cycleCount, xs[i].inputs).sent;
        cycleCount := cycleCount + 1;
      }
      i := i + 1;
    }
    assert xs[..i] == xs;
  }
}
