/** `services/api/src/monitoring/discord_notifier.py`: the API's Discord notifier — the
    webhook it uses, the colour of each status, whether a send succeeds, and the message
    and status each helper sends. The webhook post itself is replaced by its answer. */
module DiscordNotifier {
  import opened Common

  /** A notifier: the webhook URL it was given, or the environment's. */
  datatype Notifier = Notifier(webhookUrl: Option<string>)

  /** `DiscordNotifier(webhook_url)`: a truthy argument wins over `DISCORD_WEBHOOK_URL`. */
  function NewNotifier(webhookUrl: Option<string>, env: Option<string>): (n: Notifier)
    ensures Truthy(webhookUrl) ==> n.webhookUrl == webhookUrl
    ensures !Truthy(webhookUrl) ==> n.webhookUrl == env
  {
    Notifier(if Truthy(webhookUrl) then webhookUrl else env)
  }

  const Success: string := "Succès"
  const Failure: string := "Échec"
  const Warning: string := "Avertissement"
  const Info: string := "Info"

  const Colours: map<string, int> :=
    map[Success := 5814783, Failure := 15158332, Warning := 16776960, Info := 3447003]

  /** `color_map.get(status, 3447003)`. */
  function Colour(status: string): (c: int)
    ensures status in Colours ==> c == Colours[status]
    ensures status !in Colours ==> c == 3447003
  {
    if status in Colours then Colours[status] else 3447003
  }

  /** The four known statuses have four distinct colours; every other status is blue, the
      colour of "Info". */
  lemma ColoursDistinguishStatuses(status: string)
    ensures Colour(Success) != Colour(Failure) && Colour(Failure) != Colour(Warning)
    ensures Colour(Warning) != Colour(Info) && Colour(Success) != Colour(Info)
    ensures status !in {Success, Failure, Warning, Info} ==> Colour(status) == Colour(Info)
  {
  }

  /** The embed a send posts: the message, its colour and the status field (title, footer
      and timestamp are fixed or clock-dependent and left out). */
  datatype Embed = Embed(description: string, colour: int, status: string)

  /** The outcome of `send_notification`: the embed posted, if any, and the return value. */
  datatype Sent = Sent(posted: Option<Embed>, ok: bool)

  /** `send_notification(message, status)`: without a webhook nothing is posted and the
      result is False; otherwise one embed is posted and the result is True exactly on a
      204 answer (other codes and raised errors give False). */
  function SendNotification(n: Notifier, message: string, status: string, answer: Post): (r: Sent)
    ensures !Truthy(n.webhookUrl) ==> r == Sent(None, false)
    ensures Truthy(n.webhookUrl) ==> r.posted == Some(Embed(message, Colour(status), status))
    ensures r.ok <==> Truthy(n.webhookUrl) && answer == Answered(204)
  {
    var s := WebhookSend(n.webhookUrl, answer);
    if s.posted then Sent(Some(Embed(message, Colour(status), status)), s.ok) else Sent(None, false)
  }

  /** `test_webhook`: the test message with status "Info", or False without a webhook. */
  function TestWebhook(n: Notifier, answer: Post): (r: Sent)
    ensures !Truthy(n.webhookUrl) ==> r == Sent(None, false)
    ensures r.posted.Some? ==> r.posted.value.status == Info && r.posted.value.colour == 3447003
    ensures r.ok <==> Truthy(n.webhookUrl) && answer == Answered(204)
  {
    if !Truthy(n.webhookUrl) then Sent(None, false)
    else SendNotification(n, "\U{1F9EA} Test notification from IA Continu Solution", Info, answer)
  }

  const Check: string := "\U{2705}"
  const RedCircle: string := "\U{1F534}"

  function SendPipelineSuccess(n: Notifier, details: string, answer: Post): Sent
  {
    SendNotification(n, Check + " Pipeline executed successfully\n" + details, Success, answer)
  }

  function SendPipelineFailure(n: Notifier, error: string, answer: Post): Sent
  {
    SendNotification(n, RedCircle + " Pipeline execution failed\nError: " + error, Failure, answer)
  }

  /** `send_model_retrain_success`; `accuracyText` is the accuracy as `{accuracy:.3f}`
      renders it, and the sample count is written in decimal as `str(int)` does. */
  function SendModelRetrainSuccess(n: Notifier, modelVersion: string, accuracyText: string, samples: int, answer: Post): Sent
  {
    SendNotification(n, Check + " Model Retraining Successful\nVersion: " + modelVersion + "\nAccuracy: " + accuracyText
                        + "\nTraining Samples: " + IntToString(samples), Success, answer)
  }

  function SendModelRetrainFailure(n: Notifier, error: string, answer: Post): Sent
  {
    SendNotification(n, RedCircle + " Model Retraining Failed\nError: " + error, Failure, answer)
  }

  /** Pipeline and retraining successes are sent as "Succès" in green, failures as "Échec"
      in red, and each message carries the caller's text at its end. */
  lemma HelperStatuses(n: Notifier, text: string, version: string, acc: string, samples: int, answer: Post)
    requires Truthy(n.webhookUrl)
    ensures SendPipelineSuccess(n, text, answer).posted.value.status == Success
    ensures SendModelRetrainSuccess(n, version, acc, samples, answer).posted.value.status == Success
    ensures SendPipelineFailure(n, text, answer).posted.value.status == Failure
    ensures SendModelRetrainFailure(n, text, answer).posted.value.status == Failure
    ensures SendPipelineSuccess(n, text, answer).posted.value.colour == 5814783
    ensures SendPipelineFailure(n, text, answer).posted.value.colour == 15158332
    ensures EndsWith(SendPipelineSuccess(n, text, answer).posted.value.description, text)
    ensures EndsWith(SendPipelineFailure(n, text, answer).posted.value.description, text)
  {
    var prefixS := Check + " Pipeline executed successfully\n";
    var prefixF := RedCircle + " Pipeline execution failed\nError: ";
    assert (prefixS + text)[|prefixS + text| - |text|..] == text;
    assert (prefixF + text)[|prefixF + text| - |text|..] == text;
  }

  predicate EndsWith(s: string, suffix: string)
  {
    |suffix| <= |s| && s[|s| - |suffix|..] == suffix
  }

  // ---------------------------------------------------------------------------
  // Monitoring alerts

  /** An alert's classification: the status it is sent with and the emoji that opens it. */
  datatype Class = Class(status: string, emoji: string)

  const Siren: string := "\U{1F6A8}"
  const WarningSign: string := "\U{26A0}\U{FE0F}"
  const InfoSign: string := "\U{2139}\U{FE0F}"

  /** The classification `send_monitoring_alert` applies to `alert_type.lower()`. */
  function Classify(alertType: string): (c: Class)
    ensures Lower(alertType) in ["error", "critical", "failure"] ==> c == Class(Failure, Siren)
    ensures Lower(alertType) in ["warning", "caution"] ==> c == Class(Warning, WarningSign)
    ensures Lower(alertType) !in ["error", "critical", "failure", "warning", "caution"] ==> c == Class(Info, InfoSign)
  {
    var t := Lower(alertType);
    if t in ["error", "critical", "failure"] then Class(Failure, Siren)
    else if t in ["warning", "caution"] then Class(Warning, WarningSign)
    else Class(Info, InfoSign)
  }

  /** Classification ignores case: a type and its lower-cased form get the same class. */
  lemma ClassifyIgnoresCase(alertType: string)
    ensures Classify(alertType) == Classify(Lower(alertType))
    ensures Classify(Upper(alertType)) == Classify(alertType)
  {
    LowerAbsorbs(alertType);
  }

  /** The alert text: emoji, title-cased type, " Alert", then the details. */
  function AlertMessage(alertType: string, details: string): string
  {
    Classify(alertType).emoji + " " + Title(alertType) + " Alert\n" + details
  }

  /** `send_monitoring_alert(alert_type, details)`. */
  function SendMonitoringAlert(n: Notifier, alertType: string, details: string, answer: Post): (r: Sent)
    ensures r.posted.Some? ==> r.posted.value.status == Classify(alertType).status
    ensures r.posted.Some? ==> r.posted.value.colour == Colour(Classify(alertType).status)
    ensures r.posted.Some? ==> r.posted.value.description == AlertMessage(alertType, details)
    ensures r.ok <==> Truthy(n.webhookUrl) && answer == Answered(204)
  {
    var c := Classify(alertType);
    SendNotification(n, AlertMessage(alertType, details), c.status, answer)
  }

  /** The alert text opens with the class's emoji and a space, keeps the type's length in
      its title-cased form, and ends with the details. */
  lemma AlertMessageShape(alertType: string, details: string)
    ensures var m := AlertMessage(alertType, details);
      var e := Classify(alertType).emoji;
      && StartsWith(m, e + " ")
      && |m| == |e| + 1 + |alertType| + 7 + |details|
      && EndsWith(m, details)
  {
    var e := Classify(alertType).emoji;
    var t := Title(alertType);
    TitleFromShape(alertType, false);
    var m := AlertMessage(alertType, details);
    assert m == (e + " ") + (t + " Alert\n" + details);
    StartsWithAppend(e + " ", t + " Alert\n" + details);
    assert m[|m| - |details|..] == details;
  }

  /** Whatever its case, an error, critical or failure alert is red, a warning or caution
      alert yellow, and an alert of any other type blue. */
  lemma AlertColours(alertType: string)
    ensures var t := Lower(alertType);
      Colour(Classify(alertType).status)
      == if t in ["error", "critical", "failure"] then 15158332
         else if t in ["warning", "caution"] then 16776960
         else 3447003
  {
  }
}
