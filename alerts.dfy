/** The notification settings screen: a one-shot alert when the current rate is below a
    threshold typed by the user, a repeating daily alert at a stored hour and minute, and
    the time picker's setter. The notification centre is modelled as the list of requests
    added to it. */
module Alerts {
  import opened Common

  datatype Trigger =
    | TimeInterval(seconds: real, repeats: bool)     // UNTimeIntervalNotificationTrigger
    | CalendarMatch(hour: int, minute: int, repeats: bool)  // UNCalendarNotificationTrigger

  /** The notification's title, and what its body "1 BASE = RATE TARGET" is made of. */
  datatype Content = Content(title: string, base: string, rate: real, target: string)

  datatype Request = Request(identifier: string, content: Content, trigger: Trigger)

  const ThresholdTitle: string := "🎯 Threshold Alert Triggered!"
  const DailyTitle: string := "📊 Daily Exchange Rate"
  const DailyIdentifier: string := "dailyRateNotification"

  /** `rate < threshold` for a Swift `Double` threshold: false against NaN. */
  predicate Below(rate: real, threshold: FloatValue) {
    match threshold
    case Finite(t) => rate < t
    case NaN => false
  }

  /** The completion of the threshold check: a request is made exactly when the response
      decodes, holds the target rate, and that rate is strictly below the threshold. It
      fires once, after 5 seconds, under the fresh identifier. */
  function ThresholdRequest(threshold: FloatValue, result: Fetch<RateTable>, base: string, target: string, freshId: string): (r: Option<Request>)
    ensures r.Some? <==> result.Decoded? && target in result.body && Below(result.body[target], threshold)
    ensures r.Some? ==>
      && r.value.identifier == freshId
      && r.value.trigger == TimeInterval(5.0, false)
      && r.value.content == Content(ThresholdTitle, base, result.body[target], target)
  {
    match result
    case Decoded(rates) =>
      if target !in rates then None
      else
        var rate := rates[target];
        if !Below(rate, threshold) then None
        else Some(Request(freshId, Content(ThresholdTitle, base, rate, target), TimeInterval(5.0, false)))
    case _ => None
  }

  /** "Save & Check Now" from the typed text to the request it may add: text that
      `Double(_:)` does not parse makes no request and adds nothing. */
  function ThresholdCheck(alertRate: string, parse: string -> Option<FloatValue>, result: Fetch<RateTable>,
                          base: string, target: string, freshId: string): (r: Option<Request>)
    ensures r.Some? <==>
      && parse(alertRate).Some? && parse(alertRate).value.Finite?
      && result.Decoded? && target in result.body
      && result.body[target] < parse(alertRate).value.value
    ensures r.Some? ==> r == ThresholdRequest(parse(alertRate).value, result, base, target, freshId)
  {
    match parse(alertRate)
    case None => None
    case Some(threshold) => ThresholdRequest(threshold, result, base, target, freshId)
  }

  /** A rate equal to the threshold does not fire. */
  lemma EqualRateDoesNotFire(t: real, rates: RateTable, base: string, target: string, freshId: string)
    requires target in rates && rates[target] == t
    ensures ThresholdRequest(Finite(t), Decoded(rates), base, target, freshId).None?
  {
  }

  /** A UUID string (36 characters) never equals the daily identifier, so a threshold
      alert never takes the daily alert's identifier. */
  lemma ThresholdIdentifierIsNotDaily(threshold: FloatValue, result: Fetch<RateTable>, base: string, target: string, freshId: string)
    requires |freshId| == 36
    ensures ThresholdRequest(threshold, result, base, target, freshId).Some? ==>
      ThresholdRequest(threshold, result, base, target, freshId).value.identifier != DailyIdentifier
  {
    assert |DailyIdentifier| == 21;
  }

  /** The completion of the daily scheduling: one repeating request under the fixed
      identifier at the stored hour and minute, exactly when the response decodes and
      holds the target rate. */
  function DailyRequest(result: Fetch<RateTable>, base: string, target: string, hour: int, minute: int): (r: Option<Request>)
    ensures r.Some? <==> result.Decoded? && target in result.body
    ensures r.Some? ==>
      && r.value.identifier == DailyIdentifier
      && r.value.trigger == CalendarMatch(hour, minute, true)
      && r.value.content == Content(DailyTitle, base, result.body[target], target)
  {
    match result
    case Decoded(rates) =>
      if target !in rates then None
      else Some(Request(DailyIdentifier, Content(DailyTitle, base, rates[target], target), CalendarMatch(hour, minute, true)))
    case _ => None
  }

  /** The hour and minute the time picker reports (`dateComponents([.hour, .minute])`). */
  datatype TimeComponents = TimeComponents(hour: Option<int>, minute: Option<int>)

  /** `UNUserNotificationCenter`, seen as the requests added to it, in order. */
  class NotificationCenter {
    var added: seq<Request>

    constructor ()
      ensures added == []
    {
      added := [];
    }

    method Add(request: Request)
      modifies this
      ensures added == old(added) + [request]
    {
      added := added + [request];
    }
  }

  class AlertSettingsView {
    var alertBaseCurrency: string
    var alertTargetCurrency: string
    var alertRate: string
    var dailyBase: string
    var dailyTarget: string
    var alertHour: int
    var alertMinute: int

    /** The `@AppStorage` defaults. */
    constructor ()
      ensures alertBaseCurrency == "USD" && alertTargetCurrency == "JPY" && alertRate == "140"
      ensures dailyBase == "USD" && dailyTarget == "JPY" && alertHour == 8 && alertMinute == 0
    {
      alertBaseCurrency, alertTargetCurrency, alertRate := "USD", "JPY", "140";
      dailyBase, dailyTarget, alertHour, alertMinute := "USD", "JPY", 8, 0;
    }

    /** The synchronous part of `checkAndSendThresholdNotification`: the request for the
        latest rate is issued, carrying the parsed threshold, only when the text parses. */
    method CheckAndSendThresholdNotification(parse: string -> Option<FloatValue>) returns (issued: Option<FloatValue>)
      ensures issued == parse(alertRate)
    {
      var threshold := parse(alertRate);
      if threshold.None? {
        return None;
      }
      issued := threshold;
    }

    /** The threshold request's completion. The currencies are read when it runs; it adds
        at most one request to the centre and writes no setting. */
    method ThresholdArrived(threshold: FloatValue, result: Fetch<RateTable>, freshId: string, center: NotificationCenter)
      modifies center
      ensures center.added == old(center.added)
        + ThresholdRequest(threshold, result, alertBaseCurrency, alertTargetCurrency, freshId).ToSeq()
    {
      if result.Decoded? && alertTargetCurrency in result.body {
        var rate := result.body[alertTargetCurrency];
        if Below(rate, threshold) {
          var content := Content(ThresholdTitle, alertBaseCurrency, rate, alertTargetCurrency);
          center.Add(Request(freshId, content, TimeInterval(5.0, false)));
        }
      }
    }

    /** The daily request's completion: at most one repeating request added, under the
        fixed identifier, at the stored hour and minute; no setting is written. */
    method DailyArrived(result: Fetch<RateTable>, center: NotificationCenter)
      modifies center
      ensures center.added == old(center.added)
        + DailyRequest(result, dailyBase, dailyTarget, alertHour, alertMinute).ToSeq()
    {
      if result.Decoded? && dailyTarget in result.body {
        var rate := result.body[dailyTarget];
        var content := Content(DailyTitle, dailyBase, rate, dailyTarget);
        center.Add(Request(DailyIdentifier, content, CalendarMatch(alertHour, alertMinute, true)));
      }
    }

    /** The time picker's setter: the picked hour and minute, or 8 and 0 when the
        component is absent. */
    method SetAlertTime(comps: TimeComponents)
      modifies this`alertHour, this`alertMinute
      ensures alertHour == comps.hour.GetOr(8) && alertMinute == comps.minute.GetOr(0)
    {
      alertHour := comps.hour.GetOr(8);
      alertMinute := comps.minute.GetOr(0);
    }
  }
}
