/**
  The decision step of `checkStressLevels`: from the result of fetching today's
  daily-stress summary, decide whether the run aborts, ends quietly, or sends
  a push notification, and with which message.

  The metrics fetch is abstracted as a FetchResult value, the current local
  time as an opaque, already formatted string, and the notification send is
  represented by the request it would be given.
*/
module StressMonitor {
  import opened Wrappers
  import opened JsNumbers

  /** Seconds by which stress may exceed recovery before a notification is due. */
  const STRESS_RECOVERY_THRESHOLD: int := 1800
  /** The provider's day classification that triggers a notification on its own. */
  const STRESSFUL: string := "stressful"
  const NOTIFICATION_TITLE: string := "Oura Stress Monitor"
  const NOTIFICATION_PRIORITY: int := 1

  /** A numeric field of a metrics record, as it can arrive in the JSON payload. */
  datatype Field = Absent | Null | Number(n: int)

  /** The number a field contributes to a subtraction: undefined is NaN, null is 0. */
  function ToNumber(f: Field): (x: Num)
    ensures x.NaN? <==> f.Absent?
    ensures x.Int? ==> x.value == (if f.Number? then f.n else 0)
  {
    match f
    case Absent => NaN
    case Null => Int(0)
    case Number(n) => Int(n)
  }

  /** One element of the `data` list: `stress_high`, `recovery_high`, `day_summary`. */
  datatype Record = Record(stressHigh: Field, recoveryHigh: Field, daySummary: Option<string>)

  /** An element of `data` is an object, or JSON null. */
  datatype Entry = NullEntry | Object(record: Record)

  /** The parsed response body: a falsy value, or an object whose `data` list may be missing. */
  datatype Body = Falsy | Payload(data: Option<seq<Entry>>)

  /**
    The outcome of the metrics request. FetchFailed stands for every error
    the request itself raises: a transport error, or a 2xx body that is not
    JSON. Otherwise the response has an HTTP status and, when that status
    is a success, a parsed body.
  */
  datatype FetchResult = FetchFailed | Response(status: int, body: Body)

  /** `response.ok`: a status in the range 200-299. */
  predicate IsOk(status: int)
    ensures IsOk(status) <==> status / 100 == 2
  {
    200 <= status <= 299
  }

  /** Why a run ends with a thrown error before anything is decided. */
  datatype AbortReason =
    | FetchError        // raised by the HTTP client or the JSON parser
    | HttpError(status: int)
    | NoStressData
    | RecordNotObject   // `data[0]` is null, so reading `day_summary` raises a TypeError
  {
    /** The error message the program itself writes; None for errors the runtime raises. */
    function Text(): (t: Option<string>)
      ensures t.Some? <==> HttpError? || NoStressData?
      ensures NoStressData? ==> t == Some("No stress data available!")
    {
      match this
      case HttpError(status) => Some("HTTP error! status: " + ToString(Int(status)))
      case NoStressData => Some("No stress data available!")
      case _ => None
    }
  }

  /** The form fields of the Pushover request other than the credentials. */
  datatype Notification = Notification(title: string, message: string, priority: int)

  datatype Outcome =
    | Aborted(reason: AbortReason)
    | NoNotification
    | Notify(minutes: Num, request: Notification)

  /** `stressHigh - recoveryHigh`, in seconds. */
  function Difference(r: Record): (d: Num)
    ensures d.Int? <==> !r.stressHigh.Absent? && !r.recoveryHigh.Absent?
  {
    Sub(ToNumber(r.stressHigh), ToNumber(r.recoveryHigh))
  }

  /** The trigger rule: strictly more than the threshold, or a stressful day. */
  predicate ShouldNotify(difference: Num, daySummary: Option<string>)
    ensures daySummary == Some(STRESSFUL) ==> ShouldNotify(difference, daySummary)
    ensures !ShouldNotify(difference, daySummary)
        <==> (difference.NaN? || difference.value <= STRESS_RECOVERY_THRESHOLD) && daySummary != Some(STRESSFUL)
  {
    GreaterThan(difference, STRESS_RECOVERY_THRESHOLD) || daySummary == Some(STRESSFUL)
  }

  const MESSAGE_PREFIX: string := "It's "
  const MESSAGE_MIDDLE: string := " and your stress-recovery difference is "
  const MESSAGE_SUFFIX: string := " minutes.\n\nConsider taking a restorative break."

  /** The notification text for the formatted local time and the rounded difference. */
  function NotificationMessage(time: string, minutes: Num): (m: string)
    ensures |m| == |MESSAGE_PREFIX + time + MESSAGE_MIDDLE| + |ToString(minutes)| + |MESSAGE_SUFFIX|
    ensures m[..|MESSAGE_PREFIX|] == MESSAGE_PREFIX
    ensures m[|MESSAGE_PREFIX|..|MESSAGE_PREFIX| + |time|] == time
    ensures m[|MESSAGE_PREFIX| + |time|..|MESSAGE_PREFIX + time + MESSAGE_MIDDLE|] == MESSAGE_MIDDLE
    ensures m[|m| - |MESSAGE_SUFFIX|..] == MESSAGE_SUFFIX
  {
    MESSAGE_PREFIX + time + MESSAGE_MIDDLE + ToString(minutes) + MESSAGE_SUFFIX
  }

  /** The rounded minutes occupy the message right after the fixed text that announces them. */
  lemma MessageShowsMinutes(time: string, minutes: Num)
    ensures var lead := MESSAGE_PREFIX + time + MESSAGE_MIDDLE;
            var m := NotificationMessage(time, minutes);
            m[|lead|..|lead| + |ToString(minutes)|] == ToString(minutes)
  {
  }

  /** Two messages for the same time are equal only if they report the same minutes. */
  lemma {:induction false} MessageDeterminesMinutes(time: string, a: Num, b: Num)
    requires NotificationMessage(time, a) == NotificationMessage(time, b)
    ensures a == b
  {
    var lead := MESSAGE_PREFIX + time + MESSAGE_MIDDLE;
    var m := NotificationMessage(time, a);
    MessageShowsMinutes(time, a);
    MessageShowsMinutes(time, b);
    assert |ToString(a)| == |ToString(b)|;
    ToStringInjective(a, b);
  }

  /** What the run does with a record it managed to read. */
  function Decide(r: Record, time: string): (o: Outcome)
    ensures !o.Aborted?
    ensures o.Notify? <==> ShouldNotify(Difference(r), r.daySummary)
    ensures o.Notify? ==> o.minutes == RoundMinutes(Difference(r))
    ensures o.Notify? ==> o.request.message == NotificationMessage(time, o.minutes)
    ensures o.Notify? ==> o.request.title == NOTIFICATION_TITLE && o.request.priority == NOTIFICATION_PRIORITY
  {
    var difference := Difference(r);
    var minutes := RoundMinutes(difference);
    if ShouldNotify(difference, r.daySummary) then
      Notify(minutes, Notification(NOTIFICATION_TITLE, NotificationMessage(time, minutes), NOTIFICATION_PRIORITY))
    else
      NoNotification
  }

  /** The fetch produced a readable first record; only then is anything decided. */
  predicate HasRecord(fetch: FetchResult)
    ensures HasRecord(fetch) ==> fetch.Response? && IsOk(fetch.status)
    ensures HasRecord(fetch) ==> fetch.body.Payload? && fetch.body.data.Some? && fetch.body.data.value != []
    ensures (&& fetch.Response? && IsOk(fetch.status) && fetch.body.Payload?
             && fetch.body.data.Some? && fetch.body.data.value != [])
        ==> (HasRecord(fetch) <==> fetch.body.data.value[0].Object?)
  {
    && fetch.Response?
    && IsOk(fetch.status)
    && fetch.body.Payload?
    && fetch.body.data.Some?
    && |fetch.body.data.value| > 0
    && fetch.body.data.value[0].Object?
  }

  /** `data[0]`: the list is that record followed by the rest, which is never read. */
  function FirstRecord(fetch: FetchResult): (r: Record)
    requires HasRecord(fetch)
    ensures fetch.body.data.value == [Object(r)] + fetch.body.data.value[1..]
  {
    fetch.body.data.value[0].record
  }

  /** One run of checkStressLevels, given the metrics fetch and the formatted local time. */
  function Check(fetch: FetchResult, time: string): (o: Outcome)
    ensures o.Aborted? <==> !HasRecord(fetch)
    ensures fetch.FetchFailed? ==> o == Aborted(FetchError)
    ensures fetch.Response? && !IsOk(fetch.status) ==> o == Aborted(HttpError(fetch.status))
    ensures o == Aborted(RecordNotObject)
        <==> (&& fetch.Response? && IsOk(fetch.status) && fetch.body.Payload?
              && fetch.body.data.Some? && fetch.body.data.value != [] && fetch.body.data.value[0] == NullEntry)
    ensures HasRecord(fetch) ==> o == Decide(FirstRecord(fetch), time)
  {
    match fetch
    case FetchFailed => Aborted(FetchError)
    case Response(status, body) =>
      if !IsOk(status) then Aborted(HttpError(status))
      else if body.Falsy? || body.data.None? || |body.data.value| == 0 then Aborted(NoStressData)
      else match body.data.value[0]
        case NullEntry => Aborted(RecordNotObject)
        case Object(r) => Decide(r, time)
  }
}
