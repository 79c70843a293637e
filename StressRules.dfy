/**
  What a run of checkStressLevels promises, stated over the inputs a caller
  can see: the fetch result, the record's fields and the formatted time.
*/
module StressRules {
  import opened Wrappers
  import opened JsNumbers
  import opened StressMonitor

  /** A successful response whose `data` list starts with the given record. */
  function OkWith(status: int, r: Record, rest: seq<Entry>): FetchResult {
    Response(status, Payload(Some([Object(r)] + rest)))
  }

  predicate Contains(s: string, sub: string) {
    exists i :: 0 <= i <= |s| && sub <= s[i..]
  }

  /** With both fields present, a notification is sent iff the signed difference exceeds 1800 s or the day is stressful. */
  lemma NotifyRule(status: int, stress: int, recovery: int, summary: Option<string>, rest: seq<Entry>, time: string)
    requires IsOk(status)
    ensures Check(OkWith(status, Record(Number(stress), Number(recovery), summary), rest), time).Notify?
        <==> stress - recovery > 1800 || summary == Some("stressful")
  {
  }

  /** A difference of exactly the threshold on an ordinary day sends nothing. */
  lemma ThresholdIsStrict(status: int, stress: int, recovery: int, summary: Option<string>, rest: seq<Entry>, time: string)
    requires IsOk(status) && stress - recovery == STRESS_RECOVERY_THRESHOLD && summary != Some(STRESSFUL)
    ensures Check(OkWith(status, Record(Number(stress), Number(recovery), summary), rest), time) == NoNotification
  {
  }

  /** At or below the threshold, and not stressful: the run ends without a notification. */
  lemma QuietAtOrBelowThreshold(status: int, stress: int, recovery: int, summary: Option<string>, rest: seq<Entry>, time: string)
    requires IsOk(status) && stress - recovery <= STRESS_RECOVERY_THRESHOLD && summary != Some(STRESSFUL)
    ensures Check(OkWith(status, Record(Number(stress), Number(recovery), summary), rest), time) == NoNotification
  {
  }

  /** A stressful day notifies whatever the fields hold: a zero or negative difference, or a missing field. */
  lemma StressfulAlwaysNotifies(status: int, stress: Field, recovery: Field, rest: seq<Entry>, time: string)
    requires IsOk(status)
    ensures Check(OkWith(status, Record(stress, recovery, Some(STRESSFUL)), rest), time).Notify?
  {
  }

  /** A difference above the threshold notifies whatever the day summary is, missing included. */
  lemma LargeDifferenceAlwaysNotifies(status: int, stress: int, recovery: int, summary: Option<string>, rest: seq<Entry>, time: string)
    requires IsOk(status) && stress - recovery > STRESS_RECOVERY_THRESHOLD
    ensures Check(OkWith(status, Record(Number(stress), Number(recovery), summary), rest), time).Notify?
  {
  }

  /**
    A missing `stress_high` or `recovery_high` makes the difference NaN:
    only the day summary can then trigger, and the message reports "NaN" minutes.
  */
  lemma MissingFieldLeavesOnlySummary(status: int, r: Record, rest: seq<Entry>, time: string)
    requires IsOk(status) && (r.stressHigh.Absent? || r.recoveryHigh.Absent?)
    ensures var o := Check(OkWith(status, r, rest), time);
            && (o.Notify? <==> r.daySummary == Some(STRESSFUL))
            && (o.Notify? ==> o.minutes == NaN && o.request.message == NotificationMessage(time, NaN))
            && (r.daySummary != Some(STRESSFUL) ==> o == NoNotification)
  {
  }

  /** A null field is subtracted as 0: the run behaves as if the field held zero seconds. */
  lemma NullFieldCountsAsZero(status: int, stress: Field, recovery: Field, summary: Option<string>, rest: seq<Entry>, time: string)
    requires IsOk(status)
    ensures Check(OkWith(status, Record(Null, recovery, summary), rest), time)
         == Check(OkWith(status, Record(Number(0), recovery, summary), rest), time)
    ensures Check(OkWith(status, Record(stress, Null, summary), rest), time)
         == Check(OkWith(status, Record(stress, Number(0), summary), rest), time)
  {
  }

  /** A body without a non-empty `data` list aborts with "No stress data available!". */
  lemma NoDataAborts(status: int, body: Body, time: string)
    requires IsOk(status)
    requires body.Falsy? || body.data == None || body.data == Some([])
    ensures Check(Response(status, body), time) == Aborted(NoStressData)
    ensures NoStressData.Text() == Some("No stress data available!")
  {
  }

  /** Once `data[0]` is an object the run never aborts, whatever its fields hold, missing ones included. */
  lemma RecordNeverAborts(status: int, r: Record, rest: seq<Entry>, time: string)
    requires IsOk(status)
    ensures !Check(OkWith(status, r, rest), time).Aborted?
  {
  }

  /**
    A null `data[0]` passes the no-data guard; reading its `day_summary`
    raises a TypeError, which aborts the run with no message of the program's own.
  */
  lemma NullFirstEntryAborts(status: int, rest: seq<Entry>, time: string)
    requires IsOk(status)
    ensures Check(Response(status, Payload(Some([NullEntry] + rest))), time) == Aborted(RecordNotObject)
    ensures RecordNotObject.Text() == None
  {
  }

  /** A failed request or a non-2xx status aborts before any decision. */
  lemma FailedFetchAborts(fetch: FetchResult, time: string)
    requires fetch.FetchFailed? || !IsOk(fetch.status)
    ensures Check(fetch, time).Aborted?
    ensures fetch.Response? ==> Check(fetch, time).reason.Text() == Some("HTTP error! status: " + ToString(Int(fetch.status)))
  {
  }

  /** No notification is ever produced unless a first record was read from a 2xx response. */
  lemma NotifyNeedsRecord(fetch: FetchResult, time: string)
    requires Check(fetch, time).Notify?
    ensures fetch.Response? && IsOk(fetch.status)
    ensures fetch.body.Payload? && fetch.body.data.Some? && |fetch.body.data.value| > 0
    ensures fetch.body.data.value[0].Object?
  {
  }

  /** Only `data[0]` is read: records after it never change the outcome. */
  lemma OnlyFirstRecordMatters(status: int, first: Entry, rest: seq<Entry>, more: seq<Entry>, time: string)
    ensures Check(Response(status, Payload(Some([first] + rest + more))), time)
         == Check(Response(status, Payload(Some([first]))), time)
  {
    assert ([first] + rest + more)[0] == first;
  }

  /** The outcome depends on the record only through its difference and its day summary. */
  lemma OnlyDifferenceAndSummaryMatter(r1: Record, r2: Record, time: string)
    requires Difference(r1) == Difference(r2) && r1.daySummary == r2.daySummary
    ensures Decide(r1, time) == Decide(r2, time)
  {
  }

  /** Whether a notification is sent does not depend on the time of day. */
  lemma DecisionIgnoresTime(fetch: FetchResult, t1: string, t2: string)
    ensures Check(fetch, t1).Notify? == Check(fetch, t2).Notify?
    ensures Check(fetch, t1).Aborted? == Check(fetch, t2).Aborted?
  {
  }

  /** The reported minutes are the difference rounded to the nearest minute, halves up. */
  lemma NotifiedMinutesAreRounded(status: int, stress: int, recovery: int, summary: Option<string>, rest: seq<Entry>, time: string)
    requires IsOk(status)
    requires Check(OkWith(status, Record(Number(stress), Number(recovery), summary), rest), time).Notify?
    ensures var m := Check(OkWith(status, Record(Number(stress), Number(recovery), summary), rest), time).minutes;
            && m.Int?
            && 60 * m.value - 30 <= stress - recovery < 60 * m.value + 30
            && forall k :: Abs(stress - recovery - 60 * m.value) <= Abs(stress - recovery - 60 * k)
  {
    var m := RoundDiv60(stress - recovery);
    forall k ensures Abs(stress - recovery - 60 * m) <= Abs(stress - recovery - 60 * k) {
      RoundDiv60Nearest(stress - recovery, k);
    }
  }

  /** 7200 s of stress against 1800 s of recovery on a normal day: 5400 s, reported as 90 minutes. */
  lemma NinetyMinuteScenario(time: string)
    ensures var o := Check(OkWith(200, Record(Number(7200), Number(1800), Some("normal")), []), time);
            && o.Notify? && o.minutes == Int(90)
            && Contains(o.request.message, "90")
  {
    assert NatToDecimal(9) == "9";
    assert NatToDecimal(90) == "90";
    var lead := MESSAGE_PREFIX + time + MESSAGE_MIDDLE;
    MessageShowsMinutes(time, Int(90));
    var m := NotificationMessage(time, Int(90));
    assert m[|lead|..][..2] == m[|lead|..|lead| + 2] == "90";
  }

  /** 1000 s against 900 s is only 100 s, yet a stressful day still notifies. */
  lemma StressfulScenario(time: string)
    ensures var o := Check(OkWith(200, Record(Number(1000), Number(900), Some("stressful")), []), time);
            o.Notify? && o.minutes == Int(2)
  {
  }
}
