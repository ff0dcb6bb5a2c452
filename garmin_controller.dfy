/** The rules inside `GarminController`: which local user a request acts for, the step
  * summary built from fetched dailies (with its query window), and the deregistration
  * fan-out. The request principal, the clock and the service calls are parameters. */
module Controller {
  import opened Wrappers
  import JavaLang
  import Dates

  // ---- Which user a request acts for ----

  /** The precedence both handlers use: a non-empty `testUserId`, else the authenticated
    * user's id (`None` when there is no principal or it has no id). The step-data handler
    * uses it as it is, `None` being its 401. */
  function PreferredUserId(testUserId: Option<string>, authenticatedUserId: Option<string>): (r: Option<string>)
    ensures r.None? <==> (testUserId.None? || testUserId.value == []) && authenticatedUserId.None?
    ensures testUserId.Some? && testUserId.value != [] ==> r == testUserId
    ensures testUserId.None? || testUserId.value == [] ==> r == authenticatedUserId
  {
    if testUserId.Some? && testUserId.value != [] then testUserId else authenticatedUserId
  }

  const FALLBACK_PREFIX := "fallback-user-"

  /** The authorize handler never refuses: without a preferred id it makes one up from
    * the clock. */
  function ResolveAuthorizeUserId(testUserId: Option<string>, authenticatedUserId: Option<string>,
                                  nowMillis: int): (userId: string)
    ensures PreferredUserId(testUserId, authenticatedUserId).Some? ==>
      userId == PreferredUserId(testUserId, authenticatedUserId).value
    ensures PreferredUserId(testUserId, authenticatedUserId).None? ==>
      userId == FALLBACK_PREFIX + JavaLang.LongToString(nowMillis)
  {
    match PreferredUserId(testUserId, authenticatedUserId)
    case Some(u) => u
    case None => FALLBACK_PREFIX + JavaLang.LongToString(nowMillis)
  }

  /** The two handlers agree whenever the step handler accepts; when it refuses, the
    * authorize handler's id is a fallback id that carries the clock reading. */
  lemma AuthorizeAndStepsAgree(testUserId: Option<string>, authenticatedUserId: Option<string>, nowMillis: int)
    ensures var u := ResolveAuthorizeUserId(testUserId, authenticatedUserId, nowMillis);
      match PreferredUserId(testUserId, authenticatedUserId)
      case Some(s) => u == s
      case None =>
        && |u| >= |FALLBACK_PREFIX| && u[..|FALLBACK_PREFIX|] == FALLBACK_PREFIX
        && JavaLang.ParseLong(u[|FALLBACK_PREFIX|..]) == Some(nowMillis)
  {
    var u := ResolveAuthorizeUserId(testUserId, authenticatedUserId, nowMillis);
    if PreferredUserId(testUserId, authenticatedUserId).None? {
      JavaLang.LongToStringRoundTrip(nowMillis);
      assert u[|FALLBACK_PREFIX|..] == JavaLang.LongToString(nowMillis);
    }
  }

  /** An empty `testUserId` counts as absent, and a non-empty one wins over any principal. */
  lemma TestUserIdPrecedence(testUserId: string, authenticatedUserId: Option<string>, other: Option<string>)
    ensures PreferredUserId(Some([]), authenticatedUserId) == PreferredUserId(None, authenticatedUserId)
    ensures testUserId != [] ==>
      PreferredUserId(Some(testUserId), authenticatedUserId) == PreferredUserId(Some(testUserId), other)
  {
  }

  /** `UserTokenImpl.getUserId`: the stored id, or `test-user-` followed by the clock. */
  function RequestScopedUserId(storedUserId: Option<string>, nowMillis: int): (userId: string)
    ensures storedUserId.Some? ==> userId == storedUserId.value
    ensures storedUserId.None? ==>
      && |userId| > |TEST_USER_PREFIX| && userId[..|TEST_USER_PREFIX|] == TEST_USER_PREFIX
      && JavaLang.ParseLong(userId[|TEST_USER_PREFIX|..]) == Some(nowMillis)
  {
    if storedUserId.Some? then storedUserId.value
    else
      JavaLang.LongToStringRoundTrip(nowMillis);
      assert (TEST_USER_PREFIX + JavaLang.LongToString(nowMillis))[|TEST_USER_PREFIX|..]
          == JavaLang.LongToString(nowMillis);
      TEST_USER_PREFIX + JavaLang.LongToString(nowMillis)
  }

  const TEST_USER_PREFIX := "test-user-"

  /** When the principal is the request-scoped `UserTokenImpl`, its id is never null: the
    * authorize handler never falls back and the step handler never answers 401. */
  lemma RequestScopedPrincipalAlwaysResolves(testUserId: Option<string>, storedUserId: Option<string>,
                                             tokenMillis: int, nowMillis: int)
    ensures var authenticated := Some(RequestScopedUserId(storedUserId, tokenMillis));
      && PreferredUserId(testUserId, authenticated).Some?
      && ResolveAuthorizeUserId(testUserId, authenticated, nowMillis)
         == PreferredUserId(testUserId, authenticated).value
  {
  }

  // ---- The query window ----

  /** An absent date parameter means today. */
  function DayOrToday(date: Option<Dates.LocalDate>, today: Dates.LocalDate): (d: Dates.LocalDate)
    ensures date.Some? ==> d == date.value
    ensures date.None? ==> d == today
  {
    date.GetOr(today)
  }

  /** A second lies in the window from `start` 00:00:00 to `end` 23:59:59 (UTC) exactly
    * when its day lies between the two dates. */
  lemma {:induction false} WindowCoversWholeDays(start: Dates.LocalDate, end: Dates.LocalDate, second: int)
    requires 1 <= start.month <= 12 && 1 <= end.month <= 12
    ensures (Dates.StartOfDaySeconds(start) <= second <= Dates.EndOfDaySeconds(end))
        <==> (Dates.ToEpochDay(start) <= second / 86400 <= Dates.ToEpochDay(end))
  {
    var day, r := second / 86400, second % 86400;
    assert second == day * 86400 + r && 0 <= r < 86400;
    var a, b := Dates.ToEpochDay(start), Dates.ToEpochDay(end);
    if a <= day {
      assert a * 86400 <= day * 86400;
    } else {
      assert (day + 1) * 86400 <= a * 86400;
    }
    if day <= b {
      assert day * 86400 <= b * 86400;
    } else {
      assert (b + 1) * 86400 <= day * 86400;
    }
  }

  /** With both dates defaulted (or equal), the window is one day long less a second. */
  lemma SingleDayWindow(d: Dates.LocalDate)
    requires 1 <= d.month <= 12
    ensures Dates.EndOfDaySeconds(d) - Dates.StartOfDaySeconds(d) == 86399
  {
  }

  // ---- Step aggregation ----

  /** The fields of a fetched daily summary that the step response reads. The Integer
    * fields are not confined to 32 bits here: the total is wrapped whatever they hold. */
  datatype StepSummary = StepSummary(calendarDate: Option<string>, steps: Option<int>,
                                     stepsGoal: Option<int>, activeKilocalories: Option<int>)

  /** One element of the response's `data` list. */
  datatype StepEntry = StepEntry(date: string, steps: int, stepsGoal: int, activeKilocalories: int)

  /** A missing step count counts as 0. */
  function StepsOf(s: StepSummary): int {
    s.steps.GetOr(0)
  }

  /** The mathematical total of the step counts. */
  function SumSteps(ss: seq<StepSummary>): int {
    if ss == [] then 0 else SumSteps(ss[..|ss| - 1]) + StepsOf(ss[|ss| - 1])
  }

  /** The `data` entry of a summary that has a date; absent counters become 0. */
  function EntryOf(s: StepSummary): (e: StepEntry)
    requires s.calendarDate.Some?
    ensures e.date == s.calendarDate.value && e.steps == StepsOf(s)
    ensures s.stepsGoal.Some? ==> e.stepsGoal == s.stepsGoal.value
    ensures s.stepsGoal.None? ==> e.stepsGoal == 0
    ensures s.activeKilocalories.Some? ==> e.activeKilocalories == s.activeKilocalories.value
    ensures s.activeKilocalories.None? ==> e.activeKilocalories == 0
  {
    StepEntry(s.calendarDate.value, StepsOf(s), s.stepsGoal.GetOr(0), s.activeKilocalories.GetOr(0))
  }

  predicate AllDated(ss: seq<StepSummary>) {
    forall i :: 0 <= i < |ss| ==> ss[i].calendarDate.Some?
  }

  /** The loop over the fetched summaries: `totalSteps` is an `int` and wraps around; an
    * entry without a date makes `Map.of` throw, which ends the loop. */
  method AggregateSteps(summaries: seq<StepSummary>) returns (ok: bool, totalSteps: int, stepData: seq<StepEntry>)
    ensures ok <==> AllDated(summaries)
    ensures ok ==> totalSteps == JavaLang.Wrap32(SumSteps(summaries))
    ensures ok ==>
      (&& |stepData| == |summaries|
       && forall i :: 0 <= i < |summaries| ==> stepData[i] == EntryOf(summaries[i]))
  {
    totalSteps := 0;
    stepData := [];
    for i := 0 to |summaries|
      invariant totalSteps == JavaLang.Wrap32(SumSteps(summaries[..i]))
      invariant AllDated(summaries[..i])
      invariant |stepData| == i && forall j :: 0 <= j < i ==> stepData[j] == EntryOf(summaries[j])
    {
      var summary := summaries[i];
      var steps := if summary.steps.Some? then summary.steps.value else 0;
      assert summaries[..i + 1][..i] == summaries[..i];
      JavaLang.Wrap32AddLeft(SumSteps(summaries[..i]), steps);
      totalSteps := JavaLang.Wrap32(totalSteps + steps);
      if summary.calendarDate.None? {
        return false, totalSteps, stepData;
      }
      stepData := stepData + [StepEntry(summary.calendarDate.value, steps,
                                        if summary.stepsGoal.Some? then summary.stepsGoal.value else 0,
                                        if summary.activeKilocalories.Some? then summary.activeKilocalories.value else 0)];
    }
    assert summaries[..|summaries|] == summaries;
    ok := true;
  }

  /** `averageDailySteps`: Java's truncating division, guarded against an empty list. A
    * wrapped (negative) total is rounded toward zero too. */
  function AverageDailySteps(totalSteps: int, count: int): (avg: int)
    ensures count > 0 ==> avg == JavaLang.JavaDiv(totalSteps, count)
    ensures count > 0 && totalSteps >= 0 ==> avg >= 0 && avg * count <= totalSteps < avg * count + count
    ensures count > 0 && totalSteps < 0 ==> avg <= 0 && avg * count - count < totalSteps <= avg * count
    ensures count <= 0 ==> avg == 0
  {
    if count > 0 then JavaLang.JavaDiv(totalSteps, count) else 0
  }

  lemma {:induction false} SumStepsAppend(a: seq<StepSummary>, b: seq<StepSummary>)
    ensures SumSteps(a + b) == SumSteps(a) + SumSteps(b)
    decreases |b|
  {
    if b == [] {
      assert a + b == a;
    } else {
      var b' := b[..|b| - 1];
      assert (a + b)[..|a + b| - 1] == a + b';
      SumStepsAppend(a, b');
    }
  }

  /** Summaries whose step count is missing add nothing to the total. */
  lemma NullStepsAddNothing(ss: seq<StepSummary>, s: StepSummary)
    requires s.steps.None?
    ensures SumSteps(ss + [s]) == SumSteps(ss)
  {
    assert (ss + [s])[..|ss|] == ss;
  }

  /** With non-negative counts whose sum fits an `int`, the reported total is the true sum. */
  lemma {:induction false} TotalDoesNotWrapWhenSmall(ss: seq<StepSummary>)
    requires forall i :: 0 <= i < |ss| ==> StepsOf(ss[i]) >= 0
    requires SumSteps(ss) <= JavaLang.INT_MAX
    ensures JavaLang.Wrap32(SumSteps(ss)) == SumSteps(ss)
  {
    SumStepsNonNegative(ss);
  }

  lemma {:induction false} SumStepsNonNegative(ss: seq<StepSummary>)
    requires forall i :: 0 <= i < |ss| ==> StepsOf(ss[i]) >= 0
    ensures SumSteps(ss) >= 0
    decreases |ss|
  {
    if ss != [] {
      SumStepsNonNegative(ss[..|ss| - 1]);
    }
  }

  /** `n` days of `k` steps each total `n * k` steps. */
  lemma {:induction false} UniformDaysTotal(ss: seq<StepSummary>, k: nat)
    requires forall i :: 0 <= i < |ss| ==> StepsOf(ss[i]) == k
    ensures SumSteps(ss) == |ss| * k
    decreases |ss|
  {
    if ss != [] {
      UniformDaysTotal(ss[..|ss| - 1], k);
      assert SumSteps(ss) == (|ss| - 1) * k + k;
    }
  }

  /** ... and, while that total fits an `int`, the response reports it unwrapped and an
    * average of `k` steps a day. */
  lemma UniformDaysAverage(ss: seq<StepSummary>, k: nat)
    requires ss != [] && forall i :: 0 <= i < |ss| ==> StepsOf(ss[i]) == k
    requires |ss| * k <= JavaLang.INT_MAX
    ensures JavaLang.Wrap32(SumSteps(ss)) == |ss| * k
    ensures AverageDailySteps(JavaLang.Wrap32(SumSteps(ss)), |ss|) == k
  {
    UniformDaysTotal(ss, k);
    DivOfMultiple(|ss|, k);
  }

  lemma DivOfMultiple(n: int, k: nat)
    requires n > 0
    ensures (n * k) / n == k
  {
    var q, r := (n * k) / n, (n * k) % n;
    assert n * k == n * q + r && 0 <= r < n;
    assert n * (k - q) == r;
    ZeroFactor(n, k - q);
  }

  lemma MulMonotone(a: int, b: int, n: nat)
    requires a <= b
    ensures a * n <= b * n
  {
  }

  lemma ZeroFactor(n: int, m: int)
    requires n > 0 && 0 <= n * m < n
    ensures m == 0
  {
    if m >= 1 {
      MulMonotone(1, m, n);
    } else if m <= -1 {
      MulMonotone(m, -1, n);
    }
  }

  // ---- The step-data handler ----

  /** What `garminService.fetchDailiesData` does: returns an array (or null), or throws. */
  datatype FetchCall = Fetched(summaries: Option<seq<StepSummary>>) | FetchThrew(message: string)

  /** `String.valueOf` of the message of the `NullPointerException` that `Map.of` throws. */
  const NULL_MESSAGE := "null"

  datatype StepsResponse =
    | Unauthorized                                   // 401, asks for testUserId or authentication
    | NoStepData(userId: string)                     // 200, totalSteps 0 and empty data
    | StepData(userId: string, totalSteps: int, averageDailySteps: int, data: seq<StepEntry>)
    | ServerError(message: string)                   // 500, "Failed to fetch step data: " + message

  /** The response for a resolved user and the outcome of the fetch. */
  function StepsResponseFor(userId: string, call: FetchCall): (r: StepsResponse)
    ensures call.FetchThrew? ==> r == ServerError(call.message)
    ensures call.Fetched? && (call.summaries.None? || call.summaries.value == []) ==> r == NoStepData(userId)
    ensures call.Fetched? && call.summaries.Some? && !AllDated(call.summaries.value) ==> r == ServerError(NULL_MESSAGE)
    ensures r.StepData? <==>
      call.Fetched? && call.summaries.Some? && |call.summaries.value| > 0 && AllDated(call.summaries.value)
    ensures r.StepData? ==>
      var ss := call.summaries.value;
      && r.userId == userId
      && r.totalSteps == JavaLang.Wrap32(SumSteps(ss))
      && r.averageDailySteps == AverageDailySteps(r.totalSteps, |ss|)
      && |r.data| == |ss|
      && (forall i :: 0 <= i < |ss| ==> r.data[i] == EntryOf(ss[i]))
  {
    match call
    case FetchThrew(message) => ServerError(message)
    case Fetched(None) => NoStepData(userId)
    case Fetched(Some(summaries)) =>
      if summaries == [] then NoStepData(userId)
      else if !AllDated(summaries) then ServerError(NULL_MESSAGE)
      else
        var total := JavaLang.Wrap32(SumSteps(summaries));
        StepData(userId, total, AverageDailySteps(total, |summaries|),
                 seq(|summaries|, i requires 0 <= i < |summaries| => EntryOf(summaries[i])))
  }

  method GetStepData(testUserId: Option<string>, authenticatedUserId: Option<string>,
                     startDate: Option<Dates.LocalDate>, endDate: Option<Dates.LocalDate>, today: Dates.LocalDate,
                     fetch: (string, int, int) -> FetchCall)
    returns (response: StepsResponse)
    requires Dates.Valid(today)
    requires startDate.Some? ==> Dates.Valid(startDate.value)
    requires endDate.Some? ==> Dates.Valid(endDate.value)
    ensures PreferredUserId(testUserId, authenticatedUserId).None? ==> response == Unauthorized
    ensures PreferredUserId(testUserId, authenticatedUserId).Some? ==>
      var userId := PreferredUserId(testUserId, authenticatedUserId).value;
      response == StepsResponseFor(userId, fetch(userId, Dates.StartOfDaySeconds(DayOrToday(startDate, today)),
                                                 Dates.EndOfDaySeconds(DayOrToday(endDate, today))))
  {
    var resolved := PreferredUserId(testUserId, authenticatedUserId);
    if resolved.None? {
      return Unauthorized;
    }
    var userId := resolved.value;
    var start := DayOrToday(startDate, today);
    var end := DayOrToday(endDate, today);
    var startSeconds := Dates.StartOfDaySeconds(start);
    var endSeconds := Dates.EndOfDaySeconds(end);
    var call := fetch(userId, startSeconds, endSeconds);
    if call.FetchThrew? {
      return ServerError(call.message);
    }
    if call.summaries.None? || call.summaries.value == [] {
      return NoStepData(userId);
    }
    var summaries := call.summaries.value;
    var ok, totalSteps, stepData := AggregateSteps(summaries);
    if !ok {
      return ServerError(NULL_MESSAGE);
    }
    response := StepData(userId, totalSteps, AverageDailySteps(totalSteps, |summaries|), stepData);
  }

  // ---- Deregistration fan-out ----

  /** One element of the `deregistrations` list: a JSON object (`None` for a JSON null),
    * whose values may themselves be null. */
  type Deregistration = Option<map<string, Option<string>>>
  type Notification = map<string, Option<seq<Deregistration>>>

  function UserIdOf(entry: map<string, Option<string>>): Option<string> {
    if "userId" in entry then entry["userId"] else None
  }

  /** `notification.get("deregistrations")`. */
  function DeregistrationsOf(notification: Notification): Option<seq<Deregistration>> {
    if "deregistrations" in notification then notification["deregistrations"] else None
  }

  /** The loop's outcome: whether it finished, and the Garmin ids passed to
    * `handleDeregistration`, in order. A null element, or a call that throws, ends it. */
  function FanOut(entries: seq<Deregistration>, fails: string -> bool): (r: (bool, seq<string>))
    ensures |r.1| <= |entries|
  {
    if entries == [] then (true, [])
    else match entries[0]
      case None => (false, [])
      case Some(entry) =>
        match UserIdOf(entry)
        case None => FanOut(entries[1..], fails)
        case Some(garminUserId) =>
          if fails(garminUserId) then (false, [garminUserId])
          else var rest := FanOut(entries[1..], fails); (rest.0, [garminUserId] + rest.1)
  }

  /** The non-null user ids of a list without null elements, in order. */
  function NonNullUserIds(entries: seq<Deregistration>): seq<string>
    requires forall i :: 0 <= i < |entries| ==> entries[i].Some?
  {
    if entries == [] then []
    else match UserIdOf(entries[0].value)
      case None => NonNullUserIds(entries[1..])
      case Some(id) => [id] + NonNullUserIds(entries[1..])
  }

  /** When no element is null and no call throws, every entry with a user id is handled
    * once, in list order, and the loop finishes. */
  lemma {:induction false} FanOutHandlesEachIdInOrder(entries: seq<Deregistration>, fails: string -> bool)
    requires forall i :: 0 <= i < |entries| ==> entries[i].Some?
    requires forall id :: !fails(id)
    ensures FanOut(entries, fails) == (true, NonNullUserIds(entries))
    decreases |entries|
  {
    if entries != [] {
      FanOutHandlesEachIdInOrder(entries[1..], fails);
    }
  }

  /** Every id handled comes from an entry of the list. */
  lemma {:induction false} FanOutCallsComeFromEntries(entries: seq<Deregistration>, fails: string -> bool)
    ensures forall id :: id in FanOut(entries, fails).1 ==>
      exists i :: 0 <= i < |entries| && entries[i].Some? && UserIdOf(entries[i].value) == Some(id)
    decreases |entries|
  {
    if entries != [] {
      FanOutCallsComeFromEntries(entries[1..], fails);
      forall id | id in FanOut(entries, fails).1
        ensures exists i :: 0 <= i < |entries| && entries[i].Some? && UserIdOf(entries[i].value) == Some(id)
      {
        if id !in FanOut(entries[1..], fails).1 {
          assert UserIdOf(entries[0].value) == Some(id);
        } else {
          var i :| 0 <= i < |entries[1..]| && entries[1..][i].Some? && UserIdOf(entries[1..][i].value) == Some(id);
          assert entries[i + 1] == entries[1..][i];
        }
      }
    }
  }

  /** The handler: 200 once the loop finishes (or when there is nothing to do), 500 when
    * it is cut short. `fails` says for which ids `handleDeregistration` throws. */
  method HandleDeregistrationNotification(notification: Notification, fails: string -> bool)
    returns (status: int, calls: seq<string>)
    ensures DeregistrationsOf(notification).None? || DeregistrationsOf(notification).value == [] ==>
      status == 200 && calls == []
    ensures DeregistrationsOf(notification).Some? ==>
      var r := FanOut(DeregistrationsOf(notification).value, fails);
      calls == r.1 && status == (if r.0 then 200 else 500)
  {
    var deregistrations := DeregistrationsOf(notification);
    if deregistrations.None? || deregistrations.value == [] {
      return 200, [];
    }
    var entries := deregistrations.value;
    calls := [];
    var i := 0;
    assert entries[0..] == entries;
    assert calls + FanOut(entries, fails).1 == FanOut(entries, fails).1;
    while i < |entries|
      invariant 0 <= i <= |entries|
      invariant FanOut(entries, fails).0 == FanOut(entries[i..], fails).0
      invariant FanOut(entries, fails).1 == calls + FanOut(entries[i..], fails).1
    {
      var dereg := entries[i];
      assert entries[i..][0] == dereg && entries[i..][1..] == entries[i + 1..];
      if dereg.None? {
        return 500, calls;
      }
      var garminUserId := UserIdOf(dereg.value);
      if garminUserId.Some? {
        calls := calls + [garminUserId.value];
        if fails(garminUserId.value) {
          return 500, calls;
        }
      }
      i := i + 1;
    }
    status := 200;
  }
}
