/**
 * The loading page (Components/Loading/Loading.tsx): a one-shot guard in
 * front of the check-in submission. The page may only be entered while the
 * session flag `connecther-report-submitted` is set; it then sends the
 * check-in data it was navigated with, clears the flag when the request
 * settles either way, and moves on to the results or back to the symptom
 * checker.
 *
 * `sessionStorage` is an object of its own, shared with the rest of the
 * application. The effect's synchronous part is `Mount`; the settling of
 * the submission promise is `Settle`, whose input says how it settled.
 */
module Loading {
  import opened Wrappers
  import opened ApiService

  /** The session storage key that lets the loading page be entered. */
  const ReportSubmittedKey := "connecther-report-submitted"

  /** Where the page navigates to. */
  const HomePath := "/"
  const RecommendationsPath := "/recommendations"
  const SymptomCheckerPath := "/symptom-checker"

  /** `window.sessionStorage`: string values by key. */
  class SessionStorage {
    var items: map<string, string>

    constructor (initial: map<string, string>)
      ensures items == initial
    {
      items := initial;
    }

    /** `getItem(key)`: the value, or `null`. */
    method GetItem(key: string) returns (value: Option<string>)
      ensures key in items ==> value == Some(items[key])
      ensures key !in items ==> value == None
    {
      if key in items {
        value := Some(items[key]);
      } else {
        value := None;
      }
    }

    /** `removeItem(key)` */
    method RemoveItem(key: string)
      modifies this`items
      ensures items == old(items) - {key}
    {
      items := items - {key};
    }
  }

  /** The value stored under `key`, as `getItem` returns it. */
  function StoredValue(items: map<string, string>, key: string): Option<string> {
    if key in items then Some(items[key]) else None
  }

  /** `!submitted` is false: the flag is there and is not the empty string. */
  predicate FlagSet(flag: Option<string>) {
    flag.Some? && flag.value != ""
  }

  /** `state?.checkInData` when it is truthy: the check-in to submit, if any. */
  function CheckInData(locationState: Json): (data: Option<Json>)
    ensures data.Some? ==> Truthy(data.value) && Property(locationState, "checkInData") == data
    ensures data.None? ==> Property(locationState, "checkInData").None? || !Truthy(Property(locationState, "checkInData").value)
  {
    var d := Property(locationState, "checkInData");
    if d.Some? && Truthy(d.value) then d else None
  }

  /** The state a navigation carries. */
  datatype RouteState =
    | NoState
    | ResultsState(recommendations: Option<Json>, aiMessage: Option<Json>, checkInId: Option<Json>)

  /** A call `navigate(path, { replace, state })`. */
  datatype Navigation = Navigation(path: string, replace: bool, state: RouteState)

  /** How the `submitCheckIn` promise settles: with the parsed response, or by rejecting. */
  datatype SubmitOutcome = Resolved(response: Json) | Rejected

  /** What the effect does on entry: the `allowed` state, the navigations made, and the check-in sent, if any. */
  datatype EntryPlan = EntryPlan(allowed: Option<bool>, navigations: seq<Navigation>, submission: Option<Json>)

  /**
   * The effect on entry with session flag `flag` and navigation state
   * `locationState`. Without the flag the page sends the user home and
   * never sets `allowed`; with it the page is allowed and sends the
   * check-in data, if it was given any.
   */
  function OnEntry(flag: Option<string>, locationState: Json): (plan: EntryPlan)
    ensures plan.allowed == Some(true) <==> FlagSet(flag)
    ensures plan.allowed != Some(true) ==> plan.allowed == None
    ensures !FlagSet(flag) ==> plan.navigations == [Navigation(HomePath, true, NoState)] && plan.submission == None
    ensures FlagSet(flag) ==> plan.navigations == [] && plan.submission == CheckInData(locationState)
  {
    if !FlagSet(flag) then EntryPlan(None, [Navigation(HomePath, true, NoState)], None)
    else EntryPlan(Some(true), [], CheckInData(locationState))
  }

  /** The two handlers chained on the submission: `.then(...)` and the `.catch(...)` after it. */
  datatype Handler = ThenHandler | CatchHandler

  /**
   * The `then` handler throws: it reads `response.recommendations` while
   * building the navigation, which throws a TypeError on a `null` response,
   * after it has already removed the flag.
   */
  predicate ThenThrows(outcome: SubmitOutcome) {
    outcome.Resolved? && outcome.response.JNull?
  }

  /**
   * The handlers that run, in order. The `catch` is chained on the promise
   * the `then` returns, so it runs after a rejection and also after the
   * `then` handler itself throws.
   */
  function HandlersRun(outcome: SubmitOutcome): (runs: seq<Handler>)
    ensures 1 <= |runs| <= 2
    ensures ThenHandler in runs <==> outcome.Resolved?
    ensures CatchHandler in runs <==> outcome.Rejected? || ThenThrows(outcome)
    ensures |runs| == 2 <==> ThenThrows(outcome)
    ensures |runs| == 2 ==> runs[0] == ThenHandler
  {
    match outcome
    case Rejected => [CatchHandler]
    case Resolved(response) => if response.JNull? then [ThenHandler, CatchHandler] else [ThenHandler]
  }

  /**
   * Where the page goes once the submission settles: to the results with
   * the response's `recommendations`, `ai_message` and `check_in_id`, or,
   * once the `catch` has run, back to the symptom checker. Both replace the
   * entry.
   */
  function AfterSubmit(outcome: SubmitOutcome): (nav: Navigation)
    ensures nav.replace
    ensures nav.path == RecommendationsPath <==> outcome.Resolved? && !ThenThrows(outcome)
    ensures nav.path == SymptomCheckerPath <==> CatchHandler in HandlersRun(outcome)
    ensures CatchHandler in HandlersRun(outcome) ==> nav == Navigation(SymptomCheckerPath, true, NoState)
    ensures outcome.Resolved? && !ThenThrows(outcome) ==>
      nav.state == ResultsState(Property(outcome.response, "recommendations"),
                                Property(outcome.response, "ai_message"),
                                Property(outcome.response, "check_in_id"))
  {
    match outcome
    case Resolved(response) =>
      if response.JNull? then Navigation(SymptomCheckerPath, true, NoState)
      else
        Navigation(RecommendationsPath, true,
                   ResultsState(Property(response, "recommendations"),
                                Property(response, "ai_message"),
                                Property(response, "check_in_id")))
    case Rejected => Navigation(SymptomCheckerPath, true, NoState)
  }

  /**
   * A submission that succeeds with a `null` body runs both handlers: the
   * flag is removed twice and the user is sent back to the symptom checker
   * as though the submission had failed.
   */
  lemma NullResponseRunsBothHandlers()
    ensures HandlersRun(Resolved(JNull)) == [ThenHandler, CatchHandler]
    ensures AfterSubmit(Resolved(JNull)) == Navigation(SymptomCheckerPath, true, NoState)
  {
  }

  /** Settling with exactly one handler: the `catch` answers only a failed submission. */
  function IntendedHandlersRun(outcome: SubmitOutcome): (runs: seq<Handler>)
    ensures |runs| == 1
    ensures runs[0] == ThenHandler <==> outcome.Resolved?
  {
    if outcome.Resolved? then [ThenHandler] else [CatchHandler]
  }

  /**
   * The navigation with the response's fields read optionally
   * (`response?.recommendations`): every successful submission leads to
   * the results.
   */
  function IntendedAfterSubmit(outcome: SubmitOutcome): (nav: Navigation)
    ensures nav.replace
    ensures nav.path == RecommendationsPath <==> outcome.Resolved?
    ensures outcome.Rejected? ==> nav == Navigation(SymptomCheckerPath, true, NoState)
    ensures outcome.Resolved? ==>
      nav.state == ResultsState(Property(outcome.response, "recommendations"),
                                Property(outcome.response, "ai_message"),
                                Property(outcome.response, "check_in_id"))
  {
    match outcome
    case Resolved(response) =>
      Navigation(RecommendationsPath, true,
                 ResultsState(Property(response, "recommendations"),
                              Property(response, "ai_message"),
                              Property(response, "check_in_id")))
    case Rejected => Navigation(SymptomCheckerPath, true, NoState)
  }

  /**
   * The intended settling removes the flag once for every outcome, and it
   * agrees with the code as written on every outcome but a `null` response.
   */
  lemma IntendedSettlesOnce(outcome: SubmitOutcome)
    ensures |IntendedHandlersRun(outcome)| == 1
    ensures !ThenThrows(outcome) ==>
      HandlersRun(outcome) == IntendedHandlersRun(outcome) && AfterSubmit(outcome) == IntendedAfterSubmit(outcome)
    ensures ThenThrows(outcome) ==>
      |HandlersRun(outcome)| == 2 && AfterSubmit(outcome) != IntendedAfterSubmit(outcome)
  {
  }

  /** A response with all three fields is passed on exactly, field by field. */
  lemma ResultsCarryResponse(recommendations: Json, aiMessage: Json, checkInId: Json, rest: map<string, Json>)
    ensures var response := JObject(rest["recommendations" := recommendations]["ai_message" := aiMessage]["check_in_id" := checkInId]);
      AfterSubmit(Resolved(response)).state == ResultsState(Some(recommendations), Some(aiMessage), Some(checkInId))
  {
    var fields := rest["recommendations" := recommendations]["ai_message" := aiMessage]["check_in_id" := checkInId];
    assert fields["recommendations"] == recommendations;
    assert fields["ai_message"] == aiMessage;
  }

  /**
   * The flag is one-shot: once a submission has settled and removed it, a
   * new entry to the page, with any navigation state, sends the user home,
   * renders nothing and submits nothing.
   */
  lemma NoReentryAfterSettling(items: map<string, string>, locationState: Json)
    ensures var plan := OnEntry(StoredValue(items - {ReportSubmittedKey}, ReportSubmittedKey), locationState);
      && plan.allowed == None
      && plan.navigations == [Navigation(HomePath, true, NoState)]
      && plan.submission == None
  {
  }

  /** `if (allowed !== true) return null`: the page shows its content only once allowed. */
  predicate Renders(allowed: Option<bool>) {
    allowed == Some(true)
  }

  /**
   * After the effect, the page shows its content exactly when the flag was
   * set; it submits only then, and only with check-in data.
   */
  lemma RenderGate(flag: Option<string>, locationState: Json)
    ensures Renders(OnEntry(flag, locationState).allowed) <==> FlagSet(flag)
    ensures OnEntry(flag, locationState).submission.Some? <==> FlagSet(flag) && CheckInData(locationState).Some?
  {
  }

  class LoadingPage {
    /** The session storage the page reads and clears. */
    const storage: SessionStorage
    /** `location.state`: what the page was navigated with (`JNull` for none). */
    const locationState: Json
    var allowed: Option<bool>
    /** The calls to `navigate`, in order. */
    var navigations: seq<Navigation>
    /** The check-in data passed to `submitCheckIn`, if the page has made that call. */
    var submitted: Option<Json>
    /** The submission has settled, one way or the other. */
    var settled: bool
    /** How many times the page has removed the flag. */
    var flagRemovals: nat

    /** The flag is removed only once a submission has settled, once per handler that ran. */
    ghost predicate Valid()
      reads this`settled, this`submitted, this`flagRemovals
    {
      && (settled ==> submitted.Some? && 1 <= flagRemovals <= 2)
      && (!settled ==> flagRemovals == 0)
    }

    /** The first render: `allowed` is `null` and nothing has happened yet. */
    constructor (storage: SessionStorage, locationState: Json)
      ensures Valid()
      ensures this.storage == storage && this.locationState == locationState
      ensures allowed == None && navigations == [] && submitted == None && !settled && flagRemovals == 0
    {
      this.storage := storage;
      this.locationState := locationState;
      allowed := None;
      navigations := [];
      submitted := None;
      settled := false;
      flagRemovals := 0;
    }

    /**
     * The effect after the first render: check the flag, then either send
     * the user home or allow the page and send the check-in, if any. The
     * flag itself is left alone.
     */
    method Mount()
      requires Valid()
      requires allowed == None && navigations == [] && submitted == None
      modifies this`allowed, this`navigations, this`submitted
      ensures Valid()
      ensures EntryPlan(allowed, navigations, submitted)
        == OnEntry(StoredValue(storage.items, ReportSubmittedKey), locationState)
      ensures storage.items == old(storage.items)
    {
      var flag := storage.GetItem(ReportSubmittedKey);
      if !FlagSet(flag) {
        navigations := navigations + [Navigation(HomePath, true, NoState)];
        return;
      }
      allowed := Some(true);
      var data := CheckInData(locationState);
      if data.Some? {
        submitted := data;
      }
    }

    /**
     * The handlers of the submission, as they run for `outcome`: the `then`
     * removes the flag and navigates to the results, unless reading the
     * response throws; the `catch`, after a rejection or that throw, removes
     * the flag and navigates back to the symptom checker.
     */
    method Settle(outcome: SubmitOutcome)
      requires Valid()
      requires submitted.Some? && !settled
      modifies this`settled, this`navigations, this`flagRemovals, storage`items
      ensures Valid()
      ensures settled && flagRemovals == |HandlersRun(outcome)|
      ensures storage.items == old(storage.items) - {ReportSubmittedKey}
      ensures navigations == old(navigations) + [AfterSubmit(outcome)]
    {
      if outcome.Resolved? {
        storage.RemoveItem(ReportSubmittedKey);
        flagRemovals := flagRemovals + 1;
        var response := outcome.response;
        if !response.JNull? {
          navigations := navigations + [Navigation(RecommendationsPath, true,
            ResultsState(Property(response, "recommendations"),
                         Property(response, "ai_message"),
                         Property(response, "check_in_id")))];
          settled := true;
          return;
        }
        // `response.recommendations` threw: the chained `catch` runs next.
      }
      storage.RemoveItem(ReportSubmittedKey);
      flagRemovals := flagRemovals + 1;
      navigations := navigations + [Navigation(SymptomCheckerPath, true, NoState)];
      settled := true;
    }
  }
}
