/** The manual trigger (`manual-trigger`): run the signals update, the
    indicators update or both, collect one result per sub-call and report a
    200 or a 207 (multi-status). The two sub-calls are HTTP requests; what
    each one would return is an input. */
module ManualTrigger {
  import opened Wrappers

  /** How a sub-call ended: a response with its `ok` flag and its parsed JSON
      body, or a thrown error (from the request or from parsing the body). */
  datatype CallOutcome = Responded(ok: bool, body: string) | Threw(message: string)

  /** One entry of `results`: the sub-update's type, whether it succeeded,
      and either its `data` or its `error`. */
  datatype StepResult = StepResult(kind: string, success: bool, data: Option<string>, error: Option<string>)

  datatype TriggerResponse = TriggerResponse(success: bool, message: string, results: seq<StepResult>, status: int)

  /** `searchParams.get('action') || 'both'`: a missing or empty parameter
      means both updates. */
  function ActionOf(param: Option<string>): (action: string)
    ensures param.None? ==> action == "both"
    ensures param.Some? && param.value != "" ==> action == param.value
    ensures action != ""
  {
    if param.None? || param.value == "" then "both" else param.value
  }

  predicate RunsSignals(action: string) {
    action == "signals" || action == "both"
  }

  predicate RunsIndicators(action: string) {
    action == "indicators" || action == "both"
  }

  /** The entry pushed for a sub-call: success is the response's `ok`, and a
      thrown error is recorded as a failure with its message. */
  function Record(kind: string, outcome: CallOutcome): (r: StepResult)
    ensures r.kind == kind
    ensures r.success <==> outcome.Responded? && outcome.ok
    ensures outcome.Threw? ==> r.data.None? && r.error == Some(outcome.message)
    ensures outcome.Responded? ==> r.data == Some(outcome.body) && r.error.None?
  {
    match outcome
    case Responded(ok, body) => StepResult(kind, ok, Some(body), None)
    case Threw(message) => StepResult(kind, false, None, Some(message))
  }

  /** `results.every(r => r.success)`. */
  predicate AllSuccessful(results: seq<StepResult>) {
    forall k :: 0 <= k < |results| ==> results[k].success
  }

  /** The entries `results` ends with for an action: the signals entry when
      that update runs, then the indicators entry when that one runs. */
  function Results(action: string, signalsCall: CallOutcome, indicatorsCall: CallOutcome): seq<StepResult> {
    (if RunsSignals(action) then [Record("signals", signalsCall)] else []) +
    (if RunsIndicators(action) then [Record("indicators", indicatorsCall)] else [])
  }

  /** The handler: `signalsCall` and `indicatorsCall` are what each sub-call
      would end with if it is issued. */
  method Trigger(actionParam: Option<string>, signalsCall: CallOutcome, indicatorsCall: CallOutcome)
    returns (response: TriggerResponse)
    ensures response.results == Results(ActionOf(actionParam), signalsCall, indicatorsCall)
    ensures response.success <==> AllSuccessful(response.results)
    ensures response.status == if response.success then 200 else 207
    ensures response.message == "Manual trigger completed for: " + ActionOf(actionParam)
  {
    var action := if actionParam.None? || actionParam.value == "" then "both" else actionParam.value;
    var results: seq<StepResult> := [];
    if action == "signals" || action == "both" {
      match signalsCall {
        case Responded(ok, body) =>
          results := results + [StepResult("signals", ok, Some(body), None)];
        case Threw(message) =>
          results := results + [StepResult("signals", false, None, Some(message))];
      }
    }
    if action == "indicators" || action == "both" {
      match indicatorsCall {
        case Responded(ok, body) =>
          results := results + [StepResult("indicators", ok, Some(body), None)];
        case Threw(message) =>
          results := results + [StepResult("indicators", false, None, Some(message))];
      }
    }
    var allSuccessful := forall k :: 0 <= k < |results| ==> results[k].success;
    response := TriggerResponse(allSuccessful, "Manual trigger completed for: " + action, results, if allSuccessful then 200 else 207);
  }

  /** Which sub-calls run: one entry per issued sub-call, the signals entry
      always before the indicators entry, and both run when no action is
      given. */
  lemma DispatchByAction(param: Option<string>, s: CallOutcome, i: CallOutcome)
    ensures var results := Results(ActionOf(param), s, i);
      (param.None? ==> |results| == 2 && results[0].kind == "signals" && results[1].kind == "indicators") &&
      ((exists k :: 0 <= k < |results| && results[k].kind == "signals") <==> RunsSignals(ActionOf(param))) &&
      ((exists k :: 0 <= k < |results| && results[k].kind == "indicators") <==> RunsIndicators(ActionOf(param))) &&
      (forall a, b :: 0 <= a < b < |results| ==> results[a].kind == "signals" && results[b].kind == "indicators")
  {
    var action := ActionOf(param);
    var results := Results(action, s, i);
    if RunsSignals(action) {
      assert results[0].kind == "signals";
    }
    if RunsIndicators(action) {
      assert results[|results| - 1].kind == "indicators";
    }
  }

  /** An action that names neither update issues no sub-call, so the trigger
      reports a plain success. */
  lemma UnrecognisedAction(action: string, s: CallOutcome, i: CallOutcome)
    requires !RunsSignals(action) && !RunsIndicators(action)
    ensures Results(action, s, i) == [] && AllSuccessful(Results(action, s, i))
  {
  }

  /** A thrown signals sub-call does not stop the indicators sub-call, and
      the trigger as a whole is then not successful (a 207). */
  lemma ThrowDoesNotStopTheNextStep(message: string, i: CallOutcome)
    ensures var results := Results("both", Threw(message), i);
      |results| == 2 && results[1] == Record("indicators", i) &&
      !results[0].success && results[0].error == Some(message) &&
      !AllSuccessful(results)
  {
    assert !Results("both", Threw(message), i)[0].success;
  }
}
