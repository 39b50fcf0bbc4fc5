/** The editor page's Run button (`handleRun` and `pollResult` in
    frontend/src/pages/EditorPage.jsx): submit the code once, then fetch the
    submission again and again while the judge reports it queued or
    processing, and show the final output, time and memory.

    The judge's answers are an input: the answer to the submit request and the
    finite sequence of answers to the fetches, in order. The page itself waits
    one second between fetches and has no bound on their number; a sequence
    that runs out while the submission is still pending stands for a run that
    is still in progress. */
module RunPoller {
  import opened JsValues
  import Base64
  import opened StatusBadge

  /** The fields of a fetched submission that the page reads. The three
      output fields are Base64 text, possibly absent. */
  datatype Submission = Submission(
    stdout: Option<string>, stderr: Option<string>, compileOutput: Option<string>,
    status: Status, time: Option<string>, memory: Option<int>)

  /** The answer to one fetch: the submission, or the error axios throws. */
  datatype FetchOutcome = Fetched(result: Submission) | FetchFailed(message: string)

  /** The answer to the submit request: the token, or the error axios throws,
      with the `error` field of the server's JSON answer when there is one. */
  datatype SubmitOutcome = Submitted(token: string) | SubmitFailed(serverError: Option<string>, message: string)

  /** The body the page posts to `/api/execute`. */
  datatype SubmitRequest = SubmitRequest(sourceCode: string, languageId: int, stdin: string)

  /** The part of the page's state a run writes. */
  datatype RunView = RunView(
    output: string, status: Option<Status>, time: Option<string>, memory: Option<int>, loading: bool)

  /** The state right after Run is pressed: everything cleared, loading. */
  const Started := RunView("", None, None, None, true)

  const NoOutput := "No output"

  /** The message of the exception `atob` throws on text that is not Base64
      (the wording varies between browsers). */
  const AtobErrorMessage := "The string to be decoded is not correctly encoded."

  /** The submit request: code and stdin through `btoa`. `None` when `btoa`
      throws, which happens before the request is made. The judge gets back
      exactly the page's code and stdin by decoding. */
  function SubmitRequestFor(code: string, input: string, languageId: int): (r: Option<SubmitRequest>)
    ensures r.Some? <==> Base64.IsLatin1(code) && Base64.IsLatin1(input)
    ensures r.Some? ==> && r.value.languageId == languageId
                        && Base64.Decode(r.value.sourceCode) == Some(code)
                        && Base64.Decode(r.value.stdin) == Some(input)
  {
    var encodedCode := Base64.Encode(code);
    var encodedInput := Base64.Encode(input);
    if encodedCode.None? || encodedInput.None? then None
    else
      Base64.RoundTrip(code);
      Base64.RoundTrip(input);
      Some(SubmitRequest(encodedCode.value, languageId, encodedInput.value))
  }

  /** `stdout || stderr || compile_output || ""`: the first output field that
      is present and not empty. */
  function RawOutput(r: Submission): (t: string)
    ensures Truthy(r.stdout) ==> t == r.stdout.value
    ensures !Truthy(r.stdout) && Truthy(r.stderr) ==> t == r.stderr.value
    ensures !Truthy(r.stdout) && !Truthy(r.stderr) ==> t == r.compileOutput.GetOr("")
  {
    Or(r.stdout, Or(r.stderr, Or(r.compileOutput, Some("")))).value
  }

  /** A `catch` branch: the message shown, status 8, loading over. */
  function Failed(v: RunView, message: string): RunView {
    v.(output := message, status := Some(InternalError), loading := false)
  }

  /** The view after a final status: the decoded output, or "No output" when
      it decodes to nothing; a decoding failure is caught like a failed fetch. */
  function Finish(v: RunView, r: Submission): (w: RunView)
    ensures !w.loading && w.output != ""
    ensures Base64.Decode(RawOutput(r)).Some? ==>
              w.status == Some(r.status) && w.time == r.time && w.memory == r.memory
    ensures Base64.Decode(RawOutput(r)).None? ==>
              w.status == Some(InternalError) && w.time == v.time && w.memory == v.memory
    ensures var decoded := Base64.Decode(RawOutput(r));
            && (decoded.Some? ==>
                  w == RunView(if decoded.value == "" then NoOutput else decoded.value,
                               Some(r.status), r.time, r.memory, false))
            && (decoded.None? ==> w == Failed(v, "Error fetching result: " + AtobErrorMessage))
  {
    var decoded := Base64.Decode(RawOutput(r));
    if decoded.None? then Failed(v, "Error fetching result: " + AtobErrorMessage)
    else RunView(Or(decoded, Some(NoOutput)).value, Some(r.status), r.time, r.memory, false)
  }

  /** A fetch whose status says the judge is not done: queued or processing. */
  predicate IsPending(o: FetchOutcome) {
    o.Fetched? && o.result.status.id <= 2
  }

  /** One run of `pollResult`: the view after one fetch, and whether another
      fetch is scheduled. A pending status is recorded and polling goes on; a
      final status or a failure ends it, loading over. */
  function Step(v: RunView, o: FetchOutcome): (s: (RunView, bool))
    ensures s.1 <==> IsPending(o)
    ensures s.1 ==> s.0 == v.(status := Some(o.result.status))
    ensures !s.1 ==> !s.0.loading && s.0.status.Some?
    ensures o.FetchFailed? ==> s.0 == Failed(v, "Error fetching result: " + o.message)
    ensures o.Fetched? && !s.1 ==>
              var decoded := Base64.Decode(RawOutput(o.result));
              && (decoded.Some? ==>
                    s.0 == RunView(if decoded.value == "" then NoOutput else decoded.value,
                                   Some(o.result.status), o.result.time, o.result.memory, false))
              && (decoded.None? ==> s.0 == Failed(v, "Error fetching result: " + AtobErrorMessage))
  {
    match o
    case FetchFailed(m) => (Failed(v, "Error fetching result: " + m), false)
    case Fetched(r) =>
      var recorded := v.(status := Some(r.status));
      if r.status.id <= 2 then (recorded, true) else (Finish(recorded, r), false)
  }

  /** Polling over the judge's answers: the final view and the number of
      fetches made. */
  function Poll(v: RunView, outcomes: seq<FetchOutcome>): (r: (RunView, nat))
    ensures r.1 <= |outcomes|
    ensures outcomes != [] ==> 1 <= r.1
    ensures r.1 == 0 ==> r.0 == v
    ensures forall j :: 0 <= j < r.1 - 1 ==> IsPending(outcomes[j])
    ensures 0 < r.1 < |outcomes| ==> !IsPending(outcomes[r.1 - 1]) && !r.0.loading
    decreases |outcomes|
  {
    if outcomes == [] then (v, 0)
    else
      var (w, again) := Step(v, outcomes[0]);
      if again then
        var (x, n) := Poll(w, outcomes[1..]);
        (x, n + 1)
      else (w, 1)
  }

  /** A whole run: `btoa` throwing leaves the page loading with nothing sent;
      a failed submit is shown with status 8 and nothing fetched; otherwise
      the polling. */
  function RunOutcome(code: string, input: string, languageId: int,
                      submit: SubmitOutcome, outcomes: seq<FetchOutcome>): (r: (RunView, nat))
    ensures SubmitRequestFor(code, input, languageId).None? ==> r == (Started, 0)
    ensures SubmitRequestFor(code, input, languageId).Some? && submit.SubmitFailed? ==>
              && r.1 == 0 && !r.0.loading && r.0.status == Some(InternalError)
              && r.0.output == "Error: " + (if Truthy(submit.serverError) then submit.serverError.value
                                            else submit.message)
              && r.0 == Failed(Started, r.0.output)
    ensures SubmitRequestFor(code, input, languageId).Some? && submit.Submitted? ==>
              r == Poll(Started, outcomes)
  {
    if SubmitRequestFor(code, input, languageId).None? then (Started, 0)
    else match submit
      case SubmitFailed(serverError, message) =>
        (Failed(Started, "Error: " + Or(serverError, Some(message)).value), 0)
      case Submitted(_) => Poll(Started, outcomes)
  }

  /** The message of the exception `btoa` throws on a character above U+00FF
      (the wording varies between browsers). */
  const BtoaErrorMessage := "The string to be encoded contains characters outside of the Latin1 range."

  /** As written, a code that `btoa` refuses leaves the page loading for
      good, with nothing shown: the call sits before the `try`, so no
      `catch` ends the run. */
  lemma BtoaThrowLeavesLoading(submit: SubmitOutcome, outcomes: seq<FetchOutcome>)
    ensures var r := RunOutcome("x = '\U{20AC}'", "", 71, submit, outcomes);
            r.0.loading && r.0.status == None && r.0.output == "" && r.1 == 0
  {
    var code := "x = '\U{20AC}'";
    assert code[5] == '\U{20AC}';
  }

  /** A whole run with the encoding inside the `try`, as the page evidently
      intends: a `btoa` failure is caught like a failed submit. */
  function RunOutcomeCaught(code: string, input: string, languageId: int,
                            submit: SubmitOutcome, outcomes: seq<FetchOutcome>): (r: (RunView, nat))
    ensures SubmitRequestFor(code, input, languageId).None? ==>
              r == (Failed(Started, "Error: " + BtoaErrorMessage), 0)
    ensures SubmitRequestFor(code, input, languageId).Some? ==>
              r == RunOutcome(code, input, languageId, submit, outcomes)
  {
    if SubmitRequestFor(code, input, languageId).None? then
      (Failed(Started, "Error: " + BtoaErrorMessage), 0)
    else RunOutcome(code, input, languageId, submit, outcomes)
  }

  /** With the encoding caught, a run still loading at the end is one whose
      code was submitted and whose every answer so far is pending: every
      other run reaches a status. */
  lemma {:induction false} CaughtRunEndsUnlessPending(code: string, input: string, languageId: int,
                                                     submit: SubmitOutcome, outcomes: seq<FetchOutcome>)
    ensures var r := RunOutcomeCaught(code, input, languageId, submit, outcomes);
            r.0.loading ==>
              && submit.Submitted?
              && forall j :: 0 <= j < |outcomes| ==> IsPending(outcomes[j])
    ensures var r := RunOutcomeCaught(code, input, languageId, submit, outcomes);
            !r.0.loading ==> r.0.status.Some?
  {
    if SubmitRequestFor(code, input, languageId).Some? && submit.Submitted? {
      var k := 0;
      while k < |outcomes| && IsPending(outcomes[k])
        invariant k <= |outcomes|
        invariant forall j :: 0 <= j < k ==> IsPending(outcomes[j])
      {
        k := k + 1;
      }
      if k < |outcomes| {
        PollStopsAtFirstFinal(Started, outcomes, k);
        assert Poll(Started, outcomes).0 == Step(Started, outcomes[k]).0;
      } else {
        PollAllPending(Started, outcomes);
      }
    }
  }

  /** The status a pending fetch records does not matter to a final step. */
  lemma FinalStepIgnoresStatus(v: RunView, x: Option<Status>, o: FetchOutcome)
    requires !IsPending(o)
    ensures Step(v.(status := x), o).0 == Step(v, o).0
  {
  }

  /** Polling stops at the first answer that is not pending: it makes exactly
      that many fetches, later answers are never fetched, loading ends, and
      the view is what that one answer makes of the started view (its status,
      or status 8 on a failure). */
  lemma {:induction false} PollStopsAtFirstFinal(v: RunView, outcomes: seq<FetchOutcome>, k: nat)
    requires k < |outcomes| && !IsPending(outcomes[k])
    requires forall j :: 0 <= j < k ==> IsPending(outcomes[j])
    ensures Poll(v, outcomes).1 == k + 1
    ensures Poll(v, outcomes) == Poll(v, outcomes[..k + 1])
    ensures Poll(v, outcomes).0 == Step(v, outcomes[k]).0
    ensures !Poll(v, outcomes).0.loading
    decreases k
  {
    var w := Step(v, outcomes[0]).0;
    if k > 0 {
      assert IsPending(outcomes[0]);
      var rest := outcomes[1..];
      PollStopsAtFirstFinal(w, rest, k - 1);
      assert outcomes[..k + 1][1..] == rest[..k];
      FinalStepIgnoresStatus(v, w.status, outcomes[k]);
      assert w == v.(status := w.status);
    }
  }

  /** While every answer is pending, every answer is fetched, the page keeps
      loading, and the last status fetched is the one shown. */
  lemma {:induction false} PollAllPending(v: RunView, outcomes: seq<FetchOutcome>)
    requires forall j :: 0 <= j < |outcomes| ==> IsPending(outcomes[j])
    ensures Poll(v, outcomes).1 == |outcomes|
    ensures outcomes == [] ==> Poll(v, outcomes).0 == v
    ensures outcomes != [] ==>
              && IsPending(outcomes[|outcomes| - 1])
              && Poll(v, outcomes).0 == v.(status := Some(outcomes[|outcomes| - 1].result.status))
    decreases |outcomes|
  {
    if outcomes != [] {
      var rest := outcomes[1..];
      PollAllPending(Step(v, outcomes[0]).0, rest);
      if rest != [] {
        assert rest[|rest| - 1] == outcomes[|outcomes| - 1];
      }
    }
  }

  /** The page's run state and the Run button. */
  class RunPanel {
    var output: string
    var status: Option<Status>
    var executionTime: Option<string>
    var memory: Option<int>
    var loading: bool

    function View(): RunView
      reads this
    {
      RunView(output, status, executionTime, memory, loading)
    }

    /** A fresh page: no output, no status, not loading. */
    constructor ()
      ensures View() == RunView("", None, None, None, false)
    {
      output, status, executionTime, memory, loading := "", None, None, None, false;
    }

    /** `handleRun`: clear the state and start loading, encode, submit once,
        then fetch until the status is final or a fetch fails. Returns the
        request sent (`None` when `btoa` threw) and the number of fetches. */
    method Run(code: string, input: string, languageId: int,
               submit: SubmitOutcome, outcomes: seq<FetchOutcome>)
      returns (request: Option<SubmitRequest>, fetches: nat)
      modifies this
      ensures request == SubmitRequestFor(code, input, languageId)
      ensures (View(), fetches) == RunOutcome(code, input, languageId, submit, outcomes)
    {
      loading := true;
      output := "";
      status := None;
      executionTime := None;
      memory := None;
      fetches := 0;
      var encodedCode := Base64.Encode(code);
      var encodedInput := Base64.Encode(input);
      if encodedCode.None? || encodedInput.None? {
        request := None;
        return;
      }
      request := Some(SubmitRequest(encodedCode.value, languageId, encodedInput.value));
      match submit {
        case SubmitFailed(serverError, message) =>
          output := "Error: " + Or(serverError, Some(message)).value;
          loading := false;
          status := Some(InternalError);
        case Submitted(_) =>
          ghost var target := Poll(Started, outcomes);
          var polling := true;
          while polling && fetches < |outcomes|
            invariant fetches <= |outcomes|
            invariant polling ==> && Poll(View(), outcomes[fetches..]).0 == target.0
                                  && Poll(View(), outcomes[fetches..]).1 + fetches == target.1
            invariant !polling ==> View() == target.0 && fetches == target.1
            decreases |outcomes| - fetches
          {
            assert outcomes[fetches..][1..] == outcomes[fetches + 1..];
            match outcomes[fetches] {
              case FetchFailed(message) =>
                output := "Error fetching result: " + message;
                loading := false;
                status := Some(InternalError);
                polling := false;
              case Fetched(r) =>
                status := Some(r.status);
                if r.status.id > 2 {
                  var decoded := Base64.Decode(RawOutput(r));
                  if decoded.None? {
                    output := "Error fetching result: " + AtobErrorMessage;
                    loading := false;
                    status := Some(InternalError);
                  } else {
                    output := Or(decoded, Some(NoOutput)).value;
                    executionTime := r.time;
                    memory := r.memory;
                    loading := false;
                  }
                  polling := false;
                }
            }
            fetches := fetches + 1;
          }
      }
    }
  }
}
