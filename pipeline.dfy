/**
 * The three-stage prompt chain of one turn: analyze the query, refine it
 * through a fixed number of dependent model calls, then generate the final
 * answer. The model client is an oracle: call number `i` of the turn is
 * answered by `oracle(i)`, either with text or by raising.
 */
module Pipeline {
  import opened Text
  import opened Prompts

  /** What one `generate_content` call gives back. */
  datatype Reply = Ok(text: string) | Fail(error: string)

  /** A pre-chosen answer for every call of the turn, in call order. */
  type Oracle = nat -> Reply

  /**
   * One request to the model client: the values its prompt template is
   * filled with (the template text itself is opaque).
   */
  datatype Request =
    | Analyze(query: string, context: string)
    | Improve(query: string, iteration: nat, total: nat, context: string, analysis: string)
    | Generate(query: string, context: string, analysis: string, detail: string)

  /** `analyze_query`: the analysis prompt for `query` and the recent history. */
  function AnalyzeQuery(query: string, history: seq<Message>): Request
  {
    Analyze(query, FormatHistory(history))
  }

  /** `improve_prompt`: the refinement prompt for iteration `iteration` of `total`. */
  function ImprovePrompt(query: string, iteration: nat, total: nat, history: seq<Message>, analysis: string): Request
  {
    Improve(query, iteration, total, FormatHistory(history), analysis)
  }

  /** `generate_final_response`: the final prompt, with the detail word derived from the analysis. */
  function GenerateFinalResponse(query: string, history: seq<Message>, analysis: string): Request
  {
    Generate(query, FormatHistory(history), analysis, DetailWord(DetailLevelOf(analysis)))
  }

  /** The first thinking step: the analysis under its heading. */
  function AnalysisStep(analysis: string): string
  {
    "### Query Analysis\n" + analysis
  }

  /**
   * The state of the turn while it refines: the current query, the thinking
   * steps so far, the requests sent so far, and the error raised, if any.
   */
  datatype Progress = Progress(query: string, steps: seq<string>, requests: seq<Request>, error: Option<string>)

  /**
   * How one refinement output moves the query on; the turn handler uses
   * `NextQuery`.
   */
  type QueryUpdate = (string, string) -> string

  /** The number of refinement iterations a turn runs. */
  function Iterations(enableReasoning: bool, maxIterations: nat): nat
  {
    if enableReasoning then maxIterations else 0
  }

  /**
   * The refinement loop after its first `k` iterations out of `total`,
   * started from `start`. Each iteration sends one request, answered by the
   * oracle entry whose index is the number of requests already sent; a
   * failure stops the loop, a success appends the output as a thinking step
   * and moves the query on with `next`.
   */
  function Refine(start: Progress, k: nat, total: nat, context: string, analysis: string, next: QueryUpdate, oracle: Oracle): Progress
  {
    if k == 0 then start
    else
      var p := Refine(start, k - 1, total, context, analysis, next, oracle);
      if p.error.Some? then p
      else
        var request := Improve(p.query, k - 1, total, context, analysis);
        match oracle(|p.requests|)
        case Fail(e) => Progress(p.query, p.steps, p.requests + [request], Some(e))
        case Ok(output) => Progress(next(output, p.query), p.steps + [output], p.requests + [request], None)
  }

  /**
   * The loop only appends: what `start` held stays a prefix, and without an
   * error each iteration adds exactly one request and one step. With an
   * error, at most `k` requests were added and no step after the failure.
   */
  lemma {:induction false} RefineGrows(start: Progress, k: nat, total: nat, context: string, analysis: string, next: QueryUpdate, oracle: Oracle)
    requires start.error.None?
    ensures var p := Refine(start, k, total, context, analysis, next, oracle);
      && start.requests <= p.requests && start.steps <= p.steps
      && |p.requests| <= |start.requests| + k
      && (p.error.None? ==> |p.requests| == |start.requests| + k && |p.steps| == |start.steps| + k)
      && (p.error.Some? ==> |p.steps| + 1 == |start.steps| + |p.requests| - |start.requests|)
  {
    if k > 0 {
      RefineGrows(start, k - 1, total, context, analysis, next, oracle);
    }
  }

  /**
   * The loop finishes without error exactly when each of its `k` calls,
   * numbered on from the requests `start` already holds, succeeds.
   */
  lemma {:induction false} RefineSucceedsIff(start: Progress, k: nat, total: nat, context: string, analysis: string, next: QueryUpdate, oracle: Oracle)
    requires start.error.None?
    ensures Refine(start, k, total, context, analysis, next, oracle).error.None?
        <==> forall j :: |start.requests| <= j < |start.requests| + k ==> oracle(j).Ok?
  {
    if k > 0 {
      RefineSucceedsIff(start, k - 1, total, context, analysis, next, oracle);
      RefineGrows(start, k - 1, total, context, analysis, next, oracle);
    }
  }

  /** A loop that ran `k` iterations without error ran its first `j` without error and extends them. */
  lemma {:induction false} RefinePrefix(start: Progress, j: nat, k: nat, total: nat, context: string, analysis: string, next: QueryUpdate, oracle: Oracle)
    requires j <= k
    requires Refine(start, k, total, context, analysis, next, oracle).error.None?
    ensures var pj := Refine(start, j, total, context, analysis, next, oracle);
      var pk := Refine(start, k, total, context, analysis, next, oracle);
      pj.error.None? && pj.requests <= pk.requests && pj.steps <= pk.steps
    decreases k - j
  {
    if j < k {
      RefinePrefix(start, j, k - 1, total, context, analysis, next, oracle);
    }
  }

  /**
   * Query chaining: in a loop that ran `k` iterations without error,
   * iteration `j` sent the query left by iteration `j - 1` (by `start` when
   * `j` is 0), its output is thinking step `j` after the start's steps, and
   * the query it leaves is `next` of that output.
   */
  lemma RefineChained(start: Progress, j: nat, k: nat, total: nat, context: string, analysis: string, next: QueryUpdate, oracle: Oracle)
    requires start.error.None?
    requires j < k
    requires Refine(start, k, total, context, analysis, next, oracle).error.None?
    ensures |start.requests| + j < |Refine(start, k, total, context, analysis, next, oracle).requests|
    ensures |start.steps| + j < |Refine(start, k, total, context, analysis, next, oracle).steps|
    ensures Refine(start, k, total, context, analysis, next, oracle).requests[|start.requests| + j]
            == Improve(Refine(start, j, total, context, analysis, next, oracle).query, j, total, context, analysis)
    ensures oracle(|start.requests| + j).Ok?
    ensures Refine(start, k, total, context, analysis, next, oracle).steps[|start.steps| + j]
            == oracle(|start.requests| + j).text
    ensures Refine(start, j + 1, total, context, analysis, next, oracle).query
            == next(oracle(|start.requests| + j).text, Refine(start, j, total, context, analysis, next, oracle).query)
  {
    var before := Refine(start, j, total, context, analysis, next, oracle);
    var after := Refine(start, j + 1, total, context, analysis, next, oracle);
    var pk := Refine(start, k, total, context, analysis, next, oracle);
    RefinePrefix(start, j + 1, k, total, context, analysis, next, oracle);
    RefineGrows(start, j, total, context, analysis, next, oracle);
    RefineStep(start, j, total, context, analysis, next, oracle);
    PrefixAt(after.requests, pk.requests, |start.requests| + j);
    PrefixAt(after.steps, pk.steps, |start.steps| + j);
  }

  /** One more iteration of a loop that has not failed: the definition of `Refine`, unfolded once. */
  lemma RefineStep(start: Progress, j: nat, total: nat, context: string, analysis: string, next: QueryUpdate, oracle: Oracle)
    requires Refine(start, j + 1, total, context, analysis, next, oracle).error.None?
    ensures var before := Refine(start, j, total, context, analysis, next, oracle);
      var out := oracle(|before.requests|);
      && before.error.None? && out.Ok?
      && Refine(start, j + 1, total, context, analysis, next, oracle)
         == Progress(next(out.text, before.query), before.steps + [out.text],
                     before.requests + [Improve(before.query, j, total, context, analysis)], None)
  {
  }

  lemma PrefixAt<T>(a: seq<T>, b: seq<T>, i: nat)
    requires a <= b && i < |a|
    ensures i < |b| && b[i] == a[i]
  {
  }

  /** Once the loop has failed, further iterations change nothing. */
  lemma {:induction false} RefineStopsOnError(start: Progress, k: nat, m: nat, total: nat, context: string, analysis: string, next: QueryUpdate, oracle: Oracle)
    requires k <= m
    requires Refine(start, k, total, context, analysis, next, oracle).error.Some?
    ensures Refine(start, m, total, context, analysis, next, oracle) == Refine(start, k, total, context, analysis, next, oracle)
    decreases m - k
  {
    if k < m {
      RefineStopsOnError(start, k, m - 1, total, context, analysis, next, oracle);
    }
  }

  /**
   * The `for i in range(max_iterations)` loop of the turn handler: each
   * iteration sends the current query to be improved, keeps the output as a
   * thinking step and moves the query on with `next`. The turn handler
   * passes `NextQuery`, which takes the text after the marker when the
   * output holds one. A raising call ends the loop with its error.
   */
  method RefinePrompt(start: Progress, total: nat, history: seq<Message>, analysis: string, next: QueryUpdate, oracle: Oracle)
    returns (p: Progress)
    requires start.error.None?
    ensures p == Refine(start, total, total, FormatHistory(history), analysis, next, oracle)
  {
    ghost var context := FormatHistory(history);
    var currentQuery, thinkingSteps, sent := start.query, start.steps, start.requests;
    var error: Option<string> := None;
    var i := 0;
    while i < total && error.None?
      invariant 0 <= i <= total
      invariant Refine(start, i, total, context, analysis, next, oracle)
                == Progress(currentQuery, thinkingSteps, sent, error)
    {
      sent := sent + [ImprovePrompt(currentQuery, i, total, history, analysis)];
      var reply := oracle(|sent| - 1);
      if reply.Fail? {
        error := Some(reply.error);
      } else {
        thinkingSteps := thinkingSteps + [reply.text];
        currentQuery := next(reply.text, currentQuery);
      }
      i := i + 1;
    }
    if error.Some? {
      RefineStopsOnError(start, i, total, total, context, analysis, next, oracle);
    }
    p := Progress(currentQuery, thinkingSteps, sent, error);
  }

  /** What one turn's pipeline did: requests sent, thinking steps stored, and its answer or error. */
  datatype Run = Run(requests: seq<Request>, stored: Option<seq<string>>, answer: Reply)

  /** The progress a turn starts refining from once the analysis is in. */
  function Analyzed(prompt: string, context: string, analysis: string): Progress
  {
    Progress(prompt, [AnalysisStep(analysis)], [Analyze(prompt, context)], None)
  }

  /**
   * The `try` block of the turn handler. `configureError` is what configuring
   * the client raised, if anything. The thinking steps are stored before the
   * final call, so a failure of that call still stores them; a failure of
   * configuration, analysis or any refinement stores none.
   */
  function RunPipeline(prompt: string, context: string, enableReasoning: bool, maxIterations: nat,
                       configureError: Option<string>, next: QueryUpdate, oracle: Oracle): Run
  {
    if configureError.Some? then Run([], None, Fail(configureError.value))
    else
      match oracle(0)
      case Fail(e) => Run([Analyze(prompt, context)], None, Fail(e))
      case Ok(analysis) =>
        var p := Refine(Analyzed(prompt, context, analysis), Iterations(enableReasoning, maxIterations),
                        maxIterations, context, analysis, next, oracle);
        if p.error.Some? then Run(p.requests, None, Fail(p.error.value))
        else Run(p.requests + [Generate(p.query, context, analysis, DetailWord(DetailLevelOf(analysis)))], Some(p.steps), oracle(|p.requests|))
  }

  /**
   * The body of the `try` block once the API key is known: configure the
   * client, analyse, refine when reasoning is on, then ask for the final
   * answer. Returns the requests in call order, the thinking steps when they
   * were stored, and the final answer or the error that ended the chain.
   */
  method RunPromptChain(prompt: string, history: seq<Message>, enableReasoning: bool, maxIterations: nat,
                        configureError: Option<string>, oracle: Oracle)
    returns (sent: seq<Request>, stored: Option<seq<string>>, answer: Reply)
    ensures Run(sent, stored, answer)
         == RunPipeline(prompt, FormatHistory(history), enableReasoning, maxIterations, configureError, NextQuery, oracle)
  {
    var context := FormatHistory(history);
    sent, stored := [], None;
    if configureError.Some? {
      answer := Fail(configureError.value);
      return;
    }
    sent := [AnalyzeQuery(prompt, history)];
    var analysisReply := oracle(0);
    if analysisReply.Fail? {
      answer := analysisReply;
      return;
    }
    var analysis := analysisReply.text;
    var progress := Progress(prompt, [AnalysisStep(analysis)], sent, None);
    assert progress == Analyzed(prompt, context, analysis);
    if enableReasoning {
      progress := RefinePrompt(progress, maxIterations, history, analysis, NextQuery, oracle);
    }
    if progress.error.Some? {
      sent, answer := progress.requests, Fail(progress.error.value);
      return;
    }
    stored := Some(progress.steps);
    sent := progress.requests + [GenerateFinalResponse(progress.query, history, analysis)];
    answer := oracle(|sent| - 1);
  }

  /**
   * Thinking steps are stored exactly when configuration, the analysis call
   * and every refinement call succeed, whatever the final call does.
   */
  lemma PipelineStoresIff(prompt: string, context: string, enableReasoning: bool, maxIterations: nat,
                          configureError: Option<string>, next: QueryUpdate, oracle: Oracle)
    ensures RunPipeline(prompt, context, enableReasoning, maxIterations, configureError, next, oracle).stored.Some?
        <==> && configureError.None? && oracle(0).Ok?
             && forall j :: 1 <= j <= Iterations(enableReasoning, maxIterations) ==> oracle(j).Ok?
  {
    if configureError.None? && oracle(0).Ok? {
      RefineSucceedsIff(Analyzed(prompt, context, oracle(0).text), Iterations(enableReasoning, maxIterations),
                        maxIterations, context, oracle(0).text, next, oracle);
    }
  }

  /**
   * On success the oracle was called 2 + (reasoning ? iterations : 0) times:
   * the analysis first, the final generation last, on the query the
   * refinement loop left; the stored thinking steps are the analysis step
   * followed by one step per iteration.
   */
  lemma PipelineSuccess(prompt: string, context: string, enableReasoning: bool, maxIterations: nat,
                        configureError: Option<string>, next: QueryUpdate, oracle: Oracle)
    requires RunPipeline(prompt, context, enableReasoning, maxIterations, configureError, next, oracle).answer.Ok?
    ensures var r := RunPipeline(prompt, context, enableReasoning, maxIterations, configureError, next, oracle);
      var n := Iterations(enableReasoning, maxIterations);
      var analysis := oracle(0).text;
      var p := Refine(Analyzed(prompt, context, analysis), n, maxIterations, context, analysis, next, oracle);
      && configureError.None? && oracle(0).Ok?
      && |r.requests| == 2 + n
      && r.requests[0] == Analyze(prompt, context)
      && r.requests[1 + n] == Generate(p.query, context, analysis, DetailWord(DetailLevelOf(analysis)))
      && r.answer == oracle(1 + n)
      && r.stored.Some? && |r.stored.value| == 1 + n && r.stored.value[0] == AnalysisStep(analysis)
  {
    var n := Iterations(enableReasoning, maxIterations);
    var analysis := oracle(0).text;
    var start := Analyzed(prompt, context, analysis);
    RefineGrows(start, n, maxIterations, context, analysis, next, oracle);
  }

  /**
   * A turn answers exactly when configuration succeeds and all of its
   * 2 + (reasoning ? iterations : 0) calls succeed.
   */
  lemma PipelineAnswersIff(prompt: string, context: string, enableReasoning: bool, maxIterations: nat,
                           configureError: Option<string>, next: QueryUpdate, oracle: Oracle)
    ensures RunPipeline(prompt, context, enableReasoning, maxIterations, configureError, next, oracle).answer.Ok?
        <==> && configureError.None?
             && forall j :: 0 <= j <= 1 + Iterations(enableReasoning, maxIterations) ==> oracle(j).Ok?
  {
    var n := Iterations(enableReasoning, maxIterations);
    PipelineStoresIff(prompt, context, enableReasoning, maxIterations, configureError, next, oracle);
    if configureError.None? && oracle(0).Ok? {
      var analysis := oracle(0).text;
      var start := Analyzed(prompt, context, analysis);
      RefineSucceedsIff(start, n, maxIterations, context, analysis, next, oracle);
      RefineGrows(start, n, maxIterations, context, analysis, next, oracle);
    }
  }

  /**
   * Stored thinking steps are the analysis step followed by the outputs of
   * the refinement calls, in call order.
   */
  lemma StoredStepsAreOutputs(prompt: string, context: string, enableReasoning: bool, maxIterations: nat,
                              configureError: Option<string>, next: QueryUpdate, oracle: Oracle)
    requires RunPipeline(prompt, context, enableReasoning, maxIterations, configureError, next, oracle).stored.Some?
    ensures var steps := RunPipeline(prompt, context, enableReasoning, maxIterations, configureError, next, oracle).stored.value;
      var n := Iterations(enableReasoning, maxIterations);
      && |steps| == 1 + n
      && oracle(0).Ok? && steps[0] == AnalysisStep(oracle(0).text)
      && forall j :: 1 <= j <= n ==> oracle(j) == Ok(steps[j])
  {
    var n := Iterations(enableReasoning, maxIterations);
    var analysis := oracle(0).text;
    var start := Analyzed(prompt, context, analysis);
    var p := Refine(start, n, maxIterations, context, analysis, next, oracle);
    RefineGrows(start, n, maxIterations, context, analysis, next, oracle);
    forall j | 1 <= j <= n
      ensures oracle(j) == Ok(p.steps[j])
    {
      RefineChained(start, j - 1, n, maxIterations, context, analysis, next, oracle);
    }
  }

  /** However a turn ends, it sends at most 2 + (reasoning ? iterations : 0) requests. */
  lemma PipelineCallBound(prompt: string, context: string, enableReasoning: bool, maxIterations: nat,
                          configureError: Option<string>, next: QueryUpdate, oracle: Oracle)
    ensures |RunPipeline(prompt, context, enableReasoning, maxIterations, configureError, next, oracle).requests|
            <= 2 + Iterations(enableReasoning, maxIterations)
  {
    if configureError.None? && oracle(0).Ok? {
      var analysis := oracle(0).text;
      RefineGrows(Analyzed(prompt, context, analysis), Iterations(enableReasoning, maxIterations),
                  maxIterations, context, analysis, next, oracle);
    }
  }

  /**
   * A failed turn failed on its last call: the error it reports is the one
   * the oracle raised for the last request sent (or configuration's, when
   * nothing was sent).
   */
  lemma PipelineFailsOnLastCall(prompt: string, context: string, enableReasoning: bool, maxIterations: nat,
                                configureError: Option<string>, next: QueryUpdate, oracle: Oracle)
    requires RunPipeline(prompt, context, enableReasoning, maxIterations, configureError, next, oracle).answer.Fail?
    ensures var r := RunPipeline(prompt, context, enableReasoning, maxIterations, configureError, next, oracle);
      if configureError.Some? then r.requests == [] && r.answer.error == configureError.value
      else |r.requests| > 0 && oracle(|r.requests| - 1) == r.answer
  {
    if configureError.None? && oracle(0).Ok? {
      var analysis := oracle(0).text;
      var n := Iterations(enableReasoning, maxIterations);
      var start := Analyzed(prompt, context, analysis);
      var p := Refine(start, n, maxIterations, context, analysis, next, oracle);
      RefineGrows(start, n, maxIterations, context, analysis, next, oracle);
      if p.error.Some? {
        FailureIsLastRequest(start, n, maxIterations, context, analysis, next, oracle);
      } else {
        var r := RunPipeline(prompt, context, enableReasoning, maxIterations, configureError, next, oracle);
        assert r.requests == p.requests + [Generate(p.query, context, analysis, DetailWord(DetailLevelOf(analysis)))];
        assert r.answer == oracle(|p.requests|);
      }
    }
  }

  /** When the loop stops on an error, that error is the oracle's answer to its last request. */
  lemma {:induction false} FailureIsLastRequest(start: Progress, k: nat, total: nat, context: string, analysis: string, next: QueryUpdate, oracle: Oracle)
    requires start.error.None?
    requires Refine(start, k, total, context, analysis, next, oracle).error.Some?
    ensures var p := Refine(start, k, total, context, analysis, next, oracle);
      |p.requests| > 0 && oracle(|p.requests| - 1) == Fail(p.error.value)
  {
    var p := Refine(start, k - 1, total, context, analysis, next, oracle);
    if p.error.Some? {
      FailureIsLastRequest(start, k - 1, total, context, analysis, next, oracle);
    }
  }

  /** With reasoning off the final call receives the user's prompt unchanged, right after the analysis. */
  lemma NoReasoningPassesPrompt(prompt: string, context: string, maxIterations: nat, next: QueryUpdate, oracle: Oracle)
    requires oracle(0).Ok?
    ensures RunPipeline(prompt, context, false, maxIterations, None, next, oracle).requests
            == [Analyze(prompt, context), Generate(prompt, context, oracle(0).text, DetailWord(DetailLevelOf(oracle(0).text)))]
  {
  }

  /** Every request in `requests` carries the formatted history `context`. */
  predicate InContext(requests: seq<Request>, context: string)
  {
    forall i :: 0 <= i < |requests| ==> requests[i].context == context
  }

  /** Refinement requests carry the context they were given. */
  lemma {:induction false} RefineContext(start: Progress, k: nat, total: nat, context: string, analysis: string, next: QueryUpdate, oracle: Oracle)
    requires InContext(start.requests, context)
    ensures InContext(Refine(start, k, total, context, analysis, next, oracle).requests, context)
  {
    if k > 0 {
      RefineContext(start, k - 1, total, context, analysis, next, oracle);
      var p := Refine(start, k - 1, total, context, analysis, next, oracle);
      var p' := Refine(start, k, total, context, analysis, next, oracle);
      if p.error.None? {
        assert p'.requests == p.requests + [Improve(p.query, k - 1, total, context, analysis)];
        forall i | 0 <= i < |p'.requests| ensures p'.requests[i].context == context {
          if i < |p.requests| {
            assert p'.requests[i] == p.requests[i];
            assert p.requests[i].context == context;
          } else {
            assert p'.requests[i] == Improve(p.query, k - 1, total, context, analysis);
          }
        }
      }
    }
  }

  /** Every request of a turn carries the same formatted history. */
  lemma PipelineContext(prompt: string, context: string, enableReasoning: bool, maxIterations: nat,
                        configureError: Option<string>, next: QueryUpdate, oracle: Oracle)
    ensures InContext(RunPipeline(prompt, context, enableReasoning, maxIterations, configureError, next, oracle).requests, context)
  {
    if configureError.None? && oracle(0).Ok? {
      var analysis := oracle(0).text;
      RefineContext(Analyzed(prompt, context, analysis), Iterations(enableReasoning, maxIterations),
                    maxIterations, context, analysis, next, oracle);
    }
  }
}
