/**
 * The per-turn handler of the chat page and its reset button. The session
 * holds two lists: the conversation `messages` and `thinking_history`, one
 * list of thinking steps per turn whose pipeline got that far. Each
 * submitted prompt appends the user's message, then runs the prompt chain
 * (or asks for an API key), then appends exactly one assistant message.
 */
module Session {
  import opened Text
  import opened Prompts
  import opened Pipeline

  /** The assistant's reply when no API key is configured. */
  const KeyGuidance: string :=
    "Please enter your Gemini API Key in the sidebar or add it to your .env file as GEMINI_API_KEY"

  /** The assistant's reply to a turn whose pipeline raised starts with this. */
  const ErrorPrefix: string := "An error occurred: "

  /**
   * The sidebar values one turn reads. `maxIterations` comes from a slider
   * bounded to 1..5 and is 1 when reasoning is off.
   */
  datatype Settings = Settings(keyPresent: bool, enableReasoning: bool, maxIterations: nat)
  {
    predicate Valid()
    {
      1 <= maxIterations <= 5
    }
  }

  /** The three wall-clock readings of a turn: on receipt, before the final call, in the error handler. */
  datatype Clock = Clock(received: string, responded: string, failed: string)

  /** The session state: conversation messages and thinking history. */
  datatype Store = Store(messages: seq<Message>, thinking: seq<seq<string>>)

  /** The new state after one turn, and the requests the turn sent to the model client. */
  datatype TurnResult = TurnResult(store: Store, requests: seq<Request>)

  /** The assistant message that closes a turn whose pipeline ran. */
  function AssistantReply(run: Run, clock: Clock): Message
  {
    match run.answer
    case Ok(text) => Message(AssistantRole, text, clock.responded)
    case Fail(e) => Message(AssistantRole, ErrorPrefix + e, clock.failed)
  }

  /**
   * One submitted prompt. The pipeline sees the history before the new user
   * message (`messages[:-1]`). Without an API key no request is sent and the
   * guidance text is the reply. Otherwise the thinking steps are stored when
   * the pipeline reached that point, and the reply is the final answer or
   * the error. Nothing already stored changes.
   */
  function Turn(s: Store, prompt: string, clock: Clock, settings: Settings,
                configureError: Option<string>, next: QueryUpdate, oracle: Oracle): (r: TurnResult)
    ensures |r.store.messages| == |s.messages| + 2
    ensures r.store.messages[..|s.messages|] == s.messages
    ensures r.store.messages[|s.messages|] == Message(UserRole, prompt, clock.received)
    ensures r.store.messages[|s.messages| + 1].role == AssistantRole
    ensures |s.thinking| <= |r.store.thinking| <= |s.thinking| + 1
    ensures r.store.thinking[..|s.thinking|] == s.thinking
  {
    var user := Message(UserRole, prompt, clock.received);
    if !settings.keyPresent then
      TurnResult(Store(s.messages + [user, Message(AssistantRole, KeyGuidance, clock.received)], s.thinking), [])
    else
      var run := RunPipeline(prompt, FormatHistory(s.messages), settings.enableReasoning,
                             settings.maxIterations, configureError, next, oracle);
      var thinking := if run.stored.Some? then s.thinking + [run.stored.value] else s.thinking;
      TurnResult(Store(s.messages + [user, AssistantReply(run, clock)], thinking), run.requests)
  }

  /** Appending two messages one after the other appends both. */
  lemma AppendTwo(ms: seq<Message>, a: Message, b: Message)
    ensures ms + [a] + [b] == ms + [a, b]
  {
  }

  /** With an API key the turn is decided by the pipeline run on the prior history. */
  lemma TurnWithKey(s: Store, prompt: string, clock: Clock, settings: Settings,
                    configureError: Option<string>, next: QueryUpdate, oracle: Oracle, run: Run)
    requires settings.keyPresent
    requires run == RunPipeline(prompt, FormatHistory(s.messages), settings.enableReasoning,
                                settings.maxIterations, configureError, next, oracle)
    ensures Turn(s, prompt, clock, settings, configureError, next, oracle)
         == TurnResult(Store(s.messages + [Message(UserRole, prompt, clock.received), AssistantReply(run, clock)],
                             if run.stored.Some? then s.thinking + [run.stored.value] else s.thinking),
                       run.requests)
  {
  }

  /** Without an API key the turn sends nothing and replies with the guidance text. */
  lemma MissingKeyTurn(s: Store, prompt: string, clock: Clock, settings: Settings,
                       configureError: Option<string>, next: QueryUpdate, oracle: Oracle)
    requires !settings.keyPresent
    ensures var r := Turn(s, prompt, clock, settings, configureError, next, oracle);
      && r.requests == []
      && r.store.messages[|s.messages| + 1] == Message(AssistantRole, KeyGuidance, clock.received)
      && r.store.thinking == s.thinking
  {
  }

  /**
   * `thinking_history` grows by one entry exactly when an API key is present
   * and configuration, the analysis call and every refinement call succeed
   * (whatever the final call does); otherwise it is unchanged.
   */
  lemma ThinkingGrowsIff(s: Store, prompt: string, clock: Clock, settings: Settings,
                         configureError: Option<string>, next: QueryUpdate, oracle: Oracle)
    ensures var r := Turn(s, prompt, clock, settings, configureError, next, oracle);
      |r.store.thinking| == |s.thinking| + 1
      <==> && settings.keyPresent && configureError.None? && oracle(0).Ok?
           && forall j :: 1 <= j <= Iterations(settings.enableReasoning, settings.maxIterations) ==> oracle(j).Ok?
  {
    if settings.keyPresent {
      PipelineStoresIff(prompt, FormatHistory(s.messages), settings.enableReasoning,
                        settings.maxIterations, configureError, next, oracle);
    }
  }

  /**
   * A turn in which every call succeeds sends 2 + (reasoning ? iterations : 0)
   * requests, the analysis first; it stores one thinking entry holding the
   * analysis step and one step per refinement output, in order; and the
   * reply is the final call's text.
   */
  lemma SuccessfulTurn(s: Store, prompt: string, clock: Clock, settings: Settings, next: QueryUpdate, oracle: Oracle)
    requires settings.keyPresent
    requires forall j :: 0 <= j <= 1 + Iterations(settings.enableReasoning, settings.maxIterations) ==> oracle(j).Ok?
    ensures var r := Turn(s, prompt, clock, settings, None, next, oracle);
      var n := Iterations(settings.enableReasoning, settings.maxIterations);
      && |r.requests| == 2 + n
      && r.requests[0] == Analyze(prompt, FormatHistory(s.messages))
      && r.requests[1 + n].Generate?
      && |r.store.thinking| == |s.thinking| + 1
      && r.store.thinking == s.thinking + [r.store.thinking[|s.thinking|]]
      && |r.store.thinking[|s.thinking|]| == 1 + n
      && r.store.thinking[|s.thinking|][0] == AnalysisStep(oracle(0).text)
      && (forall j :: 1 <= j <= n ==> r.store.thinking[|s.thinking|][j] == oracle(j).text)
      && r.store.messages[|s.messages| + 1] == Message(AssistantRole, oracle(1 + n).text, clock.responded)
  {
    var context := FormatHistory(s.messages);
    var run := RunPipeline(prompt, context, settings.enableReasoning, settings.maxIterations, None, next, oracle);
    PipelineAnswersIff(prompt, context, settings.enableReasoning, settings.maxIterations, None, next, oracle);
    PipelineSuccess(prompt, context, settings.enableReasoning, settings.maxIterations, None, next, oracle);
    StoredStepsAreOutputs(prompt, context, settings.enableReasoning, settings.maxIterations, None, next, oracle);
    TurnWithKey(s, prompt, clock, settings, None, next, oracle, run);
  }

  /**
   * A turn whose pipeline raised replies with the error text: that of
   * configuration, or that of the last request it sent.
   */
  lemma FailedTurn(s: Store, prompt: string, clock: Clock, settings: Settings,
                   configureError: Option<string>, next: QueryUpdate, oracle: Oracle)
    requires settings.keyPresent
    requires RunPipeline(prompt, FormatHistory(s.messages), settings.enableReasoning,
                         settings.maxIterations, configureError, next, oracle).answer.Fail?
    ensures var r := Turn(s, prompt, clock, settings, configureError, next, oracle);
      var reply := r.store.messages[|s.messages| + 1];
      && reply.timestamp == clock.failed
      && (configureError.Some? ==> r.requests == [] && reply.content == ErrorPrefix + configureError.value)
      && (configureError.None? ==>
            |r.requests| > 0 && oracle(|r.requests| - 1).Fail?
            && reply.content == ErrorPrefix + oracle(|r.requests| - 1).error)
  {
    PipelineFailsOnLastCall(prompt, FormatHistory(s.messages), settings.enableReasoning,
                            settings.maxIterations, configureError, next, oracle);
  }

  /**
   * The history every request of a turn carries is that of the messages
   * before the turn's own user message, i.e. `messages[:-1]`.
   */
  lemma TurnUsesPriorHistory(s: Store, prompt: string, clock: Clock, settings: Settings,
                             configureError: Option<string>, next: QueryUpdate, oracle: Oracle)
    ensures var r := Turn(s, prompt, clock, settings, configureError, next, oracle);
      && r.store.messages[..|r.store.messages| - 2] == s.messages
      && InContext(r.requests, FormatHistory(r.store.messages[..|r.store.messages| - 2]))
  {
    if settings.keyPresent {
      PipelineContext(prompt, FormatHistory(s.messages), settings.enableReasoning,
                      settings.maxIterations, configureError, next, oracle);
    }
  }

  /** User messages sit exactly at the even indices. */
  predicate Alternating(ms: seq<Message>)
  {
    forall i :: 0 <= i < |ms| ==> (ms[i].role == UserRole <==> i % 2 == 0)
  }

  /**
   * The shape every reachable session has: whole user/assistant pairs, user
   * first, and at most one thinking entry per pair.
   */
  predicate WellFormed(s: Store)
  {
    |s.messages| % 2 == 0 && Alternating(s.messages) && |s.thinking| <= |s.messages| / 2
  }

  /** Every turn keeps the session well formed. */
  lemma TurnKeepsWellFormed(s: Store, prompt: string, clock: Clock, settings: Settings,
                            configureError: Option<string>, next: QueryUpdate, oracle: Oracle)
    requires WellFormed(s)
    ensures WellFormed(Turn(s, prompt, clock, settings, configureError, next, oracle).store)
  {
    var ms := Turn(s, prompt, clock, settings, configureError, next, oracle).store.messages;
    var n := |s.messages|;
    forall i | 0 <= i < |ms| ensures ms[i].role == UserRole <==> i % 2 == 0 {
      if i < n {
        assert ms[i] == ms[..n][i] == s.messages[i];
      }
    }
  }

  /** The reset button: both lists emptied. */
  function ResetStore(s: Store): (r: Store)
    ensures r.messages == [] && r.thinking == []
    ensures WellFormed(r)
  {
    Store([], [])
  }

  /**
   * The thinking record the page shows under message `i`: only for a user
   * message that is not the last one, looked up at `i // 2`, and only when
   * that entry exists and is not empty.
   */
  function ThinkingShown(s: Store, i: nat): Option<seq<string>>
    requires i < |s.messages|
  {
    if i < |s.messages| - 1 && s.messages[i].role == UserRole && i / 2 < |s.thinking| && s.thinking[i / 2] != []
    then Some(s.thinking[i / 2])
    else None
  }

  /**
   * When every earlier turn stored a thinking entry, a turn that stores one
   * too has it shown under its own user message, and the session stays
   * aligned (one entry per pair).
   */
  lemma AlignedTurnShowsOwnThinking(s: Store, prompt: string, clock: Clock, settings: Settings,
                                    configureError: Option<string>, next: QueryUpdate, oracle: Oracle)
    requires WellFormed(s) && |s.thinking| == |s.messages| / 2
    requires |Turn(s, prompt, clock, settings, configureError, next, oracle).store.thinking| == |s.thinking| + 1
    ensures var r := Turn(s, prompt, clock, settings, configureError, next, oracle).store;
      && |r.thinking| == |r.messages| / 2
      && ThinkingShown(r, |s.messages|) == Some(r.thinking[|s.thinking|])
  {
    var r := Turn(s, prompt, clock, settings, configureError, next, oracle).store;
    ThinkingGrowsIff(s, prompt, clock, settings, configureError, next, oracle);
    assert r.thinking[|s.thinking|] != [] by {
      PipelineSuccessStored(prompt, FormatHistory(s.messages), settings.enableReasoning,
                            settings.maxIterations, configureError, next, oracle);
    }
  }

  /** The thinking entry a pipeline stores always holds the analysis step. */
  lemma PipelineSuccessStored(prompt: string, context: string, enableReasoning: bool, maxIterations: nat,
                              configureError: Option<string>, next: QueryUpdate, oracle: Oracle)
    requires RunPipeline(prompt, context, enableReasoning, maxIterations, configureError, next, oracle).stored.Some?
    ensures RunPipeline(prompt, context, enableReasoning, maxIterations, configureError, next, oracle).stored.value != []
  {
    var analysis := oracle(0).text;
    RefineGrows(Analyzed(prompt, context, analysis), Iterations(enableReasoning, maxIterations),
                maxIterations, context, analysis, next, oracle);
  }

  /**
   * The positional lookup goes wrong once a turn stores no thinking: after a
   * turn without an API key and then a turn that succeeds, the first user
   * message shows the second turn's thinking and the second shows none.
   */
  lemma LookupMisalignsAfterMissingKey(prompt1: string, prompt2: string, clock: Clock, next: QueryUpdate, oracle: Oracle)
    requires forall j :: 0 <= j <= 1 ==> oracle(j).Ok?
    ensures var s1 := Turn(Store([], []), prompt1, clock, Settings(false, false, 1), None, next, oracle).store;
      var s2 := Turn(s1, prompt2, clock, Settings(true, false, 1), None, next, oracle).store;
      && |s2.messages| == 4 && s2.thinking == [[AnalysisStep(oracle(0).text)]]
      && ThinkingShown(s2, 0) == Some(s2.thinking[0])
      && ThinkingShown(s2, 2) == None
  {
    var s1 := Turn(Store([], []), prompt1, clock, Settings(false, false, 1), None, next, oracle).store;
    SuccessfulTurn(s1, prompt2, clock, Settings(true, false, 1), next, oracle);
  }

  /**
   * The session state of the chat page: the two lists the page keeps
   * between reruns, updated in place by each turn and by the reset button.
   */
  class ChatSession {
    var messages: seq<Message>
    var thinkingHistory: seq<seq<string>>

    function Snapshot(): Store
      reads this
    {
      Store(messages, thinkingHistory)
    }

    /** A fresh session starts with both lists empty. */
    constructor ()
      ensures messages == [] && thinkingHistory == []
      ensures WellFormed(Snapshot())
    {
      messages := [];
      thinkingHistory := [];
    }

    /**
     * Handles one submitted, non-empty prompt, calling the model client
     * through `oracle`, and returns the requests it sent in call order. The new
     * state and the requests are those of `Turn`.
     */
    method Submit(prompt: string, clock: Clock, settings: Settings,
                  configureError: Option<string>, oracle: Oracle) returns (sent: seq<Request>)
      requires prompt != ""
      requires settings.Valid()
      modifies this
      ensures TurnResult(Snapshot(), sent) == Turn(old(Snapshot()), prompt, clock, settings, configureError, NextQuery, oracle)
      ensures old(WellFormed(Snapshot())) ==> WellFormed(Snapshot())
    {
      ghost var before := Snapshot();
      var user := Message(UserRole, prompt, clock.received);
      messages := messages + [user];
      sent := [];
      if !settings.keyPresent {
        messages := messages + [Message(AssistantRole, KeyGuidance, clock.received)];
        AppendTwo(before.messages, user, Message(AssistantRole, KeyGuidance, clock.received));
      } else {
        assert messages[..|messages| - 1] == before.messages;
        var stored: Option<seq<string>>, answer: Reply;
        sent, stored, answer := RunPromptChain(prompt, messages[..|messages| - 1], settings.enableReasoning,
                                               settings.maxIterations, configureError, oracle);
        if stored.Some? {
          thinkingHistory := thinkingHistory + [stored.value];
        }
        var reply := AssistantReply(Run(sent, stored, answer), clock);
        messages := messages + [reply];
        AppendTwo(before.messages, user, reply);
        TurnWithKey(before, prompt, clock, settings, configureError, NextQuery, oracle, Run(sent, stored, answer));
      }
      if WellFormed(before) {
        TurnKeepsWellFormed(before, prompt, clock, settings, configureError, NextQuery, oracle);
      }
    }

    /** The reset button: both lists emptied, whatever they held. */
    method Reset()
      modifies this
      ensures messages == [] && thinkingHistory == []
      ensures Snapshot() == ResetStore(old(Snapshot()))
    {
      messages := [];
      thinkingHistory := [];
    }
  }
}
