/** The council orchestrator (backend/council.py): the three stages and the
    round loop of `run_full_council`. What each model answers is an input (a
    Gateway of call outcomes per stage), so a run is determined by its inputs;
    the requests each stage sends are outputs. */
module Council {
  import opened Wrappers
  import opened Text
  import opened Schemas
  import opened Config
  import opened CouncilFormat
  import opened CouncilReplies

  /** The three system prompt templates; their wording is not modelled. */
  datatype PromptKind = InitialPrompt | DiscussionPrompt | ChairmanPrompt

  /** A system message: the stage's template filled in with `modelName`,
      followed by `appendix`. */
  datatype SystemMessage = SystemMessage(template: PromptKind, modelName: string, appendix: string)

  /** One chat-completion request: a system and a user message. */
  datatype Request = Request(model: string, system: SystemMessage, user: string, temperature: real, maxTokens: nat)

  /** `CouncilOrchestrator`: the registry and the chairman it was built with. */
  datatype Orchestrator = Orchestrator(models: seq<Participant>, chairman: Participant)

  /** The module-level `orchestrator`, built from COUNCIL_MODELS and CHAIRMAN_MODEL. */
  function ConfiguredOrchestrator(): (o: Orchestrator)
    ensures o.models == CouncilModels && ChairmanOf(CouncilModels) == Success(o.chairman)
    ensures IsChairman(o.chairman) && |o.models| <= PseudonymLimit
  {
    ConfiguredRegistry();
    Orchestrator(CouncilModels, CouncilModels[0])
  }

  // Stage 1: initial answers

  /** The events of the initial stage: "started", then one "completed" per model. */
  function InitialEvents(models: seq<Participant>): seq<StageProgressEvent> {
    [Started(Initial, None, None)] + CompletedEvents(Initial, None, models)
  }

  /** The initial responses for the call outcomes `results`, in registry order. */
  function InitialResponses(models: seq<Participant>, results: seq<CallResult>): (responses: seq<ModelMessageResponse>)
    requires |results| == |models|
    ensures |responses| == |models|
    ensures forall i :: 0 <= i < |models| ==> responses[i] == InitialResponse(models[i], results[i])
  {
    seq(|models|, i requires 0 <= i < |models| => InitialResponse(models[i], results[i]))
  }

  /** What follows the initial template: the history block after a blank line,
      or nothing when there is no history. */
  function HistoryAppendix(toon: string): string {
    if toon == "" then "" else "\n\n" + toon
  }

  /** The request `run_initial_stage` sends to `model`: the question is the
      user message and the history block follows the initial template. */
  function InitialRequest(model: Participant, query: string, history: seq<HistoryMessage>): Request {
    Request(model.id, SystemMessage(InitialPrompt, model.name, HistoryAppendix(HistoryToon(history, HistoryBudget))),
            query, 0.7, 2048)
  }

  /** A model is asked the question itself, and its prompt carries a history
      block exactly when there is history to show. */
  lemma HistoryReachesPrompt(model: Participant, query: string, history: seq<HistoryMessage>)
    ensures InitialRequest(model, query, history).model == model.id
    ensures InitialRequest(model, query, history).user == query
    ensures InitialRequest(model, query, history).system.appendix == "" <==> history == []
  {
    if history != [] {
      var b := KeepFrom(HistoryLines(history), 0, 0, HistoryBudget);
      var parts := [HistoryHeader] + b.kept + (if b.cut then [HistoryOmitted] else []);
      assert parts[0] == HistoryHeader;
    }
  }

  /** `run_initial_stage`: one request per model carrying the history block
      and the question; one response per model, in registry order; a
      "started" event, then one "completed" event per model. */
  method RunInitialStage(o: Orchestrator, query: string, history: seq<HistoryMessage>, results: seq<CallResult>)
    returns (requests: seq<Request>, responses: seq<ModelMessageResponse>, events: seq<StageProgressEvent>)
    requires |results| == |o.models|
    ensures |requests| == |o.models|
    ensures forall i :: 0 <= i < |o.models| ==>
      requests[i] == Request(o.models[i].id, SystemMessage(InitialPrompt, o.models[i].name,
                                                           HistoryAppendix(HistoryToon(history, HistoryBudget))),
                             query, 0.7, 2048)
    ensures responses == InitialResponses(o.models, results)
    ensures events == InitialEvents(o.models)
  {
    var toon := FormatChatHistoryToon(history, HistoryBudget);
    var appendix := if toon != "" then "\n\n" + toon else "";
    requests := BuildInitialRequests(o.models, query, appendix);
    responses, events := ProcessInitialResults(o.models, results);
  }

  /** The request loop of `run_initial_stage`: one request per model, in
      registry order, its system message carrying `appendix`. */
  method BuildInitialRequests(models: seq<Participant>, query: string, appendix: string) returns (requests: seq<Request>)
    ensures |requests| == |models|
    ensures forall i :: 0 <= i < |models| ==>
      requests[i] == Request(models[i].id, SystemMessage(InitialPrompt, models[i].name, appendix), query, 0.7, 2048)
  {
    requests := [];
    for i := 0 to |models|
      invariant |requests| == i
      invariant forall k :: 0 <= k < i ==>
        requests[k] == Request(models[k].id, SystemMessage(InitialPrompt, models[k].name, appendix), query, 0.7, 2048)
    {
      requests := requests + [Request(models[i].id, SystemMessage(InitialPrompt, models[i].name, appendix), query, 0.7, 2048)];
    }
  }

  /** The result loop of `run_initial_stage`: one response per model, in
      registry order, after the "started" event and one "completed" event
      per model. */
  method ProcessInitialResults(models: seq<Participant>, results: seq<CallResult>)
    returns (responses: seq<ModelMessageResponse>, events: seq<StageProgressEvent>)
    requires |results| == |models|
    ensures responses == InitialResponses(models, results)
    ensures events == InitialEvents(models)
  {
    events := [Started(Initial, None, None)];
    responses := [];
    for i := 0 to |models|
      invariant responses == InitialResponses(models[..i], results[..i])
      invariant events == [Started(Initial, None, None)] + CompletedEvents(Initial, None, models[..i])
    {
      CompletedSnoc(Initial, None, models, i);
      InitialResponsesSnoc(models, results, i);
      events := events + [StageProgressEvent(Initial, None, Some(models[i].name), "completed")];
      responses := responses + [InitialResponse(models[i], results[i])];
    }
    assert models[..|models|] == models && results[..|results|] == results;
  }

  /** The responses for the first i + 1 models extend those for the first i. */
  lemma InitialResponsesSnoc(models: seq<Participant>, results: seq<CallResult>, i: nat)
    requires |results| == |models| && i < |models|
    ensures InitialResponses(models[..i + 1], results[..i + 1])
      == InitialResponses(models[..i], results[..i]) + [InitialResponse(models[i], results[i])]
  {
  }

  // Stage 2: discussion rounds

  function RoundHeader(roundNumber: int): string {
    "\n=== Раунд обсуждения " + IntToString(roundNumber) + " ===\n"
  }

  /** The name lookup of the discussion context: the first registry index
      whose model has that name, None where the lookup raises. */
  function IndexOfName(models: seq<Participant>, name: string): (r: Option<nat>)
    ensures r.Some? ==> r.value < |models| && models[r.value].name == name
    ensures r.Some? ==> forall j :: 0 <= j < r.value ==> models[j].name != name
    ensures r.None? <==> forall j :: 0 <= j < |models| ==> models[j].name != name
  {
    if models == [] then None
    else if models[0].name == name then Some(0)
    else
      match IndexOfName(models[1..], name)
      case None => None
      case Some(k) => Some(k + 1)
  }

  /** With distinct names, a participant's name leads back to its own index. */
  lemma IndexOfOwnName(models: seq<Participant>, i: nat)
    requires DistinctNames(models) && i < |models|
    ensures IndexOfName(models, models[i].name) == Some(i)
  {
  }

  /** The transcript lines of earlier-round responses, each under the
      pseudonym of the model that gave it; an unknown model name escapes. */
  function LabelledLines(models: seq<Participant>, responses: seq<ModelMessageResponse>): Result<string, Failure>
    requires |models| <= PseudonymLimit
  {
    if responses == [] then Success("")
    else
      var prev := LabelledLines(models, responses[..|responses| - 1]);
      var last := responses[|responses| - 1];
      if prev.Failure? then prev
      else
        match IndexOfName(models, last.modelName)
        case None => Failure(UnknownModelName(last.modelName))
        case Some(k) => Success(prev.value + AnonymizeModelName(k) + ": " + last.content + "\n")
  }

  /** The discussion context of the discussion prompt: each earlier round's
      header, then its responses under their pseudonyms. */
  function RoundsContext(models: seq<Participant>, rounds: seq<DiscussionRound>): Result<string, Failure>
    requires |models| <= PseudonymLimit
  {
    if rounds == [] then Success("")
    else
      var prev := RoundsContext(models, rounds[..|rounds| - 1]);
      var last := rounds[|rounds| - 1];
      if prev.Failure? then prev
      else
        match LabelledLines(models, last.responses)
        case Failure(e) => Failure(e)
        case Success(lines) => Success(prev.value + RoundHeader(last.roundNumber) + lines)
  }

  lemma {:induction false} LabelledLinesFailed(models: seq<Participant>, responses: seq<ModelMessageResponse>, j: nat)
    requires |models| <= PseudonymLimit && j <= |responses|
    requires LabelledLines(models, responses[..j]).Failure?
    ensures LabelledLines(models, responses) == LabelledLines(models, responses[..j])
    decreases |responses|
  {
    if j < |responses| {
      var front := responses[..|responses| - 1];
      assert front[..j] == responses[..j];
      LabelledLinesFailed(models, front, j);
    } else {
      assert responses[..j] == responses;
    }
  }

  /** Appending a round to rounds whose context is `text` adds the round's
      header and lines, or fails where its lines fail. */
  lemma RoundsContextSnoc(models: seq<Participant>, front: seq<DiscussionRound>, last: DiscussionRound, text: string)
    requires |models| <= PseudonymLimit
    requires RoundsContext(models, front) == Success(text)
    ensures RoundsContext(models, front + [last]) ==
      match LabelledLines(models, last.responses)
      case Failure(e) => Failure(e)
      case Success(lines) => Success(text + RoundHeader(last.roundNumber) + lines)
  {
    assert (front + [last])[..|front|] == front;
  }

  lemma {:induction false} RoundsContextFailed(models: seq<Participant>, rounds: seq<DiscussionRound>, j: nat)
    requires |models| <= PseudonymLimit && j <= |rounds|
    requires RoundsContext(models, rounds[..j]).Failure?
    ensures RoundsContext(models, rounds) == RoundsContext(models, rounds[..j])
    decreases |rounds|
  {
    if j < |rounds| {
      var front := rounds[..|rounds| - 1];
      assert front[..j] == rounds[..j];
      RoundsContextFailed(models, front, j);
    } else {
      assert rounds[..j] == rounds;
    }
  }

  /** Rounds whose responses all come from registry models never fail to be
      labelled, given distinct names: every response is found under its own index. */
  lemma {:induction false} LabelledLinesOfRegistry(models: seq<Participant>, responses: seq<ModelMessageResponse>)
    requires |models| <= PseudonymLimit
    requires forall j :: 0 <= j < |responses| ==> exists i :: 0 <= i < |models| && models[i].name == responses[j].modelName
    ensures LabelledLines(models, responses).Success?
  {
    if responses != [] {
      var last := responses[|responses| - 1];
      LabelledLinesOfRegistry(models, responses[..|responses| - 1]);
      var i :| 0 <= i < |models| && models[i].name == last.modelName;
      assert IndexOfName(models, last.modelName).Some?;
    }
  }

  /** The inner loop of the `discussion_context` loop: one labelled line per
      response of a round. */
  method BuildLabelledLines(models: seq<Participant>, responses: seq<ModelMessageResponse>)
    returns (lines: Result<string, Failure>)
    requires |models| <= PseudonymLimit
    ensures lines == LabelledLines(models, responses)
  {
    var text := "";
    for j := 0 to |responses|
      invariant LabelledLines(models, responses[..j]) == Success(text)
    {
      var response := responses[j];
      assert responses[..j + 1][..j] == responses[..j];
      var index := IndexOfName(models, response.modelName);
      if index.None? {
        LabelledLinesFailed(models, responses, j + 1);
        return Failure(UnknownModelName(response.modelName));
      }
      text := text + AnonymizeModelName(index.value) + ": " + response.content + "\n";
    }
    assert responses[..|responses|] == responses;
    lines := Success(text);
  }

  /** The discussion context of earlier rounds (the `discussion_context` loop
      of `run_discussion_round`). */
  method BuildRoundsContext(models: seq<Participant>, rounds: seq<DiscussionRound>) returns (context: Result<string, Failure>)
    requires |models| <= PseudonymLimit
    ensures context == RoundsContext(models, rounds)
  {
    var text := "";
    for r := 0 to |rounds|
      invariant RoundsContext(models, rounds[..r]) == Success(text)
    {
      var round := rounds[r];
      ghost var front := rounds[..r];
      assert rounds[..r + 1] == front + [round];
      RoundsContextSnoc(models, front, round, text);
      var lines := BuildLabelledLines(models, round.responses);
      if lines.Failure? {
        assert RoundsContext(models, rounds[..r + 1]) == Failure(lines.error);
        RoundsContextFailed(models, rounds, r + 1);
        return Failure(lines.error);
      }
      text := text + RoundHeader(round.roundNumber) + lines.value;
    }
    assert rounds[..|rounds|] == rounds;
    context := Success(text);
  }

  /** The initial answers shown in the discussion prompt: `zip(models,
      initial_responses)`, so as many as the shorter of the two. */
  function InitialContents(models: seq<Participant>, initial: seq<ModelMessageResponse>): (contents: seq<string>)
    ensures |contents| <= |models| && |contents| <= |initial|
    ensures |contents| == |models| || |contents| == |initial|
    ensures forall i :: 0 <= i < |contents| ==> contents[i] == initial[i].content
  {
    var n := if |models| <= |initial| then |models| else |initial|;
    seq(n, i requires 0 <= i < n => initial[i].content)
  }

  /** The user message of the discussion prompt. */
  function DiscussionUserContent(query: string, others: string, context: string): string {
    "Исходный вопрос: " + query + "\n\n"
    + "=== Начальные ответы ===\n" + others + "\n"
    + context + "\n"
    + "Пожалуйста, дай свой уточнённый ответ в формате JSON."
  }

  /** The discussion request of model `i`: the others' initial answers, with
      its own left out, and the context of earlier rounds. */
  function DiscussionRequest(models: seq<Participant>, i: nat, query: string, initial: seq<ModelMessageResponse>, context: string): Request
    requires i < |models| <= PseudonymLimit
  {
    var others := Join(DiscussionBlocks(InitialContents(models, initial), Some(i)), "\n");
    Request(models[i].id, SystemMessage(DiscussionPrompt, models[i].name, ""), DiscussionUserContent(query, others, context), 0.6, 2048)
  }

  /** Model `i`'s discussion prompt never shows its own initial answer: every
      block it holds is the block of another model's answer, under that model's
      own pseudonym. */
  lemma OwnAnswerExcluded(models: seq<Participant>, initial: seq<ModelMessageResponse>, i: nat, k: nat)
    requires i < |models| <= PseudonymLimit
    requires k < |DiscussionBlocks(InitialContents(models, initial), Some(i))|
    ensures var blocks := DiscussionBlocks(InitialContents(models, initial), Some(i));
      var j := SourceIndex(k, Some(i));
      && j < |models| && j < |initial| && j != i
      && blocks[k] == DiscussionBlock(j, initial[j].content)
  {
    DiscussionBlockAt(InitialContents(models, initial), Some(i), k);
  }

  /** A discussion round as it ends: the round or the exception that escaped,
      and the events emitted. */
  datatype RoundRun = RoundRun(outcome: Result<DiscussionRound, Failure>, events: seq<StageProgressEvent>)

  /** `run_discussion_round` for round `roundNumber` after `previous`, with the
      call outcomes `results`: "started", then the context of the earlier
      rounds (an unknown model name escapes here), then the reply loop. */
  function DiscussionRoundRun(models: seq<Participant>, previous: seq<DiscussionRound>, roundNumber: int,
                              results: seq<CallResult>, loads: string -> Option<Json>): RoundRun
    requires |models| <= PseudonymLimit && |results| == |models|
  {
    var started := Started(Discussion, Some(roundNumber), None);
    match RoundsContext(models, previous)
    case Failure(e) => RoundRun(Failure(e), [started])
    case Success(_) =>
      var p := RoundProgress(models, roundNumber, Replies(results, loads), |models|);
      RoundProgressShape(models, roundNumber, Replies(results, loads), |models|);
      var events := [started] + CompletedEvents(Discussion, Some(roundNumber), models[..p.completed]);
      match p.replies
      case Failure(e) => RoundRun(Failure(e), events)
      case Success(responses) => RoundRun(Success(DiscussionRound(roundNumber, responses)), events)
  }

  /** A completed round carries its number and one response per model, in
      registry order, each the validated reply of that model; its events are
      "started" and one "completed" per model. */
  lemma DiscussionRoundShape(models: seq<Participant>, previous: seq<DiscussionRound>, roundNumber: int,
                             results: seq<CallResult>, loads: string -> Option<Json>)
    requires |models| <= PseudonymLimit && |results| == |models|
    ensures var run := DiscussionRoundRun(models, previous, roundNumber, results, loads);
      run.outcome.Success? ==>
        && RoundsContext(models, previous).Success?
        && run.outcome.value.roundNumber == roundNumber
        && |run.outcome.value.responses| == |models|
        && (forall i :: 0 <= i < |models| ==>
              && Reply(results[i], loads).Success?
              && Validate(models[i], roundNumber, Reply(results[i], loads).value) == Success(run.outcome.value.responses[i]))
        && run.events == [Started(Discussion, Some(roundNumber), None)] + CompletedEvents(Discussion, Some(roundNumber), models)
  {
    RoundProgressShape(models, roundNumber, Replies(results, loads), |models|);
    assert models[..|models|] == models;
  }

  /** `run_discussion_round`. */
  method RunDiscussionRound(o: Orchestrator, query: string, initial: seq<ModelMessageResponse>,
                            previous: seq<DiscussionRound>, roundNumber: int,
                            results: seq<CallResult>, loads: string -> Option<Json>)
    returns (requests: seq<Request>, outcome: Result<DiscussionRound, Failure>, events: seq<StageProgressEvent>)
    requires |o.models| <= PseudonymLimit && |results| == |o.models|
    ensures RoundRun(outcome, events) == DiscussionRoundRun(o.models, previous, roundNumber, results, loads)
    ensures RoundsContext(o.models, previous).Failure? ==> requests == []
    ensures RoundsContext(o.models, previous).Success? ==>
      && |requests| == |o.models|
      && forall i :: 0 <= i < |o.models| ==>
           requests[i] == DiscussionRequest(o.models, i, query, initial, RoundsContext(o.models, previous).value)
  {
    var started := Started(Discussion, Some(roundNumber), None);
    events := [started];
    requests := [];
    var context := BuildRoundsContext(o.models, previous);
    if context.Failure? {
      return requests, Failure(context.error), events;
    }
    var contents := InitialContents(o.models, initial);
    for i := 0 to |o.models|
      invariant |requests| == i
      invariant forall k :: 0 <= k < i ==> requests[k] == DiscussionRequest(o.models, k, query, initial, context.value)
    {
      var others := FormatResponsesForDiscussion(contents, Some(i));
      var user := DiscussionUserContent(query, others, context.value);
      requests := requests + [Request(o.models[i].id, SystemMessage(DiscussionPrompt, o.models[i].name, ""), user, 0.6, 2048)];
    }
    var responses, completed := ProcessRound(o.models, roundNumber, results, loads);
    events := events + completed;
    outcome := if responses.Success? then Success(DiscussionRound(roundNumber, responses.value)) else Failure(responses.error);
  }

  /** The reply loop of `run_discussion_round`: the responses, or the
      exception that escaped, and the "completed" events emitted meanwhile. */
  method ProcessRound(models: seq<Participant>, roundNumber: int, results: seq<CallResult>, loads: string -> Option<Json>)
    returns (responses: Result<seq<ModelMessageResponse>, Failure>, events: seq<StageProgressEvent>)
    requires |results| == |models|
    ensures var p := RoundProgress(models, roundNumber, Replies(results, loads), |models|);
      && p.completed <= |models|
      && responses == p.replies
      && events == CompletedEvents(Discussion, Some(roundNumber), models[..p.completed])
  {
    ghost var fields := Replies(results, loads);
    RoundProgressShape(models, roundNumber, fields, |models|);
    var done: seq<ModelMessageResponse> := [];
    events := [];
    for i := 0 to |models|
      invariant RoundProgress(models, roundNumber, fields, i) == Progress(Success(done), i)
      invariant events == CompletedEvents(Discussion, Some(roundNumber), models[..i])
    {
      CompletedSnoc(Discussion, Some(roundNumber), models, i);
      var f := Reply(results[i], loads);
      assert f == fields[i];
      if f.Failure? {
        RoundProgressFailed(models, roundNumber, fields, i + 1, |models|);
        return Failure(f.error), events;
      }
      events := events + [StageProgressEvent(Discussion, Some(roundNumber), Some(models[i].name), "completed")];
      var m := Validate(models[i], roundNumber, f.value);
      if m.Failure? {
        RoundProgressFailed(models, roundNumber, fields, i + 1, |models|);
        return Failure(m.error), events;
      }
      done := done + [m.value];
    }
    assert models[..|models|] == models;
    responses := Success(done);
  }

  // Stage 3: the chairman

  /** One initial answer as the chairman sees it: pseudonym and real name. */
  function ChairmanInitialBlock(index: nat, response: ModelMessageResponse): string
    requires index < PseudonymLimit
  {
    "=== " + AnonymizeModelName(index) + " (" + response.modelName + ") ===\n" + response.content + "\n\n"
  }

  /** `initial_context`: the blocks of all initial answers, in order. */
  function ChairmanInitialContext(initial: seq<ModelMessageResponse>): string
    requires |initial| <= PseudonymLimit
  {
    if initial == [] then ""
    else
      var n := |initial| - 1;
      ChairmanInitialContext(initial[..n]) + ChairmanInitialBlock(n, initial[n])
  }

  /** A round's responses as the chairman sees them: under the real names. */
  function ChairmanRoundLines(responses: seq<ModelMessageResponse>): string {
    if responses == [] then ""
    else
      var last := responses[|responses| - 1];
      ChairmanRoundLines(responses[..|responses| - 1]) + last.modelName + ": " + last.content + "\n\n"
  }

  /** `discussion_context` of the chairman prompt: every round's header and lines. */
  function ChairmanDiscussionContext(rounds: seq<DiscussionRound>): string {
    if rounds == [] then ""
    else
      var last := rounds[|rounds| - 1];
      ChairmanDiscussionContext(rounds[..|rounds| - 1]) + RoundHeader(last.roundNumber) + ChairmanRoundLines(last.responses)
  }

  /** The user message of the chairman prompt. */
  function ChairmanUserContent(query: string, initialContext: string, discussionContext: string): string {
    "Вопрос пользователя: " + query + "\n\n"
    + "=== Начальные ответы членов совета ===\n" + initialContext + "\n"
    + "=== Дискуссия ===\n" + discussionContext + "\n"
    + "Сформулируй итоговый ответ на вопрос пользователя, объединив лучшие идеи."
  }

  function ChairmanRequest(chairman: Participant, query: string, initial: seq<ModelMessageResponse>,
                           rounds: seq<DiscussionRound>): Request
    requires |initial| <= PseudonymLimit
  {
    Request(chairman.id, SystemMessage(ChairmanPrompt, chairman.name, ""),
            ChairmanUserContent(query, ChairmanInitialContext(initial), ChairmanDiscussionContext(rounds)), 0.5, 4096)
  }

  const ConsensusSummary: string := "Консенсус достигнут"

  /** The consensus built from the chairman's reply. */
  function ConsensusOf(reply: string): (c: ConsensusResponse)
    ensures c.finalAnswer == FinalAnswer(reply)
    ensures c.consensusReached && c.summary == ConsensusSummary
    ensures c.keyAgreements == [] && c.keyDisagreements == []
  {
    ConsensusResponse(FinalAnswer(reply), true, ConsensusSummary, [], [])
  }

  /** The consensus stage as it ends, and its events. */
  datatype ConsensusRun = ConsensusRun(outcome: Result<ConsensusResponse, Failure>, events: seq<StageProgressEvent>)

  /** `run_consensus_stage` with the chairman's call outcome: "started"; a failed
      call escapes; otherwise the consensus and "completed". */
  function ConsensusStageRun(chairman: Participant, result: CallResult): ConsensusRun {
    var started := Started(Consensus, None, Some(chairman.name));
    match result
    case Err(message) => ConsensusRun(Failure(ChairmanCallFailed(message)), [started])
    case Ok(text) =>
      ConsensusRun(Success(ConsensusOf(text)), [started, StageProgressEvent(Consensus, None, Some(chairman.name), "completed")])
  }

  /** The stage always starts with "started"; it fails exactly when the
      chairman's call failed, with that failure and no other event;
      otherwise it yields the consensus of the reply and ends with
      "completed". */
  lemma ConsensusStageShape(chairman: Participant, result: CallResult)
    ensures var run := ConsensusStageRun(chairman, result);
      && |run.events| >= 1 && run.events[0] == Started(Consensus, None, Some(chairman.name))
      && (run.outcome.Failure? <==> result.Err?)
      && (result.Err? ==> run.outcome == Failure(ChairmanCallFailed(result.message)) && |run.events| == 1)
      && (result.Ok? ==>
            && run.outcome == Success(ConsensusOf(result.text))
            && run.events[1..] == [StageProgressEvent(Consensus, None, Some(chairman.name), "completed")])
  {
  }

  method BuildChairmanInitialContext(initial: seq<ModelMessageResponse>) returns (text: string)
    requires |initial| <= PseudonymLimit
    ensures text == ChairmanInitialContext(initial)
  {
    text := "";
    for i := 0 to |initial|
      invariant text == ChairmanInitialContext(initial[..i])
    {
      ChairmanInitialSnoc(initial, i);
      text := text + ChairmanInitialBlock(i, initial[i]);
    }
    assert initial[..|initial|] == initial;
  }

  /** The context of the first i + 1 answers extends that of the first i. */
  lemma ChairmanInitialSnoc(initial: seq<ModelMessageResponse>, i: nat)
    requires i < |initial| <= PseudonymLimit
    ensures ChairmanInitialContext(initial[..i + 1]) == ChairmanInitialContext(initial[..i]) + ChairmanInitialBlock(i, initial[i])
  {
    assert initial[..i + 1][..i] == initial[..i];
  }

  method BuildChairmanRoundLines(responses: seq<ModelMessageResponse>) returns (text: string)
    ensures text == ChairmanRoundLines(responses)
  {
    text := "";
    for j := 0 to |responses|
      invariant text == ChairmanRoundLines(responses[..j])
    {
      assert responses[..j + 1][..j] == responses[..j];
      text := text + responses[j].modelName + ": " + responses[j].content + "\n\n";
    }
    assert responses[..|responses|] == responses;
  }

  method BuildChairmanDiscussionContext(rounds: seq<DiscussionRound>) returns (text: string)
    ensures text == ChairmanDiscussionContext(rounds)
  {
    text := "";
    for r := 0 to |rounds|
      invariant text == ChairmanDiscussionContext(rounds[..r])
    {
      assert rounds[..r + 1][..r] == rounds[..r];
      var lines := BuildChairmanRoundLines(rounds[r].responses);
      text := text + RoundHeader(rounds[r].roundNumber) + lines;
    }
    assert rounds[..|rounds|] == rounds;
  }

  /** The chairman request of `run_consensus_stage`: every initial answer
      with pseudonym and real name and every round under real names. */
  method BuildChairmanRequest(o: Orchestrator, query: string, initial: seq<ModelMessageResponse>,
                              rounds: seq<DiscussionRound>)
    returns (request: Request)
    requires |initial| <= PseudonymLimit
    ensures request == ChairmanRequest(o.chairman, query, initial, rounds)
  {
    var initialContext := BuildChairmanInitialContext(initial);
    var discussionContext := BuildChairmanDiscussionContext(rounds);
    request := Request(o.chairman.id, SystemMessage(ChairmanPrompt, o.chairman.name, ""),
                       ChairmanUserContent(query, initialContext, discussionContext), 0.5, 4096);
  }

  /** `run_consensus_stage`: "started", the chairman request, then either the
      escaping call failure or the consensus and "completed". */
  method RunConsensusStage(o: Orchestrator, query: string, initial: seq<ModelMessageResponse>,
                           rounds: seq<DiscussionRound>, result: CallResult)
    returns (request: Request, outcome: Result<ConsensusResponse, Failure>, events: seq<StageProgressEvent>)
    requires |initial| <= PseudonymLimit
    ensures request == ChairmanRequest(o.chairman, query, initial, rounds)
    ensures ConsensusRun(outcome, events) == ConsensusStageRun(o.chairman, result)
  {
    var started := Started(Consensus, None, Some(o.chairman.name));
    request := BuildChairmanRequest(o, query, initial, rounds);
    match result
    case Err(message) =>
      outcome, events := Failure(ChairmanCallFailed(message)), [started];
    case Ok(text) =>
      var finalAnswer := FinalAnswer(text);
      var consensus := ConsensusResponse(finalAnswer, true, ConsensusSummary, [], []);
      assert consensus == ConsensusOf(text);
      outcome := Success(consensus);
      events := [started, StageProgressEvent(Consensus, None, Some(o.chairman.name), "completed")];
  }

  // The whole run

  /** What the gateway answers in a run: one outcome per model for the initial
      stage and for each discussion round, and the chairman's outcome. */
  datatype Gateway = Gateway(initial: seq<CallResult>, rounds: seq<seq<CallResult>>, chairman: CallResult)

  /** The gateway has an outcome for every request the run can send. */
  predicate Answers(o: Orchestrator, gateway: Gateway) {
    && |o.models| <= PseudonymLimit
    && |gateway.initial| == |o.models|
    && |gateway.rounds| >= MaxDiscussionRounds
    && forall k :: 0 <= k < |gateway.rounds| ==> |gateway.rounds[k]| == |o.models|
  }

  /** A round average above this ends the discussion early. */
  const EarlyStopConfidence: real := 0.95

  /** The discussion rounds of a run, or the exception that ended it, and the
      events emitted by the rounds. */
  datatype RoundsRun = RoundsRun(rounds: Result<seq<DiscussionRound>, Failure>, events: seq<StageProgressEvent>)

  /** One discussion round of a run, given the rounds before it: round
      |previous| + 1, answered by the gateway's outcomes for that round. A
      gateway without outcomes for the round fails with IndexError. */
  function RoundStep(o: Orchestrator, gateway: Gateway, loads: string -> Option<Json>): seq<DiscussionRound> -> RoundRun {
    previous =>
      if |previous| < |gateway.rounds| && |gateway.rounds[|previous|]| == |o.models| && |o.models| <= PseudonymLimit
      then DiscussionRoundRun(o.models, previous, |previous| + 1, gateway.rounds[|previous|], loads)
      else RoundRun(Failure(IndexError), [])
  }

  /** The round loop of `run_full_council` once the rounds `done` are over,
      `step` computing each round from the rounds before it: the loop ends
      after round MaxDiscussionRounds or right after a round whose average
      confidence exceeds 0.95; a round without responses raises
      ZeroDivisionError. */
  function RoundsLoop(step: seq<DiscussionRound> -> RoundRun, done: seq<DiscussionRound>): RoundsRun
    requires |done| <= MaxDiscussionRounds
    decreases MaxDiscussionRounds - |done|
  {
    if |done| == MaxDiscussionRounds then RoundsRun(Success(done), [])
    else
      var s := step(done);
      match s.outcome
      case Failure(e) => RoundsRun(Failure(e), s.events)
      case Success(round) =>
        match AverageConfidence(round.responses)
        case None => RoundsRun(Failure(ZeroDivision), s.events)
        case Some(average) =>
          if average > EarlyStopConfidence then RoundsRun(Success(done + [round]), s.events)
          else
            var rest := RoundsLoop(step, done + [round]);
            RoundsRun(rest.rounds, s.events + rest.events)
  }

  /** The rounds are numbered 1, 2, ... */
  predicate Numbered(rounds: seq<DiscussionRound>) {
    forall k :: 0 <= k < |rounds| ==> rounds[k].roundNumber == k + 1
  }

  /** `rounds` is what a successful round loop can return after the rounds
      `done`: `done` as a prefix, then at least one round and at most
      MaxDiscussionRounds in all; every added round is the step computed from
      the rounds before it; every added round but the last has an average
      confidence of at most 0.95, and the last one exceeds 0.95 unless the
      cap was reached. */
  ghost predicate LoopShaped(step: seq<DiscussionRound> -> RoundRun, done: seq<DiscussionRound>, rounds: seq<DiscussionRound>) {
    && |done| < |rounds| <= MaxDiscussionRounds
    && rounds[..|done|] == done
    && (forall k :: |done| <= k < |rounds| ==> step(rounds[..k]).outcome == Success(rounds[k]))
    && (forall k :: |done| <= k < |rounds| ==> AverageConfidence(rounds[k].responses).Some?)
    && (forall k :: |done| <= k < |rounds| - 1 ==> AverageConfidence(rounds[k].responses).value <= EarlyStopConfidence)
    && (|rounds| < MaxDiscussionRounds ==> AverageConfidence(rounds[|rounds| - 1].responses).value > EarlyStopConfidence)
  }

  /** A loop shape after `done + [round]` is one after `done` when `round` is
      the step after `done` and did not end the loop. */
  lemma ShapedExtend(step: seq<DiscussionRound> -> RoundRun, done: seq<DiscussionRound>, round: DiscussionRound, rounds: seq<DiscussionRound>)
    requires step(done).outcome == Success(round)
    requires AverageConfidence(round.responses).Some?
    requires AverageConfidence(round.responses).value <= EarlyStopConfidence
    requires LoopShaped(step, done + [round], rounds)
    ensures LoopShaped(step, done, rounds)
  {
    var next := done + [round];
    assert rounds[..|done|] == rounds[..|next|][..|done|] == done;
    assert rounds[|done|] == next[|done|] == round;
    forall k | |done| <= k < |rounds|
      ensures step(rounds[..k]).outcome == Success(rounds[k])
      ensures AverageConfidence(rounds[k].responses).Some?
      ensures k < |rounds| - 1 ==> AverageConfidence(rounds[k].responses).value <= EarlyStopConfidence
    {
      if k == |done| {
        assert rounds[..k] == done;
      }
    }
  }

  /** Continuing from rounds `done`, a successful loop returns a loop shape. */
  lemma {:induction false} RoundsLoopShape(step: seq<DiscussionRound> -> RoundRun, done: seq<DiscussionRound>)
    requires |done| < MaxDiscussionRounds
    decreases MaxDiscussionRounds - |done|
    ensures var run := RoundsLoop(step, done);
      run.rounds.Success? ==> LoopShaped(step, done, run.rounds.value)
  {
    var run := RoundsLoop(step, done);
    if run.rounds.Success? {
      var round := step(done).outcome.value;
      var average := AverageConfidence(round.responses).value;
      var next := done + [round];
      if average > EarlyStopConfidence || |next| == MaxDiscussionRounds {
        if average <= EarlyStopConfidence {
          assert run.rounds == RoundsLoop(step, next).rounds == Success(next);
        }
        assert run.rounds == Success(next);
        assert next[..|done|] == done;
      } else {
        RoundsLoopShape(step, next);
        assert run.rounds == RoundsLoop(step, next).rounds;
        ShapedExtend(step, done, round, run.rounds.value);
      }
    }
  }

  /** The steps of a run number their rounds 1, 2, ...: every round in a
      successful loop from numbered rounds carries its position. */
  lemma {:induction false} RoundsLoopNumbered(o: Orchestrator, gateway: Gateway, loads: string -> Option<Json>, done: seq<DiscussionRound>)
    requires Answers(o, gateway) && |done| < MaxDiscussionRounds && Numbered(done)
    ensures var run := RoundsLoop(RoundStep(o, gateway, loads), done);
      run.rounds.Success? ==> Numbered(run.rounds.value)
  {
    var step := RoundStep(o, gateway, loads);
    RoundsLoopShape(step, done);
    var run := RoundsLoop(step, done);
    if run.rounds.Success? {
      var rounds := run.rounds.value;
      forall k | 0 <= k < |rounds|
        ensures rounds[k].roundNumber == k + 1
      {
        if k >= |done| {
          StepNumbered(o, gateway, loads, rounds[..k], rounds[k]);
        } else {
          assert rounds[k] == rounds[..|done|][k];
        }
      }
    }
  }

  /** The round the step computes after `previous` is numbered |previous| + 1. */
  lemma StepNumbered(o: Orchestrator, gateway: Gateway, loads: string -> Option<Json>, previous: seq<DiscussionRound>, round: DiscussionRound)
    requires Answers(o, gateway) && |previous| < MaxDiscussionRounds
    requires RoundStep(o, gateway, loads)(previous).outcome == Success(round)
    ensures round.roundNumber == |previous| + 1
  {
    StepAt(o, gateway, loads, previous);
    DiscussionRoundShape(o.models, previous, |previous| + 1, gateway.rounds[|previous|], loads);
  }

  /** The result of a whole run. */
  datatype CouncilResult = CouncilResult(
    initialResponses: seq<ModelMessageResponse>,
    discussionRounds: seq<DiscussionRound>,
    consensus: ConsensusResponse)

  /** A whole run: the result or the exception that escaped, and every
      progress event emitted, in order. */
  datatype CouncilRun = CouncilRun(outcome: Result<CouncilResult, Failure>, events: seq<StageProgressEvent>)

  /** `run_full_council`: the initial stage, the round loop, the chairman. */
  function FullCouncilRun(o: Orchestrator, gateway: Gateway, loads: string -> Option<Json>): CouncilRun
    requires Answers(o, gateway)
  {
    var initial := InitialResponses(o.models, gateway.initial);
    var rounds := RoundsLoop(RoundStep(o, gateway, loads), []);
    match rounds.rounds
    case Failure(e) => CouncilRun(Failure(e), InitialEvents(o.models) + rounds.events)
    case Success(discussion) =>
      var consensus := ConsensusStageRun(o.chairman, gateway.chairman);
      var events := InitialEvents(o.models) + rounds.events + consensus.events;
      match consensus.outcome
      case Failure(e) => CouncilRun(Failure(e), events)
      case Success(c) => CouncilRun(Success(CouncilResult(initial, discussion, c)), events)
  }

  /** A successful run is made of the initial responses, the rounds of the
      round loop and the chairman's consensus. */
  lemma FullCouncilParts(o: Orchestrator, gateway: Gateway, loads: string -> Option<Json>)
    requires Answers(o, gateway)
    ensures var run := FullCouncilRun(o, gateway, loads);
      var rounds := RoundsLoop(RoundStep(o, gateway, loads), []);
      run.outcome.Success? ==>
        && rounds.rounds.Success?
        && gateway.chairman.Ok?
        && run.outcome.value == CouncilResult(InitialResponses(o.models, gateway.initial), rounds.rounds.value, ConsensusOf(gateway.chairman.text))
  {
  }

  /** A successful run has one initial response per model and between 1 and
      MaxDiscussionRounds rounds numbered from 1, stopping early only after a
      round whose average confidence exceeds 0.95; its consensus comes from
      the chairman's reply. */
  lemma FullCouncilShape(o: Orchestrator, gateway: Gateway, loads: string -> Option<Json>)
    requires Answers(o, gateway)
    ensures var run := FullCouncilRun(o, gateway, loads);
      run.outcome.Success? ==>
        var r := run.outcome.value;
        && r.initialResponses == InitialResponses(o.models, gateway.initial)
        && 1 <= |r.discussionRounds| <= MaxDiscussionRounds
        && Numbered(r.discussionRounds)
        && (forall k :: 0 <= k < |r.discussionRounds| ==> AverageConfidence(r.discussionRounds[k].responses).Some?)
        && (forall k :: 0 <= k < |r.discussionRounds| - 1 ==>
              AverageConfidence(r.discussionRounds[k].responses).value <= EarlyStopConfidence)
        && (|r.discussionRounds| < MaxDiscussionRounds ==>
              AverageConfidence(r.discussionRounds[|r.discussionRounds| - 1].responses).value > EarlyStopConfidence)
        && gateway.chairman.Ok? && r.consensus == ConsensusOf(gateway.chairman.text)
  {
    RoundsLoopShape(RoundStep(o, gateway, loads), []);
    RoundsLoopNumbered(o, gateway, loads, []);
    FullCouncilParts(o, gateway, loads);
  }

  /** Every round of a successful run is the discussion round computed from
      the rounds before it, with the gateway's outcomes for that round. */
  lemma FullCouncilRounds(o: Orchestrator, gateway: Gateway, loads: string -> Option<Json>)
    requires Answers(o, gateway)
    ensures var run := FullCouncilRun(o, gateway, loads);
      run.outcome.Success? ==>
        var rs := run.outcome.value.discussionRounds;
        && |rs| <= MaxDiscussionRounds
        && forall k :: 0 <= k < |rs| ==>
             DiscussionRoundRun(o.models, rs[..k], k + 1, gateway.rounds[k], loads).outcome == Success(rs[k])
  {
    var step := RoundStep(o, gateway, loads);
    RoundsLoopShape(step, []);
    FullCouncilParts(o, gateway, loads);
    var run := FullCouncilRun(o, gateway, loads);
    if run.outcome.Success? {
      ShapedRoundsAreSteps(o, gateway, loads, run.outcome.value.discussionRounds);
    }
  }

  /** Every round of a loop shape from no rounds is the discussion round
      computed from the rounds before it. */
  lemma ShapedRoundsAreSteps(o: Orchestrator, gateway: Gateway, loads: string -> Option<Json>, rs: seq<DiscussionRound>)
    requires Answers(o, gateway) && LoopShaped(RoundStep(o, gateway, loads), [], rs)
    ensures forall k :: 0 <= k < |rs| ==>
      DiscussionRoundRun(o.models, rs[..k], k + 1, gateway.rounds[k], loads).outcome == Success(rs[k])
  {
    forall k | 0 <= k < |rs|
      ensures DiscussionRoundRun(o.models, rs[..k], k + 1, gateway.rounds[k], loads).outcome == Success(rs[k])
    {
      ShapedRoundIsStep(o, gateway, loads, rs, k);
    }
  }

  lemma ShapedRoundIsStep(o: Orchestrator, gateway: Gateway, loads: string -> Option<Json>, rs: seq<DiscussionRound>, k: nat)
    requires Answers(o, gateway) && LoopShaped(RoundStep(o, gateway, loads), [], rs) && k < |rs|
    ensures DiscussionRoundRun(o.models, rs[..k], k + 1, gateway.rounds[k], loads).outcome == Success(rs[k])
  {
    var previous := rs[..k];
    assert RoundStep(o, gateway, loads)(previous).outcome == Success(rs[k]);
    StepIsRound(o, gateway, loads, previous, rs[k]);
  }

  lemma StepIsRound(o: Orchestrator, gateway: Gateway, loads: string -> Option<Json>, previous: seq<DiscussionRound>, round: DiscussionRound)
    requires Answers(o, gateway) && |previous| < MaxDiscussionRounds
    requires RoundStep(o, gateway, loads)(previous).outcome == Success(round)
    ensures DiscussionRoundRun(o.models, previous, |previous| + 1, gateway.rounds[|previous|], loads).outcome == Success(round)
  {
    StepAt(o, gateway, loads, previous);
  }

  /** An empty registry cannot complete a run: the first round has no
      responses to average. */
  lemma EmptyRegistryFails(o: Orchestrator, gateway: Gateway, loads: string -> Option<Json>)
    requires Answers(o, gateway) && o.models == []
    ensures FullCouncilRun(o, gateway, loads).outcome == Failure(ZeroDivision)
  {
    DiscussionRoundShape(o.models, [], 1, gateway.rounds[0], loads);
  }

  /** A failing chairman call ends the run with that failure, after all rounds. */
  lemma ChairmanFailurePropagates(o: Orchestrator, gateway: Gateway, loads: string -> Option<Json>)
    requires Answers(o, gateway) && gateway.chairman.Err?
    requires RoundsLoop(RoundStep(o, gateway, loads), []).rounds.Success?
    ensures FullCouncilRun(o, gateway, loads).outcome == Failure(ChairmanCallFailed(gateway.chairman.message))
  {
  }

  /** The round loop of `run_full_council`: at most MaxDiscussionRounds rounds,
      stopping early after a round whose average confidence is above the threshold. */
  method RunRounds(o: Orchestrator, query: string, initial: seq<ModelMessageResponse>, gateway: Gateway, loads: string -> Option<Json>)
    returns (rounds: Result<seq<DiscussionRound>, Failure>, events: seq<StageProgressEvent>)
    requires Answers(o, gateway)
    ensures RoundsRun(rounds, events) == RoundsLoop(RoundStep(o, gateway, loads), [])
  {
    ghost var step := RoundStep(o, gateway, loads);
    ghost var full := RoundsLoop(step, []);
    events := [];
    var done: seq<DiscussionRound> := [];
    var roundNumber := 1;
    while roundNumber <= MaxDiscussionRounds
      invariant |done| == roundNumber - 1 <= MaxDiscussionRounds
      invariant full.rounds == RoundsLoop(step, done).rounds
      invariant full.events == events + RoundsLoop(step, done).events
      decreases MaxDiscussionRounds - |done|
    {
      var finished, more, passEvents := RoundPass(o, query, initial, gateway, loads, done);
      events := events + passEvents;
      if finished.Some? {
        return finished.value, events;
      }
      done := more;
      roundNumber := roundNumber + 1;
    }
    rounds := Success(done);
  }

  /** One pass of the round loop after the rounds `done`: either the loop ends
      here with `finished`, or it goes on after the rounds `more`. */
  method RoundPass(o: Orchestrator, query: string, initial: seq<ModelMessageResponse>, gateway: Gateway,
                   loads: string -> Option<Json>, done: seq<DiscussionRound>)
    returns (finished: Option<Result<seq<DiscussionRound>, Failure>>, more: seq<DiscussionRound>,
             events: seq<StageProgressEvent>)
    requires Answers(o, gateway) && |done| < MaxDiscussionRounds
    ensures finished.Some? ==> RoundsLoop(RoundStep(o, gateway, loads), done) == RoundsRun(finished.value, events)
    ensures finished.None? ==>
      && |more| == |done| + 1
      && RoundsLoop(RoundStep(o, gateway, loads), done).rounds == RoundsLoop(RoundStep(o, gateway, loads), more).rounds
      && RoundsLoop(RoundStep(o, gateway, loads), done).events == events + RoundsLoop(RoundStep(o, gateway, loads), more).events
  {
    ghost var step := RoundStep(o, gateway, loads);
    var next;
    next, events := NextRound(o, query, initial, gateway, loads, done);
    StepAt(o, gateway, loads, done);
    assert step(done) == RoundRun(next, events);
    LoopUnfold(step, done);
    more := done;
    match next
    case Failure(e) =>
      finished := Some(Failure(e));
    case Success(round) =>
      var average := AverageConfidence(round.responses);
      match average
      case None =>
        finished := Some(Failure(ZeroDivision));
      case Some(value) =>
        more := done + [round];
        finished := if value > EarlyStopConfidence then Some(Success(more)) else None;
  }

  /** One unfolding of the round loop after `done`, below the cap. */
  lemma LoopUnfold(step: seq<DiscussionRound> -> RoundRun, done: seq<DiscussionRound>)
    requires |done| < MaxDiscussionRounds
    ensures var s := step(done);
      && (s.outcome.Failure? ==> RoundsLoop(step, done) == RoundsRun(Failure(s.outcome.error), s.events))
      && (s.outcome.Success? && AverageConfidence(s.outcome.value.responses).None? ==>
            RoundsLoop(step, done) == RoundsRun(Failure(ZeroDivision), s.events))
      && (s.outcome.Success? && AverageConfidence(s.outcome.value.responses).Some? ==>
            var average := AverageConfidence(s.outcome.value.responses).value;
            var more := done + [s.outcome.value];
            && (average > EarlyStopConfidence ==> RoundsLoop(step, done) == RoundsRun(Success(more), s.events))
            && (average <= EarlyStopConfidence ==>
                  RoundsLoop(step, done) == RoundsRun(RoundsLoop(step, more).rounds, s.events + RoundsLoop(step, more).events)))
  {
  }

  /** The loop's step after `done` is discussion round |done| + 1. */
  lemma StepAt(o: Orchestrator, gateway: Gateway, loads: string -> Option<Json>, done: seq<DiscussionRound>)
    requires Answers(o, gateway) && |done| < MaxDiscussionRounds
    ensures RoundStep(o, gateway, loads)(done) == DiscussionRoundRun(o.models, done, |done| + 1, gateway.rounds[|done|], loads)
  {
  }

  /** One pass of the round loop: the round after `done`. */
  method NextRound(o: Orchestrator, query: string, initial: seq<ModelMessageResponse>, gateway: Gateway,
                   loads: string -> Option<Json>, done: seq<DiscussionRound>)
    returns (next: Result<DiscussionRound, Failure>, events: seq<StageProgressEvent>)
    requires Answers(o, gateway) && |done| < MaxDiscussionRounds
    ensures RoundRun(next, events) == DiscussionRoundRun(o.models, done, |done| + 1, gateway.rounds[|done|], loads)
  {
    var _, outcome, roundEvents := RunDiscussionRound(o, query, initial, done, |done| + 1, gateway.rounds[|done|], loads);
    next, events := outcome, roundEvents;
  }

  /** `run_full_council(user_query, chat_history, on_progress)`. */
  method RunFullCouncil(o: Orchestrator, query: string, history: seq<HistoryMessage>, gateway: Gateway, loads: string -> Option<Json>)
    returns (outcome: Result<CouncilResult, Failure>, events: seq<StageProgressEvent>, initialRequests: seq<Request>)
    requires Answers(o, gateway)
    ensures CouncilRun(outcome, events) == FullCouncilRun(o, gateway, loads)
    ensures |initialRequests| == |o.models|
    ensures forall i :: 0 <= i < |o.models| ==> initialRequests[i] == InitialRequest(o.models[i], query, history)
  {
    var initial, initialEvents;
    initialRequests, initial, initialEvents := RunInitialStage(o, query, history, gateway.initial);
    var rounds, roundEvents := RunRounds(o, query, initial, gateway, loads);
    events := initialEvents + roundEvents;
    if rounds.Failure? {
      return Failure(rounds.error), events, initialRequests;
    }
    var _, consensus, consensusEvents := RunConsensusStage(o, query, initial, rounds.value, gateway.chairman);
    events := events + consensusEvents;
    if consensus.Failure? {
      return Failure(consensus.error), events, initialRequests;
    }
    outcome := Success(CouncilResult(initial, rounds.value, consensus.value));
  }
}
