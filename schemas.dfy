/** The record types exchanged between the council, the HTTP layer and the
    store (backend/schemas.py). A pydantic model with defaults is a datatype
    plus a `New…` function that takes each optional field as an `Option`
    (None = not given), applies the defaults and performs the validation. */
module Schemas {
  import opened Wrappers

  datatype StageType = Initial | Discussion | Consensus {
    /** The enum's string value. */
    function Value(): string {
      match this
      case Initial => "initial"
      case Discussion => "discussion"
      case Consensus => "consensus"
    }
  }

  /** `StageType(s)`: the member whose value is `s`, if any. */
  function ParseStageType(s: string): (r: Option<StageType>)
    ensures r.Some? <==> s in {"initial", "discussion", "consensus"}
    ensures r.Some? ==> r.value.Value() == s
  {
    if s == "initial" then Some(Initial)
    else if s == "discussion" then Some(Discussion)
    else if s == "consensus" then Some(Consensus)
    else None
  }

  lemma StageTypeRoundTrip(t: StageType)
    ensures ParseStageType(t.Value()) == Some(t)
  {
  }

  datatype MessageRole = User | Assistant | System {
    function Value(): string {
      match this
      case User => "user"
      case Assistant => "assistant"
      case System => "system"
    }
  }

  /** `MessageRole(s)`: the member whose value is `s`, if any. */
  function ParseMessageRole(s: string): (r: Option<MessageRole>)
    ensures r.Some? <==> s in {"user", "assistant", "system"}
    ensures r.Some? ==> r.value.Value() == s
  {
    if s == "user" then Some(User)
    else if s == "assistant" then Some(Assistant)
    else if s == "system" then Some(System)
    else None
  }

  lemma MessageRoleRoundTrip(r: MessageRole)
    ensures ParseMessageRole(r.Value()) == Some(r)
  {
  }

  /** Why pydantic refused to build a record. */
  datatype ValidationError = MissingField(field: string) | OutOfRange(field: string)

  /** Structured reply of a model during discussion. */
  datatype ModelResponse = ModelResponse(
    content: string,
    confidence: real,
    agreesWith: seq<string>,
    keyPoints: seq<string>,
    disagreements: seq<string>)

  const DefaultConfidence: real := 0.8

  /** `ModelResponse(...)`: `content` is required; `confidence` defaults to 0.8 and
      must lie in [0, 1], both bounds included; the three lists default to empty. */
  function NewModelResponse(
    content: Option<string>,
    confidence: Option<real>,
    agreesWith: Option<seq<string>>,
    keyPoints: Option<seq<string>>,
    disagreements: Option<seq<string>>): (r: Result<ModelResponse, ValidationError>)
    ensures r.Success? <==> content.Some? && (confidence.Some? ==> 0.0 <= confidence.value <= 1.0)
    ensures content.None? ==> r == Failure(MissingField("content"))
    ensures content.Some? && confidence.Some? && !(0.0 <= confidence.value <= 1.0) ==>
      r == Failure(OutOfRange("confidence"))
    ensures r.Success? ==> 0.0 <= r.value.confidence <= 1.0
    ensures r.Success? ==> r.value.content == content.value
    ensures r.Success? && confidence.Some? ==> r.value.confidence == confidence.value
    ensures r.Success? && agreesWith.Some? ==> r.value.agreesWith == agreesWith.value
    ensures r.Success? && keyPoints.Some? ==> r.value.keyPoints == keyPoints.value
    ensures r.Success? && disagreements.Some? ==> r.value.disagreements == disagreements.value
    ensures r.Success? && confidence.None? ==> r.value.confidence == 0.8
    ensures r.Success? && agreesWith.None? ==> r.value.agreesWith == []
    ensures r.Success? && keyPoints.None? ==> r.value.keyPoints == []
    ensures r.Success? && disagreements.None? ==> r.value.disagreements == []
  {
    if content.None? then Failure(MissingField("content"))
    else
      var c := confidence.GetOr(DefaultConfidence);
      if !(0.0 <= c <= 1.0) then Failure(OutOfRange("confidence"))
      else Success(ModelResponse(content.value, c, agreesWith.GetOr([]),
                                 keyPoints.GetOr([]), disagreements.GetOr([])))
  }

  /** The boundary values are accepted and the values of the schema tests just
      outside them are refused. */
  lemma ConfidenceBounds()
    ensures NewModelResponse(Some("Test"), Some(0.0), None, None, None).Success?
    ensures NewModelResponse(Some("Test"), Some(1.0), None, None, None).Success?
    ensures NewModelResponse(Some("Test"), Some(1.5), None, None, None) == Failure(OutOfRange("confidence"))
    ensures NewModelResponse(Some("Test"), Some(-0.1), None, None, None) == Failure(OutOfRange("confidence"))
  {
  }

  /** The chairman's consensus. */
  datatype ConsensusResponse = ConsensusResponse(
    finalAnswer: string,
    consensusReached: bool,
    summary: string,
    keyAgreements: seq<string>,
    keyDisagreements: seq<string>)

  /** `ConsensusResponse(...)`: `final_answer` is required; `consensus_reached`
      defaults to true, `summary` to "", the two lists to empty. */
  function NewConsensusResponse(
    finalAnswer: Option<string>,
    consensusReached: Option<bool>,
    summary: Option<string>,
    keyAgreements: Option<seq<string>>,
    keyDisagreements: Option<seq<string>>): (r: Result<ConsensusResponse, ValidationError>)
    ensures r.Success? <==> finalAnswer.Some?
    ensures r.Failure? ==> r.error == MissingField("final_answer")
    ensures r.Success? ==> r.value.finalAnswer == finalAnswer.value
    ensures r.Success? && consensusReached.Some? ==> r.value.consensusReached == consensusReached.value
    ensures r.Success? && summary.Some? ==> r.value.summary == summary.value
    ensures r.Success? && keyAgreements.Some? ==> r.value.keyAgreements == keyAgreements.value
    ensures r.Success? && keyDisagreements.Some? ==> r.value.keyDisagreements == keyDisagreements.value
    ensures r.Success? && consensusReached.None? ==> r.value.consensusReached
    ensures r.Success? && summary.None? ==> r.value.summary == ""
    ensures r.Success? && keyAgreements.None? ==> r.value.keyAgreements == []
    ensures r.Success? && keyDisagreements.None? ==> r.value.keyDisagreements == []
  {
    if finalAnswer.None? then Failure(MissingField("final_answer"))
    else Success(ConsensusResponse(finalAnswer.value, consensusReached.GetOr(true), summary.GetOr(""),
                                   keyAgreements.GetOr([]), keyDisagreements.GetOr([])))
  }

  /** One model's response in a stage. Unlike ModelResponse it has no range
      constraint: `confidence` is any real and `roundNumber` any integer. */
  datatype ModelMessageResponse = ModelMessageResponse(
    modelId: string,
    modelName: string,
    modelColor: string,
    content: string,
    confidence: real,
    keyPoints: seq<string>,
    stage: StageType,
    roundNumber: int)

  datatype DiscussionRound = DiscussionRound(roundNumber: int, responses: seq<ModelMessageResponse>)

  /** Progress notice of a stage; `status` is "started" or "completed". */
  datatype StageProgressEvent = StageProgressEvent(
    stage: StageType,
    roundNumber: Option<int>,
    modelName: Option<string>,
    status: string)

  /** `StageProgressEvent(...)`: `stage` and `status` are required; the round
      number and the model name default to None. */
  function NewStageProgressEvent(
    stage: Option<StageType>,
    status: Option<string>,
    roundNumber: Option<int>,
    modelName: Option<string>): (r: Result<StageProgressEvent, ValidationError>)
    ensures r.Success? <==> stage.Some? && status.Some?
    ensures stage.None? ==> r == Failure(MissingField("stage"))
    ensures stage.Some? && status.None? ==> r == Failure(MissingField("status"))
    ensures r.Success? ==> r.value.stage == stage.value && r.value.status == status.value
    ensures r.Success? ==> r.value.roundNumber == roundNumber && r.value.modelName == modelName
  {
    if stage.None? then Failure(MissingField("stage"))
    else if status.None? then Failure(MissingField("status"))
    else Success(StageProgressEvent(stage.value, roundNumber, modelName, status.value))
  }

  datatype AttachmentResponse = AttachmentResponse(id: string, filename: string, mimeType: string, size: string)

  /** A message as the API returns it; times are abstract instants. */
  datatype MessageResponse = MessageResponse(
    id: string,
    chatId: string,
    role: MessageRole,
    content: string,
    createdAt: int,
    attachments: seq<AttachmentResponse>,
    stage: Option<StageType>,
    initialResponses: Option<seq<ModelMessageResponse>>,
    discussionRounds: Option<seq<DiscussionRound>>,
    consensus: Option<ConsensusResponse>)

  /** `MessageResponse(id=…, chat_id=…, role=…, content=…, created_at=…)`: no
      attachments and no discussion metadata unless given. */
  function NewMessageResponse(id: string, chatId: string, role: MessageRole, content: string, createdAt: int): (r: MessageResponse)
    ensures r.id == id && r.chatId == chatId && r.role == role && r.content == content && r.createdAt == createdAt
    ensures r.attachments == []
    ensures r.stage.None? && r.initialResponses.None? && r.discussionRounds.None? && r.consensus.None?
  {
    MessageResponse(id, chatId, role, content, createdAt, [], None, None, None, None)
  }

  datatype ChatResponse = ChatResponse(id: string, title: string, createdAt: int, updatedAt: int)

  datatype ChatDetailResponse = ChatDetailResponse(
    id: string,
    title: string,
    createdAt: int,
    updatedAt: int,
    messages: seq<MessageResponse>)
}
