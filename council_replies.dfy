/** How the council orchestrator (backend/council.py) turns what the gateway
    returns for each model into a ModelMessageResponse, and the progress events
    it reports meanwhile. The gateway and `json.loads` are parameters: a call
    outcome is `Ok(text)` or `Err(message)`, and decoding is a partial function. */
module CouncilReplies {
  import opened Wrappers
  import opened Text
  import opened Schemas
  import opened Config
  import opened CouncilFormat

  /** What the gateway gives back for one request: the reply text, or the
      exception gathered in its place, as its `str`. */
  datatype CallResult = Ok(text: string) | Err(message: string)

  /** A value `json.loads` can produce. */
  datatype Json =
    | JNull
    | JBool(b: bool)
    | JNum(n: real)
    | JStr(s: string)
    | JArr(items: seq<Json>)
    | JObj(fields: map<string, Json>)

  /** The exceptions that escape a stage of the council. */
  datatype Failure =
    | IndexError                      // a reply opening with ``` that has no newline
    | InvalidReply(field: string)     // ModelMessageResponse refuses a decoded field
    | UnknownModelName(name: string)  // `next(...)` finds no model of that name
    | ZeroDivision                    // the average confidence of a round without responses
    | ChairmanCallFailed(message: string)

  const ErrorPrefix: string := "Ошибка: "

  /** Confidence of an answer that came back without a stated one. */
  const ReplyConfidence: real := 0.8

  /** Confidence of a failed call. */
  const FailedConfidence: real := 0.0

  /** The initial-stage response of participant `p` for the call outcome `r`. */
  function InitialResponse(p: Participant, r: CallResult): (m: ModelMessageResponse)
    ensures m.modelId == p.id && m.modelName == p.name && m.modelColor == p.color
    ensures m.stage == Initial && m.roundNumber == 0 && m.keyPoints == []
    ensures r.Ok? ==> m.content == r.text && m.confidence == 0.8
    ensures r.Err? ==> m.content == ErrorPrefix + r.message && m.confidence == 0.0
  {
    match r
    case Ok(text) => ModelMessageResponse(p.id, p.name, p.color, text, ReplyConfidence, [], Initial, 0)
    case Err(message) => ModelMessageResponse(p.id, p.name, p.color, ErrorPrefix + message, FailedConfidence, [], Initial, 0)
  }

  /** The three reply fields the discussion stage reads, before validation. */
  datatype ReplyFields = ReplyFields(content: Json, confidence: Json, keyPoints: Json)

  /** `parsed.get(key, default)`. */
  function Get(fields: map<string, Json>, key: string, default: Json): Json {
    if key in fields then fields[key] else default
  }

  /** The fields of a successful discussion reply `raw`: the cleaned text is
      decoded; a JSON object gives its "content", "confidence" and "key_points"
      entries, each defaulting to the raw reply, 0.8 and []; a decode failure or
      a value other than an object gives the raw reply, 0.8 and []. A reply
      opening with ``` and holding no newline raises IndexError. */
  function ReadReply(raw: string, loads: string -> Option<Json>): (r: Result<ReplyFields, Failure>)
    ensures r.Failure? <==> CleanReply(raw).None?
    ensures r.Failure? ==> r.error == IndexError
    ensures r.Success? ==> r == DecodeReply(raw, loads(CleanReply(raw).value))
  {
    match CleanReply(raw)
    case None => Failure(IndexError)
    case Some(clean) => DecodeReply(raw, loads(clean))
  }

  /** The fields read from the decoding `parsed` of a cleaned reply `raw`. */
  function DecodeReply(raw: string, parsed: Option<Json>): (r: Result<ReplyFields, Failure>)
    ensures r.Success?
    ensures !(parsed.Some? && parsed.value.JObj?) ==> r.value == ReplyFields(JStr(raw), JNum(0.8), JArr([]))
  {
    match parsed
    case Some(JObj(fields)) =>
      Success(ReplyFields(Get(fields, "content", JStr(raw)), Get(fields, "confidence", JNum(ReplyConfidence)),
                          Get(fields, "key_points", JArr([]))))
    case _ => Success(ReplyFields(JStr(raw), JNum(ReplyConfidence), JArr([])))
  }

  /** The fields of the discussion reply for the call outcome `r`: a failed call
      gives the error text, 0.0 and [] without any decoding. */
  function Reply(r: CallResult, loads: string -> Option<Json>): (f: Result<ReplyFields, Failure>)
    ensures r.Err? ==> f == Success(ReplyFields(JStr(ErrorPrefix + r.message), JNum(0.0), JArr([])))
    ensures r.Ok? ==> f == ReadReply(r.text, loads)
  {
    match r
    case Err(message) => Success(ReplyFields(JStr(ErrorPrefix + message), JNum(FailedConfidence), JArr([])))
    case Ok(text) => ReadReply(text, loads)
  }

  /** A `str` field accepts only a string. */
  function AsString(j: Json): Option<string> {
    if j.JStr? then Some(j.s) else None
  }

  /** A `float` field accepts a number, and a boolean as 1.0 or 0.0. */
  function AsReal(j: Json): Option<real> {
    match j
    case JNum(n) => Some(n)
    case JBool(b) => Some(if b then 1.0 else 0.0)
    case _ => None
  }

  /** A `list[str]` field accepts an array of strings. */
  function AsStrings(j: Json): (r: Option<seq<string>>)
    ensures r.Some? <==> j.JArr? && forall k :: 0 <= k < |j.items| ==> j.items[k].JStr?
    ensures r.Some? ==> |r.value| == |j.items| && forall k :: 0 <= k < |r.value| ==> j.items[k] == JStr(r.value[k])
  {
    if !j.JArr? then None else StringItems(j.items)
  }

  function StringItems(items: seq<Json>): (r: Option<seq<string>>)
    ensures r.Some? <==> forall k :: 0 <= k < |items| ==> items[k].JStr?
    ensures r.Some? ==> |r.value| == |items| && forall k :: 0 <= k < |r.value| ==> items[k] == JStr(r.value[k])
  {
    if items == [] then Some([])
    else
      match StringItems(items[..|items| - 1])
      case None => None
      case Some(prefix) =>
        if items[|items| - 1].JStr? then Some(prefix + [items[|items| - 1].s]) else None
  }

  /** `ModelMessageResponse(...)` for participant `p` in discussion round
      `roundNumber`: content must be a string, confidence a number (no range is
      checked) and key_points a list of strings. */
  function Validate(p: Participant, roundNumber: int, f: ReplyFields): (r: Result<ModelMessageResponse, Failure>)
    ensures r.Success? <==> AsString(f.content).Some? && AsReal(f.confidence).Some? && AsStrings(f.keyPoints).Some?
    ensures r.Success? ==> r.value == ModelMessageResponse(p.id, p.name, p.color, AsString(f.content).value,
      AsReal(f.confidence).value, AsStrings(f.keyPoints).value, Discussion, roundNumber)
    ensures AsString(f.content).None? ==> r == Failure(InvalidReply("content"))
  {
    match (AsString(f.content), AsReal(f.confidence), AsStrings(f.keyPoints))
    case (None, _, _) => Failure(InvalidReply("content"))
    case (_, None, _) => Failure(InvalidReply("confidence"))
    case (_, _, None) => Failure(InvalidReply("key_points"))
    case (Some(content), Some(confidence), Some(keyPoints)) =>
      Success(ModelMessageResponse(p.id, p.name, p.color, content, confidence, keyPoints, Discussion, roundNumber))
  }

  /** A failed call or an undecodable reply never raises: the model's response
      is the error text, or the raw reply with confidence 0.8, and no key points. */
  lemma FallbackNeverRaises(p: Participant, roundNumber: int, r: CallResult, loads: string -> Option<Json>)
    requires r.Ok? ==> CleanReply(r.text).Some? && loads(CleanReply(r.text).value).None?
    ensures Reply(r, loads).Success?
    ensures var m := Validate(p, roundNumber, Reply(r, loads).value);
      && m.Success? && m.value.keyPoints == [] && m.value.stage == Discussion && m.value.roundNumber == roundNumber
      && (r.Ok? ==> m.value.content == r.text && m.value.confidence == 0.8)
      && (r.Err? ==> m.value.content == ErrorPrefix + r.message && m.value.confidence == 0.0)
  {
    assert AsStrings(JArr([])) == Some([]);
  }

  /** A reply that opens with ``` but holds no newline escapes as IndexError. */
  lemma FenceWithoutNewlineRaises(raw: string, loads: string -> Option<Json>)
    requires StartsWith(Strip(raw), Fence) && '\n' !in Strip(raw)
    ensures Reply(Ok(raw), loads) == Failure(IndexError)
  {
  }

  /** A decoded object's confidence is taken as it is: values outside [0, 1]
      pass, unlike for ModelResponse. */
  lemma ConfidenceUnchecked(p: Participant, raw: string, content: string, confidence: real)
    ensures var f := DecodeReply(raw, Some(JObj(map["content" := JStr(content), "confidence" := JNum(confidence)])));
      Validate(p, 1, f.value) == Success(ModelMessageResponse(p.id, p.name, p.color, content, confidence, [], Discussion, 1))
  {
    var fields := map["content" := JStr(content), "confidence" := JNum(confidence)];
    assert "key_points" !in fields;
    assert AsStrings(JArr([])) == Some([]);
  }

  /** A decoded object without "content" keeps the whole raw reply as content. */
  lemma MissingContentKeepsRaw(p: Participant, raw: string)
    ensures Validate(p, 1, DecodeReply(raw, Some(JObj(map[]))).value)
      == Success(ModelMessageResponse(p.id, p.name, p.color, raw, 0.8, [], Discussion, 1))
  {
    assert AsStrings(JArr([])) == Some([]);
  }

  // Progress events

  function Started(stage: StageType, roundNumber: Option<int>, modelName: Option<string>): StageProgressEvent {
    StageProgressEvent(stage, roundNumber, modelName, "started")
  }

  /** One "completed" event per participant, in registry order. */
  function CompletedEvents(stage: StageType, roundNumber: Option<int>, models: seq<Participant>): (events: seq<StageProgressEvent>)
    ensures |events| == |models|
    ensures forall i :: 0 <= i < |models| ==>
      events[i] == StageProgressEvent(stage, roundNumber, Some(models[i].name), "completed")
  {
    if models == [] then []
    else CompletedEvents(stage, roundNumber, models[..|models| - 1])
         + [StageProgressEvent(stage, roundNumber, Some(models[|models| - 1].name), "completed")]
  }

  /** The events for the first i + 1 participants extend those for the first i. */
  lemma CompletedSnoc(stage: StageType, roundNumber: Option<int>, models: seq<Participant>, i: nat)
    requires i < |models|
    ensures CompletedEvents(stage, roundNumber, models[..i + 1])
      == CompletedEvents(stage, roundNumber, models[..i]) + [StageProgressEvent(stage, roundNumber, Some(models[i].name), "completed")]
  {
    assert models[..i + 1][..i] == models[..i];
  }

  /** The responses of all participants of one discussion round, and how many
      "completed" events were emitted on the way. */
  datatype Progress = Progress(replies: Result<seq<ModelMessageResponse>, Failure>, completed: nat)

  /** The reply fields of every call outcome of a round, in order. */
  function Replies(results: seq<CallResult>, loads: string -> Option<Json>): (fields: seq<Result<ReplyFields, Failure>>)
    ensures |fields| == |results|
    ensures forall i :: 0 <= i < |results| ==> fields[i] == Reply(results[i], loads)
  {
    seq(|results|, i requires 0 <= i < |results| => Reply(results[i], loads))
  }

  /** The discussion loop over the first `n` participants, given the reply
      fields read for each: a reply that could not be read escapes before its
      "completed" event; otherwise the event is emitted and the fields are then
      validated, a refused field escaping after the event. */
  function RoundProgress(models: seq<Participant>, roundNumber: int, fields: seq<Result<ReplyFields, Failure>>, n: nat): Progress
    requires n <= |models| && n <= |fields|
  {
    if n == 0 then Progress(Success([]), 0)
    else
      var prev := RoundProgress(models, roundNumber, fields, n - 1);
      if prev.replies.Failure? then prev
      else
        match fields[n - 1]
        case Failure(e) => Progress(Failure(e), prev.completed)
        case Success(f) =>
          match Validate(models[n - 1], roundNumber, f)
          case Failure(e) => Progress(Failure(e), prev.completed + 1)
          case Success(m) => Progress(Success(prev.replies.value + [m]), prev.completed + 1)
  }

  /** Once the loop has failed, later participants change nothing. */
  lemma {:induction false} RoundProgressFailed(models: seq<Participant>, roundNumber: int,
                                               fields: seq<Result<ReplyFields, Failure>>, n: nat, m: nat)
    requires n <= m <= |models| && m <= |fields|
    requires RoundProgress(models, roundNumber, fields, n).replies.Failure?
    ensures RoundProgress(models, roundNumber, fields, m) == RoundProgress(models, roundNumber, fields, n)
    decreases m - n
  {
    if n < m {
      RoundProgressFailed(models, roundNumber, fields, n, m - 1);
    }
  }

  /** A successful loop yields one response per participant, in registry
      order, each the validated reply of its own participant and carrying the
      round, after one "completed" event per participant; a failed one emitted
      at most one event per participant. */
  lemma {:induction false} RoundProgressShape(models: seq<Participant>, roundNumber: int,
                                              fields: seq<Result<ReplyFields, Failure>>, n: nat)
    requires n <= |models| && n <= |fields|
    ensures var p := RoundProgress(models, roundNumber, fields, n);
      && p.completed <= n
      && (p.replies.Success? ==> p.completed == n && |p.replies.value| == n)
      && (p.replies.Success? ==> forall i :: 0 <= i < n ==>
            && fields[i].Success?
            && Validate(models[i], roundNumber, fields[i].value) == Success(p.replies.value[i])
            && p.replies.value[i].modelName == models[i].name
            && p.replies.value[i].stage == Discussion
            && p.replies.value[i].roundNumber == roundNumber)
  {
    if n > 0 {
      RoundProgressShape(models, roundNumber, fields, n - 1);
    }
  }

  /** Sum of the confidences of a round's responses. */
  function SumConfidence(responses: seq<ModelMessageResponse>): real {
    if responses == [] then 0.0
    else SumConfidence(responses[..|responses| - 1]) + responses[|responses| - 1].confidence
  }

  /** The mean confidence of a round's responses; None where the division by
      zero raises for an empty round. */
  function AverageConfidence(responses: seq<ModelMessageResponse>): (avg: Option<real>)
    ensures avg.None? <==> responses == []
  {
    if responses == [] then None else Some(SumConfidence(responses) / |responses| as real)
  }

  /** When every response is at least `c` confident, so is the average. */
  lemma {:induction false} AverageAtLeast(responses: seq<ModelMessageResponse>, c: real)
    requires responses != []
    requires forall i :: 0 <= i < |responses| ==> responses[i].confidence >= c
    ensures AverageConfidence(responses).value >= c
  {
    SumAtLeast(responses, c);
  }

  lemma {:induction false} SumAtLeast(responses: seq<ModelMessageResponse>, c: real)
    requires forall i :: 0 <= i < |responses| ==> responses[i].confidence >= c
    ensures SumConfidence(responses) >= c * |responses| as real
  {
    if responses != [] {
      SumAtLeast(responses[..|responses| - 1], c);
    }
  }
}
