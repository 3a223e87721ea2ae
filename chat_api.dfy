/** The request flow of the HTTP API (backend/main.py) over an in-memory store
    of chats and messages. A request's identifiers and clock reading are
    parameters, and so are the gateway outcomes of the council run it starts;
    what a handler returns and what it leaves in the store are then
    determined by its inputs. */
module ChatApi {
  import opened Wrappers
  import opened Text
  import opened Schemas
  import opened Config
  import opened CouncilFormat
  import opened CouncilReplies
  import opened Council

  function Min(a: nat, b: nat): nat {
    if a <= b then a else b
  }

  // Titles

  /** The title `create_chat` gives a chat created without one. */
  const NewChatTitle: string := "New Chat"

  /** The column default of `Chat.title`. */
  const NewChatTitleRu: string := "Новый чат"

  /** Titles the streaming path replaces with the first message. */
  const StreamPlaceholders: set<string> := {NewChatTitle, NewChatTitleRu}

  /** Titles the non-streaming path replaces with the first message. */
  const SendPlaceholders: set<string> := {NewChatTitle}

  const TitleLength: nat := 50
  const Ellipsis: string := "..."

  /** The title `create_chat` stores: the given one unless it is missing or
      empty, else "New Chat"; never empty. */
  function CreateTitle(title: Option<string>): (t: string)
    ensures t != ""
    ensures title.Some? && title.value != "" ==> t == title.value
    ensures title.None? || title.value == "" ==> t == NewChatTitle
  {
    if title.Some? && title.value != "" then title.value else NewChatTitle
  }

  /** The title a chat gets from its first message: the first 50 characters,
      followed by an ellipsis when the message is longer. */
  function AutoTitle(content: string): (title: string)
    ensures |title| <= TitleLength + |Ellipsis|
    ensures |content| <= TitleLength ==> title == content
    ensures |content| > TitleLength ==>
      |title| == TitleLength + |Ellipsis| && title[..TitleLength] == content[..TitleLength] && title[TitleLength..] == Ellipsis
  {
    Take(content, TitleLength) + (if |content| > TitleLength then Ellipsis else "")
  }

  /** A derived title derives itself: titling a title changes nothing. */
  lemma AutoTitleIdempotent(content: string)
    ensures AutoTitle(AutoTitle(content)) == AutoTitle(content)
  {
    var title := AutoTitle(content);
    if |content| > TitleLength {
      assert Take(title, TitleLength) == content[..TitleLength];
    }
  }

  // Stored records

  datatype Chat = Chat(id: string, title: string, createdAt: int, updatedAt: int) {
    function Response(): ChatResponse {
      ChatResponse(id, title, createdAt, updatedAt)
    }
  }

  /** The chat after its user message: renamed after the message when its
      title is one of `placeholders`, otherwise untouched. The rename is an
      update of the row, so the column's `onupdate` clock sets its update
      time to `now` (backend/database.py:26). */
  function Retitled(chat: Chat, content: string, placeholders: set<string>, now: int): (c: Chat)
    ensures c.id == chat.id && c.createdAt == chat.createdAt
    ensures chat.title in placeholders ==> c.title == AutoTitle(content) && c.updatedAt == now
    ensures chat.title !in placeholders ==> c == chat
  {
    if chat.title in placeholders then chat.(title := AutoTitle(content), updatedAt := now) else chat
  }

  /** Only the first message names a chat: once renamed to a title that is
      not a placeholder, later messages leave the chat as it is. */
  lemma RenamedOnce(chat: Chat, first: string, later: string, placeholders: set<string>, now: int, laterNow: int)
    requires AutoTitle(first) !in placeholders
    ensures var named := Retitled(chat, first, placeholders, now);
      Retitled(named, later, placeholders, laterNow) == named
  {
  }

  /** A first message that reads "New Chat" keeps the placeholder, so the
      next message renames the chat again. */
  lemma PlaceholderMessageRenamesAgain(chat: Chat, later: string, now: int, laterNow: int)
    requires chat.title == NewChatTitle
    ensures var again := Retitled(Retitled(chat, NewChatTitle, SendPlaceholders, now), later, SendPlaceholders, laterNow);
      again.title == AutoTitle(later) && again.updatedAt == laterNow
  {
    assert AutoTitle(NewChatTitle) == NewChatTitle;
  }

  /** The two paths differ on the column default: a chat titled "Новый чат"
      is renamed by the streaming path and kept by the other. */
  lemma PathsDifferOnDefaultTitle(chat: Chat, content: string, now: int)
    requires chat.title == NewChatTitleRu
    ensures Retitled(chat, content, StreamPlaceholders, now).title == AutoTitle(content)
    ensures Retitled(chat, content, StreamPlaceholders, now).updatedAt == now
    ensures Retitled(chat, content, SendPlaceholders, now) == chat
  {
  }

  const InitialResponsesKey: string := "initial_responses"
  const DiscussionRoundsKey: string := "discussion_rounds"
  const ConsensusKey: string := "consensus"

  /** The JSON object stored in `Message.discussion_data`; a field is None
      when the object lacks its key. */
  datatype DiscussionData = DiscussionData(
    initialResponses: Option<seq<ModelMessageResponse>>,
    discussionRounds: Option<seq<DiscussionRound>>,
    consensus: Option<ConsensusResponse>)
  {
    /** The keys of the object. */
    function Keys(): set<string> {
      (if initialResponses.Some? then {InitialResponsesKey} else {})
      + (if discussionRounds.Some? then {DiscussionRoundsKey} else {})
      + (if consensus.Some? then {ConsensusKey} else {})
    }
  }

  datatype Message = Message(
    id: string,
    chatId: string,
    role: MessageRole,
    content: string,
    createdAt: int,
    discussionData: Option<DiscussionData>)

  /** The user message both send paths save first. */
  function UserMessage(id: string, chatId: string, content: string, now: int): Message {
    Message(id, chatId, User, content, now, None)
  }

  /** The `discussion_data` saved for a council result. */
  function DiscussionRecord(result: CouncilResult): DiscussionData {
    DiscussionData(Some(result.initialResponses), Some(result.discussionRounds), Some(result.consensus))
  }

  /** The assistant message saved for a council result. */
  function AssistantMessage(id: string, chatId: string, result: CouncilResult, now: int): Message {
    Message(id, chatId, Assistant, result.consensus.finalAnswer, now, Some(DiscussionRecord(result)))
  }

  /** The saved assistant message answers with the chairman's final answer
      and holds exactly the three keys, each with the run's own value. */
  lemma AssistantMessageShape(id: string, chatId: string, result: CouncilResult, now: int)
    ensures var m := AssistantMessage(id, chatId, result, now);
      && m.role == Assistant && m.content == result.consensus.finalAnswer
      && m.discussionData.Some?
      && m.discussionData.value.Keys() == {InitialResponsesKey, DiscussionRoundsKey, ConsensusKey}
      && m.discussionData.value.initialResponses == Some(result.initialResponses)
      && m.discussionData.value.discussionRounds == Some(result.discussionRounds)
      && m.discussionData.value.consensus == Some(result.consensus)
  {
  }

  /** What `send_message` returns for a council result. */
  function CouncilMessageResponse(id: string, chatId: string, result: CouncilResult, now: int): MessageResponse {
    MessageResponse(id, chatId, Assistant, result.consensus.finalAnswer, now, [],
                    Some(Consensus), Some(result.initialResponses), Some(result.discussionRounds), Some(result.consensus))
  }

  /** `get_chat`'s view of a stored message: a message whose discussion data
      is a non-empty object is marked CONSENSUS and gets its lists back, and
      its consensus only when the object has that key. */
  function MessageView(m: Message): (r: MessageResponse)
    ensures r.id == m.id && r.chatId == m.chatId && r.role == m.role
    ensures r.content == m.content && r.createdAt == m.createdAt && r.attachments == []
    ensures r.stage.Some? <==> m.discussionData.Some? && m.discussionData.value.Keys() != {}
    ensures r.stage.Some? ==>
      && r.stage.value == Consensus
      && r.initialResponses == m.discussionData.value.initialResponses
      && r.discussionRounds == m.discussionData.value.discussionRounds
      && r.consensus == m.discussionData.value.consensus
    ensures r.stage.None? ==> r.initialResponses.None? && r.discussionRounds.None? && r.consensus.None?
  {
    var base := NewMessageResponse(m.id, m.chatId, m.role, m.content, m.createdAt);
    match m.discussionData
    case Some(data) =>
      if data.Keys() == {} then base
      else base.(stage := Some(Consensus), initialResponses := data.initialResponses,
                 discussionRounds := data.discussionRounds, consensus := data.consensus)
    case None => base
  }

  /** Reading a chat back shows a council answer exactly as `send_message`
      returned it. */
  lemma SavedAnswerReadsBack(id: string, chatId: string, result: CouncilResult, now: int)
    ensures MessageView(AssistantMessage(id, chatId, result, now)) == CouncilMessageResponse(id, chatId, result, now)
  {
    assert InitialResponsesKey in DiscussionRecord(result).Keys();
  }

  /** A user message reads back without discussion metadata. */
  lemma UserMessageReadsBack(id: string, chatId: string, content: string, now: int)
    ensures MessageView(UserMessage(id, chatId, content, now)) == NewMessageResponse(id, chatId, User, content, now)
  {
  }

  // Queries over the stored messages, in store order

  /** The messages of one chat. */
  function ChatMessages(messages: seq<Message>, chatId: string): (ms: seq<Message>)
    ensures |ms| <= |messages|
    ensures forall m :: m in ms ==> m in messages && m.chatId == chatId
  {
    if messages == [] then []
    else
      var last := messages[|messages| - 1];
      ChatMessages(messages[..|messages| - 1], chatId) + (if last.chatId == chatId then [last] else [])
  }

  /** Every message of the chat is among them. */
  lemma {:induction false} ChatMessagesComplete(messages: seq<Message>, chatId: string, i: nat)
    requires i < |messages| && messages[i].chatId == chatId
    ensures messages[i] in ChatMessages(messages, chatId)
  {
    if i < |messages| - 1 {
      var init := messages[..|messages| - 1];
      assert init[i] == messages[i];
      ChatMessagesComplete(init, chatId, i);
    }
  }

  /** The messages of the chat other than `excludedId`. */
  function Selected(messages: seq<Message>, chatId: string, excludedId: string): (ms: seq<Message>)
    ensures |ms| <= |messages|
  {
    if messages == [] then []
    else
      var last := messages[|messages| - 1];
      Selected(messages[..|messages| - 1], chatId, excludedId)
        + (if last.chatId == chatId && last.id != excludedId then [last] else [])
  }

  /** The messages of every other chat, as a cascading delete leaves them. */
  function WithoutChat(messages: seq<Message>, chatId: string): (ms: seq<Message>)
    ensures forall m :: m in ms <==> m in messages && m.chatId != chatId
  {
    if messages == [] then []
    else
      var last := messages[|messages| - 1];
      WithoutChat(messages[..|messages| - 1], chatId) + (if last.chatId != chatId then [last] else [])
  }

  function Reverse<T>(s: seq<T>): (r: seq<T>)
    ensures |r| == |s|
    ensures forall i :: 0 <= i < |s| ==> r[i] == s[|s| - 1 - i]
  {
    seq(|s|, i requires 0 <= i < |s| => s[|s| - 1 - i])
  }

  // The history window

  const HistoryWindowSize: nat := 10

  /** `{"role": m.role.value, "content": m.content}`. */
  function HistoryEntry(m: Message): HistoryMessage {
    HistoryMessage(Some(m.role.Value()), Some(m.content))
  }

  function HistoryEntries(ms: seq<Message>): (entries: seq<HistoryMessage>)
    ensures |entries| == |ms|
    ensures forall i :: 0 <= i < |ms| ==> entries[i] == HistoryEntry(ms[i])
  {
    seq(|ms|, i requires 0 <= i < |ms| => HistoryEntry(ms[i]))
  }

  /** The history query of `send_message_stream`: the chat's messages other
      than the new one, newest first, at most ten, turned back to oldest
      first. */
  function HistoryWindow(messages: seq<Message>, chatId: string, excludedId: string): (window: seq<HistoryMessage>)
    ensures |window| <= HistoryWindowSize
  {
    var newestFirst := Reverse(Selected(messages, chatId, excludedId));
    var limited := newestFirst[..Min(HistoryWindowSize, |newestFirst|)];
    HistoryEntries(Reverse(limited))
  }

  /** Reversing the first `k` of the reversed sequence gives its last `k`
      elements in their own order. */
  lemma ReverseTake<T>(s: seq<T>, k: nat)
    requires k <= |s|
    ensures Reverse(Reverse(s)[..k]) == s[|s| - k..]
  {
    var t := Reverse(s)[..k];
    var r := Reverse(t);
    forall i | 0 <= i < k
      ensures r[i] == s[|s| - k + i]
    {
      assert r[i] == t[k - 1 - i] == Reverse(s)[k - 1 - i];
    }
  }

  /** The window is the last (at most ten) selected messages, oldest first. */
  lemma HistoryWindowIsRecent(messages: seq<Message>, chatId: string, excludedId: string)
    ensures var selected := Selected(messages, chatId, excludedId);
      var k := Min(HistoryWindowSize, |selected|);
      HistoryWindow(messages, chatId, excludedId) == HistoryEntries(selected[|selected| - k..])
  {
    var selected := Selected(messages, chatId, excludedId);
    ReverseTake(selected, Min(HistoryWindowSize, |selected|));
  }

  /** Excluding an identifier no stored message carries selects the whole chat. */
  lemma {:induction false} SelectedWithFreshId(messages: seq<Message>, chatId: string, excludedId: string)
    requires forall i :: 0 <= i < |messages| ==> messages[i].id != excludedId
    ensures Selected(messages, chatId, excludedId) == ChatMessages(messages, chatId)
  {
    if messages != [] {
      SelectedWithFreshId(messages[..|messages| - 1], chatId, excludedId);
    }
  }

  /** The history passed to the council: the ten most recent messages of the
      chat from before the new user message, oldest first. */
  lemma HistoryBeforeNewMessage(messages: seq<Message>, user: Message)
    requires forall i :: 0 <= i < |messages| ==> messages[i].id != user.id
    ensures var earlier := ChatMessages(messages, user.chatId);
      var k := Min(HistoryWindowSize, |earlier|);
      HistoryWindow(messages + [user], user.chatId, user.id) == HistoryEntries(earlier[|earlier| - k..])
  {
    var all := messages + [user];
    assert all[..|all| - 1] == messages;
    assert Selected(all, user.chatId, user.id) == Selected(messages, user.chatId, user.id);
    SelectedWithFreshId(messages, user.chatId, user.id);
    HistoryWindowIsRecent(all, user.chatId, user.id);
  }

  // The event stream

  /** One server-sent event of `send_message_stream`. */
  datatype StreamEvent =
    | ProgressEvent(event: StageProgressEvent)
    | InitialResponsesEvent(responses: seq<ModelMessageResponse>)
    | DiscussionRoundEvent(round: DiscussionRound)
    | ConsensusEvent(consensus: ConsensusResponse)
    | Done(messageId: string)
    | ErrorEvent(failure: Failure)
  {
    /** The `type` field of the event's JSON. */
    function Type(): string {
      match this
      case ProgressEvent(_) => "progress"
      case InitialResponsesEvent(_) => "initial_responses"
      case DiscussionRoundEvent(_) => "discussion_round"
      case ConsensusEvent(_) => "consensus"
      case Done(_) => "done"
      case ErrorEvent(_) => "error"
    }
  }

  function ProgressEvents(events: seq<StageProgressEvent>): (r: seq<StreamEvent>)
    ensures |r| == |events|
    ensures forall i :: 0 <= i < |events| ==> r[i] == ProgressEvent(events[i])
  {
    seq(|events|, i requires 0 <= i < |events| => ProgressEvent(events[i]))
  }

  function RoundEvents(rounds: seq<DiscussionRound>): (r: seq<StreamEvent>)
    ensures |r| == |rounds|
    ensures forall k :: 0 <= k < |rounds| ==> r[k] == DiscussionRoundEvent(rounds[k])
  {
    seq(|rounds|, k requires 0 <= k < |rounds| => DiscussionRoundEvent(rounds[k]))
  }

  /** The events of the result, up to the consensus event. */
  function ResultEvents(result: CouncilResult): seq<StreamEvent> {
    [InitialResponsesEvent(result.initialResponses)] + RoundEvents(result.discussionRounds) + [ConsensusEvent(result.consensus)]
  }

  /** The events of a run before `done`. After a successful run: every
      progress event, the initial responses, each round and the consensus.
      When the run raises: the `shown` progress events sent before the task
      finished, then one error event. */
  function RunEvents(run: CouncilRun, shown: nat): seq<StreamEvent> {
    match run.outcome
    case Success(result) => ProgressEvents(run.events) + ResultEvents(result)
    case Failure(e) => ProgressEvents(run.events[..Min(shown, |run.events|)]) + [ErrorEvent(e)]
  }

  /** The stream of a run: its events, then `done` with the identifier of
      the saved message when the run succeeded. */
  function StreamEvents(run: CouncilRun, shown: nat, messageId: string): seq<StreamEvent> {
    RunEvents(run, shown) + (if run.outcome.Success? then [Done(messageId)] else [])
  }

  /** A successful run streams every progress event, the initial responses,
      each round in order, the consensus and `done`. */
  lemma SuccessStream(run: CouncilRun, shown: nat, messageId: string)
    requires run.outcome.Success?
    ensures var events := StreamEvents(run, shown, messageId);
      var result := run.outcome.value;
      var p := |run.events|;
      && |events| == p + |result.discussionRounds| + 3
      && (forall i :: 0 <= i < p ==> events[i] == ProgressEvent(run.events[i]))
      && events[p] == InitialResponsesEvent(result.initialResponses)
      && (forall k :: 0 <= k < |result.discussionRounds| ==>
            events[p + 1 + k] == DiscussionRoundEvent(result.discussionRounds[k]))
      && events[|events| - 2] == ConsensusEvent(result.consensus)
      && events[|events| - 1] == Done(messageId)
  {
    var result := run.outcome.value;
    var progress := ProgressEvents(run.events);
    var rest := ResultEvents(result);
    var events := StreamEvents(run, shown, messageId);
    assert events == progress + rest + [Done(messageId)];
    forall k | 0 <= k < |result.discussionRounds|
      ensures events[|progress| + 1 + k] == DiscussionRoundEvent(result.discussionRounds[k])
    {
      assert rest[1 + k] == RoundEvents(result.discussionRounds)[k];
    }
  }

  /** A run that raises streams the progress events shown before it
      finished, then one error event. */
  lemma FailureStream(run: CouncilRun, shown: nat, messageId: string)
    requires run.outcome.Failure?
    ensures var events := StreamEvents(run, shown, messageId);
      && |events| == Min(shown, |run.events|) + 1
      && (forall i :: 0 <= i < |events| - 1 ==> events[i] == ProgressEvent(run.events[i]))
      && events[|events| - 1] == ErrorEvent(run.outcome.error)
  {
    var shownEvents := run.events[..Min(shown, |run.events|)];
    assert StreamEvents(run, shown, messageId) == ProgressEvents(shownEvents) + [ErrorEvent(run.outcome.error)];
  }

  /** Progress events come first; the stream ends with `done` exactly when
      the run succeeds and with an error event exactly when it raises, and
      neither appears anywhere else. */
  lemma StreamEventOrder(run: CouncilRun, shown: nat, messageId: string)
    ensures var events := StreamEvents(run, shown, messageId);
      && |events| >= 1
      && (events[|events| - 1] == Done(messageId) <==> run.outcome.Success?)
      && (events[|events| - 1].ErrorEvent? <==> run.outcome.Failure?)
      && (forall i :: 0 <= i < |events| - 1 ==> !events[i].Done? && !events[i].ErrorEvent?)
      && (forall i, j :: 0 <= i < j < |events| && events[j].ProgressEvent? ==> events[i].ProgressEvent?)
  {
    var events := StreamEvents(run, shown, messageId);
    var p := if run.outcome.Success? then |run.events| else Min(shown, |run.events|);
    if run.outcome.Success? {
      SuccessStream(run, shown, messageId);
      var n := |run.outcome.value.discussionRounds|;
      forall i | 0 <= i < |events|
        ensures events[i].ProgressEvent? <==> i < p
        ensures i < |events| - 1 ==> !events[i].Done? && !events[i].ErrorEvent?
      {
        if p < i < p + 1 + n {
          var k := i - p - 1;
          assert events[p + 1 + k].DiscussionRoundEvent?;
        }
      }
    } else {
      FailureStream(run, shown, messageId);
    }
  }

  /** The round events of a stream whose rounds are numbered from 1 carry
      the round numbers 1, 2, … in order. */
  lemma StreamedRoundsNumbered(run: CouncilRun, shown: nat, messageId: string)
    requires run.outcome.Success? && Numbered(run.outcome.value.discussionRounds)
    ensures var events := StreamEvents(run, shown, messageId);
      var rounds := run.outcome.value.discussionRounds;
      && |events| == |run.events| + |rounds| + 3
      && forall k :: 0 <= k < |rounds| ==>
           events[|run.events| + 1 + k] == DiscussionRoundEvent(rounds[k]) && rounds[k].roundNumber == k + 1
  {
    SuccessStream(run, shown, messageId);
  }

  /** The stream of a successful council run carries between one and
      MaxDiscussionRounds round events, numbered 1, 2, … in order. */
  lemma CouncilStreamRounds(o: Orchestrator, gateway: Gateway, loads: string -> Option<Json>, shown: nat, messageId: string)
    requires Answers(o, gateway)
    requires FullCouncilRun(o, gateway, loads).outcome.Success?
    ensures var run := FullCouncilRun(o, gateway, loads);
      var events := StreamEvents(run, shown, messageId);
      var rounds := run.outcome.value.discussionRounds;
      && 1 <= |rounds| <= MaxDiscussionRounds
      && |events| == |run.events| + |rounds| + 3
      && forall k :: 0 <= k < |rounds| ==>
           events[|run.events| + 1 + k] == DiscussionRoundEvent(rounds[k]) && rounds[k].roundNumber == k + 1
  {
    FullCouncilShape(o, gateway, loads);
    StreamedRoundsNumbered(FullCouncilRun(o, gateway, loads), shown, messageId);
  }

  /** The request failed: the chat does not exist (HTTP 404), or an
      exception escaped the handler. */
  datatype ApiError = ChatNotFound | ServerError(failure: Failure)

  /** The council was asked `content` with `history`: one initial request
      per configured model, in registry order. */
  predicate AskedWith(requests: seq<Request>, content: string, history: seq<HistoryMessage>) {
    && |requests| == |CouncilModels|
    && (forall i :: 0 <= i < |CouncilModels| ==> requests[i] == InitialRequest(CouncilModels[i], content, history))
  }

  /** The two send paths ask the council differently: the non-streaming one
      sends the question with no history block at all, the streaming one
      sends its history block as soon as the chat has earlier messages. */
  lemma HistoryOnlyWhenStreaming(requests: seq<Request>, content: string, history: seq<HistoryMessage>)
    requires AskedWith(requests, content, history)
    ensures forall i :: 0 <= i < |requests| ==> requests[i].user == content
    ensures forall i :: 0 <= i < |requests| ==> (requests[i].system.appendix == "" <==> history == [])
  {
    forall i | 0 <= i < |requests|
      ensures requests[i].user == content
      ensures requests[i].system.appendix == "" <==> history == []
    {
      HistoryReachesPrompt(CouncilModels[i], content, history);
    }
  }

  /** The chat store. Message order is insertion order, which is the order of
      `created_at` in the database. */
  class ChatStore {
    var chats: map<string, Chat>
    var messages: seq<Message>

    /** Each chat is stored under its own identifier, every message belongs
        to a stored chat, and message identifiers are distinct. */
    ghost predicate Valid()
      reads this
    {
      && (forall id :: id in chats ==> chats[id].id == id)
      && (forall i :: 0 <= i < |messages| ==> messages[i].chatId in chats)
      && (forall i, j :: 0 <= i < j < |messages| ==> messages[i].id != messages[j].id)
    }

    /** No stored message carries `id`. */
    predicate FreshMessageId(id: string)
      reads this
    {
      forall i :: 0 <= i < |messages| ==> messages[i].id != id
    }

    constructor()
      ensures Valid() && chats == map[] && messages == []
    {
      chats := map[];
      messages := [];
    }

    /** `create_chat`. */
    method CreateChat(title: Option<string>, id: string, now: int) returns (response: ChatResponse)
      requires Valid() && id !in chats
      modifies this
      ensures Valid()
      ensures chats == old(chats)[id := Chat(id, CreateTitle(title), now, now)]
      ensures messages == old(messages)
      ensures response == chats[id].Response()
    {
      var chat := Chat(id, CreateTitle(title), now, now);
      chats := chats[id := chat];
      response := chat.Response();
    }

    /** `update_chat`: only a non-empty title replaces the old one; the
        update time is set either way. */
    method UpdateChat(chatId: string, title: Option<string>, now: int) returns (r: Result<ChatResponse, ApiError>)
      requires Valid()
      modifies this
      ensures Valid() && messages == old(messages)
      ensures chatId !in old(chats) ==> r == Failure(ChatNotFound) && chats == old(chats)
      ensures chatId in old(chats) ==>
        var chat := old(chats)[chatId];
        var updated := chat.(title := if title.Some? && title.value != "" then title.value else chat.title, updatedAt := now);
        chats == old(chats)[chatId := updated] && r == Success(updated.Response())
    {
      if chatId !in chats {
        return Failure(ChatNotFound);
      }
      var chat := chats[chatId];
      if title.Some? && title.value != "" {
        chat := chat.(title := title.value);
      }
      chat := chat.(updatedAt := now);
      chats := chats[chatId := chat];
      r := Success(chat.Response());
    }

    /** `delete_chat`: the chat and, by the cascade, its messages. */
    method DeleteChat(chatId: string) returns (r: Result<string, ApiError>)
      requires Valid()
      modifies this
      ensures Valid()
      ensures chatId !in old(chats) ==> r == Failure(ChatNotFound) && chats == old(chats) && messages == old(messages)
      ensures chatId in old(chats) ==>
        r == Success(chatId) && chats == old(chats) - {chatId} && messages == WithoutChat(old(messages), chatId)
    {
      if chatId !in chats {
        return Failure(ChatNotFound);
      }
      var kept := WithoutChat(messages, chatId);
      KeptMessagesValid(messages, chats, chatId);
      chats := chats - {chatId};
      messages := kept;
      r := Success(chatId);
    }

    /** `get_chat`: the chat and its messages in store order. */
    method GetChat(chatId: string) returns (r: Result<ChatDetailResponse, ApiError>)
      ensures chatId !in chats ==> r == Failure(ChatNotFound)
      ensures chatId in chats ==> r == Success(ChatDetail(chats[chatId], ChatMessages(messages, chatId)))
    {
      if chatId !in chats {
        return Failure(ChatNotFound);
      }
      var views: seq<MessageResponse> := [];
      for i := 0 to |messages|
        invariant views == MessageViews(ChatMessages(messages[..i], chatId))
      {
        assert messages[..i + 1][..i] == messages[..i];
        if messages[i].chatId == chatId {
          views := views + [MessageView(messages[i])];
        }
      }
      assert messages[..|messages|] == messages;
      var chat := chats[chatId];
      r := Success(ChatDetailResponse(chat.id, chat.title, chat.createdAt, chat.updatedAt, views));
    }

    /** Saves the user message and renames a chat that still has a
        placeholder title, which sets its update time. */
    method SaveUserMessage(chatId: string, content: string, userId: string, now: int, placeholders: set<string>)
      requires Valid() && chatId in chats && FreshMessageId(userId)
      modifies this
      ensures Valid()
      ensures messages == old(messages) + [UserMessage(userId, chatId, content, now)]
      ensures chats == old(chats)[chatId := Retitled(old(chats)[chatId], content, placeholders, now)]
    {
      messages := messages + [UserMessage(userId, chatId, content, now)];
      var chat := chats[chatId];
      if chat.title in placeholders {
        chat := chat.(title := AutoTitle(content), updatedAt := now);
      }
      chats := chats[chatId := chat];
    }

    /** Saves the assistant message of a council result and sets the chat's
        update time. */
    method SaveAssistantMessage(chatId: string, result: CouncilResult, assistantId: string, now: int)
      requires Valid() && chatId in chats && FreshMessageId(assistantId)
      modifies this
      ensures Valid()
      ensures messages == old(messages) + [AssistantMessage(assistantId, chatId, result, now)]
      ensures chats == old(chats)[chatId := old(chats)[chatId].(updatedAt := now)]
    {
      messages := messages + [AssistantMessage(assistantId, chatId, result, now)];
      chats := chats[chatId := chats[chatId].(updatedAt := now)];
    }

    /** The history query of `send_message_stream`. */
    method LoadHistory(chatId: string, excludedId: string) returns (history: seq<HistoryMessage>)
      ensures history == HistoryWindow(messages, chatId, excludedId)
    {
      var selected: seq<Message> := [];
      for i := 0 to |messages|
        invariant selected == Selected(messages[..i], chatId, excludedId)
      {
        assert messages[..i + 1][..i] == messages[..i];
        if messages[i].chatId == chatId && messages[i].id != excludedId {
          selected := selected + [messages[i]];
        }
      }
      assert messages[..|messages|] == messages;
      var k := Min(HistoryWindowSize, |selected|);
      var recent := selected[|selected| - k..];
      history := HistoryEntries(recent);
      HistoryWindowIsRecent(messages, chatId, excludedId);
    }

    /** Runs the council on a message and, when the run succeeds, saves the
        assistant message; a run that raises leaves the store as it was. */
    method Answer(chatId: string, content: string, history: seq<HistoryMessage>, assistantId: string, now: int,
                  gateway: Gateway, loads: string -> Option<Json>)
      returns (outcome: Result<CouncilResult, Failure>, progress: seq<StageProgressEvent>, requests: seq<Request>)
      requires Valid() && chatId in chats && FreshMessageId(assistantId)
      requires Answers(ConfiguredOrchestrator(), gateway)
      modifies this
      ensures Valid()
      ensures CouncilRun(outcome, progress) == FullCouncilRun(ConfiguredOrchestrator(), gateway, loads)
      ensures AskedWith(requests, content, history)
      ensures outcome.Failure? ==> chats == old(chats) && messages == old(messages)
      ensures outcome.Success? ==>
        && messages == old(messages) + [AssistantMessage(assistantId, chatId, outcome.value, now)]
        && chats == old(chats)[chatId := old(chats)[chatId].(updatedAt := now)]
    {
      outcome, progress, requests := RunFullCouncil(ConfiguredOrchestrator(), content, history, gateway, loads);
      if outcome.Success? {
        SaveAssistantMessage(chatId, outcome.value, assistantId, now);
      }
    }

    /** `send_message_stream`: 404 for an unknown chat. Otherwise the user
        message is saved and the chat renamed before the run; the council
        runs on the message with the history window; a successful run saves
        the assistant message and the stream ends with `done`, a run that
        raises ends the stream with an error event and saves nothing more.
        `history` is the history the council was given. */
    method SendMessageStream(chatId: string, content: string, userId: string, assistantId: string, now: int,
                             gateway: Gateway, loads: string -> Option<Json>, shown: nat)
      returns (r: Result<seq<StreamEvent>, ApiError>, history: seq<HistoryMessage>, requests: seq<Request>)
      requires Valid() && FreshMessageId(userId) && FreshMessageId(assistantId) && userId != assistantId
      requires Answers(ConfiguredOrchestrator(), gateway)
      modifies this
      ensures Valid()
      ensures chatId !in old(chats) ==> r == Failure(ChatNotFound) && chats == old(chats) && messages == old(messages)
      ensures chatId in old(chats) ==>
        var run := FullCouncilRun(ConfiguredOrchestrator(), gateway, loads);
        var user := UserMessage(userId, chatId, content, now);
        var chat := Retitled(old(chats)[chatId], content, StreamPlaceholders, now);
        && history == HistoryWindow(old(messages) + [user], chatId, userId)
        && AskedWith(requests, content, history)
        && r == Success(StreamEvents(run, shown, assistantId))
        && (run.outcome.Failure? ==> messages == old(messages) + [user] && chats == old(chats)[chatId := chat])
        && (run.outcome.Success? ==>
              && messages == old(messages) + [user] + [AssistantMessage(assistantId, chatId, run.outcome.value, now)]
              && chats == old(chats)[chatId := chat.(updatedAt := now)])
    {
      if chatId !in chats {
        return Failure(ChatNotFound), [], [];
      }
      ghost var before := chats;
      SaveUserMessage(chatId, content, userId, now, StreamPlaceholders);
      ghost var chat := chats[chatId];
      history := LoadHistory(chatId, userId);
      var outcome, progress;
      outcome, progress, requests := Answer(chatId, content, history, assistantId, now, gateway, loads);
      UpdateTwice(before, chatId, chat, chat.(updatedAt := now));
      var events := Stream(CouncilRun(outcome, progress), shown, assistantId);
      r := Success(events);
    }

    /** `send_message`: 404 for an unknown chat. Otherwise the user message is
        saved and a chat titled exactly "New Chat" renamed; the council runs on
        the message alone; a successful run saves the assistant message and
        returns it, a run that raises fails the request after the user
        message was saved. */
    method SendMessage(chatId: string, content: string, userId: string, assistantId: string, now: int,
                       gateway: Gateway, loads: string -> Option<Json>)
      returns (r: Result<MessageResponse, ApiError>, requests: seq<Request>)
      requires Valid() && FreshMessageId(userId) && FreshMessageId(assistantId) && userId != assistantId
      requires Answers(ConfiguredOrchestrator(), gateway)
      modifies this
      ensures Valid()
      ensures chatId !in old(chats) ==> r == Failure(ChatNotFound) && chats == old(chats) && messages == old(messages)
      ensures chatId in old(chats) ==>
        var run := FullCouncilRun(ConfiguredOrchestrator(), gateway, loads);
        var user := UserMessage(userId, chatId, content, now);
        var chat := Retitled(old(chats)[chatId], content, SendPlaceholders, now);
        && AskedWith(requests, content, [])
        && (run.outcome.Failure? ==>
              r == Failure(ServerError(run.outcome.error)) && messages == old(messages) + [user] && chats == old(chats)[chatId := chat])
        && (run.outcome.Success? ==>
              && r == Success(CouncilMessageResponse(assistantId, chatId, run.outcome.value, now))
              && messages == old(messages) + [user] + [AssistantMessage(assistantId, chatId, run.outcome.value, now)]
              && chats == old(chats)[chatId := chat.(updatedAt := now)])
    {
      if chatId !in chats {
        return Failure(ChatNotFound), [];
      }
      ghost var before := chats;
      SaveUserMessage(chatId, content, userId, now, SendPlaceholders);
      ghost var chat := chats[chatId];
      var outcome, progress;
      outcome, progress, requests := Answer(chatId, content, [], assistantId, now, gateway, loads);
      UpdateTwice(before, chatId, chat, chat.(updatedAt := now));
      if outcome.Failure? {
        return Failure(ServerError(outcome.error)), requests;
      }
      r := Success(CouncilMessageResponse(assistantId, chatId, outcome.value, now));
    }
  }

  /** A second update of the same key overrides the first. */
  lemma UpdateTwice<K, V>(m: map<K, V>, k: K, first: V, second: V)
    ensures m[k := first][k := second] == m[k := second]
  {
  }

  /** The messages a cascading delete keeps are still distinct and belong to
      the chats that remain. */
  lemma KeptMessagesValid(ms: seq<Message>, chats: map<string, Chat>, chatId: string)
    requires forall i :: 0 <= i < |ms| ==> ms[i].chatId in chats
    requires forall i, j :: 0 <= i < j < |ms| ==> ms[i].id != ms[j].id
    ensures var kept := WithoutChat(ms, chatId);
      && (forall i :: 0 <= i < |kept| ==> kept[i].chatId in chats - {chatId})
      && (forall i, j :: 0 <= i < j < |kept| ==> kept[i].id != kept[j].id)
  {
    KeptDistinct(ms, chatId);
    var kept := WithoutChat(ms, chatId);
    forall i | 0 <= i < |kept|
      ensures kept[i].chatId in chats - {chatId}
    {
      assert kept[i] in ms;
    }
  }

  /** The messages of every other chat keep their identifiers distinct. */
  lemma {:induction false} KeptDistinct(ms: seq<Message>, chatId: string)
    requires forall i, j :: 0 <= i < j < |ms| ==> ms[i].id != ms[j].id
    ensures forall i, j :: 0 <= i < j < |WithoutChat(ms, chatId)| ==> WithoutChat(ms, chatId)[i].id != WithoutChat(ms, chatId)[j].id
  {
    if ms != [] {
      var init := ms[..|ms| - 1];
      KeptDistinct(init, chatId);
      var last := ms[|ms| - 1];
      forall m | m in WithoutChat(init, chatId)
        ensures m.id != last.id
      {
        var i :| 0 <= i < |init| && init[i] == m;
      }
    }
  }

  function MessageViews(ms: seq<Message>): (views: seq<MessageResponse>)
    ensures |views| == |ms|
    ensures forall i :: 0 <= i < |ms| ==> views[i] == MessageView(ms[i])
  {
    seq(|ms|, i requires 0 <= i < |ms| => MessageView(ms[i]))
  }

  /** `get_chat`'s response for a chat and its messages. */
  function ChatDetail(chat: Chat, ms: seq<Message>): ChatDetailResponse {
    ChatDetailResponse(chat.id, chat.title, chat.createdAt, chat.updatedAt, MessageViews(ms))
  }

  /** After a successful send, reading the chat back ends with the user's
      message and the answer `send_message` returned. */
  lemma ChatReadsBackAfterSend(messages: seq<Message>, chat: Chat, content: string, userId: string,
                               assistantId: string, result: CouncilResult, now: int)
    ensures var after := messages + [UserMessage(userId, chat.id, content, now), AssistantMessage(assistantId, chat.id, result, now)];
      var views := ChatDetail(chat, ChatMessages(after, chat.id)).messages;
      && |views| == |ChatMessages(messages, chat.id)| + 2
      && views[|views| - 2] == NewMessageResponse(userId, chat.id, User, content, now)
      && views[|views| - 1] == CouncilMessageResponse(assistantId, chat.id, result, now)
  {
    var user := UserMessage(userId, chat.id, content, now);
    var answer := AssistantMessage(assistantId, chat.id, result, now);
    var after := messages + [user, answer];
    assert after[..|after| - 1] == messages + [user];
    assert (messages + [user])[..|messages|] == messages;
    SavedAnswerReadsBack(assistantId, chat.id, result, now);
  }

  /** The event generator of `send_message_stream` for a finished run. */
  method Stream(run: CouncilRun, shown: nat, messageId: string) returns (events: seq<StreamEvent>)
    ensures events == StreamEvents(run, shown, messageId)
  {
    events := StreamRun(run, shown);
    if run.outcome.Success? {
      events := events + [Done(messageId)];
    }
  }

  /** The stream of a run up to the consensus event, or up to the error event
      of a run that raised: the generator's loops. */
  method StreamRun(run: CouncilRun, shown: nat) returns (events: seq<StreamEvent>)
    ensures events == RunEvents(run, shown)
  {
    var count := if run.outcome.Success? then |run.events| else Min(shown, |run.events|);
    events := [];
    for i := 0 to count
      invariant events == ProgressEvents(run.events[..i])
    {
      events := events + [ProgressEvent(run.events[i])];
    }
    if run.outcome.Failure? {
      events := events + [ErrorEvent(run.outcome.error)];
      return;
    }
    assert run.events[..count] == run.events;
    var result := run.outcome.value;
    events := events + [InitialResponsesEvent(result.initialResponses)];
    for k := 0 to |result.discussionRounds|
      invariant events == ProgressEvents(run.events) + [InitialResponsesEvent(result.initialResponses)]
                          + RoundEvents(result.discussionRounds[..k])
    {
      events := events + [DiscussionRoundEvent(result.discussionRounds[k])];
    }
    assert result.discussionRounds[..|result.discussionRounds|] == result.discussionRounds;
    events := events + [ConsensusEvent(result.consensus)];
  }
}
