/**
 * The `chat` endpoint's use of the document store: the conversation that is
 * looked up or created, the newest-first fetch of at most ten messages, the
 * two message writes and the increment of `messageCount` by 2, and the
 * handler that runs these steps in the source's order. The store is a map
 * of conversations and a log of messages in write order; the completion
 * API's answers, the store-generated ids and the clock are parameters.
 */
module Conversations {
  import opened Wrappers
  import opened JsValues
  import opened ChatPrompt

  /** How many messages the handler fetches as context. */
  const ContextLimit: nat := 10

  /** The messages of conversation `id`, in write (timestamp) order. */
  function MessagesOf(log: seq<StoredMessage>, id: string): (r: seq<StoredMessage>)
    ensures |r| <= |log|
    ensures forall m :: m in r <==> m in log && m.conversationId == id
  {
    if log == [] then []
    else
      var last := log[|log| - 1];
      MessagesOf(log[..|log| - 1], id) + (if last.conversationId == id then [last] else [])
  }

  /** Writing one message extends the conversation it names, and only that one. */
  lemma {:induction false} MessagesOfAppend(log: seq<StoredMessage>, m: StoredMessage, id: string)
    ensures MessagesOf(log + [m], id) == MessagesOf(log, id) + (if m.conversationId == id then [m] else [])
  {
    assert (log + [m])[..|log|] == log;
  }

  /** The query `where conversationId == id, orderBy timestamp desc, limit 10`. */
  function Recent(log: seq<StoredMessage>, id: string): (r: seq<StoredMessage>)
    ensures |r| <= ContextLimit
  {
    var all := MessagesOf(log, id);
    var n := if |all| < ContextLimit then |all| else ContextLimit;
    seq(n, i requires 0 <= i < n => all[|all| - 1 - i])
  }

  /** A chronological run of messages as model input. */
  function Transcript(ms: seq<StoredMessage>): seq<ChatMessage> {
    seq(|ms|, i requires 0 <= i < |ms| => ToContext(ms[i]))
  }

  /** The rebuilt history is the conversation's last min(10, n) messages, in
      the order they were written: with 12 messages, the latest 10. */
  lemma LatestInOrder(log: seq<StoredMessage>, id: string)
    ensures var all := MessagesOf(log, id);
      var n := if |all| < ContextLimit then |all| else ContextLimit;
      History(Recent(log, id)) == Transcript(all[|all| - n..])
  {
    var all := MessagesOf(log, id);
    var n := if |all| < ContextLimit then |all| else ContextLimit;
    var recent := Recent(log, id);
    var h, t := History(recent), Transcript(all[|all| - n..]);
    assert |h| == n == |t|;
    forall i | 0 <= i < n ensures h[i] == t[i] {
      assert h[i] == ToContext(recent[n - 1 - i]);
      assert recent[n - 1 - i] == all[|all| - 1 - (n - 1 - i)];
      assert t[i] == ToContext(all[|all| - n..][i]);
    }
  }

  /** A conversation record; `messageCount` is a counter the store increments. */
  datatype Conversation = Conversation(userId: JsValue, language: JsValue, coachingStyle: JsValue, messageCount: int)

  /** The record a lookup leaves at `id`: the existing one, untouched, or a
      new one with `messageCount` 0. */
  function Resolved(conversations: map<string, Conversation>, id: string, req: ChatRequest): (c: Conversation)
    ensures id in conversations ==> c == conversations[id]
    ensures id !in conversations ==>
      c.messageCount == 0 && c.userId == req.userId && c.language == req.language && c.coachingStyle == req.coachingStyle
  {
    if id in conversations then conversations[id]
    else Conversation(req.userId, req.language, req.coachingStyle, 0)
  }

  /** `conversationId ? doc(conversationId) : doc()`: a falsy id gets a
      store-generated one; a truthy id that is not a string is refused. */
  function ConversationKey(conversationId: JsValue, generated: string): (r: Option<string>)
    ensures !Truthy(conversationId) ==> r == Some(generated)
    ensures Truthy(conversationId) && conversationId.Str? ==> r == Some(conversationId.s)
    ensures r.None? <==> Truthy(conversationId) && !conversationId.Str?
  {
    if !Truthy(conversationId) then Some(generated)
    else if conversationId.Str? then Some(conversationId.s)
    else None
  }

  /** The calls made to the completion API. */
  datatype CompletionCall = ReplyCall(messages: seq<ChatMessage>) | CorrectionCall(language: JsValue, message: JsValue)

  datatype ChatResponse =
    | Replied(reply: string, conversationId: string, messageId: string, timestamp: int, corrections: Option<JsValue>)
    | MissingFields
    | ChatFailed

  function Status(r: ChatResponse): int {
    match r
    case Replied(_, _, _, _, _) => 200
    case MissingFields => 400
    case ChatFailed => 500
  }

  /** Every message belongs to a known conversation, and each counter
      equals the number of messages of its conversation. */
  ghost predicate Consistent(conversations: map<string, Conversation>, log: seq<StoredMessage>) {
    && (forall i :: 0 <= i < |log| ==> log[i].conversationId in conversations)
    && (forall id :: id in conversations ==> conversations[id].messageCount == |MessagesOf(log, id)|)
  }

  /** Creating a record with count 0 for an unknown id keeps the store consistent. */
  lemma CreateKeepsConsistent(conversations: map<string, Conversation>, log: seq<StoredMessage>, id: string, c: Conversation)
    requires Consistent(conversations, log)
    requires id !in conversations && c.messageCount == 0
    ensures Consistent(conversations[id := c], log)
  {
    NoMessagesYet(log, id);
  }

  /** The counter of conversation `id` after one more turn. */
  function AfterTurn(conversations: map<string, Conversation>, id: string): map<string, Conversation>
    requires id in conversations
  {
    conversations[id := conversations[id].(messageCount := conversations[id].messageCount + 2)]
  }

  lemma TurnKeepsOwners(conversations: map<string, Conversation>, log: seq<StoredMessage>, u: StoredMessage, a: StoredMessage)
    requires forall i :: 0 <= i < |log| ==> log[i].conversationId in conversations
    requires u.conversationId == a.conversationId && u.conversationId in conversations
    ensures forall i :: 0 <= i < |log + [u, a]| ==> (log + [u, a])[i].conversationId in AfterTurn(conversations, u.conversationId)
  {
    var log' := log + [u, a];
    forall i | 0 <= i < |log'| ensures log'[i].conversationId in AfterTurn(conversations, u.conversationId) {
      if i < |log| {
        assert log'[i] == log[i];
      }
    }
  }

  lemma TurnKeepsCounters(conversations: map<string, Conversation>, log: seq<StoredMessage>, u: StoredMessage, a: StoredMessage)
    requires forall id :: id in conversations ==> conversations[id].messageCount == |MessagesOf(log, id)|
    requires u.conversationId == a.conversationId && u.conversationId in conversations
    ensures var after := AfterTurn(conversations, u.conversationId);
      forall id :: id in after ==> after[id].messageCount == |MessagesOf(log + [u, a], id)|
  {
    var after := AfterTurn(conversations, u.conversationId);
    TurnKeepsCounts(log, u, a);
    forall k | k in after ensures after[k].messageCount == |MessagesOf(log + [u, a], k)| {
      if k != u.conversationId {
        assert MessagesOf(log + [u, a], k) == MessagesOf(log, k);
      }
    }
  }

  /** A turn's two writes plus the increment by 2 keep the store consistent. */
  lemma TurnKeepsConsistent(conversations: map<string, Conversation>, log: seq<StoredMessage>, u: StoredMessage, a: StoredMessage)
    requires Consistent(conversations, log)
    requires u.conversationId == a.conversationId && u.conversationId in conversations
    ensures Consistent(AfterTurn(conversations, u.conversationId), log + [u, a])
  {
    TurnKeepsOwners(conversations, log, u, a);
    TurnKeepsCounters(conversations, log, u, a);
  }

  class ConversationStore {
    var conversations: map<string, Conversation>
    var messages: seq<StoredMessage>

    ghost predicate Valid()
      reads this
    {
      Consistent(conversations, messages)
    }

    constructor ()
      ensures Valid() && conversations == map[] && messages == []
    {
      conversations := map[];
      messages := [];
    }

    /** `get()`, then `set()` of a new record with messageCount 0 if absent. */
    method LookupOrCreate(id: string, req: ChatRequest) returns (data: Conversation)
      modifies this
      ensures data == Resolved(old(conversations), id, req)
      ensures conversations == old(conversations)[id := data]
      ensures id in old(conversations) ==> conversations == old(conversations)
      ensures messages == old(messages)
      ensures old(Valid()) ==> Valid()
    {
      if id in conversations {
        data := conversations[id];
      } else {
        data := Conversation(req.userId, req.language, req.coachingStyle, 0);
        if Valid() {
          CreateKeepsConsistent(conversations, messages, id, data);
        }
        conversations := conversations[id := data];
      }
    }

    /** `messages.doc(m.id).set(m)`. */
    method WriteMessage(m: StoredMessage)
      modifies this
      ensures messages == old(messages) + [m]
      ensures conversations == old(conversations)
    {
      messages := messages + [m];
    }

    /** `update({messageCount: increment(amount)})`. */
    method Increment(id: string, amount: int)
      requires id in conversations
      modifies this
      ensures conversations == old(conversations)[id := old(conversations)[id].(messageCount := old(conversations)[id].messageCount + amount)]
      ensures messages == old(messages)
    {
      conversations := conversations[id := conversations[id].(messageCount := conversations[id].messageCount + amount)];
    }

    /** The two message writes and the increment by 2 of their conversation. */
    method RecordTurn(userMessage: StoredMessage, assistantMessage: StoredMessage)
      requires userMessage.conversationId == assistantMessage.conversationId
      requires userMessage.conversationId in conversations
      modifies this
      ensures messages == old(messages) + [userMessage, assistantMessage]
      ensures conversations == AfterTurn(old(conversations), userMessage.conversationId)
      ensures old(Valid()) ==> Valid()
    {
      ghost var wasValid := Valid();
      ghost var convs, log := conversations, messages;
      WriteMessage(userMessage);
      WriteMessage(assistantMessage);
      Increment(userMessage.conversationId, 2);
      if wasValid {
        TurnKeepsConsistent(convs, log, userMessage, assistantMessage);
      }
    }

    /** The `chat` handler. `generatedId` is the id `doc()` would assign,
        `userMessageId` and `assistantMessageId` the ids of the two message
        documents, `completion` the reply text (`None` when the call throws),
        `correction` the corrections call's outcome, `nowMs` the clock. A
        request missing a field, or naming a conversation by a non-string,
        is answered before any store access or completion call. */
    method Chat(body: Body, generatedId: string, userMessageId: string, assistantMessageId: string,
                completion: Option<string>, correction: CorrectionOutcome, nowMs: int)
      returns (resp: ChatResponse, calls: seq<CompletionCall>)
      modifies this
      ensures old(Valid()) ==> Valid()
      ensures resp.MissingFields? <==> ReadChatRequest(body).None?
      ensures ReadChatRequest(body).None? ==>
        calls == [] && conversations == old(conversations) && messages == old(messages)
      ensures ReadChatRequest(body).Some? && ConversationKey(ReadChatRequest(body).value.conversationId, generatedId).None? ==>
        resp == ChatFailed && calls == [] && conversations == old(conversations) && messages == old(messages)
      ensures ReadChatRequest(body).Some? && ConversationKey(ReadChatRequest(body).value.conversationId, generatedId).Some? ==>
        TurnOutcome(ReadChatRequest(body).value, ConversationKey(ReadChatRequest(body).value.conversationId, generatedId).value,
                    userMessageId, assistantMessageId, completion, correction, nowMs,
                    old(conversations), old(messages), conversations, messages, resp, calls)
    {
      var parsed := ReadChatRequest(body);
      if parsed.None? {
        return MissingFields, [];
      }
      var req := parsed.value;
      var key := ConversationKey(req.conversationId, generatedId);
      if key.None? {
        return ChatFailed, [];
      }
      resp, calls := Turn(req, key.value, userMessageId, assistantMessageId, completion, correction, nowMs);
    }

    /** One turn of a validated request on conversation `id`: lookup or
        create, fetch, persona lookup, reply call, two writes, increment,
        corrections. */
    method Turn(req: ChatRequest, id: string, userMessageId: string, assistantMessageId: string,
                completion: Option<string>, correction: CorrectionOutcome, nowMs: int)
      returns (resp: ChatResponse, calls: seq<CompletionCall>)
      modifies this
      ensures old(Valid()) ==> Valid()
      ensures TurnOutcome(req, id, userMessageId, assistantMessageId, completion, correction, nowMs,
                          old(conversations), old(messages), conversations, messages, resp, calls)
    {
      var _ := LookupOrCreate(id, req);
      var history := BuildContext(Recent(messages, id));
      var system := SystemContentAsWritten(req.coachingStyle, req.language);
      if system.None? {
        return ChatFailed, [];
      }
      var input := ModelInput(system.value, history, req.message);
      calls := [ReplyCall(input)];
      if completion.None? {
        return ChatFailed, calls;
      }
      var reply := completion.value;
      var userMessage := StoredMessage(userMessageId, id, req.userId, req.message, "user", req.language, None);
      var assistantMessage := StoredMessage(assistantMessageId, id, req.userId, Str(reply), "assistant", req.language, Some(req.coachingStyle));
      RecordTurn(userMessage, assistantMessage);
      resp, calls := Answer(req, id, reply, assistantMessageId, correction, nowMs, calls[0]);
    }
  }

  /** The corrections prompt `${language}` ... `"${message}"` renders. */
  predicate CorrectionPromptRenders(req: ChatRequest) {
    ToDisplayString(req.language).Some? && ToDisplayString(req.message).Some?
  }

  /** The end of an answered turn, after the reply call `ask`: when the style
      is exactly "corrective" and corrections are requested, the corrections
      prompt is rendered (a throw answers 500 before the second call), the
      second call is made (its failure answers 500), and the response carries
      the parsed corrections or `[]`; otherwise it carries none. */
  ghost predicate AnswerOutcome(req: ChatRequest, id: string, reply: string, assistantMessageId: string,
                                correction: CorrectionOutcome, nowMs: int, ask: CompletionCall,
                                resp: ChatResponse, calls: seq<CompletionCall>)
  {
    && (!CorrectionsWanted(req) ==>
          calls == [ask] && resp == Replied(reply, id, assistantMessageId, nowMs, None))
    && (CorrectionsWanted(req) && !CorrectionPromptRenders(req) ==>
          calls == [ask] && resp == ChatFailed)
    && (CorrectionsWanted(req) && CorrectionPromptRenders(req) ==>
          && calls == [ask, CorrectionCall(req.language, req.message)]
          && (correction.CorrectionCallFailed? ==> resp == ChatFailed)
          && (correction.CorrectionText? ==>
                resp == Replied(reply, id, assistantMessageId, nowMs, Some(CorrectionsField(correction.parsed)))))
  }

  /** Lines 256-287 of the handler. */
  method Answer(req: ChatRequest, id: string, reply: string, assistantMessageId: string,
                correction: CorrectionOutcome, nowMs: int, ask: CompletionCall)
    returns (resp: ChatResponse, calls: seq<CompletionCall>)
    ensures AnswerOutcome(req, id, reply, assistantMessageId, correction, nowMs, ask, resp, calls)
    ensures resp.Replied? ==> resp.reply == reply && (resp.corrections.Some? <==> CorrectionsWanted(req))
  {
    calls := [ask];
    var corrections: Option<JsValue> := None;
    if CorrectionsWanted(req) {
      if ToDisplayString(req.language).None? || ToDisplayString(req.message).None? {
        return ChatFailed, calls;
      }
      calls := calls + [CorrectionCall(req.language, req.message)];
      match correction
      case CorrectionCallFailed =>
        return ChatFailed, calls;
      case CorrectionText(p) =>
        corrections := Some(CorrectionsField(p));
    }
    resp := Replied(reply, id, assistantMessageId, nowMs, corrections);
  }

  /** What one turn on conversation `id` does, from the store before
      (`convs`, `log`) to the store after (`convs'`, `log'`). The record is
      looked up or created first. Then the persona templates are built and
      looked up, as written; a throw there answers 500 with no call and no
      message. The reply call sees the persona, the latest history and the
      new message; its failure leaves only the record behind. A reply writes
      two messages, adds 2 to the counter and ends as `AnswerOutcome` says. */
  ghost predicate TurnOutcome(req: ChatRequest, id: string, userMessageId: string, assistantMessageId: string,
                              completion: Option<string>, correction: CorrectionOutcome, nowMs: int,
                              convs: map<string, Conversation>, log: seq<StoredMessage>,
                              convs': map<string, Conversation>, log': seq<StoredMessage>,
                              resp: ChatResponse, calls: seq<CompletionCall>)
  {
    var conv := Resolved(convs, id, req);
    var system := SystemContentAsWritten(req.coachingStyle, req.language);
    if system.None? then
      resp == ChatFailed && calls == [] && convs' == convs[id := conv] && log' == log
    else
      var ask := ReplyCall(ModelInput(system.value, History(Recent(log, id)), req.message));
      && |calls| >= 1 && calls[0] == ask
      && (completion.None? ==>
            && resp == ChatFailed && calls == [ask]
            && convs' == convs[id := conv]
            && log' == log)
      && (completion.Some? ==>
            && convs' == convs[id := conv.(messageCount := conv.messageCount + 2)]
            && log' == log + [
                 StoredMessage(userMessageId, id, req.userId, req.message, "user", req.language, None),
                 StoredMessage(assistantMessageId, id, req.userId, Str(completion.value), "assistant", req.language, Some(req.coachingStyle))]
            && AnswerOutcome(req, id, completion.value, assistantMessageId, correction, nowMs, ask, resp, calls))
  }

  /** In a consistent store, a conversation that does not exist yet has no
      messages, so its first reply call sees an empty history. */
  lemma FirstTurnSeesNoHistory(convs: map<string, Conversation>, log: seq<StoredMessage>, id: string)
    requires Consistent(convs, log) && id !in convs
    ensures Recent(log, id) == [] && History(Recent(log, id)) == []
  {
    NoMessagesYet(log, id);
  }

  /** On a consistent store, the first turn of a new conversation sends the
      model only the persona and the user's message. */
  lemma FirstReplySeesNoHistory(req: ChatRequest, id: string, userMessageId: string, assistantMessageId: string,
                                completion: Option<string>, correction: CorrectionOutcome, nowMs: int,
                                convs: map<string, Conversation>, log: seq<StoredMessage>,
                                convs': map<string, Conversation>, log': seq<StoredMessage>,
                                resp: ChatResponse, calls: seq<CompletionCall>)
    requires TurnOutcome(req, id, userMessageId, assistantMessageId, completion, correction, nowMs,
                         convs, log, convs', log', resp, calls)
    requires Consistent(convs, log) && id !in convs && calls != []
    ensures calls[0] == ReplyCall([ChatMessage(System, SystemContentAsWritten(req.coachingStyle, req.language).value),
                                   ChatMessage(User, Text(req.message))])
  {
    FirstTurnSeesNoHistory(convs, log, id);
  }

  /** For every style that is not an inherited member name, the reply call
      carries the intended persona: the one named by the style, else the
      encouraging one. */
  lemma ReplyCarriesIntendedPersona(req: ChatRequest, id: string, userMessageId: string, assistantMessageId: string,
                                    completion: Option<string>, correction: CorrectionOutcome, nowMs: int,
                                    convs: map<string, Conversation>, log: seq<StoredMessage>,
                                    convs': map<string, Conversation>, log': seq<StoredMessage>,
                                    resp: ChatResponse, calls: seq<CompletionCall>)
    requires TurnOutcome(req, id, userMessageId, assistantMessageId, completion, correction, nowMs,
                         convs, log, convs', log', resp, calls)
    requires ToDisplayString(req.coachingStyle).None? || ToDisplayString(req.coachingStyle).value !in InheritedKeys
    ensures calls != [] ==>
      && SystemContent(req.coachingStyle, req.language).Some?
      && calls[0] == ReplyCall(ModelInput(SystemContent(req.coachingStyle, req.language).value,
                                          History(Recent(log, id)), req.message))
  {
    SystemContentAgreesOffInheritedKeys(req.coachingStyle, req.language);
  }

  /** A conversation no logged message names has no messages. */
  lemma {:induction false} NoMessagesYet(log: seq<StoredMessage>, id: string)
    requires forall i :: 0 <= i < |log| ==> log[i].conversationId != id
    ensures MessagesOf(log, id) == []
  {
    if log != [] {
      NoMessagesYet(log[..|log| - 1], id);
    }
  }

  /** A turn's two writes add exactly two messages to their conversation
      and none to any other. */
  lemma TurnKeepsCounts(log: seq<StoredMessage>, u: StoredMessage, a: StoredMessage)
    requires u.conversationId == a.conversationId
    ensures |MessagesOf(log + [u, a], u.conversationId)| == |MessagesOf(log, u.conversationId)| + 2
    ensures forall id :: id != u.conversationId ==> MessagesOf(log + [u, a], id) == MessagesOf(log, id)
  {
    assert log + [u, a] == (log + [u]) + [a];
    MessagesOfAppend(log, u, u.conversationId);
    MessagesOfAppend(log + [u], a, u.conversationId);
    forall id | id != u.conversationId ensures MessagesOf(log + [u, a], id) == MessagesOf(log, id) {
      MessagesOfAppend(log, u, id);
      MessagesOfAppend(log + [u], a, id);
    }
  }

  /** The counter's lifecycle over a turn whose reply call answered: an
      unknown id gets a new record that ends the turn at 2; a known record
      keeps its fields and gains exactly 2; no other conversation changes. */
  lemma CounterLifecycle(req: ChatRequest, id: string, userMessageId: string, assistantMessageId: string,
                         completion: Option<string>, correction: CorrectionOutcome, nowMs: int,
                         convs: map<string, Conversation>, log: seq<StoredMessage>,
                         convs': map<string, Conversation>, log': seq<StoredMessage>,
                         resp: ChatResponse, calls: seq<CompletionCall>)
    requires TurnOutcome(req, id, userMessageId, assistantMessageId, completion, correction, nowMs,
                         convs, log, convs', log', resp, calls)
    requires completion.Some? && calls != []
    ensures id in convs' && |log'| == |log| + 2
    ensures id in convs ==> convs'[id] == convs[id].(messageCount := convs[id].messageCount + 2)
    ensures id !in convs ==> convs'[id] == Conversation(req.userId, req.language, req.coachingStyle, 2)
    ensures forall other :: other != id ==> (other in convs' <==> other in convs)
    ensures forall other :: other != id && other in convs ==> convs'[other] == convs[other]
  {
  }

  /** A turn that fails before any message is written (the persona lookup
      throws, or the reply call fails) still leaves the looked-up or created
      record, with its old count, and writes no message. */
  lemma FailedReplyLeavesRecord(req: ChatRequest, id: string, userMessageId: string, assistantMessageId: string,
                                completion: Option<string>, correction: CorrectionOutcome, nowMs: int,
                                convs: map<string, Conversation>, log: seq<StoredMessage>,
                                convs': map<string, Conversation>, log': seq<StoredMessage>,
                                resp: ChatResponse, calls: seq<CompletionCall>)
    requires TurnOutcome(req, id, userMessageId, assistantMessageId, completion, correction, nowMs,
                         convs, log, convs', log', resp, calls)
    requires completion.None? || calls == []
    ensures Status(resp) == 500 && |calls| <= 1 && log' == log
    ensures calls == [] <==> SystemContentAsWritten(req.coachingStyle, req.language).None?
    ensures id in convs' && convs'[id].messageCount == (if id in convs then convs[id].messageCount else 0)
  {
  }

  /** An answered turn carries `corrections` exactly when the style is
      "corrective" and corrections are requested; unparsable correction
      text gives `[]` and the reply is still returned. */
  lemma CorrectionsGate(req: ChatRequest, id: string, userMessageId: string, assistantMessageId: string,
                        completion: Option<string>, correction: CorrectionOutcome, nowMs: int,
                        convs: map<string, Conversation>, log: seq<StoredMessage>,
                        convs': map<string, Conversation>, log': seq<StoredMessage>,
                        resp: ChatResponse, calls: seq<CompletionCall>)
    requires TurnOutcome(req, id, userMessageId, assistantMessageId, completion, correction, nowMs,
                         convs, log, convs', log', resp, calls)
    requires Status(resp) == 200
    ensures completion.Some? && resp.reply == completion.value
    ensures resp.corrections.Some? <==> req.coachingStyle == Str("corrective") && Truthy(req.includeCorrections)
    ensures resp.corrections.Some? && correction == CorrectionText(None) ==> resp.corrections.value == Arr([])
  {
  }
}
