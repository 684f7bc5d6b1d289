/**
 * The pure parts of the `chat` endpoint: request validation, the history
 * rebuilt from the newest-first fetch, the persona chosen by coaching
 * style, the model input, and the gating of corrections.
 */
module ChatPrompt {
  import opened Wrappers
  import opened JsValues

  /** The request after destructuring with defaults. */
  datatype ChatRequest = ChatRequest(
    message: JsValue,
    conversationId: JsValue,
    userId: JsValue,
    language: JsValue,
    coachingStyle: JsValue,
    includeCorrections: JsValue)

  /** Destructure the body (coachingStyle defaults to "encouraging",
      includeCorrections to true) and validate. `None` is the 400 answer. */
  function ReadChatRequest(body: Body): (r: Option<ChatRequest>)
    ensures r.None? <==>
      !Truthy(Field(body, "message")) || !Truthy(Field(body, "userId")) || !Truthy(Field(body, "language"))
    ensures r.Some? ==>
      && r.value.message == Field(body, "message")
      && r.value.conversationId == Field(body, "conversationId")
      && r.value.userId == Field(body, "userId")
      && r.value.language == Field(body, "language")
      && r.value.coachingStyle ==
           (if Field(body, "coachingStyle").Undefined? then Str("encouraging") else Field(body, "coachingStyle"))
      && r.value.includeCorrections ==
           (if Field(body, "includeCorrections").Undefined? then Bool(true) else Field(body, "includeCorrections"))
  {
    var message := Field(body, "message");
    var userId := Field(body, "userId");
    var language := Field(body, "language");
    var coachingStyle := WithDefault(Field(body, "coachingStyle"), Str("encouraging"));
    var includeCorrections := WithDefault(Field(body, "includeCorrections"), Bool(true));
    if !Truthy(message) || !Truthy(userId) || !Truthy(language) then None
    else Some(ChatRequest(message, Field(body, "conversationId"), userId, language, coachingStyle, includeCorrections))
  }

  datatype Role = System | User | Assistant

  /** The three persona templates; each is parameterised by the language. */
  datatype Persona = Conversational | Corrective | Encouraging

  /** The content of a model-input message: a value from the request or the
      store, a persona template, or a member inherited by every JavaScript
      object (what `systemPrompts[key]` yields for a key like "toString"). */
  datatype Content = Text(value: JsValue) | PersonaPrompt(persona: Persona, language: JsValue) | InheritedMember(name: string)

  datatype ChatMessage = ChatMessage(role: Role, content: Content)

  /** A record of the `messages` collection; `kind` is its `type` field. */
  datatype StoredMessage = StoredMessage(
    id: string,
    conversationId: string,
    userId: JsValue,
    content: JsValue,
    kind: string,
    language: JsValue,
    coachingStyle: Option<JsValue>)

  /** `type === "user" ? "user" : "assistant"`. */
  function RoleOf(kind: string): (r: Role)
    ensures r == User <==> kind == "user"
    ensures r != System
  {
    if kind == "user" then User else Assistant
  }

  function ToContext(m: StoredMessage): ChatMessage {
    ChatMessage(RoleOf(m.kind), Text(m.content))
  }

  /** The history given newest-first messages: reversed into chronological
      order and mapped to role-tagged messages. */
  function History(newestFirst: seq<StoredMessage>): seq<ChatMessage> {
    seq(|newestFirst|, i requires 0 <= i < |newestFirst| => ToContext(newestFirst[|newestFirst| - 1 - i]))
  }

  /** `docs.reverse().forEach(doc => contextMessages.push(...))`. */
  method BuildContext(newestFirst: seq<StoredMessage>) returns (context: seq<ChatMessage>)
    ensures context == History(newestFirst)
    ensures |context| == |newestFirst|
    ensures forall i :: 0 <= i < |context| ==>
      && context[i].role == RoleOf(newestFirst[|newestFirst| - 1 - i].kind)
      && context[i].content == Text(newestFirst[|newestFirst| - 1 - i].content)
  {
    var n := |newestFirst|;
    context := [];
    var k := 0;
    while k < n
      invariant 0 <= k <= n
      invariant |context| == k
      invariant forall i :: 0 <= i < k ==> context[i] == ToContext(newestFirst[n - 1 - i])
    {
      var doc := newestFirst[n - 1 - k];
      context := context + [ChatMessage(RoleOf(doc.kind), Text(doc.content))];
      k := k + 1;
    }
  }

  /** An own property of `systemPrompts`. */
  function OwnPersona(key: string): Option<Persona> {
    if key == "conversational" then Some(Conversational)
    else if key == "corrective" then Some(Corrective)
    else if key == "encouraging" then Some(Encouraging)
    else None
  }

  /** The names every object literal inherits from Object.prototype; each
      names a truthy value. */
  const InheritedKeys: set<string> := {
    "constructor", "hasOwnProperty", "isPrototypeOf", "propertyIsEnumerable",
    "toLocaleString", "toString", "valueOf", "__proto__",
    "__defineGetter__", "__defineSetter__", "__lookupGetter__", "__lookupSetter__" }

  /** `systemPrompts[coachingStyle] || systemPrompts.encouraging`, as written.
      Building the templates renders the language and the lookup renders the
      style, and either can throw (`None`). The lookup also finds inherited
      members, which are truthy and so are not replaced by the fallback. */
  function SystemContentAsWritten(style: JsValue, language: JsValue): (c: Option<Content>)
    ensures c.None? <==> ToDisplayString(language).None? || ToDisplayString(style).None?
    ensures c.Some? ==> var key := ToDisplayString(style).value;
      && (key == "conversational" ==> c.value == PersonaPrompt(Conversational, language))
      && (key == "corrective" ==> c.value == PersonaPrompt(Corrective, language))
      && (key == "encouraging" ==> c.value == PersonaPrompt(Encouraging, language))
      && (key in InheritedKeys ==> c.value == InheritedMember(key))
      && (OwnPersona(key).None? && key !in InheritedKeys ==> c.value == PersonaPrompt(Encouraging, language))
  {
    if ToDisplayString(language).None? then None
    else match ToDisplayString(style)
      case None => None
      case Some(key) =>
        match OwnPersona(key)
        case Some(p) => Some(PersonaPrompt(p, language))
        case None => Some(if key in InheritedKeys then InheritedMember(key) else PersonaPrompt(Encouraging, language))
  }

  /** The lookup as intended: the persona named by the style, and the
      encouraging persona for every other style. It throws exactly when the
      lookup as written does. */
  function SystemContent(style: JsValue, language: JsValue): (c: Option<Content>)
    ensures c.None? <==> ToDisplayString(language).None? || ToDisplayString(style).None?
    ensures c.Some? ==> c.value.PersonaPrompt? && c.value.language == language
    ensures c.Some? ==> var key := ToDisplayString(style).value;
      && (key == "conversational" ==> c.value.persona == Conversational)
      && (key == "corrective" ==> c.value.persona == Corrective)
      && (key != "conversational" && key != "corrective" ==> c.value.persona == Encouraging)
  {
    if ToDisplayString(language).None? then None
    else match ToDisplayString(style)
      case None => None
      case Some(key) =>
        match OwnPersona(key)
        case Some(p) => Some(PersonaPrompt(p, language))
        case None => Some(PersonaPrompt(Encouraging, language))
  }

  /** The style "toString" is not one of the three personas, yet the lookup
      as written yields the inherited member instead of the encouraging
      persona that the intended lookup gives. */
  lemma InheritedKeyDefeatsFallback(language: string)
    ensures OwnPersona("toString").None?
    ensures SystemContentAsWritten(Str("toString"), Str(language)) == Some(InheritedMember("toString"))
    ensures SystemContent(Str("toString"), Str(language)) == Some(PersonaPrompt(Encouraging, Str(language)))
  {
  }

  /** The two lookups differ only on inherited member names. */
  lemma SystemContentAgreesOffInheritedKeys(style: JsValue, language: JsValue)
    requires ToDisplayString(style).None? || ToDisplayString(style).value !in InheritedKeys
    ensures SystemContentAsWritten(style, language) == SystemContent(style, language)
  {
  }

  /** `[system, ...contextMessages, {role: "user", content: message}]`. */
  function ModelInput(system: Content, history: seq<ChatMessage>, message: JsValue): (r: seq<ChatMessage>)
    ensures |r| == |history| + 2
    ensures r[0] == ChatMessage(System, system)
    ensures r[1..|r| - 1] == history
    ensures r[|r| - 1] == ChatMessage(User, Text(message))
  {
    [ChatMessage(System, system)] + history + [ChatMessage(User, Text(message))]
  }

  /** Built from fetched messages, the model input has exactly one system
      message, first, and ends with the new user message. */
  lemma {:induction false} ModelInputShape(system: Content, newestFirst: seq<StoredMessage>, message: JsValue)
    ensures var r := ModelInput(system, History(newestFirst), message);
      && |r| == |newestFirst| + 2
      && (forall i :: 0 <= i < |r| ==> (r[i].role == System <==> i == 0))
      && r[|r| - 1] == ChatMessage(User, Text(message))
  {
    var h := History(newestFirst);
    var r := ModelInput(system, h, message);
    forall i | 0 <= i < |r| ensures r[i].role == System <==> i == 0 {
      if 0 < i < |r| - 1 {
        assert r[i] == r[1..|r| - 1][i - 1] == h[i - 1];
        assert h[i - 1] == ToContext(newestFirst[|newestFirst| - 1 - (i - 1)]);
      }
    }
  }

  /** `coachingStyle === "corrective" && includeCorrections`. */
  predicate CorrectionsWanted(req: ChatRequest) {
    req.coachingStyle == Str("corrective") && Truthy(req.includeCorrections)
  }

  /** The corrections call's outcome: it throws, or it returns text whose
      `JSON.parse` gives a value or fails (`None`). */
  datatype CorrectionOutcome = CorrectionCallFailed | CorrectionText(parsed: Option<JsValue>)

  /** `response.corrections`: the parsed value, or `[]` when parsing fails. */
  function CorrectionsField(parsed: Option<JsValue>): (r: JsValue)
    ensures parsed.None? ==> r == Arr([])
    ensures parsed.Some? ==> r == parsed.value
  {
    match parsed
    case Some(v) => v
    case None => Arr([])
  }
}
