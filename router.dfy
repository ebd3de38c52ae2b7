/** The intent router of `get_response`: one turn of the conversation as a
    pure function of the user's session, the knowledge base and the raw input. */
module Router {
  import opened Wrappers
  import opened Text
  import opened Knowledge

  datatype Role = User | Model

  /** One entry of the backend chat history: who spoke, and what. */
  datatype Turn = Turn(role: Role, text: string)

  /** The backend chat handle, as far as the router sees it: its history. */
  datatype Chat = Chat(history: seq<Turn>)

  /** The per-user session: the backend chat handle (absent until created) and
      the remembered name. */
  datatype Session = Session(chat: Option<Chat>, userName: Option<string>)

  /** What `setdefault` inserts for a user seen for the first time. */
  const NewSession := Session(None, None)

  /** What the generative backend does with a message: it answers, or its call fails. */
  datatype BackendOutcome = Replied(text: string) | Failed

  /** The system prompt the backend chat is seeded with (a triple-quoted
      string in the source, so it starts with a newline and ends with the
      indentation of its closing quotes). */
  const SystemPrompt :=
    "\n" +
    "        You are \"CareerBot,\" a friendly, " +
    "encouraging, and knowledgeable AI career " +
    "advisor.\n" +
    "\n" +
    "        Your primary functions are:\n" +
    "        1. Provide detailed information about " +
    "specific careers from a knowledge base.\n" +
    "        2. Engage in conversational chat, " +
    "answer follow-up questions, and offer general " +
    "career advice.\n" +
    "\n" +
    "        Key Instructions:\n" +
    "        - **Remember the context:** Pay close " +
    "attention to the conversation history. If a " +
    "user asks a follow-up question like \"what is " +
    "the salary?\" or \"what is the path for that?\", " +
    "you MUST assume they are asking about the " +
    "career that was just discussed.\n" +
    "        - **Remember Names:** If a user tells " +
    "you their name (e.g., \"my name is Nayana\"), " +
    "remember it and use it in your responses to be " +
    "more personal.\n" +
    "        - **Handle Ambiguity:** If you are " +
    "unsure what a user is asking, ask a clarifying " +
    "question instead of saying \"I don't know.\" For " +
    "example, if they ask for \"the best career,\" ask " +
    "them \"What are your interests so I can " +
    "recommend the best career *for you*?\"\n" +
    "        "

  const Acknowledgement :=
    "Understood! I'm CareerBot, ready to help you explore your career options. What's on your mind?"

  /** The two turns a new backend chat starts with. */
  const SeedHistory := [Turn(User, SystemPrompt), Turn(Model, Acknowledgement)]

  /** The first step of every call: a session without a chat gets one, seeded
      with the system prompt, when a model is configured. */
  function StartChat(s: Session, modelConfigured: bool): (r: Session)
    ensures r.userName == s.userName
    ensures s.chat.Some? ==> r.chat == s.chat
    ensures s.chat.None? ==> (r.chat.Some? <==> modelConfigured)
    ensures s.chat.None? && modelConfigured ==> r.chat.value.history == SeedHistory
  {
    if s.chat.None? && modelConfigured then s.(chat := Some(Chat(SeedHistory))) else s
  }

  // ---------------------------------------------------------------- triggers and fixed replies

  const Greetings: seq<string> := ["hi", "hii", "hello", "hey", "heya", "yo", "greetings"]
  const NameTriggers: seq<string> := ["my name is", "i am", "call me"]
  const ListTriggers: seq<string> := ["career options", "list careers", "show me options", "what can you do"]

  const AssistSuffix := " How can I assist?"
  const CuriousGreeting := "Hi there! What career are you curious about?"
  const Unavailable :=
    "I'm sorry, my advanced AI features are unavailable. Please ensure the API key is configured correctly."
  const Trouble := "I'm having a little trouble connecting to my brain right now."
  const NotSure := "I'm not sure how to answer that. Could you ask in a different way?"

  /** The input as the intents match it: stripped, then lower-cased. */
  function Normalize(raw: string): string {
    Lower(Strip(raw))
  }

  // ---------------------------------------------------------------- intent 1: greeting

  /** "Hello, {name}!" when a (non-empty) name is remembered, else "Hello!". */
  function Salutation(name: Option<string>): string {
    if name.Some? && name.value != "" then "Hello, " + name.value + "!" else "Hello!"
  }

  /** `random.choice` between the two greeting templates; `firstTemplate` is the choice. */
  function GreetingReply(name: Option<string>, firstTemplate: bool): string {
    if firstTemplate then Salutation(name) + AssistSuffix else CuriousGreeting
  }

  // ---------------------------------------------------------------- intent 2: name capture

  /** The name that trigger `t` yields: the raw input sliced at the offset where
      `t` ends in the normalised input, stripped and title-cased. */
  function CaptureAt(raw: string, n: string, t: string): string
    requires Contains(n, t)
  {
    Title(Strip(Drop(raw, Find(n, t) + |t|)))
  }

  /** Trigger `t` is present and yields a non-empty name. */
  predicate Captures(raw: string, n: string, t: string) {
    Contains(n, t) && CaptureAt(raw, n, t) != ""
  }

  /** The name of the first trigger of `triggers` that captures one. */
  function FirstCapture(raw: string, n: string, triggers: seq<string>): Option<string> {
    if triggers == [] then None
    else if Captures(raw, n, triggers[0]) then Some(CaptureAt(raw, n, triggers[0]))
    else FirstCapture(raw, n, triggers[1..])
  }

  function NameReply(name: string): string {
    "It's a pleasure to meet you, " + name + "! How can I help you explore your career path today?"
  }

  // ---------------------------------------------------------------- intent 3: category listing

  predicate AsksForList(n: string) {
    exists i :: 0 <= i < |ListTriggers| && Contains(n, ListTriggers[i])
  }

  // ---------------------------------------------------------------- routing

  /** The intent a turn resolves to. */
  datatype Intent =
    | Greeting
    | NameCapture(name: string)
    | CategoryListing
    | SkillLookup(skill: string, info: SkillRecord)
    | Fallback

  /** The first intent, in priority order, that matches the input. */
  function Classify(kb: KnowledgeBase, raw: string): Intent {
    var n := Normalize(raw);
    if n in Greetings then Greeting
    else match FirstCapture(raw, n, NameTriggers)
      case Some(name) => NameCapture(name)
      case None =>
        if AsksForList(n) then CategoryListing
        else
          var m := Mentioned(kb.skills, n);
          if |m| == 1 then SkillLookup(m[0].0, m[0].1) else Fallback
  }

  /** The user's turn and the reply appended to the backend history, when there is a chat. */
  function Record(s: Session, raw: string, reply: string): Session {
    if s.chat.Some? then s.(chat := Some(Chat(s.chat.value.history + [Turn(User, raw), Turn(Model, reply)])))
    else s
  }

  /** The last-resort reply. */
  function FallbackReply(modelConfigured: bool, chat: Option<Chat>, backend: BackendOutcome): string {
    if !modelConfigured then Unavailable
    else if chat.Some? then (if backend.Replied? then backend.text else Trouble)
    else NotSure
  }

  datatype Step = Step(session: Session, reply: string)

  /** Everything `get_response` does after the chat set-up: normalise, try
      the intents in order, and fall back to the backend. `s` is the session
      as the set-up left it. */
  function Route(s: Session, modelConfigured: bool, kb: KnowledgeBase, raw: string,
                 firstTemplate: bool, backend: BackendOutcome): Step
  {
    match Classify(kb, raw)
    case Greeting => Step(s, GreetingReply(s.userName, firstTemplate))
    case NameCapture(name) =>
      var reply := NameReply(name);
      Step(Record(s.(userName := Some(name)), raw, reply), reply)
    case CategoryListing =>
      var reply := CategoryReply(kb.categories);
      Step(Record(s, raw, reply), reply)
    case SkillLookup(skill, info) =>
      var reply := SkillReply(skill, info);
      Step(Record(s, raw, reply), reply)
    case Fallback => Step(s, FallbackReply(modelConfigured, s.chat, backend))
  }

  /** One call of `get_response` on the caller's session. */
  function Respond(s: Session, modelConfigured: bool, kb: KnowledgeBase, raw: string,
                   firstTemplate: bool, backend: BackendOutcome): Step
  {
    Route(StartChat(s, modelConfigured), modelConfigured, kb, raw, firstTemplate, backend)
  }
}
