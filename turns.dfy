/** What one turn of `get_response` promises, proved about `Respond`. */
module Turns {
  import opened Wrappers
  import opened Text
  import opened Knowledge
  import opened Router
  import opened Properties

  // ---------------------------------------------------------------- routing order

  /** The greeting intent fires exactly when the normalised input is one of the seven tokens. */
  lemma GreetingIff(kb: KnowledgeBase, raw: string)
    ensures Classify(kb, raw) == Greeting <==> Normalize(raw) in Greetings
  {
  }

  /** The name intent fires, with `name`, exactly when the input is no
      greeting and the first trigger that captures a name captures `name`. */
  lemma NameCaptureIff(kb: KnowledgeBase, raw: string, name: string)
    ensures Classify(kb, raw) == NameCapture(name) <==>
      Normalize(raw) !in Greetings && FirstCapture(raw, Normalize(raw), NameTriggers) == Some(name)
  {
  }

  /** The listing intent fires exactly when the input is no greeting, no
      trigger captures a name, and some list trigger occurs in it. */
  lemma CategoryListingIff(kb: KnowledgeBase, raw: string)
    ensures Classify(kb, raw) == CategoryListing <==>
      Normalize(raw) !in Greetings && FirstCapture(raw, Normalize(raw), NameTriggers) == None &&
      AsksForList(Normalize(raw))
  {
  }

  /** The lookup of skill `i` fires exactly when no earlier intent does, the
      key of skill `i` occurs in the normalised input and no other key does. */
  lemma SkillLookupIff(kb: KnowledgeBase, raw: string, i: nat)
    requires i < |kb.skills|
    ensures Classify(kb, raw) == SkillLookup(kb.skills[i].0, kb.skills[i].1) <==>
      var n := Normalize(raw);
      n !in Greetings && FirstCapture(raw, n, NameTriggers) == None && !AsksForList(n) &&
      Contains(n, kb.skills[i].0) &&
      forall j :: 0 <= j < |kb.skills| && j != i ==> !Contains(n, kb.skills[j].0)
  {
    var n := Normalize(raw);
    var m := Mentioned(kb.skills, n);
    SoleMention(kb.skills, n, i);
    if Classify(kb, raw) == SkillLookup(kb.skills[i].0, kb.skills[i].1) {
      assert |m| == 1 && m[0] == kb.skills[i];
      assert m == [kb.skills[i]];
    }
  }

  /** With no skills in the knowledge base, no turn is a skill lookup. */
  lemma NoSkillsNoLookup(kb: KnowledgeBase, raw: string)
    requires kb.skills == []
    ensures !Classify(kb, raw).SkillLookup?
  {
    NoneMentioned(kb.skills, Normalize(raw));
  }

  // ---------------------------------------------------------------- replies and session updates

  /** A greeting leaves the session as the chat set-up left it and answers
      with one of the two templates; the first greets the remembered name,
      if any. */
  lemma GreetingTurn(s: Session, modelConfigured: bool, kb: KnowledgeBase, raw: string,
                     firstTemplate: bool, backend: BackendOutcome)
    requires Normalize(raw) in Greetings
    ensures var st := Route(s, modelConfigured, kb, raw, firstTemplate, backend);
      st.session == s &&
      (st.reply == Salutation(s.userName) + AssistSuffix || st.reply == CuriousGreeting) &&
      (firstTemplate && s.userName.Some? && s.userName.value != "" ==>
        st.reply == "Hello, " + s.userName.value + "!" + AssistSuffix) &&
      (firstTemplate && (s.userName.None? || s.userName.value == "") ==>
        st.reply == "Hello!" + AssistSuffix) &&
      (!firstTemplate ==> st.reply == CuriousGreeting)
  {
    GreetingIff(kb, raw);
  }

  /** A captured name overwrites the remembered one, appears in the reply,
      and the turn is appended to the history when there is a chat. */
  lemma NameCaptureTurn(s: Session, modelConfigured: bool, kb: KnowledgeBase, raw: string,
                        firstTemplate: bool, backend: BackendOutcome, name: string)
    requires Classify(kb, raw) == NameCapture(name)
    ensures var st := Route(s, modelConfigured, kb, raw, firstTemplate, backend);
      name != "" &&
      st.session.userName == Some(name) &&
      Contains(st.reply, name) &&
      st.session.chat == (if s.chat.Some?
        then Some(Chat(s.chat.value.history + [Turn(User, raw), Turn(Model, st.reply)]))
        else None)
  {
    NameCaptureIff(kb, raw, name);
    var _ := FirstCaptureSome(raw, Normalize(raw), NameTriggers, name);
    var greeting := "It's a pleasure to meet you, ";
    EndsWith(greeting, name);
    ExtendRight(greeting + name, name, |greeting|, "! How can I help you explore your career path today?");
  }

  /** The listing replies with every category block, in order, and records the turn. */
  lemma CategoryListingTurn(s: Session, modelConfigured: bool, kb: KnowledgeBase, raw: string,
                            firstTemplate: bool, backend: BackendOutcome)
    requires Classify(kb, raw) == CategoryListing
    ensures var st := Route(s, modelConfigured, kb, raw, firstTemplate, backend);
      st.reply == ListHeader + Blocks(kb.categories) + ListFooter &&
      (kb.categories == [] ==> st.reply == ListHeader + ListFooter) &&
      st.session == Record(s, raw, st.reply)
  {
  }

  /** The lookup replies with the matched record's sections and records the turn. */
  lemma SkillLookupTurn(s: Session, modelConfigured: bool, kb: KnowledgeBase, raw: string,
                        firstTemplate: bool, backend: BackendOutcome, i: nat)
    requires i < |kb.skills|
    requires Classify(kb, raw) == SkillLookup(kb.skills[i].0, kb.skills[i].1)
    ensures var st := Route(s, modelConfigured, kb, raw, firstTemplate, backend);
      var info := kb.skills[i].1;
      OccursAt(st.reply, "**" + Title(kb.skills[i].0) + ExcellentChoice, 0) &&
      Contains(st.reply, DescriptionLabel + FieldOr(info.description) + "\n\n") &&
      Contains(st.reply, KeySkillsLabel + SafeJoin(info.keySkills) + "\n\n") &&
      Contains(st.reply, ToolsLabel + SafeJoin(info.tools) + "\n\n") &&
      Contains(st.reply, SalaryLabel + FieldOr(info.salaryRangeInr) + ".\n\n") &&
      Contains(st.reply, CareerPathLabel + FieldOr(info.careerPath)) &&
      st.session == Record(s, raw, st.reply)
  {
    SkillReplySections(kb.skills[i].0, kb.skills[i].1);
  }

  /** Without a model the fallback is the fixed "unavailable" text; with one,
      whenever the set-up has made a chat, it is the backend's answer or, when
      the backend fails, the fixed "trouble" text. Routing leaves the session
      as the chat set-up left it. */
  lemma FallbackTurn(s: Session, modelConfigured: bool, kb: KnowledgeBase, raw: string,
                     firstTemplate: bool, backend: BackendOutcome)
    requires Classify(kb, raw) == Fallback
    ensures var st := Route(s, modelConfigured, kb, raw, firstTemplate, backend);
      st.session == s &&
      (!modelConfigured ==> st.reply == Unavailable) &&
      (modelConfigured && s.chat.Some? && backend.Replied? ==> st.reply == backend.text) &&
      (modelConfigured && s.chat.Some? && backend.Failed? ==> st.reply == Trouble) &&
      (modelConfigured && s.chat.None? ==> st.reply == NotSure)
  {
  }

  /** With a model configured, the set-up always provides a chat, so the
      "not sure" reply is unreachable unless the backend itself answers with
      that text. */
  lemma NotSureUnreachable(s: Session, kb: KnowledgeBase, raw: string,
                           firstTemplate: bool, backend: BackendOutcome)
    requires Classify(kb, raw) == Fallback
    ensures var st := Respond(s, true, kb, raw, firstTemplate, backend);
      st.reply == (if backend.Replied? then backend.text else Trouble) &&
      (st.reply == NotSure ==> backend == Replied(NotSure))
  {
    FallbackTurn(StartChat(s, true), true, kb, raw, firstTemplate, backend);
  }

  // ---------------------------------------------------------------- history and chat handle

  /** Name, listing and lookup turns append exactly the user's input and the
      reply when there is a chat; greetings and fallbacks append nothing; no
      turn creates or drops a chat. */
  lemma HistoryUpdate(s: Session, modelConfigured: bool, kb: KnowledgeBase, raw: string,
                      firstTemplate: bool, backend: BackendOutcome)
    ensures var st := Route(s, modelConfigured, kb, raw, firstTemplate, backend);
      var intent := Classify(kb, raw);
      (st.session.chat.Some? <==> s.chat.Some?) &&
      (intent.Greeting? || intent.Fallback? ==> st.session.chat == s.chat) &&
      (!intent.Greeting? && !intent.Fallback? && s.chat.Some? ==>
        st.session.chat.value.history == s.chat.value.history + [Turn(User, raw), Turn(Model, st.reply)])
  {
  }

  /** Only the name intent changes the remembered name. */
  lemma NameOnlyChangedByCapture(s: Session, modelConfigured: bool, kb: KnowledgeBase, raw: string,
                                 firstTemplate: bool, backend: BackendOutcome)
    ensures var st := Route(s, modelConfigured, kb, raw, firstTemplate, backend);
      st.session.userName != s.userName ==> Classify(kb, raw).NameCapture?
  {
  }

  /** The chat handle is created at most once: setting up twice is setting up
      once, and a turn keeps every turn already in the history. */
  lemma ChatCreatedOnce(s: Session, modelConfigured: bool, kb: KnowledgeBase, raw: string,
                        firstTemplate: bool, backend: BackendOutcome)
    ensures StartChat(StartChat(s, modelConfigured), modelConfigured) == StartChat(s, modelConfigured)
    ensures var st := Respond(s, modelConfigured, kb, raw, firstTemplate, backend);
      s.chat.Some? ==> st.session.chat.Some? && s.chat.value.history <= st.session.chat.value.history
  {
    HistoryUpdate(StartChat(s, modelConfigured), modelConfigured, kb, raw, firstTemplate, backend);
  }

  /** A session as `get_response` leaves it: a chat exactly when a model is
      configured, whose history starts with the seed, and no empty name. */
  predicate Consistent(s: Session, modelConfigured: bool) {
    (s.chat.Some? <==> modelConfigured) &&
    (s.chat.Some? ==> SeedHistory <= s.chat.value.history) &&
    (s.userName.Some? ==> s.userName.value != "")
  }

  /** Routing keeps the chat, extends its history and sets only non-empty names. */
  lemma RouteExtends(s: Session, modelConfigured: bool, kb: KnowledgeBase, raw: string,
                     firstTemplate: bool, backend: BackendOutcome)
    ensures var st := Route(s, modelConfigured, kb, raw, firstTemplate, backend);
      (st.session.chat.Some? <==> s.chat.Some?) &&
      (s.chat.Some? ==> s.chat.value.history <= st.session.chat.value.history) &&
      (st.session.userName.Some? && st.session.userName != s.userName ==> st.session.userName.value != "")
  {
    HistoryUpdate(s, modelConfigured, kb, raw, firstTemplate, backend);
    var intent := Classify(kb, raw);
    if intent.NameCapture? {
      NameCaptureTurn(s, modelConfigured, kb, raw, firstTemplate, backend, intent.name);
    }
  }

  lemma PrefixTrans<T>(a: seq<T>, b: seq<T>, c: seq<T>)
    requires a <= b && b <= c
    ensures a <= c
  {
  }

  /** Every turn, from a new session or a consistent one, leaves a consistent session. */
  lemma RespondConsistent(s: Session, modelConfigured: bool, kb: KnowledgeBase, raw: string,
                          firstTemplate: bool, backend: BackendOutcome)
    requires s == NewSession || Consistent(s, modelConfigured)
    ensures Consistent(Respond(s, modelConfigured, kb, raw, firstTemplate, backend).session, modelConfigured)
  {
    var s1 := StartChat(s, modelConfigured);
    assert Consistent(s1, modelConfigured);
    var st := Route(s1, modelConfigured, kb, raw, firstTemplate, backend);
    RouteExtends(s1, modelConfigured, kb, raw, firstTemplate, backend);
    if s1.chat.Some? {
      PrefixTrans(SeedHistory, s1.chat.value.history, st.session.chat.value.history);
    }
  }
}
