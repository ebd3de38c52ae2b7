/** The stateful side of `get_response`: the process-wide session store, the
    name-trigger loop and the category-listing loop. */
module Sessions {
  import opened Wrappers
  import opened Text
  import opened Knowledge
  import opened Router
  import opened Turns

  /** What `setdefault` finds or inserts for `userId`. */
  function SessionOf(sessions: map<string, Session>, userId: string): (s: Session)
    ensures userId !in sessions ==> s == NewSession
    ensures userId in sessions ==> s == sessions[userId]
  {
    if userId in sessions then sessions[userId] else NewSession
  }

  /** The name-trigger loop over `triggers` (`name_triggers` at the call
      site): try them in order; a present trigger whose remainder is empty is
      skipped, the first non-empty remainder is returned. */
  method CaptureName(raw: string, n: string, triggers: seq<string>) returns (name: Option<string>)
    ensures name == FirstCapture(raw, n, triggers)
  {
    var i := 0;
    while i < |triggers|
      invariant 0 <= i <= |triggers|
      invariant FirstCapture(raw, n, triggers) == FirstCapture(raw, n, triggers[i..])
    {
      var trigger := triggers[i];
      assert triggers[i..][1..] == triggers[i + 1..];
      i := i + 1;
      if Contains(n, trigger) {
        var startIndex := Find(n, trigger) + |trigger|;
        var candidate := Title(Strip(Drop(raw, startIndex)));
        if candidate == "" {
          continue;
        }
        return Some(candidate);
      }
    }
    return None;
  }

  /** The category-listing loop: the header, one block per category in
      insertion order, then the footer. */
  method ListCategories(categories: seq<(string, seq<string>)>) returns (response: string)
    ensures response == CategoryReply(categories)
  {
    response := ListHeader;
    var i := 0;
    while i < |categories|
      invariant 0 <= i <= |categories|
      invariant response == ListHeader + Blocks(categories[..i])
    {
      var (categoryName, careerList) := categories[i];
      var formattedCategory := Join(" ", CapitalizeAll(Split(categoryName)));
      var block := "**" + formattedCategory + "**\n" + Join(", ", careerList) + "\n\n";
      assert categories[..i + 1][..i] == categories[..i];
      Associate(ListHeader, Blocks(categories[..i]), block);
      response := response + block;
      i := i + 1;
    }
    assert categories[..i] == categories;
    response := response + ListFooter;
  }

  /** The chatbot process: whether a backend model is configured, the
      knowledge base, and `conversation_sessions`. */
  class ChatBot {
    const modelConfigured: bool
    const kb: KnowledgeBase
    var sessions: map<string, Session>

    /** Every stored session is as `get_response` leaves it. */
    ghost predicate Valid()
      reads this
    {
      forall userId :: userId in sessions ==> Consistent(sessions[userId], modelConfigured)
    }

    /** A process with no sessions yet, over a knowledge base read from a
        JSON object, so with distinct keys. */
    constructor(modelConfigured: bool, kb: KnowledgeBase)
      requires kb.Valid()
      ensures this.modelConfigured == modelConfigured && this.kb == kb
      ensures sessions == map[]
      ensures Valid()
    {
      this.modelConfigured := modelConfigured;
      this.kb := kb;
      sessions := map[];
    }

    /** `chat_session.history.extend(...)` on `userId`'s session, when it has a chat. */
    method RecordTurn(userId: string, userInput: string, response: string)
      requires userId in sessions
      modifies this
      ensures sessions == old(sessions)[userId := Record(old(sessions)[userId], userInput, response)]
    {
      var session := sessions[userId];
      if session.chat.Some? {
        var history := session.chat.value.history + [Turn(User, userInput), Turn(Model, response)];
        sessions := sessions[userId := session.(chat := Some(Chat(history)))];
      }
    }

    /** The top of `get_response`: `setdefault` the user's session, then give
        it a chat seeded with the system prompt if it has none and a model is
        configured. */
    method OpenSession(userId: string)
      modifies this
      ensures userId in sessions
      ensures sessions == old(sessions)[userId := StartChat(SessionOf(old(sessions), userId), modelConfigured)]
    {
      if userId !in sessions {
        sessions := sessions[userId := NewSession];
      }
      if sessions[userId].chat.None? && modelConfigured {
        sessions := sessions[userId := sessions[userId].(chat := Some(Chat(SeedHistory)))];
      }
    }

    /** The rest of `get_response`: the intents in order, then the fallback. */
    method RouteTurn(userInput: string, userId: string, firstTemplate: bool, backend: BackendOutcome)
      returns (reply: string)
      requires userId in sessions
      modifies this
      ensures var st := Route(old(sessions)[userId], modelConfigured, kb, userInput, firstTemplate, backend);
        reply == st.reply && sessions == old(sessions)[userId := st.session]
    {
      var chatSession := sessions[userId].chat;
      var correctedInput := Normalize(userInput);

      if correctedInput in Greetings {
        var userName := sessions[userId].userName;
        reply := GreetingReply(userName, firstTemplate);
        return;
      }

      var name := CaptureName(userInput, correctedInput, NameTriggers);
      if name.Some? {
        sessions := sessions[userId := sessions[userId].(userName := name)];
        reply := NameReply(name.value);
        RecordTurn(userId, userInput, reply);
        return;
      }

      reply := ListOrLookup(userInput, correctedInput, userId, chatSession, firstTemplate, backend);
    }

    /** The intents after name capture: the category listing, the skill
        lookup, then the fallback to the backend. */
    method ListOrLookup(userInput: string, correctedInput: string, userId: string,
                        chatSession: Option<Chat>, firstTemplate: bool, backend: BackendOutcome)
      returns (reply: string)
      requires userId in sessions && chatSession == sessions[userId].chat
      requires correctedInput == Normalize(userInput) && correctedInput !in Greetings
      requires FirstCapture(userInput, correctedInput, NameTriggers) == None
      modifies this
      ensures var st := Route(old(sessions)[userId], modelConfigured, kb, userInput, firstTemplate, backend);
        reply == st.reply && sessions == old(sessions)[userId := st.session]
    {
      if AsksForList(correctedInput) {
        reply := ListCategories(kb.categories);
        RecordTurn(userId, userInput, reply);
        return;
      }

      var mentionedSkills := Mentioned(kb.skills, correctedInput);
      if |mentionedSkills| == 1 {
        var (matchedSkill, skillInfo) := mentionedSkills[0];
        reply := SkillReply(matchedSkill, skillInfo);
        RecordTurn(userId, userInput, reply);
        return;
      }

      if !modelConfigured {
        reply := Unavailable;
        return;
      }
      if chatSession.Some? {
        reply := if backend.Replied? then backend.text else Trouble;
        return;
      }
      reply := NotSure;
    }

    /** One call of `get_response(user_input, user_id)`: `firstTemplate`
        stands for `random.choice`, `backend` for what the backend does with
        the input should the fallback reach it. Only `userId`'s entry of the
        store changes, it changes as `Respond` says, and every stored session
        stays consistent. */
    method GetResponse(userInput: string, userId: string, firstTemplate: bool, backend: BackendOutcome)
      returns (reply: string)
      requires Valid()
      modifies this
      ensures Valid()
      ensures var st := Respond(SessionOf(old(sessions), userId), modelConfigured, kb, userInput,
                                firstTemplate, backend);
        reply == st.reply && sessions == old(sessions)[userId := st.session]
    {
      RespondConsistent(SessionOf(sessions, userId), modelConfigured, kb, userInput, firstTemplate, backend);
      OpenSession(userId);
      reply := RouteTurn(userInput, userId, firstTemplate, backend);
    }
  }
}
