# CareerBot intent router, modelled in Dafny

CareerBot is a career-advice chatbot. Its rule-based core is `get_response(user_input, user_id)` in
`chatbot_website/nlp_model.py`, with the helper `safe_join`. Each call does the following:

- it looks up or creates the user's session in the process-wide store `conversation_sessions`;
- it gives that session a backend chat seeded with a two-turn history when a model is configured;
- it normalises the input with `strip().lower()`;
- it tries four intents in a fixed order, and the first that matches answers:
  - a greeting;
  - a name capture (`"my name is"`, `"i am"`, `"call me"`);
  - the category listing;
  - the lookup of the single skill the input mentions;
- when nothing matches, it falls back to the generative backend.

The model is split across these files:

- `text.dfy` (module `Text`): ASCII models of the Python `str` operations the router uses.
  - `strip` and `split` treat space, 0x09-0x0D and 0x1C-0x1F as whitespace.
  - `lower`, `title` and `capitalize` change only the ASCII letters.
  - The module also covers `join`, `in` and `find`, and the clamping slice `s[k:]`.
- `knowledge.dfy` (modules `Wrappers` and `Knowledge`): the rest of the read-only data and rendering.
  - The knowledge base is two insertion-ordered maps: `skills` and `categories`.
  - A skill record's `description`, `salary_range_inr` and `career_path` are `Option`s.
    An absent key is `None` and renders as `N/A`; a present empty string renders empty.
  - `key_skills` and `tools` are a `Value` (`null`, a list, or a scalar), rendered by `SafeJoin`.
  - The module also has the list of skills an input mentions, the skill reply and the category listing.
- `router.dfy` (module `Router`): one call as pure functions.
  - `StartChat` is the chat set-up (lines 44-60).
  - `Classify` tries the intents in priority order.
  - `Route` is everything after the set-up.
  - `Respond` is `Route` after `StartChat`.
  - `random.choice` becomes the parameter `firstTemplate`.
  - The backend becomes the parameter `backend`, which either replies or fails.
- `properties.dfy` (module `Properties`): how the name is captured, including where the slice lands in the raw input.
- `turns.dfy` (module `Turns`): what one turn promises. This covers each intent's firing condition and reply,
  the history updates, the single creation of the chat, and the invariant that stored sessions keep.
- `sessions.dfy` (module `Sessions`): the imperative code.
  - Class `ChatBot` holds the configuration, the knowledge base and the `sessions` map, which its methods update in place.
  - `GetResponse` is proved to change only the caller's entry, and to change it exactly as `Respond` says.
  - The trigger loop (`CaptureName`, with `continue` and early return) is proved against `FirstCapture`.
  - The `+=` listing loop (`ListCategories`) is proved against `CategoryReply`.

Three consequences of the code as written:

- When the knowledge base has no categories, a list request still fires the listing intent.
  The reply is then the header followed directly by the footer (`Turns.CategoryListingTurn`).
- The name is sliced from the raw input at an offset computed on the stripped input.
  So leading whitespace in the raw input moves the slice left by that many characters
  (`Properties.LeadingSpaceShiftsName`: `" i am jo"` yields `"M Jo"`).
  When the whitespace reaches past the end of the trigger, the name swallows the trigger
  (`Properties.LeadingSpaceSwallowsTrigger`: five spaces and then `"i am jo"` yield `"I Am Jo"`).
- An empty skill key is a substring of every input, so it is always mentioned
  (`Knowledge.EmptyKeyAlwaysMentioned`).

## Model

| member | source | states |
|---|---|---|
| Knowledge.SafeJoin | chatbot_website/nlp_model.py:32-36 | a non-empty list gives its `", "`-join, an empty list or `None` gives `N/A`, and any other value gives its text |
| Knowledge.FieldOr | chatbot_website/nlp_model.py:119-123 | an absent field renders as `N/A`; a present one renders as its value, even when empty |
| Knowledge.Mentioned | chatbot_website/nlp_model.py:112 | the mentioned skills are entries of the knowledge base whose key occurs in the normalised input, and there are no more of them than skills |
| Knowledge.MentionedComplete | chatbot_website/nlp_model.py:112 | every skill whose key occurs in the normalised input is mentioned |
| Knowledge.NoneMentioned | chatbot_website/nlp_model.py:112 | no skill is mentioned iff no key occurs in the normalised input |
| Knowledge.SoleMention | chatbot_website/nlp_model.py:112-114 | exactly skill `i` is mentioned iff its key occurs and no other entry's key does |
| Knowledge.EmptyKeyAlwaysMentioned | chatbot_website/nlp_model.py:112 | an empty key is mentioned for every input, and it is the only key a single mention can then have |
| Knowledge.SkillReplySections | chatbot_website/nlp_model.py:117-124 | the skill reply starts with the title-cased name heading and contains each labelled section, using `N/A` for absent keys and `SafeJoin` for the lists |
| Knowledge.BlocksAppend | chatbot_website/nlp_model.py:99-101 | the listing of two runs of categories is the listing of the first followed by that of the second |
| Knowledge.CategoryListingOrder | chatbot_website/nlp_model.py:98-102 | the listing is the header, then the blocks before category `i`, then its block, then the blocks after it, then the footer |
| Text.StripSpec | chatbot_website/nlp_model.py:63 | `Strip` removes exactly the leading and trailing whitespace runs and keeps the infix between them |
| Text.TitleAt | chatbot_website/nlp_model.py:79 | each character is lower-cased after a cased character and upper-cased otherwise |
| Text.SplitWords | chatbot_website/nlp_model.py:100 | the words of `Split` are non-empty, contain no whitespace, and together hold every non-whitespace character in order |
| Text.SplitUnfold | chatbot_website/nlp_model.py:100 | after leading whitespace, a word that ends the input or is followed by whitespace is the first word of `Split`, and the rest are the words of what follows: the words are the maximal non-whitespace runs |
| Text.SplitBlank | chatbot_website/nlp_model.py:100 | `Split` of whitespace alone is empty |
| Text.Capitalize | chatbot_website/nlp_model.py:100 | the first character is upper-cased and the rest lower-cased |
| Text.CapitalizeAll | chatbot_website/nlp_model.py:100 | every word is capitalised, in place |
| Text.Find | chatbot_website/nlp_model.py:77 | the result is non-negative iff the trigger occurs, and -1 otherwise |
| Text.FindSpec | chatbot_website/nlp_model.py:77 | `Find` returns the first occurrence of the trigger |
| Text.Drop | chatbot_website/nlp_model.py:79 | slicing from `k` keeps the suffix from `k`, or nothing once `k` passes the end |
| Router.StartChat | chatbot_website/nlp_model.py:44-60 | a session without a chat gets one seeded with the two-turn history exactly when a model is configured; an existing chat and the name are kept |
| Properties.FirstCaptureIsFirst | chatbot_website/nlp_model.py:74-93 | the first trigger that captures a non-empty name decides it, whatever later triggers would capture |
| Properties.FirstCaptureNone | chatbot_website/nlp_model.py:74-83 | no name is captured iff every trigger is absent or leaves an empty remainder |
| Properties.FirstCaptureSome | chatbot_website/nlp_model.py:74-93 | a captured name comes from a trigger that captures it after all earlier ones failed, and it is never empty |
| Properties.TriggerInRaw | chatbot_website/nlp_model.py:77-79 | for raw input without leading whitespace, the trigger's first occurrence in the normalised input is a case-insensitive occurrence at the same offset of the raw input |
| Properties.NameFollowsTrigger | chatbot_website/nlp_model.py:77-79 | for raw input without leading whitespace, the captured name is the stripped, title-cased rest of the raw input after the trigger |
| Properties.LeadingSpaceShiftsName | chatbot_website/nlp_model.py:77-79 | leading whitespace that ends no later than the trigger leaves the normalised input unchanged and moves the slice left by its own length |
| Properties.LeadingSpaceSwallowsTrigger | chatbot_website/nlp_model.py:77-79 | leading whitespace that reaches past the end of the trigger leaves the normalised input unchanged, and the captured name is then the whole stripped, title-cased input, trigger included |
| Turns.GreetingIff | chatbot_website/nlp_model.py:66-67 | the greeting intent fires iff the normalised input is one of the seven greeting tokens |
| Turns.NameCaptureIff | chatbot_website/nlp_model.py:73-93 | the name intent fires with `name` iff the input is no greeting and the first capturing trigger captures `name` |
| Turns.CategoryListingIff | chatbot_website/nlp_model.py:96-97 | the listing fires iff no earlier intent does and some list trigger occurs in the normalised input |
| Turns.SkillLookupIff | chatbot_website/nlp_model.py:112-114 | the lookup of skill `i` fires iff no earlier intent does, its key occurs, and no other key does |
| Turns.NoSkillsNoLookup | chatbot_website/nlp_model.py:112-114 | with no skills, no turn is a skill lookup |
| Turns.GreetingTurn | chatbot_website/nlp_model.py:67-70 | after the chat set-up, a greeting changes nothing more and replies with one of the two templates; the first is `Hello, {name}!` when a non-empty name is remembered and `Hello!` otherwise |
| Turns.NameCaptureTurn | chatbot_website/nlp_model.py:85-93 | a captured name overwrites the remembered one and appears in the reply; the user's input and the reply are appended when there is a chat |
| Turns.CategoryListingTurn | chatbot_website/nlp_model.py:97-109 | the listing reply is the header, the blocks in insertion order and the footer (header and footer alone with no categories), and the turn is recorded |
| Turns.SkillLookupTurn | chatbot_website/nlp_model.py:114-131 | the lookup reply holds the matched record's heading and all five sections, and the turn is recorded |
| Turns.FallbackTurn | chatbot_website/nlp_model.py:134-145 | with no model the reply is the "unavailable" text; with a model and a chat it is the backend's answer, or the "trouble" text on failure; the session stays as the chat set-up left it |
| Turns.NotSureUnreachable | chatbot_website/nlp_model.py:134-145 | with a model configured, the fallback always has a chat, so the "not sure" text is reached only if the backend itself answers with it |
| Turns.HistoryUpdate | chatbot_website/nlp_model.py:88-130 | name, listing and lookup turns append exactly the user turn and the model turn when there is a chat; greetings and fallbacks append nothing |
| Turns.NameOnlyChangedByCapture | chatbot_website/nlp_model.py:85 | only the name intent changes the remembered name |
| Turns.ChatCreatedOnce | chatbot_website/nlp_model.py:44-60 | setting up the chat twice is setting it up once, and a turn keeps every turn already in the history |
| Turns.RouteExtends | chatbot_website/nlp_model.py:62-145 | routing never creates or drops a chat, only extends its history, and only stores non-empty names |
| Turns.RespondConsistent | chatbot_website/nlp_model.py:41-145 | from a new or consistent session, a call leaves a session with a chat exactly when a model is configured, a history that starts with the seed, and no empty name |
| Sessions.SessionOf | chatbot_website/nlp_model.py:41 | `setdefault` yields the stored session, or a new session without chat or name |
| Sessions.CaptureName | chatbot_website/nlp_model.py:73-93 | the trigger loop with `continue` and early return returns exactly `FirstCapture` over the triggers it is given (the three name triggers at the call site) |
| Sessions.ListCategories | chatbot_website/nlp_model.py:98-102 | the `+=` loop over the categories builds exactly `CategoryReply` |
| Sessions.ChatBot.constructor | chatbot_website/nlp_model.py:29 | the store starts empty and is consistent, over a knowledge base with distinct keys |
| Sessions.ChatBot.RecordTurn | chatbot_website/nlp_model.py:88-92 | extending the history changes only the caller's session, and only when it has a chat |
| Sessions.ChatBot.OpenSession | chatbot_website/nlp_model.py:41-60 | `setdefault` then the chat set-up store `StartChat` of the caller's session and touch no other entry |
| Sessions.ChatBot.RouteTurn | chatbot_website/nlp_model.py:62-93 | the intents, from greeting onwards, update the caller's session and reply exactly as `Route` says |
| Sessions.ChatBot.ListOrLookup | chatbot_website/nlp_model.py:95-145 | after name capture, the listing, the lookup and the fallback update and reply exactly as `Route` says |
| Sessions.ChatBot.GetResponse | chatbot_website/nlp_model.py:39-145 | a call changes only the caller's entry of the store, exactly as `Respond` says, and keeps every stored session consistent |

## Left out

- `chatbot_website/app.py` (Flask routing, CORS, JSON) is not part of this model.
  Its rejection of an empty input or user id is not needed, because the model handles every string.
- `chatbot_website/static/script.js` (the browser UI) is not part of this model.
- `chatbot_website/check_data.py` only reads the data file and prints.
  Its concern, an empty skill key, is stated as `Knowledge.EmptyKeyAlwaysMentioned`.
- The module set-up (lines 8-26) is not modelled: environment, API key, backend configuration and reading `data.json`.
  Instead, the knowledge base is a constructor argument, and whether a model is configured is a constant of `ChatBot`.
- The backend call at line 139 is not modelled, nor the history bookkeeping the backend does itself.
  `backend` is the outcome of that call. The model leaves the history unchanged on a fallback turn, since the router code does not touch it there.
- `random.choice` is the caller-supplied `firstTemplate`.
- `print` logging is left out.
- Case mapping and whitespace are ASCII only. Unicode `lower`, `title`, `capitalize`, `strip` and `split` are not modelled.
- Knowledge base values other than strings and string lists are left out.
  For example, a `description` that is present but `null` would render as `None` in the source.
  `Value.Scalar` holds the text that `str` gives such a value.
- Concurrent calls to the shared session store are left out: calls are sequential.
- `Properties.NameFollowsTrigger` requires raw input without leading whitespace.
  Leading whitespace is covered separately by `Properties.LeadingSpaceShiftsName` and `Properties.LeadingSpaceSwallowsTrigger`.
