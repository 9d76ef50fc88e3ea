/** The chat-session wrapper as an object: methods that update its fields in
    place, each proved to follow the matching function of module Session. */
module Chat {
  import opened Profiles
  import opened Session

  const ModelName := "gemini-2.0-flash"

  /** A built model client together with the prompt template it is chained
      to. Its settings never change once built. */
  class Chain {
    const apiKey: string
    const model: string
    const systemPrompt: string

    constructor (apiKey: string, systemPrompt: string)
      ensures this.apiKey == apiKey && model == ModelName && this.systemPrompt == systemPrompt
    {
      this.apiKey := apiKey;
      model := ModelName;
      this.systemPrompt := systemPrompt;
    }
  }

  class ChatSession {
    const apiKey: string
    var history: seq<Turn>
    var character: Option<Profile>
    var persona: Option<Profile>
    var characterInfo: string
    var chain: Chain?  // null until the model is built

    /** The session's state as a value. */
    ghost function State(): State
      reads this
    {
      Session.State(history, character, persona, characterInfo,
        if chain == null then None else Some(chain.systemPrompt))
    }

    /** The info is that of the active profiles, and a built model uses the
        session's key, the fixed model name and the current system prompt. */
    ghost predicate Valid()
      reads this
    {
      Coherent(State()) && (chain != null ==> chain.apiKey == apiKey && chain.model == ModelName)
    }

    constructor (apiKey: string, character: Option<Profile>, persona: Option<Profile>)
      ensures Valid() && this.apiKey == apiKey
      ensures State() == New(character, persona) && chain == null
    {
      this.apiKey := apiKey;
      history := [];
      chain := null;
      this.character := character;
      this.persona := persona;
      characterInfo := Compose(character, persona);
    }

    /** Builds a fresh model bound to the current info. */
    method InitModel()
      modifies this
      ensures fresh(chain) && chain.apiKey == apiKey && chain.model == ModelName
      ensures characterInfo == Compose(character, persona) ==> Valid()
      ensures State() == Bind(old(State()))
    {
      chain := new Chain(apiKey, SystemPrompt(characterInfo));
    }

    method AddToHistory(role: string, message: string)
      modifies this`history
      ensures history == old(history) + [Turn(role, message)]
      ensures old(Valid()) ==> Valid()
    {
      history := history + [Turn(role, message)];
    }

    /** Answers one user message. The model is built only if none is bound;
        an already-bound one is used as it is. */
    method GetResponse(userMessage: string, invoke: Request -> Outcome) returns (reply: string)
      requires Valid()
      modifies this
      ensures Valid()
      ensures var x := Respond(old(State()), userMessage, invoke);
        State() == x.after && reply == x.reply
      ensures old(chain) != null ==> chain == old(chain)
      ensures old(chain) == null ==> fresh(chain)
    {
      if chain == null {
        InitModel();
      }
      AddToHistory(UserRole, userMessage);
      var request := Request(chain.systemPrompt, ToMessages(history[..|history| - 1]), userMessage);
      var outcome := invoke(request);
      match outcome
      case Reply(text) =>
        AddToHistory(AssistantRole, text);
        reply := text;
      case QuotaExceeded =>
        reply := QuotaFallback;
      case Failed =>
        reply := OtherFallback;
    }

    /** Swaps the character, recomputes the info and rebuilds the model. */
    method UpdateCharacter(newCharacter: Option<Profile>)
      requires Valid()
      modifies this
      ensures Valid() && fresh(chain)
      ensures State() == Session.UpdateCharacter(old(State()), newCharacter)
    {
      character := newCharacter;
      characterInfo := Compose(character, persona);
      InitModel();
    }

    /** Swaps the persona, recomputes the info and rebuilds the model. */
    method UpdatePersona(newPersona: Option<Profile>)
      requires Valid()
      modifies this
      ensures Valid() && fresh(chain)
      ensures State() == Session.UpdatePersona(old(State()), newPersona)
    {
      persona := newPersona;
      characterInfo := Compose(character, persona);
      InitModel();
    }

    method ClearHistory()
      requires Valid()
      modifies this`history
      ensures Valid()
      ensures State() == Clear(old(State()))
    {
      history := [];
    }
  }

  /** A client: one session with a character and a persona, a model that
      answers, then one that reports an exhausted quota, then a clear. */
  method ExampleConversation()
  {
    var sunday := map["id" := "1", "name" := "Sunday", "prompt" := "calm and wise"];
    var trailblazer := map["id" := "2", "name" := "Trailblazer", "prompt" := "curious explorer"];
    var chat := new ChatSession("key", Some(sunday), Some(trailblazer));

    var answers: Request -> Outcome := (q: Request) => Reply("Hi there");
    var reply := chat.GetResponse("Hello", answers);
    assert reply == "Hi there";
    assert chat.history == [Turn("user", "Hello"), Turn("assistant", "Hi there")];

    var exhausted: Request -> Outcome := (q: Request) => QuotaExceeded;
    reply := chat.GetResponse("Again", exhausted);
    assert reply == QuotaFallback;
    assert chat.history == [Turn("user", "Hello"), Turn("assistant", "Hi there"), Turn("user", "Again")];

    chat.ClearHistory();
    assert chat.history == [] && chat.chain != null;
  }
}
