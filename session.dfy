/** A chat session as a value: its transcript, the active profiles, the
    character info derived from them and the system prompt of the model it
    is bound to, if any; and the session operations as functions over it.
    The class in module Chat is proved to follow these functions. */
module Session {
  import opened Profiles

  /** One recorded message: its speaker role ("user" or "assistant") and text. */
  datatype Turn = Turn(role: string, content: string)

  /** A prior turn as the prompt template receives it. */
  datatype Message = Human(content: string) | Ai(content: string)

  /** Everything one model invocation is given: the system message it was
      built with, the earlier turns and the new user input. */
  datatype Request = Request(system: string, chatHistory: seq<Message>, input: string)

  /** How one model invocation ends: a reply, a quota (resource exhausted)
      error, or any other error. */
  datatype Outcome = Reply(text: string) | QuotaExceeded | Failed

  const QuotaFallback := "Looks like you have reached your limit. Please, return later."
  const OtherFallback := "Looks like something is wrong. Please, try again later."

  const UserRole := "user"
  const AssistantRole := "assistant"

  /** A user turn becomes a human message; a turn with any other role, an
      assistant message. */
  function MessageOf(t: Turn): Message {
    if t.role == UserRole then Human(t.content) else Ai(t.content)
  }

  /** The prior-turns list handed to the model: one message per turn, in
      transcript order, keeping each turn's text and its speaker. */
  function ToMessages(turns: seq<Turn>): (ms: seq<Message>)
    ensures |ms| == |turns|
    ensures forall i :: 0 <= i < |turns| ==>
      ms[i].content == turns[i].content && (ms[i].Human? <==> turns[i].role == UserRole)
  {
    if turns == [] then [] else [MessageOf(turns[0])] + ToMessages(turns[1..])
  }

  /** The text handed back to the caller for an outcome of the model call. */
  function ReplyText(o: Outcome): (r: string)
    ensures o.Reply? ==> r == o.text
    ensures o == QuotaExceeded ==> r == QuotaFallback
    ensures o == Failed ==> r == OtherFallback
  {
    match o
    case Reply(text) => text
    case QuotaExceeded => QuotaFallback
    case Failed => OtherFallback
  }

  datatype State = State(
    history: seq<Turn>,
    character: Option<Profile>,
    persona: Option<Profile>,
    info: string,
    bound: Option<string>)  // the system prompt of the bound model; None when no model is built

  /** The info is that of the active profiles, and a bound model uses the
      system prompt made from it. */
  predicate Coherent(s: State) {
    s.info == Compose(s.character, s.persona)
    && (s.bound.Some? ==> s.bound.value == SystemPrompt(s.info))
  }

  function New(character: Option<Profile>, persona: Option<Profile>): (s: State)
    ensures Coherent(s) && s.history == [] && s.bound == None
    ensures s.character == character && s.persona == persona
  {
    State([], character, persona, Compose(character, persona), None)
  }

  /** Building the model: it is bound to the current info. */
  function Bind(s: State): (t: State)
    ensures t.bound == Some(SystemPrompt(s.info))
    ensures t.history == s.history && t.character == s.character && t.persona == s.persona && t.info == s.info
    ensures s.info == Compose(s.character, s.persona) ==> Coherent(t)
  {
    s.(bound := Some(SystemPrompt(s.info)))
  }

  /** Appending one turn to the transcript. */
  function Append(s: State, role: string, content: string): (t: State)
    ensures t.history == s.history + [Turn(role, content)]
    ensures t.(history := s.history) == s
  {
    s.(history := s.history + [Turn(role, content)])
  }

  /** What one call of the session's response operation did. */
  datatype Exchange = Exchange(after: State, request: Request, outcome: Outcome, reply: string)

  /** One response: build the model if none is bound, record the user turn,
      send the earlier turns and the new message, and record the reply only
      when there is one. */
  function Respond(s: State, msg: string, invoke: Request -> Outcome): (x: Exchange)
    ensures x.after.character == s.character && x.after.persona == s.persona && x.after.info == s.info
    ensures x.after.bound == if s.bound.Some? then s.bound else Some(SystemPrompt(s.info))
    ensures x.request == Request(x.after.bound.value, ToMessages(s.history), msg)
    ensures x.outcome == invoke(x.request)
    ensures x.outcome.Reply? ==>
      x.reply == x.outcome.text
      && x.after.history == s.history + [Turn(UserRole, msg), Turn(AssistantRole, x.outcome.text)]
    ensures x.outcome == QuotaExceeded ==>
      x.reply == QuotaFallback && x.after.history == s.history + [Turn(UserRole, msg)]
    ensures x.outcome == Failed ==>
      x.reply == OtherFallback && x.after.history == s.history + [Turn(UserRole, msg)]
    ensures Coherent(s) ==> Coherent(x.after) && x.request.system == SystemPrompt(Compose(s.character, s.persona))
  {
    var ready := if s.bound.None? then Bind(s) else s;
    var logged := Append(ready, UserRole, msg);
    var request := Request(ready.bound.value, ToMessages(logged.history[..|logged.history| - 1]), msg);
    var outcome := invoke(request);
    var after := if outcome.Reply? then Append(logged, AssistantRole, outcome.text) else logged;
    Exchange(after, request, outcome, ReplyText(outcome))
  }

  /** Swapping the character: recompute the info and rebuild the model. */
  function UpdateCharacter(s: State, character: Option<Profile>): (t: State)
    ensures t.character == character && t.persona == s.persona && t.history == s.history
    ensures t.info == Compose(character, s.persona)
    ensures t.bound == Some(SystemPrompt(t.info))
    ensures Coherent(t)
  {
    var swapped := s.(character := character);
    Bind(swapped.(info := Compose(swapped.character, swapped.persona)))
  }

  /** Swapping the persona: recompute the info and rebuild the model. */
  function UpdatePersona(s: State, persona: Option<Profile>): (t: State)
    ensures t.persona == persona && t.character == s.character && t.history == s.history
    ensures t.info == Compose(s.character, persona)
    ensures t.bound == Some(SystemPrompt(t.info))
    ensures Coherent(t)
  {
    var swapped := s.(persona := persona);
    Bind(swapped.(info := Compose(swapped.character, swapped.persona)))
  }

  /** Emptying the transcript and nothing else. */
  function Clear(s: State): (t: State)
    ensures t.history == []
    ensures t.character == s.character && t.persona == s.persona && t.info == s.info && t.bound == s.bound
  {
    s.(history := [])
  }

  // ---------------------------------------------------------------------
  // Several calls in a row

  /** The session after answering each message in turn, with what each call did. */
  function Converse(s: State, msgs: seq<string>, invoke: Request -> Outcome): (r: (State, seq<Exchange>))
    ensures |r.1| == |msgs|
    decreases |msgs|
  {
    if msgs == [] then (s, [])
    else
      var x := Respond(s, msgs[0], invoke);
      var rest := Converse(x.after, msgs[1..], invoke);
      (rest.0, [x] + rest.1)
  }

  /** The turns one exchange leaves in the transcript. */
  function Logged(x: Exchange): seq<Turn> {
    [Turn(UserRole, x.request.input)]
    + (if x.outcome.Reply? then [Turn(AssistantRole, x.outcome.text)] else [])
  }

  function LoggedAll(xs: seq<Exchange>): seq<Turn> {
    if xs == [] then [] else Logged(xs[0]) + LoggedAll(xs[1..])
  }

  /** The transcript is a faithful log: after any run of calls it is the old
      transcript followed by, for each call in order, its user turn and, when
      the model replied, the reply. */
  lemma {:induction false} ConverseTranscript(s: State, msgs: seq<string>, invoke: Request -> Outcome)
    ensures var r := Converse(s, msgs, invoke);
      r.0.history == s.history + LoggedAll(r.1)
      && forall i :: 0 <= i < |msgs| ==>
        r.1[i].request.input == msgs[i]
        && (r.1[i].outcome.Reply? ==> r.1[i].reply == r.1[i].outcome.text)
    decreases |msgs|
  {
    if msgs != [] {
      var x := Respond(s, msgs[0], invoke);
      ConverseTranscript(x.after, msgs[1..], invoke);
      var r := Converse(s, msgs, invoke);
      assert r.1 == [x] + Converse(x.after, msgs[1..], invoke).1;
      assert r.1[1..] == Converse(x.after, msgs[1..], invoke).1;
      assert x.after.history == s.history + Logged(x);
      forall i | 1 <= i < |msgs|
        ensures r.1[i] == Converse(x.after, msgs[1..], invoke).1[i - 1] && msgs[i] == msgs[1..][i - 1]
      {
      }
    }
  }

  /** When every call of a run is answered, each call adds exactly two turns:
      call i leaves its message at offset 2i and its reply right after. */
  lemma {:induction false} LoggedAllReplied(xs: seq<Exchange>)
    requires forall i :: 0 <= i < |xs| ==> xs[i].outcome.Reply?
    ensures |LoggedAll(xs)| == 2 * |xs|
    ensures forall i :: 0 <= i < |xs| ==>
      LoggedAll(xs)[2 * i] == Turn(UserRole, xs[i].request.input)
      && LoggedAll(xs)[2 * i + 1] == Turn(AssistantRole, xs[i].outcome.text)
  {
    if xs != [] {
      LoggedAllReplied(xs[1..]);
      var tail := LoggedAll(xs[1..]);
      assert LoggedAll(xs) == Logged(xs[0]) + tail;
      forall i | 1 <= i < |xs|
        ensures LoggedAll(xs)[2 * i] == Turn(UserRole, xs[i].request.input)
        ensures LoggedAll(xs)[2 * i + 1] == Turn(AssistantRole, xs[i].outcome.text)
      {
        assert xs[1..][i - 1] == xs[i];
        assert LoggedAll(xs)[2 * i] == tail[2 * (i - 1)];
        assert LoggedAll(xs)[2 * i + 1] == tail[2 * (i - 1) + 1];
      }
    }
  }

  /** N calls that are all answered grow the transcript by 2N turns: the
      user's messages and the replies, alternating, in call order. */
  lemma {:induction false} ConverseAllReplied(s: State, msgs: seq<string>, invoke: Request -> Outcome)
    requires forall i :: 0 <= i < |msgs| ==> Converse(s, msgs, invoke).1[i].outcome.Reply?
    ensures var r := Converse(s, msgs, invoke);
      |r.0.history| == |s.history| + 2 * |msgs|
      && r.0.history[..|s.history|] == s.history
      && forall i :: 0 <= i < |msgs| ==>
        r.0.history[|s.history| + 2 * i] == Turn(UserRole, msgs[i])
        && r.0.history[|s.history| + 2 * i + 1] == Turn(AssistantRole, r.1[i].reply)
  {
    var r := Converse(s, msgs, invoke);
    ConverseTranscript(s, msgs, invoke);
    LoggedAllReplied(r.1);
    AppendedPairs(s.history, r.1, r.0.history);
  }

  lemma AppendedPairs(prefix: seq<Turn>, xs: seq<Exchange>, h: seq<Turn>)
    requires h == prefix + LoggedAll(xs)
    requires |LoggedAll(xs)| == 2 * |xs|
    requires forall i :: 0 <= i < |xs| ==> xs[i].outcome.Reply?
    requires forall i :: 0 <= i < |xs| ==>
      LoggedAll(xs)[2 * i] == Turn(UserRole, xs[i].request.input)
      && LoggedAll(xs)[2 * i + 1] == Turn(AssistantRole, xs[i].outcome.text)
    ensures |h| == |prefix| + 2 * |xs| && h[..|prefix|] == prefix
    ensures forall i :: 0 <= i < |xs| ==>
      h[|prefix| + 2 * i] == Turn(UserRole, xs[i].request.input)
      && h[|prefix| + 2 * i + 1] == Turn(AssistantRole, xs[i].outcome.text)
  {
    var n, log := |prefix|, LoggedAll(xs);
    forall i | 0 <= i < |xs|
      ensures h[n + 2 * i] == Turn(UserRole, xs[i].request.input)
      ensures h[n + 2 * i + 1] == Turn(AssistantRole, xs[i].outcome.text)
    {
      assert h[n + 2 * i] == log[2 * i];
      assert h[n + 2 * i + 1] == log[2 * i + 1];
    }
  }

  // ---------------------------------------------------------------------
  // Profile changes and clearing, seen from the next call

  /** After a character swap the next call is sent the system prompt of the
      new profiles, which names the new character, and the earlier
      transcript is kept in front of the new turns. */
  lemma {:induction false} NextCallAfterCharacterSwap(s: State, character: Option<Profile>, msg: string, invoke: Request -> Outcome)
    ensures var x := Respond(UpdateCharacter(s, character), msg, invoke);
      x.request.system == SystemPrompt(Compose(character, s.persona))
      && x.request.chatHistory == ToMessages(s.history)
      && |s.history| <= |x.after.history| && x.after.history[..|s.history|] == s.history
      && (Present(character) ==> Contains(x.request.system, CharacterHeadline(character.value)))
  {
    var x := Respond(UpdateCharacter(s, character), msg, invoke);
    SystemPromptNamesProfiles(character, s.persona);
    assert x.after.history[..|s.history|] == s.history;
  }

  /** After a persona swap the next call is sent the system prompt of the
      new profiles, which names the new persona, and the earlier transcript
      is kept in front of the new turns. */
  lemma {:induction false} NextCallAfterPersonaSwap(s: State, persona: Option<Profile>, msg: string, invoke: Request -> Outcome)
    ensures var x := Respond(UpdatePersona(s, persona), msg, invoke);
      x.request.system == SystemPrompt(Compose(s.character, persona))
      && x.request.chatHistory == ToMessages(s.history)
      && |s.history| <= |x.after.history| && x.after.history[..|s.history|] == s.history
      && (Present(persona) ==> Contains(x.request.system, PersonaHeadline(persona.value)))
  {
    var x := Respond(UpdatePersona(s, persona), msg, invoke);
    SystemPromptNamesProfiles(s.character, persona);
    assert x.after.history[..|s.history|] == s.history;
  }

  /** A swap that changes the info changes the system prompt the next call is sent. */
  lemma {:induction false} SwapChangesPrompt(s: State, character: Option<Profile>, msg: string, invoke: Request -> Outcome)
    requires Coherent(s)
    requires Compose(character, s.persona) != s.info
    ensures Respond(UpdateCharacter(s, character), msg, invoke).request.system
      != Respond(s, msg, invoke).request.system
  {
    var before := Respond(s, msg, invoke).request.system;
    var after := Respond(UpdateCharacter(s, character), msg, invoke).request.system;
    if before == after {
      SystemPromptInjective(Compose(character, s.persona), s.info);
    }
  }

  /** A persona swap that changes the info changes the system prompt the next call is sent. */
  lemma {:induction false} PersonaSwapChangesPrompt(s: State, persona: Option<Profile>, msg: string, invoke: Request -> Outcome)
    requires Coherent(s)
    requires Compose(s.character, persona) != s.info
    ensures Respond(UpdatePersona(s, persona), msg, invoke).request.system
      != Respond(s, msg, invoke).request.system
  {
    var before := Respond(s, msg, invoke).request.system;
    var after := Respond(UpdatePersona(s, persona), msg, invoke).request.system;
    if before == after {
      SystemPromptInjective(Compose(s.character, persona), s.info);
    }
  }

  /** After clearing, the next call is sent no earlier turns, whatever the
      transcript held, and keeps the bound model. */
  lemma ClearedCallSendsNoTurns(s: State, msg: string, invoke: Request -> Outcome)
    ensures var x := Respond(Clear(s), msg, invoke);
      x.request.chatHistory == [] && x.after.bound == (if s.bound.Some? then s.bound else Some(SystemPrompt(s.info)))
  {
  }
}
