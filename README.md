# Chat-session wrapper of a roleplay bot, in Dafny

This project models `LLMChat`, the class a roleplay chat bot uses to talk to a
large language model. A session holds three things:

- the transcript of the conversation, as a list of `{role, content}` turns;
- the active *character* and *persona* profiles (dictionaries with `id`, `name` and `prompt`);
- the *character info* text derived from those profiles.

On its first use the session builds a model client and binds it to a system prompt. That prompt is a fixed roleplay instruction, followed by a blank line and the character info when the info is not empty. On each user message the session records the user turn. It then sends the earlier turns to the model, each as a human or assistant message, with the new message as the input. A reply is recorded and returned. A quota error or any other error is turned into one of two fixed apology strings, and then only the user turn stays recorded. Swapping a profile recomputes the info and rebuilds the model; the transcript is kept. Clearing empties the transcript only.

The model has three modules:

- `Profiles` (`profiles.dfy`) holds the pure composer `Compose`, the exact base instruction `BaseInstruction`, and `SystemPrompt`. It also proves lemmas on the layout of the info block and on the system prompt. The prompt is injective in the info, and it names the active character and persona.
- `Session` (`session.dfy`) gives the session's state as a value `State` and each operation as a function over it (`Respond`, `UpdateCharacter`, `UpdatePersona`, `Clear`). `Converse` runs several calls in a row. The lemmas cover the transcript over a run of calls and what the call after a profile swap or a clear is sent.
- `Chat` (`chat.dfy`) holds the class `ChatSession`. Its fields are the ones the source updates in place. The built client is a `Chain` object, and the field holding it is `null` until the model is built. Every method is proved to move `State()` exactly as the matching `Session` function does. It also keeps `Valid()`: the info matches the profiles, and a bound model uses the current system prompt. A rebuild is a `fresh` chain, and a reuse is the same chain object.

The network call to the model is a parameter `invoke: Request -> Outcome`. It is an arbitrary function from what is sent (system prompt, prior messages, input) to `Reply(text)`, `QuotaExceeded` or `Failed`.

## Model

| member | source | states |
|---|---|---|
| `Profiles.ComposeEmptyIff` | LLM/llm.py:30-35 | the info is the empty string exactly when neither profile is given (absent or an empty dictionary) |
| `Profiles.ComposeCharacterFirst` | LLM/llm.py:30-35 | with both profiles given, the info is the character block `You are character: {name}. {prompt}\n` immediately followed by the persona block `User is persona: {name}. {prompt}` |
| `Profiles.ComposeParts` | LLM/llm.py:31-34 | a profile that is not given contributes nothing; with only one given, the info is exactly that profile's block |
| `Profiles.ComposeStartsWithCharacter` | LLM/llm.py:30-34 | the info starts with `You are character: ` if and only if a character is given |
| `Profiles.MissingFieldsAreEmpty` | LLM/llm.py:32-34 | each key is looked up on its own: a missing `name` leaves `You are character: . ` / `User is persona: . ` as the headline, a missing `prompt` leaves the block as its headline (plus `\n` for the character); a present key contributes its value to both blocks |
| `Profiles.SystemPromptShape` | LLM/llm.py:47-56 | the system prompt starts with the base instruction; it is the base instruction alone if and only if the info is empty, and otherwise the base instruction, `\n\n` and the info |
| `Profiles.InfoOfSystemPrompt` | LLM/llm.py:55-56 | the info can be read back out of the system prompt built from it |
| `Profiles.SystemPromptInjective` | LLM/llm.py:55-56 | different info blocks give different system prompts |
| `Profiles.SystemPromptContainsInfo` | LLM/llm.py:55-56 | any text occurring in the info occurs in the system prompt |
| `Profiles.SystemPromptNamesProfiles` | LLM/llm.py:30-56 | the system prompt contains `You are character: {name}. ` for a given character and `User is persona: {name}. ` for a given persona |
| `Session.ToMessages` | LLM/llm.py:84-91 | the prior-turns list has one message per turn, in transcript order, with the same text; a message is a human message if and only if its turn's role is `user` |
| `Session.ReplyText` | LLM/llm.py:93-101 | a reply is returned verbatim; a quota error gives the "reached your limit" string; any other error gives the "something is wrong" string |
| `Session.New` | LLM/llm.py:11-24 | a new session has an empty transcript, no model, the given profiles and the info composed from them |
| `Session.Bind` | LLM/llm.py:38-64 | building the model binds it to the system prompt of the current info and changes nothing else |
| `Session.Append` | LLM/llm.py:67-69 | adding to the history appends one turn at the end and changes nothing else |
| `Session.Respond` | LLM/llm.py:72-101 | the model is built only if none is bound, and a bound one is kept; the model is sent the transcript as it was before the call, in order, and the new message as input; on a reply the transcript gains the user turn and then the reply, and the reply is returned; on a quota error or another error it gains only the user turn, and the matching fixed string is returned; the profiles and the info are unchanged and coherence is kept |
| `Session.UpdateCharacter` | LLM/llm.py:105-109 | only the character is replaced; the info is recomputed from the new pair; the model is rebound to the new system prompt; the transcript is unchanged |
| `Session.UpdatePersona` | LLM/llm.py:112-116 | only the persona is replaced; the info is recomputed from the new pair; the model is rebound to the new system prompt; the transcript is unchanged |
| `Session.Clear` | LLM/llm.py:119-121 | the transcript becomes empty; the profiles, the info and the bound model are unchanged |
| `Session.ConverseTranscript` | LLM/llm.py:82-96 | after any run of calls the transcript is the old one followed by, per call in order, its user turn and, only when the model replied, the reply |
| `Session.ConverseAllReplied` | LLM/llm.py:82-96 | N calls that are all answered add exactly 2N turns: message i at offset 2i and its reply right after, with the earlier transcript kept in front |
| `Session.NextCallAfterCharacterSwap` | LLM/llm.py:105-109 | the call after a character swap is sent the system prompt of the new profiles, which names the new character, and the earlier transcript as prior turns; that transcript stays in front |
| `Session.NextCallAfterPersonaSwap` | LLM/llm.py:112-116 | the call after a persona swap is sent the system prompt of the new profiles, which names the new persona, and the earlier transcript as prior turns; that transcript stays in front |
| `Session.SwapChangesPrompt` | LLM/llm.py:105-109 | a character swap that changes the info changes the system prompt the next call is sent |
| `Session.PersonaSwapChangesPrompt` | LLM/llm.py:112-116 | a persona swap that changes the info changes the system prompt the next call is sent |
| `Session.ClearedCallSendsNoTurns` | LLM/llm.py:119-121 | the call after a clear is sent no prior turns and keeps the bound model |
| `Chat.Chain.constructor` | LLM/llm.py:40-64 | a built client carries the session's key, the model name `gemini-2.0-flash` and its system prompt |
| `Chat.ChatSession.constructor` | LLM/llm.py:11-24 | the new object is valid, its state is `Session.New` of the given profiles, and no model is built |
| `Chat.ChatSession.InitModel` | LLM/llm.py:38-64 | a fresh client is built with the session's key and the model name and bound to the current info's system prompt |
| `Chat.ChatSession.AddToHistory` | LLM/llm.py:67-69 | the history gains exactly the given turn at its end; no other field changes; validity is kept |
| `Chat.ChatSession.GetResponse` | LLM/llm.py:72-101 | the new state and the returned text are those of `Session.Respond`; an already-bound client object is reused, and a missing one is built fresh; validity is kept |
| `Chat.ChatSession.UpdateCharacter` | LLM/llm.py:105-109 | the new state is `Session.UpdateCharacter` of the old one; the client is rebuilt (fresh); validity is kept |
| `Chat.ChatSession.UpdatePersona` | LLM/llm.py:112-116 | the new state is `Session.UpdatePersona` of the old one; the client is rebuilt (fresh); validity is kept |
| `Chat.ChatSession.ClearHistory` | LLM/llm.py:119-121 | the new state is `Session.Clear` of the old one; only the history changes |

Three points about what the code does:

- A profile change rebuilds the model at once (eagerly), not lazily at the next call.
- The `\n` comes only after the character block. The persona block has no line break of its own.
- Any role other than `user` becomes an assistant message, not only `assistant`.

## Left out

- The model client and the chain invocation (`ChatGoogleGenerativeAI`, `ChatPromptTemplate`, `ainvoke`) are a network call into a third-party SDK. The model keeps what it is built with (key, model name, system prompt) and makes the call a parameter, `invoke`. The parameter has three outcomes, and the source's `ResourceExhausted` handler maps to `QuotaExceeded`.
- The `temperature=0.7` and `convert_system_message_to_human=True` settings are passed through to the SDK and carry no logic here.
- `self.llm` and `self.prompt`/`self.chain` are separate attributes in the source. Here one `Chain` object stands for the pair, because they are always set together.
- `async`/`await`: every method is a sequential method. Interleaving of two concurrent calls on one session is not modelled.
- Errors raised by building the model happen outside the `try`, so they propagate to the caller. The model does not represent them.
- Exceptions that do not derive from `Exception`, such as task cancellation, also escape both handlers. The model has no fourth outcome for them.
- Profile values are text. Python's formatting of a non-string `name` or `prompt` value is not modelled. The `id` is never read, and it only matters for whether the dictionary is empty.
- Profiles are held by value. The source keeps a reference to the caller's dictionary (the assignments at `LLM/llm.py` lines 22-23, 107 and 114), so if the caller later changed that dictionary in place, the stored profile would no longer match the info or the bound prompt until the next swap. The model does not capture that aliasing.
- Python truthiness of a profile is modelled as "present and not an empty dictionary". Other falsy values are not modelled.
- The history grows without bound, as in the source. There is no truncation policy to model.
