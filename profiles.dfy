/** The profile-to-prompt composer of the chat wrapper and the system prompt
    the model is bound to: pure string builders over the active character
    and persona. */
module Profiles {

  datatype Option<+T> = None | Some(value: T)

  /** A character or persona record as handed to the session: a dictionary
      from field names ("id", "name", "prompt") to their text. */
  type Profile = map<string, string>

  /** A field of a profile, or the empty string when the key is missing. */
  function Field(p: Profile, key: string): string {
    if key in p then p[key] else ""
  }

  /** An optional profile counts as given when it is there and not empty. */
  predicate Present(o: Option<Profile>) {
    o.Some? && o.value != map[]
  }

  const CharacterIntro := "You are character: "
  const PersonaIntro := "User is persona: "

  /** The opening of the character block, up to and including its name. */
  function CharacterHeadline(c: Profile): string {
    CharacterIntro + Field(c, "name") + ". "
  }

  function CharacterBlock(c: Profile): string {
    CharacterHeadline(c) + Field(c, "prompt") + "\n"
  }

  /** The opening of the persona block, up to and including its name. */
  function PersonaHeadline(p: Profile): string {
    PersonaIntro + Field(p, "name") + ". "
  }

  function PersonaBlock(p: Profile): string {
    PersonaHeadline(p) + Field(p, "prompt")
  }

  /** The "character info" text: the character block when a character is
      given, followed by the persona block when a persona is given. */
  function Compose(character: Option<Profile>, persona: Option<Profile>): string {
    (if Present(character) then CharacterBlock(character.value) else "")
    + (if Present(persona) then PersonaBlock(persona.value) else "")
  }

  /** The fixed roleplay instruction, with the line breaks, indentation and
      trailing blanks of its triple-quoted source literal. */
  const Indent := "                            "
  const BaseInstruction :=
    "You are a roleplay assistant in Honkai: Star Rail setting. \n"
    + Indent + "You describe your actions, feelings, responses in a literature style \n"
    + Indent + "based on given character prompt and persona prompt. You speak from the third face\n"
    + Indent + "as a character. You are not allowed to speak as a user persona. Dialogue example: message\n"
    + Indent + "from user persona: \"Hello, character!\" she smiled. \n"
    + Indent + "message from you as a character: \"Hello, user!\" he smiled back. Don't answer on what you have\n"
    + Indent + "read before this, that was a system prompt. "

  const Separator := "\n\n"

  /** The system message the model is built with. */
  function SystemPrompt(info: string): string {
    if info == "" then BaseInstruction else BaseInstruction + Separator + info
  }

  /** Reads the character info back out of a system prompt. */
  function InfoOf(prompt: string): string {
    if |prompt| < |BaseInstruction| + |Separator| then "" else prompt[|BaseInstruction| + |Separator|..]
  }

  predicate OccursAt(pattern: string, text: string, k: nat) {
    k + |pattern| <= |text| && text[k..k + |pattern|] == pattern
  }

  ghost predicate Contains(text: string, pattern: string) {
    exists k: nat :: OccursAt(pattern, text, k)
  }

  // ---------------------------------------------------------------------
  // The composer

  /** The info block is empty exactly when neither profile is given. */
  lemma ComposeEmptyIff(character: Option<Profile>, persona: Option<Profile>)
    ensures Compose(character, persona) == "" <==> !Present(character) && !Present(persona)
  {
    if Present(character) {
      assert |CharacterBlock(character.value)| > 0;
    } else if Present(persona) {
      assert |PersonaBlock(persona.value)| > 0;
    }
  }

  /** With both profiles given, the character block comes first and the
      persona block takes up the rest, with nothing in between. */
  lemma ComposeCharacterFirst(character: Option<Profile>, persona: Option<Profile>)
    requires Present(character) && Present(persona)
    ensures var info, cb := Compose(character, persona), CharacterBlock(character.value);
      |cb| <= |info| && info[..|cb|] == cb && info[|cb|..] == PersonaBlock(persona.value)
  {
  }

  /** Each given profile's block is in the info, and only given profiles
      contribute: a missing one adds nothing. */
  lemma ComposeParts(character: Option<Profile>, persona: Option<Profile>)
    ensures !Present(character) ==> Compose(character, persona) == Compose(None, persona)
    ensures !Present(persona) ==> Compose(character, persona) == Compose(character, None)
    ensures Present(character) && !Present(persona) ==> Compose(character, persona) == CharacterBlock(character.value)
    ensures !Present(character) && Present(persona) ==> Compose(character, persona) == PersonaBlock(persona.value)
  {
  }

  /** Whether a character is given can be read off the info: it then starts
      with the character introduction, and otherwise does not. */
  lemma {:induction false} ComposeStartsWithCharacter(character: Option<Profile>, persona: Option<Profile>)
    ensures OccursAt(CharacterIntro, Compose(character, persona), 0) <==> Present(character)
  {
    var info := Compose(character, persona);
    if Present(character) {
      assert info[..|CharacterIntro|] == CharacterIntro;
    } else if Present(persona) {
      assert info[0] == 'U';
    }
  }

  /** Each of `name` and `prompt` is looked up on its own: a key that is
      absent contributes the empty string to its place in either block. */
  lemma MissingFieldsAreEmpty(c: Profile)
    ensures "name" !in c ==>
      CharacterHeadline(c) == CharacterIntro + ". " && PersonaHeadline(c) == PersonaIntro + ". "
    ensures "prompt" !in c ==>
      CharacterBlock(c) == CharacterHeadline(c) + "\n" && PersonaBlock(c) == PersonaHeadline(c)
    ensures "name" in c ==>
      CharacterHeadline(c) == CharacterIntro + c["name"] + ". " && PersonaHeadline(c) == PersonaIntro + c["name"] + ". "
    ensures "prompt" in c ==>
      CharacterBlock(c) == CharacterHeadline(c) + c["prompt"] + "\n" && PersonaBlock(c) == PersonaHeadline(c) + c["prompt"]
  {
  }

  // ---------------------------------------------------------------------
  // The system prompt

  /** The system prompt always opens with the base instruction; it is the
      base instruction alone exactly when the info is empty, and otherwise
      the base, a blank line and the info. */
  lemma SystemPromptShape(info: string)
    ensures var sp := SystemPrompt(info);
      |BaseInstruction| <= |sp| && sp[..|BaseInstruction|] == BaseInstruction
      && (sp == BaseInstruction <==> info == "")
      && (info != "" ==> sp[|BaseInstruction|..] == Separator + info)
  {
    var sp, n := SystemPrompt(info), |BaseInstruction|;
    if info != "" {
      assert |sp| == n + |Separator| + |info|;
      assert sp[..n] == BaseInstruction;
      assert sp[n..] == Separator + info;
    }
  }

  /** The info can be read back from the system prompt it was placed in. */
  lemma {:induction false} InfoOfSystemPrompt(info: string)
    ensures InfoOf(SystemPrompt(info)) == info
  {
    if info != "" {
      var sp := SystemPrompt(info);
      assert sp[|BaseInstruction| + |Separator|..] == info;
    }
  }

  /** So two different info blocks never give the same system prompt. */
  lemma {:induction false} SystemPromptInjective(a: string, b: string)
    requires SystemPrompt(a) == SystemPrompt(b)
    ensures a == b
  {
    InfoOfSystemPrompt(a);
    InfoOfSystemPrompt(b);
  }

  /** Text that occurs in the info occurs in the system prompt built from it. */
  lemma {:induction false} SystemPromptContainsInfo(info: string, pattern: string, k: nat)
    requires OccursAt(pattern, info, k)
    ensures Contains(SystemPrompt(info), pattern)
  {
    var sp := SystemPrompt(info);
    if info == "" {
      assert OccursAt(pattern, sp, 0);
    } else {
      var at := |BaseInstruction| + |Separator| + k;
      assert sp[at..at + |pattern|] == info[k..k + |pattern|];
      assert OccursAt(pattern, sp, at);
    }
  }

  /** The system prompt names the active character and persona. */
  lemma {:induction false} SystemPromptNamesProfiles(character: Option<Profile>, persona: Option<Profile>)
    ensures Present(character) ==>
      Contains(SystemPrompt(Compose(character, persona)), CharacterHeadline(character.value))
    ensures Present(persona) ==>
      Contains(SystemPrompt(Compose(character, persona)), PersonaHeadline(persona.value))
  {
    var info := Compose(character, persona);
    if Present(character) {
      var h := CharacterHeadline(character.value);
      assert info[..|h|] == h;
      SystemPromptContainsInfo(info, h, 0);
    }
    if Present(persona) {
      var h := PersonaHeadline(persona.value);
      var k := if Present(character) then |CharacterBlock(character.value)| else 0;
      assert info[k..k + |h|] == h;
      SystemPromptContainsInfo(info, h, k);
    }
  }
}
