/**
  Tones and prompt assembly (index.js:8, 32-55): the three tone labels, the
  default tone read from the configuration, the tone clause appended to the
  system prompt, and the user prompt built around the topic.
 */
module Tone {
  import opened Text

  const Serious: string := "serious"
  const Explanatory: string := "explanatory"
  const Meme: string := "meme"

  const SeriousClause: string := "Tone: serious, concise, direct. No hype, just signal."
  const MemeClause: string := "Tone: meme-forward, punchy phrasing, but still clear. No emojis unless asked."
  const ExplanatoryClause: string := "Tone: explanatory, crisp, slightly bold; CT-friendly."

  /** The fixed persona and rules at the head of every system prompt. */
  const SystemBase: string :=
    "\nYou are Dobby, a witty CT-native mascot co-writing with @sscorpy_.\n"
    + "Output exactly THREE tweet options, each on its own line, no numbering or bullets.\n"
    + "Rules:\n"
    + "1) Max 240 characters per option (keep it tight).\n"
    + "2) No emojis unless the user explicitly asks.\n"
    + "3) Make it sharp, readable, non-generic; avoid filler and clich\U{00E9}s.\n"
    + "4) Leverage the chosen tone, but keep Dobby's confident, technical-curious vibe.\n"

  const UserPromptHead: string := "Write 3 tweet options about: \""
  const UserPromptTail: string :=
    "\". Return ONLY the three options separated by newlines. No headers, no extra text."

  /** The closed set of tones a chat may choose. */
  predicate IsTone(t: string) {
    t == Serious || t == Explanatory || t == Meme
  }

  /** `DEFAULT_TONE`: the configured tone, or "explanatory" when none is
      configured, lowercased. The configured value is not checked against the
      three tones. */
  function DefaultTone(configured: string): (d: string)
    ensures d != []
    ensures configured == [] ==> d == Explanatory
    ensures configured != [] ==> d == ToLower(configured) && |d| == |configured|
    ensures d == ToLower(d)
  {
    var d := ToLower(if configured == [] then Explanatory else configured);
    ToLowerIdempotent(if configured == [] then Explanatory else configured);
    d
  }

  /** `toneInstruction`: the clause for the given tone, or for `defaultTone`
      when the given tone is empty, compared case-insensitively. */
  function ToneInstruction(tone: string, defaultTone: string): (clause: string)
    ensures clause == SeriousClause || clause == MemeClause || clause == ExplanatoryClause
  {
    var t := ToLower(if tone == [] then defaultTone else tone);
    if t == Serious then SeriousClause
    else if t == Meme then MemeClause
    else ExplanatoryClause
  }

  /** The three clauses are different texts. */
  lemma ClausesDistinct()
    ensures SeriousClause != MemeClause && MemeClause != ExplanatoryClause
    ensures SeriousClause != ExplanatoryClause
  {
  }

  /** The serious clause exactly for "serious", the meme clause exactly for
      "meme", the explanatory clause for every other effective tone (after the
      fallback to the default and lowercasing). */
  lemma ToneInstructionCases(tone: string, defaultTone: string)
    ensures var t := ToLower(if tone == [] then defaultTone else tone);
      && (ToneInstruction(tone, defaultTone) == SeriousClause <==> t == Serious)
      && (ToneInstruction(tone, defaultTone) == MemeClause <==> t == Meme)
      && (ToneInstruction(tone, defaultTone) == ExplanatoryClause <==> t != Serious && t != Meme)
  {
  }

  /** Each of the three tones selects its own clause, whatever the default. */
  lemma ToneInstructionOfTone(t: string, defaultTone: string)
    requires IsTone(t)
    ensures t == Serious ==> ToneInstruction(t, defaultTone) == SeriousClause
    ensures t == Meme ==> ToneInstruction(t, defaultTone) == MemeClause
    ensures t == Explanatory ==> ToneInstruction(t, defaultTone) == ExplanatoryClause
  {
  }

  /** The clause does not depend on the letter case of the tone. */
  lemma ToneInstructionIgnoresCase(tone: string, defaultTone: string)
    ensures ToneInstruction(ToLower(tone), defaultTone) == ToneInstruction(tone, defaultTone)
  {
  }

  /** An empty tone falls back to the default tone. */
  lemma EmptyToneUsesDefault(defaultTone: string)
    ensures ToneInstruction([], defaultTone) == ToneInstruction(defaultTone, defaultTone)
  {
  }

  /** The system prompt: the fixed base, a newline, then the tone clause. */
  function SystemPrompt(tone: string, defaultTone: string): (p: string)
    ensures |p| > |SystemBase| && p[..|SystemBase|] == SystemBase && p[|SystemBase|] == '\n'
    ensures p[|SystemBase| + 1..] == ToneInstruction(tone, defaultTone)
  {
    SystemBase + "\n" + ToneInstruction(tone, defaultTone)
  }

  /** The user prompt: asks for three newline-separated options about the
      topic, which appears verbatim between double quotes. */
  function UserPrompt(topic: string): (p: string)
    ensures |p| == |UserPromptHead| + |topic| + |UserPromptTail|
    ensures p[..|UserPromptHead|] == UserPromptHead
    ensures p[|UserPromptHead|..|UserPromptHead| + |topic|] == topic
    ensures p[|UserPromptHead| + |topic|..] == UserPromptTail
  {
    UserPromptHead + topic + UserPromptTail
  }

  /** Different topics give different user prompts. */
  lemma UserPromptInjective(a: string, b: string)
    requires UserPrompt(a) == UserPrompt(b)
    ensures a == b
  {
  }
}
