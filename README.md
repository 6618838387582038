# Dobby tweet-drafting bot: a verified model of its text logic

The Dobby bot is a Telegram chat bot. It answers `/dobby <topic>` with three
tweet drafts that a language model writes. Each chat can pick a tone with
`/style <tone>`. This project models in Dafny the part of `index.js` that is
logic and not I/O, and proves properties of it:

- `text.dfy` (module `Text`): the JavaScript string operations the bot relies
  on. These are `trim`, `toLowerCase`, `split('\n')` and `join`. Trimming uses
  an explicit whitespace predicate: the JavaScript WhiteSpace and
  LineTerminator characters, which are also what the regular-expression class
  `\s` matches.
- `parse.dfy` (module `Parse`): `clamp` and the post-processing of the
  completion text from `generateTweets`. It covers the line split, the
  sentence-split fallback (a regular-expression split after periods), the choice between the two,
  and the placeholder.
- `tone.dfy` (module `Tone`): the three tones, `DEFAULT_TONE`,
  `toneInstruction`, and the system and user prompts.
- `bot.dfy` (module `Bot`): the `tones` map as the class `ToneStore`. The
  `/style` handler is a method that updates the map. The `/dobby` handler is a
  function of the store, the captured argument and the completion service.

The sentence split is defined as a cut at every maximal run of whitespace
whose preceding character is a period; the period stays with the left piece.
This matches the regular expression: the lookbehind sees the whole text, and
`\s+` is greedy. The completion service is a parameter
`complete: Request -> Completion`. `Failed` stands for a rejected call;
`Completed(content)` carries the first choice's content, with `""` when the
response has none. The default tone is a constructor argument: the
configured value, or the empty string when it is unset.

## Model

| member | source | states |
|---|---|---|
| Parse.Clamp | index.js:20 | at most 240 characters; a string of at most 240 is unchanged; a longer one keeps its first 237 characters and ends in "..." with length exactly 240; empty only when the input is empty; a trailing period survives |
| Parse.ClampIdempotent | index.js:20 | clamping a clamped string changes nothing |
| Text.TrimStartSpec | index.js:66 | the leading trim removes a whitespace prefix and nothing else; what is left does not start with whitespace |
| Text.TrimEndSpec | index.js:66 | the trailing trim removes a whitespace suffix and nothing else; what is left does not end with whitespace |
| Text.TrimSlice | index.js:66 | `trim` returns a contiguous slice of the input; only whitespace lies before and after it; the slice neither starts nor ends with whitespace |
| Text.TrimEmptyIff | index.js:66 | the trimmed text is empty if and only if the input is all whitespace |
| Text.TrimIdempotent | index.js:69 | trimming twice equals trimming once |
| Text.TrimPadded | index.js:94 | trimming a clean word wrapped in whitespace gives the word back |
| Text.ToLower | index.js:94 | same length; each character is lowercased on its own |
| Text.ToLowerIdempotent | index.js:43 | lowercasing twice equals lowercasing once |
| Text.SplitLinesJoin | index.js:68 | joining the pieces of `split('\n')` with newlines gives back the text |
| Text.SplitLinesNoNewline | index.js:68 | no piece of `split('\n')` contains a newline |
| Text.JoinSplitLines | index.js:68 | splitting newline-free lines that were joined with newlines gives back the lines |
| Text.JoinLength | index.js:118 | a join adds exactly one separator between neighbouring pieces |
| Text.JoinAppend | index.js:118 | joining two non-empty lists is joining each, with one separator between them |
| Text.JoinPlace | index.js:118 | piece k of a join starts after the earlier pieces and one separator per earlier piece, and a separator follows it unless it is the last |
| Text.JoinPlaces | index.js:118 | after any prefix, every piece of a join sits at that offset shifted by the prefix length, in order, with separators between |
| Parse.Candidates | index.js:69-70 | the trim-and-filter step yields no more pieces than it got, and none of them is empty |
| Parse.CandidatesAppend | index.js:69-70 | trim-and-filter works piece by piece: it distributes over concatenation |
| Parse.CandidatesSingle | index.js:69-70 | a piece survives exactly when it is not all whitespace, and it survives trimmed |
| Parse.FirstThreeClamped | index.js:71-72 | taking three and clamping gives min(3, n) options; option k is candidate k clamped |
| Parse.Options | index.js:67-72 | one strategy yields at most three options, each non-empty and at most 240 characters |
| Parse.SentenceSplitRebuild | index.js:75 | putting the dropped separators back between the sentence pieces gives the text; every separator is a non-empty whitespace run |
| Parse.SentenceSplitShape | index.js:75 | every piece but the last ends with its period; no piece contains a period followed by whitespace; no piece after a separator starts with whitespace |
| Parse.SentenceSplitSingleIff | index.js:75 | the text is one piece if and only if it holds no period followed by whitespace |
| Parse.SentenceSplitCons | index.js:75 | a sentence ending in a period and then whitespace is split off as the first piece, and the whitespace is dropped |
| Parse.CandidatesKeepPeriods | index.js:75 | when all pieces but the last end in a period, all candidates but the last do too |
| Parse.ParseOptions | index.js:66-78 | the result always has one to three options, each non-empty and at most 240 characters |
| Parse.LinesWin | index.js:67-74 | with at least three non-blank lines, the result is the first three trimmed lines, clamped and in order |
| Parse.SentencesWin | index.js:74-76 | fewer than three line options and at least two sentence options: the sentence options are returned, and all but the last end with a period |
| Parse.LinesKept | index.js:74-77 | one or two line options and fewer than two sentence options: the line options are returned |
| Parse.BlankGivesPlaceholder | index.js:66-78 | empty or whitespace-only text gives exactly the placeholder option |
| Parse.NonBlankNeverPlaceholder | index.js:66-78 | text that is not blank has at least one line option, so the result comes from the line split or the sentence split |
| Parse.CandidatesOfClean | index.js:69-70 | non-empty pieces that are already trimmed pass the filter unchanged |
| Parse.ThreeLinesScenario | index.js:67-74 | three clean lines of at most 240 characters give exactly those lines |
| Parse.TwoLineOptions | index.js:67-72 | two clean lines give two line options |
| Parse.ThreeSentenceOptions | index.js:75 | three clean sentences separated by whitespace give three sentence options |
| Parse.SentencesBeatTwoLines | index.js:74-76 | two lines, the first holding two sentences: the line split has two options, yet the three sentences are returned |
| Parse.ThreeSentenceLines | index.js:66-78 | the completion "A.\nB.\nC." gives the options "A.", "B.", "C." |
| Tone.DefaultTone | index.js:8 | never empty; "explanatory" when nothing is configured; otherwise exactly the configured value lowercased; always already lowercase |
| Tone.ToneInstruction | index.js:42-51 | the result is always one of the three fixed clauses |
| Tone.ClausesDistinct | index.js:44-49 | the three clauses are different texts |
| Tone.ToneInstructionCases | index.js:42-51 | the serious clause if and only if the effective lowercased tone is "serious"; the meme clause if and only if it is "meme"; the explanatory clause for every other value; an empty tone falls back to the default |
| Tone.ToneInstructionOfTone | index.js:44-49 | each of the three tones selects its own clause, whatever the default |
| Tone.ToneInstructionIgnoresCase | index.js:43 | the clause does not depend on the letter case of the tone |
| Tone.EmptyToneUsesDefault | index.js:43 | an empty tone gives the clause of the default tone |
| Tone.SystemPrompt | index.js:54 | the system prompt is the fixed base, a newline, then the tone clause |
| Tone.UserPrompt | index.js:55 | the prompt is the fixed request head, the topic verbatim, then the fixed request tail |
| Tone.UserPromptInjective | index.js:55 | different topics give different user prompts |
| Bot.ClassifyStyle | index.js:94-102 | on the trimmed, lowercased argument: help if and only if it is empty; rejected if and only if it is non-empty and not a tone, naming that value; accepted if and only if it is one of the three tones |
| Bot.RejectReplyNamesValue | index.js:100 | the unknown-tone error contains the rejected value |
| Bot.ClassifyAcceptsTones | index.js:94-103 | a tone word in any letter case, surrounded by any whitespace, is accepted and recorded in lower case |
| Bot.DobbyRequest | index.js:53-55 | the request carries the system prompt for the tone and the user prompt for the topic |
| Bot.FormatDrafts | index.js:118 | the reply starts with the header naming the tone; after it come the options in order, each at its offset and separated by one blank line; its length is the header, the options and the separators, so nothing else is in it |
| Bot.ToneStore.constructor | index.js:8-18 | an empty map, a valid store, and the default tone taken from the configuration |
| Bot.ToneStore.ResolveTone | index.js:114 | the chat's stored tone when there is one (always one of the three tones), otherwise the default; never empty |
| Bot.ToneStore.HandleStyle | index.js:92-105 | keeps the invariant that only the three tones are stored; help and rejection leave the map unchanged; acceptance sets only this chat's entry; no other chat's resolved tone changes; the reply matches the outcome |
| Bot.ToneStore.BeginDobby | index.js:107-114 | usage if and only if the trimmed topic is empty; otherwise the chat's resolved tone and the request built from the trimmed topic and that tone |
| Bot.ToneStore.HandleDobby | index.js:107-124 | usage for an empty topic; the fixed apology when the completion service fails; otherwise the drafts reply for the resolved tone and the options parsed from the completion text, which starts with the header naming that tone |
| Bot.DraftsOfThree | index.js:118 | the options "A.", "B.", "C." are sent as the header then "A.\n\nB.\n\nC." |
| Bot.DobbyThreeSentences | index.js:107-124 | a completion "A.\nB.\nC." makes `/dobby` reply with the header for the chat's tone then exactly "A.", "B.", "C." separated by blank lines |
| Bot.StyleThenDobby | index.js:103-117 | after `/style meme` in a chat, `/dobby` in that chat uses the meme tone and sends the meme clause, whatever the configured default |

## Left out

- Telegram client: bot construction, polling, `onText` registration, `sendMessage`, `sendChatAction` (index.js:2, 15, 81-126). These are I/O through a foreign library. The handlers receive the argument their pattern captured, and return the text they would send.
- `/start`, `/help` and `/ping` (index.js:81-90, 126): they send fixed texts and touch no state.
- Argument extraction by the command regular expressions (index.js:92, 107). The captured text is a parameter; an absent capture is the empty string.
- OpenAI client and call (index.js:3, 16, 57-64): a network request whose behaviour cannot be seen. It is the `complete` parameter. The model name and `temperature: 0.85` are not modelled.
- Environment loading, the credential check and `process.exit` (index.js:1, 5-7, 10-13): startup I/O. Only the default tone (index.js:8) is modelled.
- `async`/`await`, `console.error` and `console.log` (index.js:116-123, 127). Generation failure is the `Failed` completion, which maps to the fixed apology. A failure of `sendMessage` inside the `try` also leads to the apology in the source; that path is not modelled.
- Text.ToLower: only the ASCII letters A-Z are lowercased. JavaScript's `toLowerCase` also maps other Unicode letters.
- Lengths count characters (Unicode scalar values). JavaScript counts UTF-16 code units, so a clamp could split a surrogate pair there. That is not modelled.
