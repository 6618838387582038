/**
  The per-chat tone store and the two command handlers that use it
  (index.js:18, 92-124): `/style` validates a tone and records it for the chat,
  `/dobby` resolves the chat's tone, builds the request for the completion
  service and formats the parsed options into the reply.

  The messaging client is not modelled: a handler receives the chat id and the
  text its command pattern captured (empty when nothing was captured), and
  returns the reply text it would send. The completion service is a function
  from request to completion that the caller supplies.
 */
module Bot {
  import opened Text
  import opened Parse
  import opened Tone

  /** Telegram chat ids are integers. */
  type ChatId = int

  const StyleHelp: string :=
    "Choose a tone for Dobby:\n- serious\n- explanatory\n- meme\n\n"
    + "Usage:\n/style serious\n/style explanatory\n/style meme"
  const UnknownToneHead: string := "Unknown tone \""
  const UnknownToneTail: string := "\". Valid: serious, explanatory, meme"
  const DobbyUsage: string :=
    "Usage:\n/dobby <topic>\n\nExample:\n/dobby Why ROMA + Dobby qualifies for Sentient AGI"
  const Apology: string := "Dobby tripped on a robe. Try again soon."
  const DraftsSeparator: string := "\n\n"

  /** What `/style` decided about its argument. */
  datatype StyleOutcome =
    | ShowStyleHelp
    | RejectTone(given: string)
    | AcceptTone(tone: string)

  /** The `/style` argument, trimmed and lowercased, sorted into the three outcomes. */
  function ClassifyStyle(arg: string): (o: StyleOutcome)
    ensures var t := ToLower(Trim(arg));
      && (o == ShowStyleHelp <==> t == [])
      && (o.RejectTone? <==> t != [] && !IsTone(t))
      && (o.AcceptTone? <==> IsTone(t))
      && (o.RejectTone? ==> o.given == t)
      && (o.AcceptTone? ==> o.tone == t)
  {
    var t := ToLower(Trim(arg));
    if t == [] then ShowStyleHelp
    else if !IsTone(t) then RejectTone(t)
    else AcceptTone(t)
  }

  /** The reply `/style` sends for each outcome. */
  function StyleReply(o: StyleOutcome): string {
    match o
    case ShowStyleHelp => StyleHelp
    case RejectTone(t) => UnknownToneHead + t + UnknownToneTail
    case AcceptTone(t) => "Tone set to " + t + " for this chat."
  }

  /** The error for an unknown tone names the value the user gave. */
  lemma RejectReplyNamesValue(t: string)
    ensures var r := StyleReply(RejectTone(t));
      |r| >= |UnknownToneHead| + |t| && r[|UnknownToneHead|..|UnknownToneHead| + |t|] == t
  {
  }

  /** A tone word is accepted in any letter case and with any surrounding
      whitespace, and it is recorded in lower case. */
  lemma ClassifyAcceptsTones(before: string, word: string, after: string)
    requires AllSpace(before) && AllSpace(after)
    requires IsTone(ToLower(word))
    ensures ClassifyStyle(before + word + after) == AcceptTone(ToLower(word))
  {
    var t := ToLower(word);
    assert LowerChar(word[0]) == t[0] && LowerChar(word[|word| - 1]) == t[|t| - 1];
    TrimPadded(before, word, after);
  }

  /** A request to the completion service. */
  datatype Request = Request(system: string, user: string)

  /** What the completion service gives back: a failure (a thrown error), or
      the content of the first choice, empty when the response carries none. */
  datatype Completion = Failed | Completed(content: string)

  /** The request `/dobby` sends for a topic in a tone. */
  function DobbyRequest(topic: string, tone: string, defaultTone: string): (req: Request)
    ensures req.system == SystemPrompt(tone, defaultTone)
    ensures req.user == UserPrompt(topic)
  {
    Request(SystemPrompt(tone, defaultTone), UserPrompt(topic))
  }

  function DraftsHeader(tone: string): string {
    "Dobby drafts (" + tone + "):\n\n"
  }

  /** The reply listing the options: a header naming the tone, then the options
      separated by blank lines. */
  function FormatDrafts(tone: string, options: seq<string>): (r: string)
    requires options != []
    ensures |r| == |DraftsHeader(tone)| + SumLengths(options) + (|options| - 1) * |DraftsSeparator|
    ensures r[..|DraftsHeader(tone)|] == DraftsHeader(tone)
    ensures forall k :: 0 <= k < |options| ==>
      var off := |DraftsHeader(tone)| + JoinOffset(options, DraftsSeparator, k);
      && off + |options[k]| <= |r|
      && r[off..off + |options[k]|] == options[k]
      && (k < |options| - 1 ==>
            off + |options[k]| + |DraftsSeparator| <= |r|
            && r[off + |options[k]|..off + |options[k]| + |DraftsSeparator|] == DraftsSeparator)
  {
    JoinLength(options, DraftsSeparator);
    JoinPlaces(DraftsHeader(tone), options, DraftsSeparator);
    DraftsHeader(tone) + Join(options, DraftsSeparator)
  }

  /** What `/dobby` does before the completion service answers. */
  datatype DobbyStep =
    | ShowUsage
    | Generate(tone: string, request: Request)

  /** The tone store: the `tones` map from chat id to tone, and the default tone. */
  class ToneStore {
    var tones: map<ChatId, string>
    const defaultTone: string

    /** Only the three tones are ever stored, and the default is not empty. */
    ghost predicate Valid()
      reads this
    {
      && defaultTone != []
      && forall c :: c in tones ==> IsTone(tones[c])
    }

    /** An empty store; `configured` is the configured default tone, empty when unset. */
    constructor (configured: string)
      ensures Valid()
      ensures tones == map[]
      ensures defaultTone == DefaultTone(configured)
    {
      tones := map[];
      defaultTone := DefaultTone(configured);
    }

    /** The chat's stored tone when it has a non-empty one, else the default tone. */
    function ResolveTone(chat: ChatId): (t: string)
      reads this
      ensures Valid() && chat in tones ==> t == tones[chat] && IsTone(t)
      ensures chat !in tones ==> t == defaultTone
      ensures Valid() ==> t != []
    {
      if chat in tones && tones[chat] != [] then tones[chat] else defaultTone
    }

    /** The `/style` handler. */
    method HandleStyle(chat: ChatId, arg: string) returns (outcome: StyleOutcome, reply: string)
      requires Valid()
      modifies this
      ensures Valid()
      ensures outcome == ClassifyStyle(arg) && reply == StyleReply(outcome)
      ensures tones == if outcome.AcceptTone? then old(tones)[chat := outcome.tone] else old(tones)
      ensures outcome.AcceptTone? ==> ResolveTone(chat) == outcome.tone
      ensures !outcome.AcceptTone? ==> ResolveTone(chat) == old(ResolveTone(chat))
      ensures forall c :: c != chat ==> ResolveTone(c) == old(ResolveTone(c))
    {
      outcome := ClassifyStyle(arg);
      if outcome.AcceptTone? {
        tones := tones[chat := outcome.tone];
      }
      reply := StyleReply(outcome);
    }

    /** The first half of the `/dobby` handler: usage for an empty topic,
        otherwise the chat's tone and the request for the completion service. */
    function BeginDobby(chat: ChatId, arg: string): (step: DobbyStep)
      reads this
      ensures step == ShowUsage <==> Trim(arg) == []
      ensures step.Generate? ==>
        && step.tone == ResolveTone(chat)
        && step.request == DobbyRequest(Trim(arg), ResolveTone(chat), defaultTone)
    {
      var topic := Trim(arg);
      if topic == [] then ShowUsage
      else
        var tone := ResolveTone(chat);
        Generate(tone, DobbyRequest(topic, tone, defaultTone))
    }

    /** The whole `/dobby` handler, given the completion service's behaviour. */
    function HandleDobby(chat: ChatId, arg: string, complete: Request -> Completion): (reply: string)
      reads this
      ensures Trim(arg) == [] ==> reply == DobbyUsage
      ensures Trim(arg) != [] ==>
        var step := BeginDobby(chat, arg);
        match complete(step.request)
        case Failed => reply == Apology
        case Completed(text) =>
          && reply == FormatDrafts(step.tone, ParseOptions(text))
          && |reply| >= |DraftsHeader(step.tone)|
          && reply[..|DraftsHeader(step.tone)|] == DraftsHeader(step.tone)
    {
      match BeginDobby(chat, arg)
      case ShowUsage => DobbyUsage
      case Generate(tone, request) =>
        match complete(request)
        case Failed => Apology
        case Completed(text) => FormatDrafts(tone, ParseOptions(text))
    }
  }

  /** The drafts reply for the options "A.", "B.", "C.". */
  lemma DraftsOfThree(tone: string, options: seq<string>)
    requires options == ["A.", "B.", "C."]
    ensures FormatDrafts(tone, options) == DraftsHeader(tone) + "A.\n\nB.\n\nC."
  {
    assert options[1..][1..] == ["C."];
    assert Join(options[1..], DraftsSeparator) == "B." + DraftsSeparator + "C.";
  }

  /** A completion reading "A.\nB.\nC." makes `/dobby` reply with the header
      for the chat's tone and the three options "A.", "B.", "C." separated by
      blank lines. */
  lemma DobbyThreeSentences(store: ToneStore, chat: ChatId, arg: string,
                            complete: Request -> Completion, text: string)
    requires Trim(arg) != []
    requires text == "A.\nB.\nC."
    requires complete(store.BeginDobby(chat, arg).request) == Completed(text)
    ensures store.HandleDobby(chat, arg, complete)
         == DraftsHeader(store.ResolveTone(chat)) + "A.\n\nB.\n\nC."
  {
    var step := store.BeginDobby(chat, arg);
    ThreeSentenceLines(text);
    DraftsOfThree(step.tone, ParseOptions(text));
  }

  /** `/style meme` followed by `/dobby` in the same chat sends the meme clause,
      whatever the configured default. */
  method StyleThenDobby(chat: ChatId, configured: string, topic: string) returns (step: DobbyStep)
    requires Trim(topic) != []
    ensures step.Generate?
    ensures step.tone == Meme
    ensures step.request.system == SystemBase + "\n" + MemeClause
  {
    var store := new ToneStore(configured);
    ClassifyAcceptsTones([], Meme, []);
    assert [] + Meme + [] == Meme;
    var outcome, reply := store.HandleStyle(chat, Meme);
    step := store.BeginDobby(chat, topic);
    ToneInstructionOfTone(Meme, store.defaultTone);
  }
}
