/** The later revision of the bot (src/bot.js): a null-guarded word extractor,
    a lodash-path pronunciation extractor, and a handler that checks both. */
module SrcBot {
  import opened Wrappers
  import opened JsString
  import opened OxfordResponse
  import opened Channels
  import opened Command

  /** `responseToWordObject`: `null` when `results[0].lexicalEntries[0]` is
      missing; otherwise the flat object read from index 0 at every level. The
      definition path after the lexical entry is not guarded, so the source
      demands that it can be read. */
  function ResponseToWordObject(res: Response): (r: Option<WordObject>)
    requires FirstLexicalEntry(res).Some? ==> DefinitionReadable(FirstLexicalEntry(res).value)
    ensures r.None? <==>
      || res.results.None? || |res.results.value| == 0
      || res.results.value[0].lexicalEntries.None?
      || |res.results.value[0].lexicalEntries.value| == 0
    ensures r.Some? ==>
      var le := res.results.value[0].lexicalEntries.value[0];
      var definitions := le.entries.value[0].senses.value[0].definitions.value;
      && r.value.word == res.results.value[0].word
      && r.value.category == le.lexicalCategory
      && r.value.definition == (if |definitions| > 0 then Some(definitions[0]) else None)
  {
    match FirstLexicalEntry(res)
    case None => None
    case Some(lexicalEntry) =>
      Some(WordObject(
        word := First(res.results).value.word,
        category := lexicalEntry.lexicalCategory,
        definition := FirstDefinition(lexicalEntry)))
  }

  /** `responseToPronunciationURL`: `_.get` of
      `results[0].lexicalEntries[0].pronunciations[0].audioFile`, `null` by default. */
  function ResponseToPronunciationURL(res: Response): (r: Option<string>)
    ensures r.Some? <==>
      && res.results.Some? && |res.results.value| > 0
      && res.results.value[0].lexicalEntries.Some?
      && |res.results.value[0].lexicalEntries.value| > 0
      && res.results.value[0].lexicalEntries.value[0].pronunciations.Some?
      && |res.results.value[0].lexicalEntries.value[0].pronunciations.value| > 0
      && res.results.value[0].lexicalEntries.value[0].pronunciations.value[0].audioFile.Some?
    ensures r.Some? ==>
      r == res.results.value[0].lexicalEntries.value[0].pronunciations.value[0].audioFile
  {
    match FirstLexicalEntry(res)
    case None => None
    case Some(lexicalEntry) =>
      match First(lexicalEntry.pronunciations)
      case None => None
      case Some(pronunciation) => pronunciation.audioFile
  }

  /** The URL is read from index 0 only: a first pronunciation without an
      audio file gives `null` even when a later one has a file, and later
      results, lexical entries and pronunciations never matter. */
  lemma PronunciationURLReadsOnlyIndexZero(
    result: HeadwordEntry, moreResults: seq<HeadwordEntry>,
    le: LexicalEntry, moreEntries: seq<LexicalEntry>,
    p: Pronunciation, morePronunciations: seq<Pronunciation>)
    requires result.lexicalEntries == Some([le] + moreEntries)
    requires le.pronunciations == Some([p] + morePronunciations)
    ensures ResponseToPronunciationURL(Response(Some([result] + moreResults))) == p.audioFile
  {
  }

  /** The success callback of the definitions lookup: reply only when the
      entry is non-null. */
  function DefineReaction(message: string, lookup: Lookup): Reaction {
    match lookup
    case Rejected => Send(DefinitionProblem(ErrorArgument(message)))
    case Resolved(res) =>
      match FirstLexicalEntry(res)
      case None => Nothing
      case Some(lexicalEntry) =>
        if !DefinitionReadable(lexicalEntry) then Fault
        else Send(EntryReply(ResponseToWordObject(res).value))
  }

  /** The callbacks of the pronunciations lookup in `channel`: a falsy URL is
      reported and nothing is played. */
  function PronounceReaction(message: string, channel: string, lookup: Lookup): Reaction {
    match lookup
    case Rejected => Send(PronunciationProblem(ErrorArgument(message)))
    case Resolved(res) =>
      var url := ResponseToPronunciationURL(res);
      if !Truthy(url) then Send(PronunciationProblem(ErrorArgument(message)))
      else Play(channel, url)
  }

  /** The whole `bot.on('message', …)` handler, given how the one dictionary
      lookup it starts (if any) settles. */
  function Respond(message: string, channels: ChannelTable, userID: string, lookup: Lookup): Reaction {
    match Dispatch(message, channels, userID)
    case NoAction => Nothing
    case LookupDefinition(_) => DefineReaction(message, lookup)
    case LookupPronunciation(_, channel) => PronounceReaction(message, channel, lookup)
  }

  /** A resolved `!define` has three outcomes: no message when
      `results[0].lexicalEntries[0]` is missing; a thrown TypeError when the
      entry's definition path cannot be read; otherwise exactly the message
      `word (category): definition` taken from the response. */
  lemma DefineSuccessReply(word: string, channels: ChannelTable, userID: string, res: Response)
    ensures var reaction := Respond("!define " + word, channels, userID, Resolved(res));
      && (reaction == Nothing <==> FirstLexicalEntry(res).None?)
      && (reaction == Fault <==>
            FirstLexicalEntry(res).Some? && !DefinitionReadable(FirstLexicalEntry(res).value))
    ensures FirstLexicalEntry(res).Some? && DefinitionReadable(FirstLexicalEntry(res).value) ==>
      var le := res.results.value[0].lexicalEntries.value[0];
      Respond("!define " + word, channels, userID, Resolved(res)) ==
        Send(Text(res.results.value[0].word) + " (" + Text(le.lexicalCategory) + "): " +
             Text(FirstDefinition(le)))
  {
    DispatchDefine("!define " + word, channels, userID, word);
  }

  /** A rejected lookup answers with the problem message naming the argument
      that was looked up. */
  lemma RejectionReplies(message: string, channels: ChannelTable, userID: string)
    ensures Dispatch(message, channels, userID).LookupDefinition? ==>
      Respond(message, channels, userID, Rejected) ==
        Send(DefinitionProblem(Dispatch(message, channels, userID).word))
    ensures Dispatch(message, channels, userID).LookupPronunciation? ==>
      Respond(message, channels, userID, Rejected) ==
        Send(PronunciationProblem(Dispatch(message, channels, userID).word))
  {
    if !Dispatch(message, channels, userID).NoAction? {
      SelectedMessageShape(message);
      ErrorArgumentIsArgument(message);
    }
  }

  /** For a pronunciation request, a URL that is null (or empty) gives the
      problem message naming the looked-up word and no playback; otherwise the
      bot joins the channel `findChannel` returned and starts the download of
      exactly that URL, which playback waits for. */
  lemma PronounceOutcome(message: string, channels: ChannelTable, userID: string, res: Response)
    requires Dispatch(message, channels, userID).LookupPronunciation?
    ensures var action := Dispatch(message, channels, userID);
      var reaction := Respond(message, channels, userID, Resolved(res));
      var url := ResponseToPronunciationURL(res);
      && (!Truthy(url) ==> reaction == Send(PronunciationProblem(action.word)))
      && (Truthy(url) ==> reaction == Play(action.channel, url))
      && action.channel == FirstVoiceChannel(channels, userID).value
  {
    SelectedMessageShape(message);
    ErrorArgumentIsArgument(message);
  }

  /** Playback only ever happens for a pronunciation request from a user who
      is in a voice channel, with a non-empty URL from the response. */
  lemma PlayOnlyInVoiceChannelWithURL(
    message: string, channels: ChannelTable, userID: string, lookup: Lookup)
    requires Respond(message, channels, userID, lookup).Play?
    ensures var reaction := Respond(message, channels, userID, lookup);
      && lookup.Resolved?
      && Truthy(reaction.url)
      && reaction.url == ResponseToPronunciationURL(lookup.response)
      && FirstVoiceChannel(channels, userID) == Some(reaction.channel)
      && SelectBranch(Trigger(message)) == PronounceBranch
  {
  }

  /** With no voice channel for the user, `!say` and `!pronounce` start no
      lookup and do nothing, however the (never started) lookup would settle. */
  lemma PronounceNeedsVoiceChannel(word: string, channels: ChannelTable, userID: string, lookup: Lookup)
    requires FirstVoiceChannel(channels, userID).None?
    ensures Dispatch("!say " + word, channels, userID) == NoAction
    ensures Respond("!say " + word, channels, userID, lookup) == Nothing
    ensures Respond("!pronounce " + word, channels, userID, lookup) == Nothing
  {
    assert "!say" + [SPACE] + word == "!say " + word;
    SplitOfJoin("!say", word);
    SayIsPronounce(word, channels, userID);
  }

  /** `!say` and `!pronounce` share one branch all the way through the
      handler: for the same word, channel table and lookup outcome they react
      identically, reply strings included. */
  lemma SayIsPronounceThroughout(word: string, channels: ChannelTable, userID: string, lookup: Lookup)
    ensures Respond("!say " + word, channels, userID, lookup) ==
      Respond("!pronounce " + word, channels, userID, lookup)
  {
    SayIsPronounce(word, channels, userID);
    assert "!say" + [SPACE] + word == "!say " + word;
    assert "!pronounce" + [SPACE] + word == "!pronounce " + word;
    SplitOfJoin("!say", word);
    SplitOfJoin("!pronounce", word);
    ErrorArgumentIsArgument("!say " + word);
    ErrorArgumentIsArgument("!pronounce " + word);
  }
}
