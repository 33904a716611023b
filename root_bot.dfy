/** The earlier revision of the bot (bot.js at the repository root): the same
    split, dispatch and `findChannel`, with unguarded reads of the response. */
module RootBot {
  import opened Wrappers
  import opened JsString
  import opened OxfordResponse
  import opened Channels
  import opened Command
  import SrcBot

  /** `res.results[0].lexicalEntries[0]` and the definition path below it can
      be evaluated without a TypeError. */
  predicate EntryReadable(res: Response) {
    && res.results.Some? && |res.results.value| > 0
    && res.results.value[0].lexicalEntries.Some?
    && |res.results.value[0].lexicalEntries.value| > 0
    && DefinitionReadable(res.results.value[0].lexicalEntries.value[0])
  }

  /** `responseToWordObject` without a null guard: every level is indexed at 0
      directly, so the source demands that each step exists. */
  function ResponseToWordObject(res: Response): (r: WordObject)
    requires EntryReadable(res)
    ensures var le := res.results.value[0].lexicalEntries.value[0];
      var definitions := le.entries.value[0].senses.value[0].definitions.value;
      && r.word == res.results.value[0].word
      && r.category == le.lexicalCategory
      && r.definition == (if |definitions| > 0 then Some(definitions[0]) else None)
  {
    var lexicalEntry := res.results.value[0].lexicalEntries.value[0];
    WordObject(
      word := res.results.value[0].word,
      category := lexicalEntry.lexicalCategory,
      definition := FirstDefinition(lexicalEntry))
  }

  /** `res.results[0].lexicalEntries[0].pronunciations[0]` exists, so reading
      its `audioFile` does not throw. */
  predicate PronunciationReadable(res: Response) {
    && res.results.Some? && |res.results.value| > 0
    && res.results.value[0].lexicalEntries.Some?
    && |res.results.value[0].lexicalEntries.value| > 0
    && res.results.value[0].lexicalEntries.value[0].pronunciations.Some?
    && |res.results.value[0].lexicalEntries.value[0].pronunciations.value| > 0
  }

  /** The inline `res.results[0].lexicalEntries[0].pronunciations[0].audioFile`;
      the value itself may be undefined. */
  function PronunciationURL(res: Response): (r: Option<string>)
    requires PronunciationReadable(res)
    ensures r == res.results.value[0].lexicalEntries.value[0].pronunciations.value[0].audioFile
  {
    First(First(First(res.results).value.lexicalEntries).value.pronunciations).value.audioFile
  }

  /** The callbacks of the definitions lookup: the success callback replies
      with no null check, and throws when the entry path is missing. */
  function DefineReaction(message: string, lookup: Lookup): Reaction {
    match lookup
    case Rejected => Send(DefinitionProblem(ErrorArgument(message)))
    case Resolved(res) =>
      if EntryReadable(res) then Send(EntryReply(ResponseToWordObject(res))) else Fault
  }

  /** The callbacks of the pronunciations lookup in `channel`: a resolved
      lookup joins the channel and starts the download of whatever the path
      holds; a missing path throws after the join. */
  function PronounceReaction(message: string, channel: string, lookup: Lookup): Reaction {
    match lookup
    case Rejected => Send(PronunciationProblem(ErrorArgument(message)))
    case Resolved(res) =>
      if PronunciationReadable(res) then Play(channel, PronunciationURL(res)) else JoinedThenFault(channel)
  }

  /** The whole `bot.on('message', …)` handler of this revision. */
  function Respond(message: string, channels: ChannelTable, userID: string, lookup: Lookup): Reaction {
    match Dispatch(message, channels, userID)
    case NoAction => Nothing
    case LookupDefinition(_) => DefineReaction(message, lookup)
    case LookupPronunciation(_, channel) => PronounceReaction(message, channel, lookup)
  }

  /** Where this revision's extractor is defined, the guarded one of
      src/bot.js returns the same object. */
  lemma WordObjectAgreesWithSrc(res: Response)
    requires EntryReadable(res)
    ensures SrcBot.ResponseToWordObject(res) == Some(ResponseToWordObject(res))
  {
  }

  /** Where the inline path can be read, it gives what `_.get` gives. */
  lemma PronunciationURLAgreesWithSrc(res: Response)
    requires PronunciationReadable(res)
    ensures SrcBot.ResponseToPronunciationURL(res) == PronunciationURL(res)
  {
  }

  /** A resolved `!define` never stays silent here: it replies
      `word (category): definition` from index 0 of the response, or throws
      where src/bot.js would have sent nothing. */
  lemma DefineAlwaysReplies(word: string, channels: ChannelTable, userID: string, res: Response)
    ensures var reaction := Respond("!define " + word, channels, userID, Resolved(res));
      && (reaction.Send? <==> EntryReadable(res))
      && (reaction.Fault? <==> !EntryReadable(res))
    ensures EntryReadable(res) ==>
      var le := res.results.value[0].lexicalEntries.value[0];
      Respond("!define " + word, channels, userID, Resolved(res)) ==
        Send(Text(res.results.value[0].word) + " (" + Text(le.lexicalCategory) + "): " +
             Text(FirstDefinition(le)))
    ensures FirstLexicalEntry(res).None? ==>
      && Respond("!define " + word, channels, userID, Resolved(res)) == Fault
      && SrcBot.Respond("!define " + word, channels, userID, Resolved(res)) == Nothing
  {
    DispatchDefine("!define " + word, channels, userID, word);
  }

  /** A rejected lookup answers with the problem message naming the argument
      that was looked up. */
  lemma RejectionReplies(message: string, channels: ChannelTable, userID: string)
    ensures Dispatch(message, channels, userID).LookupDefinition? ==>
      Respond(message, channels, userID, Rejected) ==
        Send(DefinitionProblem(Dispatch(message, channels, userID).word))
    ensures Dispatch(message, channels, userID).LookupPronunciation? ==>
      Respond(message, channels, userID, Rejected) ==
        Send(PronunciationProblem(Dispatch(message, channels, userID).word))
  {
    if !Dispatch(message, channels, userID).NoAction? {
      SelectedMessageShape(message);
      ErrorArgumentIsArgument(message);
    }
  }

  /** A resolved pronunciation request never sends a problem message here: it
      joins the channel `findChannel` returned and starts the download of the
      index-0 `audioFile` (whatever it holds), or joins that channel and
      throws; whenever src/bot.js starts a download, this revision starts the
      same one. */
  lemma PronounceOutcome(message: string, channels: ChannelTable, userID: string, res: Response)
    requires Dispatch(message, channels, userID).LookupPronunciation?
    ensures var reaction := Respond(message, channels, userID, Resolved(res));
      var channel := FirstVoiceChannel(channels, userID).value;
      && (PronunciationReadable(res) ==> reaction == Play(channel, PronunciationURL(res)))
      && (!PronunciationReadable(res) ==> reaction == JoinedThenFault(channel))
    ensures SrcBot.Respond(message, channels, userID, Resolved(res)).Play? ==>
      Respond(message, channels, userID, Resolved(res)) ==
        SrcBot.Respond(message, channels, userID, Resolved(res))
  {
    var url := SrcBot.ResponseToPronunciationURL(res);
    if url.Some? {
      assert PronunciationReadable(res);
      PronunciationURLAgreesWithSrc(res);
    }
  }

  /** Where the first pronunciation exists but its `audioFile` is undefined or
      empty, src/bot.js replies with the problem message, while this revision
      joins the channel and hands that value to `http.get`. */
  lemma FalsyURLStillFetched(message: string, channels: ChannelTable, userID: string, res: Response)
    requires Dispatch(message, channels, userID).LookupPronunciation?
    requires PronunciationReadable(res) && !Truthy(PronunciationURL(res))
    ensures Respond(message, channels, userID, Resolved(res)) ==
      Play(FirstVoiceChannel(channels, userID).value, PronunciationURL(res))
    ensures SrcBot.Respond(message, channels, userID, Resolved(res)) ==
      Send(PronunciationProblem(Dispatch(message, channels, userID).word))
  {
    PronunciationURLAgreesWithSrc(res);
    SelectedMessageShape(message);
    ErrorArgumentIsArgument(message);
  }

  /** `!say` and `!pronounce` share one branch all the way through the
      handler: for the same word, channel table and lookup outcome they react
      identically, reply strings included. */
  lemma SayIsPronounceThroughout(word: string, channels: ChannelTable, userID: string, lookup: Lookup)
    ensures Respond("!say " + word, channels, userID, lookup) ==
      Respond("!pronounce " + word, channels, userID, lookup)
  {
    SayIsPronounce(word, channels, userID);
    assert "!say" + [SPACE] + word == "!say " + word;
    assert "!pronounce" + [SPACE] + word == "!pronounce " + word;
    SplitOfJoin("!say", word);
    SplitOfJoin("!pronounce", word);
    ErrorArgumentIsArgument("!say " + word);
    ErrorArgumentIsArgument("!pronounce " + word);
  }
}
