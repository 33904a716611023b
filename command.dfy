/** The message handler's pure layer, common to both revisions: the split of
    the message at its first space, the `switch` on the trigger, the
    `findChannel` guard of the voice branch, and the reply strings. */
module Command {
  import opened Wrappers
  import opened JsString
  import opened OxfordResponse
  import opened Channels

  const SPACE := ' '

  /** `const splitIndex = message.indexOf(' ')`. */
  function SplitIndex(message: string): int {
    IndexOf(message, SPACE)
  }

  /** `const trigger = message.substring(0, splitIndex)`. */
  function Trigger(message: string): string {
    Substring(message, 0, SplitIndex(message))
  }

  /** `message.substr(splitIndex + 1)`: the word handed to the dictionary. */
  function Argument(message: string): string {
    Substr(message, SplitIndex(message) + 1)
  }

  /** `message.substr(trigger.length + 1)`: the word named in the error replies. */
  function ErrorArgument(message: string): string {
    Substr(message, |Trigger(message)| + 1)
  }

  /** The trigger is the text before the first space; with no space,
      `substring(0, -1)` is the empty string. */
  lemma TriggerIsPrefixBeforeFirstSpace(message: string)
    ensures SPACE !in Trigger(message)
    ensures SPACE in message ==>
      && |Trigger(message)| == SplitIndex(message)
      && message[..|Trigger(message)|] == Trigger(message)
      && message[|Trigger(message)|] == SPACE
    ensures SPACE !in message ==> Trigger(message) == ""
  {
  }

  /** With a space present, trigger, space and argument put back together give
      the message. */
  lemma SplitRoundTrip(message: string)
    requires SPACE in message
    ensures Trigger(message) + [SPACE] + Argument(message) == message
  {
    var k := SplitIndex(message);
    assert message == message[..k] + [message[k]] + message[k + 1..];
  }

  /** Splitting a trigger (without spaces), a space and any argument gives
      both back: joining and splitting are inverse. */
  lemma SplitOfJoin(trigger: string, argument: string)
    requires SPACE !in trigger
    ensures Trigger(trigger + [SPACE] + argument) == trigger
    ensures Argument(trigger + [SPACE] + argument) == argument
  {
    var m := trigger + [SPACE] + argument;
    var k := SplitIndex(m);
    assert m[|trigger|] == SPACE;
    assert m[..|trigger|] == trigger;
    assert k == |trigger|;
    assert m[k + 1..] == argument;
  }

  /** With a space present, the argument rebuilt for the error replies is the
      argument that was looked up, because the trigger is `splitIndex` long. */
  lemma ErrorArgumentIsArgument(message: string)
    requires SPACE in message
    ensures ErrorArgument(message) == Argument(message)
  {
    TriggerIsPrefixBeforeFirstSpace(message);
  }

  /** The three branches of the `switch (trigger)`. */
  datatype Branch = DefineBranch | PronounceBranch | NoBranch

  /** `case '!define'`, the shared `case '!say': case '!pronounce'`, and `default`. */
  function SelectBranch(trigger: string): Branch {
    if trigger == "!define" then DefineBranch
    else if trigger == "!say" || trigger == "!pronounce" then PronounceBranch
    else NoBranch
  }

  /** What the handler asks of the outside world for one message: nothing, a
      definitions lookup of a word, or a pronunciations lookup of a word for
      playback in a voice channel. The word is the raw argument; the
      `encodeURI` applied to it is not part of this model. */
  datatype Action =
    | NoAction
    | LookupDefinition(word: string)
    | LookupPronunciation(word: string, channel: string)

  /** The handler up to the dictionary call. The voice branch calls
      `findChannel` and goes on only when its result is truthy. */
  function Dispatch(message: string, channels: ChannelTable, userID: string): Action {
    match SelectBranch(Trigger(message))
    case DefineBranch => LookupDefinition(Argument(message))
    case PronounceBranch =>
      var channel := FirstVoiceChannel(channels, userID);
      if Truthy(channel) then LookupPronunciation(Argument(message), channel.value) else NoAction
    case NoBranch => NoAction
  }

  /** A message without a space never selects a branch, whatever it says. */
  lemma NoSpaceNoAction(message: string, channels: ChannelTable, userID: string)
    requires SPACE !in message
    ensures Dispatch(message, channels, userID) == NoAction
  {
    TriggerIsPrefixBeforeFirstSpace(message);
  }

  /** A definitions lookup of `word` happens exactly for the message
      "!define " followed by that word. */
  lemma DispatchDefine(message: string, channels: ChannelTable, userID: string, word: string)
    ensures Dispatch(message, channels, userID) == LookupDefinition(word) <==>
      message == "!define " + word
  {
    if message == "!define " + word {
      SplitOfJoin("!define", word);
      assert "!define" + [SPACE] + word == message;
    }
    if Dispatch(message, channels, userID) == LookupDefinition(word) {
      TriggerIsPrefixBeforeFirstSpace(message);
      SplitRoundTrip(message);
    }
  }

  /** A message that selects a branch has a space, and is its trigger, a
      space and its argument. */
  lemma SelectedMessageShape(message: string)
    requires SelectBranch(Trigger(message)) != NoBranch
    ensures SPACE in message
    ensures message == Trigger(message) + [SPACE] + Argument(message)
  {
    TriggerIsPrefixBeforeFirstSpace(message);
    SplitRoundTrip(message);
  }

  /** A pronunciations lookup of `word` for `channel` happens exactly for
      "!say " or "!pronounce " followed by the word, when `findChannel` found
      the (truthy) id `channel`. */
  lemma DispatchPronounce(
    message: string, channels: ChannelTable, userID: string, word: string, channel: string)
    ensures Dispatch(message, channels, userID) == LookupPronunciation(word, channel) <==>
      && (message == "!say " + word || message == "!pronounce " + word)
      && FirstVoiceChannel(channels, userID) == Some(channel)
      && channel != ""
  {
    if Dispatch(message, channels, userID) == LookupPronunciation(word, channel) {
      SelectedMessageShape(message);
    }
    if message == "!say " + word {
      assert "!say" + [SPACE] + word == message;
      SplitOfJoin("!say", word);
    }
    if message == "!pronounce " + word {
      assert "!pronounce" + [SPACE] + word == message;
      SplitOfJoin("!pronounce", word);
    }
  }

  /** `!say` and `!pronounce` are one branch: for the same word and the same
      channel table they do the same thing. */
  lemma SayIsPronounce(word: string, channels: ChannelTable, userID: string)
    ensures Dispatch("!say " + word, channels, userID) == Dispatch("!pronounce " + word, channels, userID)
  {
    SplitOfJoin("!say", word);
    assert "!say" + [SPACE] + word == "!say " + word;
    SplitOfJoin("!pronounce", word);
    assert "!pronounce" + [SPACE] + word == "!pronounce " + word;
  }

  /** `There was a problem finding a definition for ${arg}.` */
  function DefinitionProblem(arg: string): string {
    "There was a problem finding a definition for " + arg + "."
  }

  /** `There was a problem finding pronunciation for ${arg}.` */
  function PronunciationProblem(arg: string): string {
    "There was a problem finding pronunciation for " + arg + "."
  }

  /** `${entry.word} (${entry.category}): ${entry.definition}`. */
  function EntryReply(entry: WordObject): string {
    Text(entry.word) + " (" + Text(entry.category) + "): " + Text(entry.definition)
  }

  /** Each problem reply names its argument: different arguments give
      different replies, and the two kinds of reply never coincide. */
  lemma ProblemRepliesNameTheirArgument(a: string, b: string)
    ensures DefinitionProblem(a) == DefinitionProblem(b) ==> a == b
    ensures PronunciationProblem(a) == PronunciationProblem(b) ==> a == b
    ensures DefinitionProblem(a) != PronunciationProblem(b)
  {
    var dp := "There was a problem finding a definition for ";
    var pp := "There was a problem finding pronunciation for ";
    if DefinitionProblem(a) == DefinitionProblem(b) {
      assert a == DefinitionProblem(a)[|dp|..|DefinitionProblem(a)| - 1];
      assert b == DefinitionProblem(b)[|dp|..|DefinitionProblem(b)| - 1];
    }
    if PronunciationProblem(a) == PronunciationProblem(b) {
      assert a == PronunciationProblem(a)[|pp|..|PronunciationProblem(a)| - 1];
      assert b == PronunciationProblem(b)[|pp|..|PronunciationProblem(b)| - 1];
    }
    assert DefinitionProblem(a)[28] == 'a';
    assert PronunciationProblem(b)[28] == 'p';
  }

  /** How one dictionary promise settles: with a response, or rejected. */
  datatype Lookup = Resolved(response: Response) | Rejected

  /** What the handler does once the promise settles:
      - `Nothing`: no message, no playback;
      - `Send`: a text message to the originating channel;
      - `Play`: join `channel` and start the download of `url` that playback
        waits for (`None`: the value handed to `http.get` is undefined); what
        the download then does is not part of this model;
      - `Fault`: a TypeError thrown inside the promise's success callback; the
        promise returned by `then` rejects with no handler and nothing is sent;
      - `JoinedThenFault`: the bot has joined the voice channel `channel`, and
        then a TypeError is thrown inside the callback the client passes to
        `getAudioContext`, before the handler that would leave the channel at
        the end of playback is registered; nothing is sent or played. What the
        uncaught exception does next (by default the process exits) is not
        part of this model. */
  datatype Reaction =
    | Nothing
    | Send(text: string)
    | Play(channel: string, url: Option<string>)
    | Fault
    | JoinedThenFault(channel: string)
}
