# athena: a Discord dictionary bot, modelled in Dafny

athena is a Discord bot. It reads chat messages, looks words up in the Oxford
Dictionaries API and answers in one of two ways. It replies with a definition
(`!define <word>`), or it downloads and plays the word's pronunciation in the caller's voice
channel (`!say <word>` / `!pronounce <word>`). The repository holds two
revisions of the same handler: `bot.js` at the root, which lacks the `_.get` guards and the null check, and
`src/bot.js`. This project models the pure layer between the Discord event and
the dictionary call in both revisions:

- **JsString**: the JavaScript builtins the handler uses. These are
  `indexOf`, `substring` (clamping and swapping its arguments), `substr` with a
  single argument, template-literal rendering of a possibly `undefined` value,
  and string truthiness.
- **OxfordResponse**: the API response as datatypes whose fields are all
  optional (`None` is an `undefined` property), and the flat word object.
- **Channels**: `findChannel`. This is the `for…in` loop over the client's
  channel table, written as a method `FindChannel`. It is proved equal to the
  specification function `FirstVoiceChannel`, and that function is proved to be
  a first-match search.
- **Command**: the part both revisions share. It covers the split at the first
  space (trigger, argument, and the argument rebuilt for error replies), the
  `switch` (`Dispatch`), and the reply strings. `Lookup` models how the
  dictionary promise settles. `Reaction` models what the callbacks do:
  nothing, send a text, join a voice channel and start the audio download that
  playback waits for, throw inside a promise callback, or join
  a voice channel and then throw.
- **SrcBot** (`src/bot.js`): the null-guarded `responseToWordObject`,
  `responseToPronunciationURL` (a lodash `_.get` path), the two lookup
  callbacks, and the whole handler `Respond`.
- **RootBot** (`bot.js`): the unguarded `responseToWordObject` and the inline
  pronunciation path. Where the source reads without a guard, these take a
  `requires` clause. Its `Respond` yields `Fault` (definitions) or
  `JoinedThenFault` (pronunciations) wherever that read would throw. Lemmas relate this revision to `src/bot.js`.

The tokenizer, `Dispatch` and `findChannel` are the same code in both files:
`src/bot.js:42-49, 57-59, 85-88` and `bot.js:29-36, 44-46, 67-70`. Each is
modelled once. The table cites the `src/bot.js` lines, and the same statements
hold for the matching lines of `bot.js`. The handler's behaviour depends on the
lookup outcome and the channel table, and both are passed in as parameters.

The code has no category flag (`-n`), no `!def`, `!example`
or `!help` command, and no scan past index 0 of any list. A message without a
space has the trigger `""`, not the whole message, so a bare `!define` does
nothing. A first pronunciation without an audio file gives no URL even if a
later one has a file (`SrcBot.PronunciationURLReadsOnlyIndexZero`).

## Model

| member | source | states |
|---|---|---|
| JsString.IndexOf | src/bot.js:57 | `indexOf(' ')` is -1 exactly when the message has no space; otherwise it is an index holding a space with no space before it |
| Command.TriggerIsPrefixBeforeFirstSpace | src/bot.js:57-58 | the trigger never contains a space. With a space present it is the message's prefix up to the first space, and its length is `splitIndex`. With no space, `substring(0, -1)` is `""` |
| Command.SplitRoundTrip | src/bot.js:57-63 | with a space present, trigger + " " + argument is the message |
| Command.SplitOfJoin | src/bot.js:57-63 | splitting a space-free trigger, a space and any argument gives the trigger and the argument back |
| Command.ErrorArgumentIsArgument | src/bot.js:57-95 | with a space present, `substr(trigger.length + 1)` (lines 78, 95, 128) equals `substr(splitIndex + 1)` (lines 63, 89) |
| Command.SelectedMessageShape | src/bot.js:57-60 | a message that selects any branch contains a space and is trigger + " " + argument |
| Command.NoSpaceNoAction | src/bot.js:57-59 | a message with no space selects no branch (the `default` at lines 139-140) |
| Command.DispatchDefine | src/bot.js:59-64 | a definitions lookup of `word` happens if and only if the message is "!define " + word |
| Command.DispatchPronounce | src/bot.js:85-89 | a pronunciations lookup of `word` in `channel` happens if and only if the message is "!say " or "!pronounce " + word and `findChannel` returned the truthy id `channel` |
| Command.SayIsPronounce | src/bot.js:85-86 | `!say w` and `!pronounce w` lead to the same action for every word and channel table |
| Command.ProblemRepliesNameTheirArgument | src/bot.js:77-80 | the problem replies determine their argument, and the definition and pronunciation variants never coincide |
| Channels.FindChannel | src/bot.js:42-49 | the loop with early return gives exactly `FirstVoiceChannel` of the channel table |
| Channels.FirstVoiceChannelNone | src/bot.js:42-49 | `findChannel` returns null if and only if no channel is of type 2 with the user among its members |
| Channels.FirstVoiceChannelIsFirst | src/bot.js:43-46 | a returned id belongs to a type-2 channel containing the user, and no channel enumerated before it qualifies |
| Channels.FirstVoiceChannelIgnoresLaterChannels | src/bot.js:43-46 | once a channel qualifies, channels enumerated after it do not change the result |
| SrcBot.ResponseToWordObject | src/bot.js:30-37 | requires that, when the entry exists, `entries[0]`, `senses[0]` and `definitions` exist (line 34 reads them without a guard and throws otherwise; `SrcBot.DefineReaction` turns that case into `Fault`). Then: null exactly when `results[0].lexicalEntries[0]` is missing. Otherwise: `word` is `results[0].word`, `category` is the entry's `lexicalCategory`, and `definition` is `entries[0].senses[0].definitions[0]` (undefined for an empty list) |
| SrcBot.ResponseToPronunciationURL | src/bot.js:39 | defined exactly when every index-0 step down to `audioFile` is present, and then equal to that `audioFile` |
| SrcBot.PronunciationURLReadsOnlyIndexZero | src/bot.js:39 | the URL is the first pronunciation's `audioFile` of the first lexical entry of the first result, whatever follows at later indexes |
| SrcBot.DefineSuccessReply | src/bot.js:65-73 | a resolved `!define` has three outcomes: nothing if and only if the entry is null; a thrown TypeError if and only if the entry exists but its definition path (line 34) cannot be read; otherwise exactly `word (category): definition` from the response |
| SrcBot.RejectionReplies | src/bot.js:75-81 | a rejected lookup replies "There was a problem finding a definition for " + the looked-up word + "." and, for pronunciations (lines 127-134), the pronunciation variant |
| SrcBot.PronounceOutcome | src/bot.js:90-102 | a null or empty URL replies "There was a problem finding pronunciation for " + word + "." and starts no download. Otherwise it joins the channel `findChannel` returned and starts the download of that URL, which playback waits for |
| SrcBot.PlayOnlyInVoiceChannelWithURL | src/bot.js:85-121 | the join and the download that playback waits for only happen for `!say`/`!pronounce` with a resolved lookup, a truthy URL from the response, and the channel `findChannel` found |
| SrcBot.PronounceNeedsVoiceChannel | src/bot.js:85-89 | when the user is in no voice channel, `!say`/`!pronounce` start no lookup and do nothing |
| RootBot.ResponseToWordObject | bot.js:19-26 | under the precondition that `results`, `lexicalEntries`, `entries` and `senses` are non-empty and `definitions` is present, the three fields come from index 0, and `word` comes from `results[0]` |
| RootBot.PronunciationURL | bot.js:80 | under the precondition that `results`, `lexicalEntries` and `pronunciations` are non-empty, the value is `results[0].lexicalEntries[0].pronunciations[0].audioFile` |
| RootBot.WordObjectAgreesWithSrc | bot.js:19-26 | where the unguarded extractor is defined, the guarded one of `src/bot.js` returns the same object |
| RootBot.PronunciationURLAgreesWithSrc | bot.js:80 | where the inline path can be read, it is the `_.get` result of `src/bot.js` |
| RootBot.DefineAlwaysReplies | bot.js:49-56 | a resolved `!define` has no null check. It sends `word (category): definition` when the path can be read, and throws otherwise. A missing entry throws here, where `src/bot.js` sends nothing |
| RootBot.RejectionReplies | bot.js:57-63 | a rejected lookup replies with the definition problem message naming the looked-up word, and with the pronunciation variant for `!say`/`!pronounce` (lines 98-104) |
| RootBot.PronounceOutcome | bot.js:72-97 | a resolved pronunciation lookup joins the channel `findChannel` found and hands the index-0 `audioFile`, whatever it holds, to `http.get` (line 92) if the path can be read; otherwise it joins that channel and throws. It never sends a problem message. Whenever `src/bot.js` starts a download, this revision starts the same one. What the download then does is not modelled |
| RootBot.FalsyURLStillFetched | bot.js:72-97 | where the first pronunciation's `audioFile` is undefined or empty, this revision still joins and hands that value to `http.get` (line 92), while `src/bot.js` sends the pronunciation problem message |
| JsString.Substring | src/bot.js:58 | `substring(start, end)` reads `s[start..end]` for ordered in-range positions and gives `""` when both are at most 0 |
| JsString.SubstringClampsAndSwaps | src/bot.js:58 | `substring` clamps both positions into the string and does not depend on their order; the clamped ordered positions select exactly that slice |
| JsString.Substr | src/bot.js:63 | one-argument `substr(start)` is always a suffix; for an in-range start it is `s[start..]`, and `""` from the end onwards |
| Command.Trigger | src/bot.js:57-58 | models `message.substring(0, message.indexOf(' '))`; its meaning is stated by `Command.TriggerIsPrefixBeforeFirstSpace` |
| Command.Argument | src/bot.js:63 | models `message.substr(splitIndex + 1)`; stated by `Command.SplitRoundTrip` and `Command.SplitOfJoin` |
| Command.ErrorArgument | src/bot.js:78 | models `message.substr(trigger.length + 1)`; stated by `Command.ErrorArgumentIsArgument` |
| Command.SelectBranch | src/bot.js:59-140 | models the `switch (trigger)` cases; stated through `Command.DispatchDefine` and `Command.DispatchPronounce` |
| Command.Dispatch | src/bot.js:59-140 | models the handler up to the dictionary call, including the `findChannel` guard; stated by `Command.DispatchDefine`, `Command.DispatchPronounce`, `Command.NoSpaceNoAction`, `Command.SayIsPronounce` |
| Command.EntryReply | src/bot.js:70 | models the template `${word} (${category}): ${definition}`; stated by `SrcBot.DefineSuccessReply` and `RootBot.DefineAlwaysReplies` |
| Command.DefinitionProblem | src/bot.js:78 | models the definition problem reply; stated by `Command.ProblemRepliesNameTheirArgument` and the `RejectionReplies` lemmas |
| Command.PronunciationProblem | src/bot.js:95 | models the pronunciation problem reply (also line 128); stated by `Command.ProblemRepliesNameTheirArgument`, `SrcBot.PronounceOutcome` |
| Channels.FirstVoiceChannel | src/bot.js:42-49 | the specification of `findChannel`; stated by `Channels.FirstVoiceChannelNone`, `Channels.FirstVoiceChannelIsFirst`, `Channels.FirstVoiceChannelIgnoresLaterChannels` |
| SrcBot.DefineReaction | src/bot.js:65-82 | models both callbacks of the definitions lookup; stated by `SrcBot.DefineSuccessReply` and `SrcBot.RejectionReplies` |
| SrcBot.PronounceReaction | src/bot.js:90-135 | models both callbacks of the pronunciations lookup; stated by `SrcBot.PronounceOutcome` and `SrcBot.RejectionReplies` |
| SrcBot.Respond | src/bot.js:56-142 | models the whole message handler; stated by the `SrcBot` lemmas above |
| RootBot.DefineReaction | bot.js:49-64 | models both callbacks of the definitions lookup; stated by `RootBot.DefineAlwaysReplies` and `RootBot.RejectionReplies` |
| RootBot.PronounceReaction | bot.js:72-105 | models both callbacks of the pronunciations lookup; stated by `RootBot.PronounceOutcome` and `RootBot.RejectionReplies` |
| RootBot.Respond | bot.js:43-112 | models the whole message handler; stated by the `RootBot` lemmas above |
| Command.SplitIndex | src/bot.js:57 | models `message.indexOf(' ')`; stated by `JsString.IndexOf` and `Command.TriggerIsPrefixBeforeFirstSpace` |
| JsString.Truthy | src/bot.js:88-94 | JavaScript truthiness of a string-or-null value, used for `if (channel)` (line 88) and `if (!pronunciationURL)` (line 94); stated by `Command.DispatchPronounce` and `SrcBot.PronounceOutcome` |
| JsString.Text | src/bot.js:70 | `${…}` rendering of a possibly undefined property, `undefined` printed as "undefined"; stated by `SrcBot.DefineSuccessReply` |
| OxfordResponse.FirstLexicalEntry | src/bot.js:31 | models `_.get(res, 'results[0].lexicalEntries[0]', false)`; stated by `SrcBot.ResponseToWordObject` and `SrcBot.DefineSuccessReply` |
| OxfordResponse.DefinitionReadable | src/bot.js:34 | exactly when `entries[0].senses[0].definitions[0]` evaluates without a TypeError (also bot.js:23); decides every `Fault` of `SrcBot.DefineSuccessReply` |
| OxfordResponse.FirstDefinition | src/bot.js:34 | the value of `entries[0].senses[0].definitions[0]`, undefined for an empty `definitions`; stated by `SrcBot.ResponseToWordObject` and `RootBot.ResponseToWordObject` |
| RootBot.EntryReadable | bot.js:20-23 | exactly when the unguarded `res.results[0].lexicalEntries[0]` and its definition path evaluate without a TypeError; decides every `Fault` of `RootBot.DefineAlwaysReplies` |
| RootBot.PronunciationReadable | bot.js:80 | exactly when `res.results[0].lexicalEntries[0].pronunciations[0]` exists, so reading `.audioFile` does not throw; decides every `JoinedThenFault` of `RootBot.PronounceOutcome` |
| Channels.IsVoiceChannelOf | src/bot.js:44 | `type === 2 && userID in members`; stated by `Channels.FirstVoiceChannelNone` and `Channels.FirstVoiceChannelIsFirst` |
| SrcBot.SayIsPronounceThroughout | src/bot.js:85-136 | `!say w` and `!pronounce w` lead to the same reaction for every channel table and lookup outcome, reply strings included |
| RootBot.SayIsPronounceThroughout | bot.js:67-106 | the same for this revision: both triggers react identically for every channel table and lookup outcome |

## Left out

- The discord.io client is an external SDK driven by callbacks. This covers
  login, `sendMessage`, `joinVoiceChannel`, `getAudioContext`,
  `playAudioFile`, `leaveVoiceChannel` and the `fileEnd` handler. Its effects
  appear only as the `Reaction` values `Send`, `Play` and `JoinedThenFault`
  (which records the join). Join and audio-context errors, which are only
  logged, are not modelled.
- The oxford-dictionary promises (`dict.definitions`, `dict.pronunciations`)
  are external network calls. They are passed in as a `Lookup` value that is
  either resolved with a `Response` or rejected. The extra
  `fields: 'definitions'` option in `src/bot.js` is not modelled. A resolved
  value that is not an object (`null`) is not modelled.
- The `temp.mp3` write stream and the `http.get` download pipe are file and
  network I/O, and the shared fixed file name is a concurrency concern. `Play`
  ends the model.
- dotenv, `process.env`, `config.json`/`auth.json` loading and `console`
  logging are configuration and I/O.
- `encodeURI` is a builtin percent-encoding. The actions carry the raw
  argument.
- Only the effect of lodash `_.get` is modelled: follow the path or give the
  default. A field holding a non-string value (for instance a
  `lexicalCategory` object) is not modelled. Responses carry strings, and
  `undefined` renders as "undefined".
- The JavaScript `for…in` enumeration order of `bot.channels` is taken as
  given. The channel table is a sequence in that order.
- Strings are sequences of Dafny `char`, which are Unicode scalar values, not
  UTF-16 code units. For a message with characters outside the Basic
  Multilingual Plane, positions and lengths differ from JavaScript's, but the
  trigger and the argument are the same text.
- Each channel's `members` is a set of user ids. The source's
  `userID in members` also matches keys inherited by every object
  (`constructor`, `toString`, …); ids that are such names are not modelled.
- `Fault` stands for a TypeError thrown inside a promise's success callback.
  `JoinedThenFault` stands for one thrown inside the callback the client
  passes to `getAudioContext`, after the bot has joined the voice channel and
  before the `fileEnd` handler is registered (bot.js:74-83). What follows an
  uncaught exception (by default Node exits the process) and whether the
  client catches it are not modelled; the model records only that nothing is
  sent or played.
