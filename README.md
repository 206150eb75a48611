# Voice agent demos, modelled in Dafny

This project models the four demonstration agents of the Voice Agent
repository:

- the multi-language agent, `MultiLanguageVoiceAgent`;
- the streaming agent, `StreamingVoiceAgent`;
- the custom-voice agent, `CustomVoiceAgent`, with its `VoiceProfile` records;
- the simple chat agent, `SimpleVoiceAgent`.

Printing is removed. Each agent is then a small state machine over one or
two fields, together with a few fixed tables and string templates:

- **Multi-language agent.** It keeps a current language. The field is
  guarded by an eight-entry table, so it can only hold a table key. Two
  demo loops move it through table keys. One visits all eight keys in
  table order and then restores the starting language. The other visits
  the six languages of its phrases ("en", "es", "fr", "de", "zh", "ja")
  and stays on "ja".
- **Streaming agent.** It cuts a reply into one chunk per word, each chunk
  being the word plus a space. It accumulates the chunks and records the
  stripped result after the user's entry in an append-only history. The
  stored reply is the reply's words joined by single spaces.
- **Custom-voice agent.** It keeps a current voice profile, guarded by a
  four-entry table. The profile records default a missing personality to
  "friendly".
- **Simple chat agent.** It echoes every utterance through a fixed
  template and records both sides in an append-only history.

The project's modules, and the Dafny form each takes:

- `Text`: the Python string operations the agents use, as recursive
  functions with their laws:
  - `str.isspace`, `strip`, and `split()` with no argument;
  - `lower`, restricted to ASCII letters.

  It also defines `Join`, words joined by single spaces. No agent calls
  `" ".join`; `Join` is the reference definition against which the
  streamed reply is stated.
- `History`: history entries and the invariant that a history is made of
  whole user/assistant exchanges.
- `SimpleChat`, `MultiLanguage`, `Streaming` and `CustomVoice`: one module
  per demo file.
  - Each agent is a `class` whose methods update its fields in place. Each
    such method's `modifies` clause names the one field it may change:
    `conversationHistory`, `currentLanguage` or `voiceProfile`.
  - The tables are constant maps.
  - The command dispatch of each `run`/`main` loop is a pure
    classification function.
  - One pass of each loop is a `Handle` method.
- `Wrappers`: `Option` and `Result`.

Where the source raises `ValueError` in a constructor, there are two
members:

- a constructor whose `requires` is the guard;
- a static `Create` method returning `Result`, whose `Err` carries the
  exception's message.

A `speak` call is modelled as the utterance it would output: the text,
tagged with the language name or voice profile it is spoken with.
Console input becomes method parameters.

## Model

| member | source | states |
|---|---|---|
| Text.Split | examples/streaming_mode.py:33 | every token `split()` yields is non-empty and contains no whitespace |
| Text.SplitIsWhitespaceSeparated | examples/streaming_mode.py:33 | the tokens of `split()` are the maximal runs of non-whitespace: the input is the tokens interleaved with whitespace-only runs, and the run between two consecutive tokens is non-empty |
| Text.SplitJoin | examples/streaming_mode.py:33 | for whitespace-free, non-empty words, `split()` of the words joined by single spaces gives the words back |
| Text.SplitKeepsNonSpace | examples/streaming_mode.py:33 | `split()` drops only whitespace: concatenating the tokens gives the input's non-whitespace characters, in order |
| Text.IsSpace | examples/streaming_mode.py:33 | `str.isspace` for one character: the characters `split()` and `strip()` treat as whitespace, namely U+0009–U+000D, U+001C–U+0020, U+0085, U+00A0, U+1680, U+2000–U+200A, U+2028, U+2029, U+202F, U+205F and U+3000 |
| Text.StartsWith | examples/multi_language.py:196 | `startswith`: the prefix is no longer than the string and equals its first characters |
| Text.Strip | examples/streaming_mode.py:74 | the stripped string neither starts nor ends with whitespace and is no longer than the input |
| Text.StripRemovesOuterWhitespace | examples/streaming_mode.py:74 | `strip()` gives a slice of its input with only whitespace before and after it; together with `Strip`'s contract, it is the input minus exactly its outer whitespace |
| Text.Lower | examples/simple_chat.py:56 | `lower()` keeps the length |
| Text.LowerAt | examples/simple_chat.py:56 | `lower()` works character by character: each ASCII capital becomes its small letter, and every other character is kept |
| Text.LowerIdempotent | examples/simple_chat.py:56 | lower-casing twice is the same as lower-casing once |
| History.Turn | examples/simple_chat.py:30-35 | one exchange: exactly two entries, the user's content with role "user", then the reply with role "assistant" |
| History.PairedAppend | examples/simple_chat.py:30-35 | appending a user entry and then an assistant entry keeps a history made of whole user/assistant exchanges |
| SimpleChat.ResponseFor | examples/simple_chat.py:33 | the reply template: a fixed prefix, the utterance, a fixed suffix |
| SimpleChat.ResponseQuotesText | examples/simple_chat.py:33 | the reply is the fixed prefix, the utterance verbatim, then the fixed suffix; the utterance can be read back from between them |
| SimpleChat.ResponseForInjective | examples/simple_chat.py:33 | different utterances get different replies |
| SimpleChat.ExitCheckDoesNotStrip | examples/simple_chat.py:56 | the exit test ignores case ("BYE", "Quit" exit) but not surrounding whitespace (" exit" and "exit\t" do not) |
| SimpleChat.IsExitCommand | examples/simple_chat.py:56 | the exit test: the utterance, lower-cased but not stripped, is "exit", "quit" or "bye" |
| SimpleChat.ExitCommandIsUnpadded | examples/simple_chat.py:56 | no utterance that starts or ends with whitespace is an exit command, because the input is not stripped |
| SimpleChat.ExitCheckIgnoresCase | examples/simple_chat.py:56 | utterances with the same lower-case form both exit or both do not; an utterance exits exactly when its lower-case form does |
| SimpleChat.FirstExit | examples/simple_chat.py:50-58 | the number of utterances `run` processes: every utterance before it is not an exit command, and the one at it is |
| SimpleChat.Transcript | examples/simple_chat.py:30-35 | the history that processing a list of utterances in order appends: each utterance's user entry, then its template reply |
| SimpleChat.TranscriptAt | examples/simple_chat.py:30-35 | processing n utterances records 2n entries: the i-th utterance at 2i and its reply at 2i+1 |
| SimpleChat.SimpleVoiceAgent.constructor | examples/simple_chat.py:16-18 | `language` is the argument ("en-US" by default) and the history is empty |
| SimpleChat.SimpleVoiceAgent.Process | examples/simple_chat.py:28-36 | returns the template reply and appends exactly the user entry, then the identical reply; earlier entries and `language` are unchanged |
| SimpleChat.SimpleVoiceAgent.Handle | examples/simple_chat.py:53-62 | a case-insensitive "exit"/"quit"/"bye" (not stripped) ends the loop without touching the history; any other input is processed and its reply returned |
| SimpleChat.SimpleVoiceAgent.Run | examples/simple_chat.py:43-62 | over a script of utterances: processes exactly those before the first exit command, in order, returns their replies and appends their exchanges |
| MultiLanguage.SupportedLanguages | examples/multi_language.py:14-71 | `SUPPORTED_LANGUAGES`: the eight language keys, each with its name, locale code, greeting, goodbye and voice id as written |
| MultiLanguage.LanguageCodes | examples/multi_language.py:14-71 | the keys of `SUPPORTED_LANGUAGES` in the order the dictionary iterates them |
| MultiLanguage.TranslationPhrases | examples/multi_language.py:147-154 | the `phrases` dictionary of `translate_demo`: six language keys and their phrases, in iteration order |
| MultiLanguage.DemoGreetings | examples/multi_language.py:132-134 | what `demonstrate_languages` speaks: every table entry's greeting, in table order, each in its own language |
| MultiLanguage.TranslationUtterances | examples/multi_language.py:157-159 | what `translate_demo` speaks: each phrase in order, in the language it belongs to |
| MultiLanguage.TableSize | examples/multi_language.py:14-71 | the language table has eight entries |
| MultiLanguage.LanguageCodesEnumerateTable | examples/multi_language.py:14-71 | iterating the table visits each of its keys exactly once, in insertion order |
| MultiLanguage.LocaleCodesMatchKeys | examples/multi_language.py:14-71 | each entry's locale code starts with its key followed by "-" |
| MultiLanguage.TranslationLanguagesSupported | examples/multi_language.py:147-154 | every language of the translation demo's phrases is a table key |
| MultiLanguage.LangCommandHasCode | examples/multi_language.py:178-197 | a stripped input whose lower-case form starts with "lang " has a second token, so `split()[1]` cannot fail |
| MultiLanguage.LangPrefixIsNoKeyword | examples/multi_language.py:180-196 | an input starting with "lang " is none of the five command words, so the earlier tests never catch a "lang " command |
| MultiLanguage.Classify | examples/multi_language.py:180-203 | on a stripped line, tested through its lower-case form, each command is chosen exactly when its test holds: "exit"/"quit", "list", "demo", "translate", a "lang " prefix; otherwise the line is echoed. A "lang " command carries the line's second token, not lower-cased. An echo carries the line exactly |
| MultiLanguage.ParseCommand | examples/multi_language.py:178-203 | the same, stated of the raw line: the line is stripped, lower-cased for the tests, and split for the language code, which is `split(strip(line))[1]`; an echo carries the stripped line |
| MultiLanguage.MultiLanguageVoiceAgent.constructor | examples/multi_language.py:73-78 | for a table key, the current language is the argument and the history is empty |
| MultiLanguage.MultiLanguageVoiceAgent.Create | examples/multi_language.py:73-78 | fails with "Unsupported language: " + code exactly when the code is not a table key; otherwise a fresh agent on that language with an empty history |
| MultiLanguage.MultiLanguageVoiceAgent.GetCurrentLanguageInfo | examples/multi_language.py:82-84 | the table entry of the current language, whose locale code starts with the current key |
| MultiLanguage.MultiLanguageVoiceAgent.ChangeLanguage | examples/multi_language.py:86-95 | returns true exactly for a table key and then sets the current language to it; otherwise leaves it unchanged; the language stays a table key |
| MultiLanguage.MultiLanguageVoiceAgent.Speak | examples/multi_language.py:109-112 | the text, spoken in the current language's name |
| MultiLanguage.MultiLanguageVoiceAgent.Greet | examples/multi_language.py:114-117 | speaks the current entry's greeting |
| MultiLanguage.MultiLanguageVoiceAgent.SayGoodbye | examples/multi_language.py:119-122 | speaks the current entry's goodbye |
| MultiLanguage.MultiLanguageVoiceAgent.DemonstrateLanguages | examples/multi_language.py:124-138 | greets in every table language in table order, then the current language equals its value on entry |
| MultiLanguage.MultiLanguageVoiceAgent.TranslateDemo | examples/multi_language.py:141-159 | speaks each phrase in its own language, in order, and leaves "ja" current without restoring |
| MultiLanguage.MultiLanguageVoiceAgent.Handle | examples/multi_language.py:176-204 | one loop pass: quit says goodbye in the language that was current; "lang" switches only to a table key and then greets; list, demo, translate and echo behave as their branches do; the history stays empty |
| MultiLanguage.MainAgent | examples/multi_language.py:214-216 | building the agent with "en" cannot raise, and leaves "en" current |
| Streaming.ResponseText | examples/streaming_mode.py:24-30 | the simulated reply: a fixed opening, the user's input, then fixed text |
| Streaming.Chunks | examples/streaming_mode.py:33-35 | one chunk per word, in order, each the word followed by one space |
| Streaming.GenerateResponseStream | examples/streaming_mode.py:18-36 | the reply's chunks: exactly one per whitespace-separated word of the reply, each the word plus one space |
| Streaming.SpeakStreaming | examples/streaming_mode.py:38-52 | returns the in-order concatenation of every chunk of the stream |
| Streaming.ConcatChunks | examples/streaming_mode.py:33-35 | the concatenated chunks of a non-empty word list are the words joined by single spaces plus one trailing space |
| Streaming.JoinedWordsAreStripped | examples/streaming_mode.py:33-35 | whitespace-free words joined by single spaces neither start nor end with whitespace |
| Streaming.StripDropsTrailingSpace | examples/streaming_mode.py:74 | `strip()` of a stripped string plus one space gives back the string |
| Streaming.StreamedReplyIsJoined | examples/streaming_mode.py:33-35 | for any words from `split()` and their chunks, stripping the concatenated chunks gives the words joined by single spaces |
| Streaming.StoredReply | examples/streaming_mode.py:74 | the reply as stored in the history: the simulated reply's words joined by single spaces |
| Streaming.StoredReplyKeepsWords | examples/streaming_mode.py:68-74 | the stored reply has exactly the simulated reply's words; only the whitespace between them becomes single spaces |
| Streaming.StoredReplyIsJoined | examples/streaming_mode.py:68-74 | stripping the concatenated stream for an input gives the reply's words joined by single spaces |
| Streaming.StreamReply | examples/streaming_mode.py:68-74 | the accumulated stream is the concatenation of all the reply's chunks, and stripping it yields the reply's words joined by single spaces |
| Streaming.ParseStreamCommand | examples/streaming_mode.py:130-138 | lower-cased but not stripped: "exit"/"quit" quit, "demo" compares, and anything else is a message passed on verbatim |
| Streaming.StreamingVoiceAgent.constructor | examples/streaming_mode.py:14-15 | the history starts empty |
| Streaming.StreamingVoiceAgent.ProcessStreaming | examples/streaming_mode.py:59-75 | appends exactly two entries, the user's input verbatim and then the reply's words joined by single spaces; earlier entries are unchanged; returns the streamed text that is shown |
| Streaming.StreamingVoiceAgent.RunComparisonDemo | examples/streaming_mode.py:77-116 | shows the fixed whole reply and streams the reply to the fixed question; it has no `modifies` clause, so the history is untouched |
| Streaming.StreamingVoiceAgent.Handle | examples/streaming_mode.py:126-138 | one loop pass: a case-insensitive "exit"/"quit" ends the loop and shows nothing; "demo" shows the fixed whole reply and then the streamed reply to the fixed question; both leave the history unchanged; any other input is processed as a message, showing its streamed reply and appending its exchange |
| CustomVoice.NewVoiceProfile | examples/custom_voice.py:15-20 | the name, voice id, speed and pitch are stored as given; the personality is stored as given when non-empty, and is "friendly" when missing or empty |
| CustomVoice.Repr | examples/custom_voice.py:22-23 | the `VoiceProfile(name='…', personality='…')` rendering of a profile |
| CustomVoice.ReprRoundTrip | examples/custom_voice.py:22-23 | the rendering `VoiceProfile(name='…', personality='…')` shows exactly the name and the personality, which can be read back from it |
| CustomVoice.VoiceProfiles | examples/custom_voice.py:30-59 | `VOICE_PROFILES`: the four profile keys, each with its profile as written |
| CustomVoice.ProfileNames | examples/custom_voice.py:30-59 | the keys of `VOICE_PROFILES` in the order the dictionary iterates them |
| CustomVoice.ProfileNamesEnumerateTable | examples/custom_voice.py:30-59 | iterating the profile table visits each of its four keys exactly once, in insertion order |
| CustomVoice.ProfilesDistinct | examples/custom_voice.py:30-59 | different keys hold different profiles |
| CustomVoice.ParseChoice | examples/custom_voice.py:120-124 | the answer is stripped and lower-cased; "exit"/"quit" quit; anything else names a profile to try |
| CustomVoice.CustomVoiceAgent.constructor | examples/custom_voice.py:61-65 | for a table key, the current profile is that key's profile |
| CustomVoice.CustomVoiceAgent.Create | examples/custom_voice.py:61-65 | fails with "Unknown voice profile: " + name exactly when the name is not a table key; otherwise a fresh agent on that profile |
| CustomVoice.CustomVoiceAgent.ChangeVoice | examples/custom_voice.py:68-77 | returns true exactly for a table key and then sets that profile; otherwise leaves the profile unchanged; the profile stays one of the four table values |
| CustomVoice.CustomVoiceAgent.Speak | examples/custom_voice.py:79-82 | the text, spoken with the current profile, which is a table profile |
| CustomVoice.DemoUtterances | examples/custom_voice.py:92-96 | what `demonstrate_voices` speaks: the demo text once with every table profile, in table order |
| CustomVoice.CustomVoiceAgent.DemonstrateVoices | examples/custom_voice.py:84-96 | speaks the demo text with every profile in table order and leaves "calm" current, whatever was current before |
| CustomVoice.CustomVoiceAgent.HandleChoice | examples/custom_voice.py:119-128 | one loop pass: quit ends the loop and changes nothing; a known profile becomes current and speaks the given text; an unknown one changes nothing |
| CustomVoice.MainSetup | examples/custom_voice.py:101-109 | building the agent with "friendly" cannot raise; after the demo, "calm" is current |

## Left out

- Console output (`print`, banners, emoji) is not modelled. `speak` is modelled as the utterance it selects.
- `list_supported_languages` only prints, so its command is modelled as speaking nothing.
- `input()` and the `listen` methods become parameters. The `run` loops of the multi-language and streaming agents, and the interactive loop of the custom-voice `main`, are modelled one pass at a time (`Handle`, `HandleChoice`), because the loops only read a line and dispatch it. The simple chat loop is also modelled whole (`SimpleVoiceAgent.Run`) over a finite script.
- SimpleChat.SimpleVoiceAgent.Run: the script stands for a prefix of a session, not for its end. When input runs out, `input()` raises `EOFError`, and the `except Exception` handler of simple_chat.py:67-69 catches it, so `run` would go on looping without processing anything. The multi-language loop (multi_language.py:210) and the streaming loop (streaming_mode.py:143) behave the same way. In the custom-voice `main` the `EOFError` is not caught, and it ends the program.
- The greeting that the multi-language `run` speaks before its loop is output only. It is not modelled.
- `time.sleep` and the wall-clock `time.time()` measurement of the comparison demo are not modelled: they are timing only.
- `load_dotenv()` is not modelled. It loads environment variables that the demos never read.
- The `KeyboardInterrupt` and `except Exception` handlers of the loops are not modelled. They handle signals and exceptions, and no modelled branch raises: `MultiLanguage.LangCommandHasCode` shows that `split()[1]` cannot fail.
- Streaming: generator laziness, and the interleaving of producing and printing chunks, are not modelled. The stream is the finite sequence of its chunks.
- Text.Split: its own contract says only that every token is a word. That the tokens are the maximal non-whitespace runs is stated by `Text.SplitIsWhitespaceSeparated`, and that nothing but whitespace is lost by `Text.SplitKeepsNonSpace`. Keeping these as lemmas keeps every proof that unfolds `Split` small.
- Text.Strip: its own contract gives the non-whitespace ends and the length bound. That the result is the input minus exactly its outer whitespace is stated by `Text.StripRemovesOuterWhitespace`, for the same reason.
- Text.Lower: only ASCII letters are folded; Python's `lower` also folds other Unicode letters. This changes no outcome, because a lower-cased line is only compared against, or tested for a prefix of, ASCII command words and table keys. The only non-ASCII character that Python lower-cases to an ASCII letter is U+212A (Kelvin sign), which becomes 'k'; no command word or key contains a 'k'. U+0130 becomes 'i' followed by U+0307, and U+0307 is not ASCII. Any other non-ASCII character stays non-ASCII. So every membership and `startswith` test gives Python's answer.
- CustomVoice.NewVoiceProfile: the personality argument is an optional string, so only a missing or empty personality counts as falsy. Python's `or` also treats other falsy values (such as 0) that way.
- CustomVoice.ReprRoundTrip: the read-back needs a name without a single quote, because `__repr__` does not escape quotes. The four table profiles satisfy this.
- Speed and pitch are carried as opaque `real` values. Their printed `x` format is not modelled.
