/** The multi-language agent (`MultiLanguageVoiceAgent`): a current-language
    field guarded by a fixed table of eight languages, two demo loops that
    move it through the table, and the command dispatch of its `run` loop.
    Speaking is console output; here it yields the utterance that would be
    spoken, tagged with the name of the language it is spoken in. */
module MultiLanguage {
  import opened Text
  import opened History
  import opened Wrappers

  datatype LanguageInfo = LanguageInfo(
    name: string, code: string, greeting: string, goodbye: string, voiceId: string)

  /** The entries of `SUPPORTED_LANGUAGES`. */
  const English: LanguageInfo := LanguageInfo("English", "en-US",
      "Hello! How can I help you today?", "Goodbye! Have a great day!", "en_voice_001")
  const Spanish: LanguageInfo := LanguageInfo("Spanish", "es-ES",
      "¡Hola! ¿Cómo puedo ayudarte hoy?", "¡Adiós! ¡Que tengas un gran día!", "es_voice_001")
  const French: LanguageInfo := LanguageInfo("French", "fr-FR",
      "Bonjour! Comment puis-je vous aider aujourd'hui?", "Au revoir! Passez une excellente journée!", "fr_voice_001")
  const German: LanguageInfo := LanguageInfo("German", "de-DE",
      "Hallo! Wie kann ich Ihnen heute helfen?", "Auf Wiedersehen! Haben Sie einen schönen Tag!", "de_voice_001")
  const Chinese: LanguageInfo := LanguageInfo("Chinese", "zh-CN",
      "你好！今天我能帮你什么？", "再见！祝你有美好的一天！", "zh_voice_001")
  const Japanese: LanguageInfo := LanguageInfo("Japanese", "ja-JP",
      "こんにちは！今日はどうすればお手伝いできますか？", "さようなら！良い一日を！", "ja_voice_001")
  const Hindi: LanguageInfo := LanguageInfo("Hindi", "hi-IN",
      "नमस्ते! आज मैं आपकी कैसे मदद कर सकता हूं?", "अलविदा! आपका दिन शुभ हो!", "hi_voice_001")
  const Arabic: LanguageInfo := LanguageInfo("Arabic", "ar-SA",
      "مرحبا! كيف يمكنني مساعدتك اليوم؟", "وداعا! أتمنى لك يوما سعيدا!", "ar_voice_001")

  /** `SUPPORTED_LANGUAGES`: language key to its entry. */
  const SupportedLanguages: map<string, LanguageInfo> := map[
    "en" := English,
    "es" := Spanish,
    "fr" := French,
    "de" := German,
    "zh" := Chinese,
    "ja" := Japanese,
    "hi" := Hindi,
    "ar" := Arabic
  ]

  /** The keys of `SUPPORTED_LANGUAGES` in the order the dictionary
      iterates them (insertion order). */
  const LanguageCodes: seq<string> := ["en", "es", "fr", "de", "zh", "ja", "hi", "ar"]

  /** The `phrases` dictionary of `translate_demo`, in iteration order. */
  const TranslationPhrases: seq<(string, string)> := [
    ("en", "Thank you for using the voice agent!"),
    ("es", "¡Gracias por usar el agente de voz!"),
    ("fr", "Merci d'utiliser l'agent vocal!"),
    ("de", "Vielen Dank für die Nutzung des Sprachagenten!"),
    ("zh", "感谢您使用语音代理！"),
    ("ja", "音声エージェントをご利用いただきありがとうございます！")
  ]

  /** The table has eight entries. */
  lemma TableSize()
    ensures |SupportedLanguages| == |LanguageCodes| == 8
  {
  }

  /** Iterating the table visits each of its keys exactly once, in
      `LanguageCodes` order. */
  lemma LanguageCodesEnumerateTable()
    ensures forall c :: c in SupportedLanguages <==> c in LanguageCodes
    ensures forall i, j :: 0 <= i < j < |LanguageCodes| ==> LanguageCodes[i] != LanguageCodes[j]
  {
  }

  /** Every table entry is filed under the language part of its locale
      code ("es" holds "es-ES"). */
  lemma LocaleCodesMatchKeys(c: string)
    requires c in SupportedLanguages
    ensures |SupportedLanguages[c].code| > 2
    ensures SupportedLanguages[c].code[..2] == c && SupportedLanguages[c].code[2] == '-'
  {
    var info := SupportedLanguages[c];
    if c == "en" { assert info == English; }
    else if c == "es" { assert info == Spanish; }
    else if c == "fr" { assert info == French; }
    else if c == "de" { assert info == German; }
    else if c == "zh" { assert info == Chinese; }
    else if c == "ja" { assert info == Japanese; }
    else if c == "hi" { assert info == Hindi; }
    else { assert info == Arabic; }
  }

  /** Every phrase of the translation demo is in a supported language. */
  lemma TranslationLanguagesSupported()
    ensures forall i :: 0 <= i < |TranslationPhrases| ==> TranslationPhrases[i].0 in SupportedLanguages
  {
  }

  /** What `speak` outputs: the text, tagged with a language name. */
  datatype Utterance = Utterance(language: string, text: string)

  /** The utterances of `demonstrate_languages`: every table entry's
      greeting, in table order, each spoken in its own language. */
  function DemoGreetings(): seq<Utterance> {
    seq(|LanguageCodes|, i requires 0 <= i < |LanguageCodes| =>
      Utterance(SupportedLanguages[LanguageCodes[i]].name, SupportedLanguages[LanguageCodes[i]].greeting))
  }

  /** The utterances of `translate_demo`: each phrase in order, spoken in
      its own language. */
  function TranslationUtterances(): seq<Utterance> {
    TranslationLanguagesSupported();
    seq(|TranslationPhrases|, i requires 0 <= i < |TranslationPhrases| =>
      Utterance(SupportedLanguages[TranslationPhrases[i].0].name, TranslationPhrases[i].1))
  }

  /** The commands of the `run` loop. */
  datatype Command =
    | Quit
    | ListLanguages
    | Demo
    | Translate
    | SwitchLanguage(languageCode: string)
    | Echo(text: string)

  /** After `strip()`, an input whose lower-case form starts with "lang "
      has a second whitespace-separated token, so `split()[1]` exists. */
  lemma LangCommandHasCode(input: string)
    requires input == [] || (!IsSpace(input[0]) && !IsSpace(input[|input| - 1]))
    requires StartsWith(Lower(input), "lang ")
    ensures |Split(input)| >= 2
  {
    var lowered := Lower(input);
    assert lowered[4] == ' ';
    LowerAt(input, 4);
    assert input[4] == ' ';
    var j := |input| - 1;
    assert j > 4;
    SplitHasSecondWord(input, j);
  }

  /** A line starting with "lang " is none of the other command words, so
      the order of `run`'s tests does not hide a "lang " command. */
  lemma LangPrefixIsNoKeyword(s: string)
    ensures StartsWith(s, "lang ") ==> s !in ["exit", "quit", "list", "demo", "translate"]
  {
    if StartsWith(s, "lang ") {
      assert s[0] == 'l';
    }
  }

  /** `run`'s tests on a stripped line `input`, made on its lower-case
      form, in the source's order. Each command is chosen exactly when its
      test holds (no two tests can both hold); a "lang " command carries the
      second token of the line, not lower-cased; anything else is echoed. */
  function Classify(input: string): (c: Command)
    requires input == [] || (!IsSpace(input[0]) && !IsSpace(input[|input| - 1]))
    ensures c.Quit? <==> Lower(input) in ["exit", "quit"]
    ensures c.ListLanguages? <==> Lower(input) == "list"
    ensures c.Demo? <==> Lower(input) == "demo"
    ensures c.Translate? <==> Lower(input) == "translate"
    ensures c.SwitchLanguage? <==> StartsWith(Lower(input), "lang ")
    ensures c.SwitchLanguage? ==>
              |Split(input)| >= 2 && c.languageCode == Split(input)[1] && IsWord(c.languageCode)
    ensures c.Echo? <==>
              Lower(input) !in ["exit", "quit", "list", "demo", "translate"] && !StartsWith(Lower(input), "lang ")
    ensures c.Echo? ==> c.text == input
  {
    var lowered := Lower(input);
    LangPrefixIsNoKeyword(lowered);
    if lowered in ["exit", "quit"] then Quit
    else if lowered == "list" then ListLanguages
    else if lowered == "demo" then Demo
    else if lowered == "translate" then Translate
    else if StartsWith(lowered, "lang ") then
      LangCommandHasCode(input);
      SwitchLanguage(Split(input)[1])
    else Echo(input)
  }

  /** How `run` reads one line: strip it, lower-case it, then classify it.
      The contract is `Classify`'s, stated of the raw line. */
  function ParseCommand(rawInput: string): (c: Command)
    ensures c.Quit? <==> Lower(Strip(rawInput)) in ["exit", "quit"]
    ensures c.ListLanguages? <==> Lower(Strip(rawInput)) == "list"
    ensures c.Demo? <==> Lower(Strip(rawInput)) == "demo"
    ensures c.Translate? <==> Lower(Strip(rawInput)) == "translate"
    ensures c.SwitchLanguage? <==> StartsWith(Lower(Strip(rawInput)), "lang ")
    ensures c.SwitchLanguage? ==>
              |Split(Strip(rawInput))| >= 2 && c.languageCode == Split(Strip(rawInput))[1] && IsWord(c.languageCode)
    ensures c.Echo? <==>
              Lower(Strip(rawInput)) !in ["exit", "quit", "list", "demo", "translate"] &&
              !StartsWith(Lower(Strip(rawInput)), "lang ")
    ensures c.Echo? ==> c.text == Strip(rawInput)
  {
    var input := Strip(rawInput);
    Classify(input)
  }

  class MultiLanguageVoiceAgent {
    var currentLanguage: string
    var conversationHistory: seq<Message>

    /** The current language is always a table key, and no operation ever
        records anything in the history. */
    ghost predicate Valid()
      reads this
    {
      currentLanguage in SupportedLanguages && conversationHistory == []
    }

    /** `__init__` once its guard has passed. */
    constructor (defaultLanguage: string := "en")
      requires defaultLanguage in SupportedLanguages
      ensures Valid()
      ensures currentLanguage == defaultLanguage && conversationHistory == []
    {
      currentLanguage := defaultLanguage;
      conversationHistory := [];
    }

    /** `__init__` with its guard: an unsupported code raises ValueError. */
    static method Create(defaultLanguage: string := "en") returns (r: Result<MultiLanguageVoiceAgent>)
      ensures r.Err? <==> defaultLanguage !in SupportedLanguages
      ensures r.Err? ==> r.error == "Unsupported language: " + defaultLanguage
      ensures r.Ok? ==> fresh(r.value) && r.value.Valid() &&
                        r.value.currentLanguage == defaultLanguage && r.value.conversationHistory == []
    {
      if defaultLanguage !in SupportedLanguages {
        return Err("Unsupported language: " + defaultLanguage);
      }
      var agent := new MultiLanguageVoiceAgent(defaultLanguage);
      return Ok(agent);
    }

    /** `get_current_language_info`: the table entry of the current language. */
    function GetCurrentLanguageInfo(): (info: LanguageInfo)
      reads this
      requires Valid()
      ensures info == SupportedLanguages[currentLanguage]
      ensures |info.code| > 2 && info.code[..2] == currentLanguage && info.code[2] == '-'
    {
      LocaleCodesMatchKeys(currentLanguage);
      SupportedLanguages[currentLanguage]
    }

    /** `change_language`: succeeds exactly for a table key, and then the
        current language is that key; otherwise nothing changes. */
    method ChangeLanguage(languageCode: string) returns (changed: bool)
      requires Valid()
      modifies this`currentLanguage
      ensures Valid()
      ensures changed <==> languageCode in SupportedLanguages
      ensures currentLanguage == if changed then languageCode else old(currentLanguage)
    {
      if languageCode !in SupportedLanguages {
        return false;
      }
      currentLanguage := languageCode;
      return true;
    }

    /** `speak`: the text, in the current language. */
    function Speak(text: string): (u: Utterance)
      reads this
      requires Valid()
      ensures u.text == text && u.language == SupportedLanguages[currentLanguage].name
    {
      Utterance(GetCurrentLanguageInfo().name, text)
    }

    /** `greet`: the current language's greeting. */
    function Greet(): (u: Utterance)
      reads this
      requires Valid()
      ensures u == Utterance(SupportedLanguages[currentLanguage].name, SupportedLanguages[currentLanguage].greeting)
    {
      Speak(GetCurrentLanguageInfo().greeting)
    }

    /** `say_goodbye`: the current language's farewell. */
    function SayGoodbye(): (u: Utterance)
      reads this
      requires Valid()
      ensures u == Utterance(SupportedLanguages[currentLanguage].name, SupportedLanguages[currentLanguage].goodbye)
    {
      Speak(GetCurrentLanguageInfo().goodbye)
    }

    /** `demonstrate_languages`: greets once in every table language, in
        table order, then restores the language it started with. */
    method DemonstrateLanguages() returns (spoken: seq<Utterance>)
      requires Valid()
      modifies this`currentLanguage
      ensures Valid()
      ensures currentLanguage == old(currentLanguage)
      ensures spoken == DemoGreetings()
    {
      var originalLanguage := currentLanguage;
      spoken := [];
      for i := 0 to |LanguageCodes|
        invariant Valid()
        invariant spoken == DemoGreetings()[..i]
      {
        var changed := ChangeLanguage(LanguageCodes[i]);
        assert changed;
        spoken := spoken + [Greet()];
      }
      var restored := ChangeLanguage(originalLanguage);
      assert restored;
    }

    /** `translate_demo`: speaks each phrase in its own language and leaves
        the last phrase's language ("ja") current; nothing is restored. */
    method TranslateDemo() returns (spoken: seq<Utterance>)
      requires Valid()
      modifies this`currentLanguage
      ensures Valid()
      ensures currentLanguage == "ja"
      ensures spoken == TranslationUtterances()
    {
      TranslationLanguagesSupported();
      spoken := [];
      for i := 0 to |TranslationPhrases|
        invariant Valid()
        invariant i > 0 ==> currentLanguage == TranslationPhrases[i - 1].0
        invariant spoken == TranslationUtterances()[..i]
      {
        var languageCode := TranslationPhrases[i].0;
        var phrase := TranslationPhrases[i].1;
        var changed := ChangeLanguage(languageCode);
        assert changed;
        spoken := spoken + [Speak(phrase)];
      }
    }

    /** One pass of the `run` loop body. "exit"/"quit" say goodbye and end
        the loop; "lang <code>" changes the language only to a table key and
        then greets; "list" only prints the table; other input is echoed. */
    method Handle(rawInput: string) returns (done: bool, spoken: seq<Utterance>)
      requires Valid()
      modifies this`currentLanguage
      ensures Valid()
      ensures var c := ParseCommand(rawInput);
              && done == c.Quit?
              && (c.Quit? ==> spoken == [old(SayGoodbye())])
              && (c.ListLanguages? ==> spoken == [])
              && (c.Demo? ==> spoken == DemoGreetings())
              && (c.Translate? ==> spoken == TranslationUtterances() && currentLanguage == "ja")
              && (c.SwitchLanguage? ==>
                    if c.languageCode in SupportedLanguages
                    then currentLanguage == c.languageCode && spoken == [Greet()]
                    else currentLanguage == old(currentLanguage) && spoken == [])
              && (c.Echo? ==> spoken == [Speak("You said: '" + c.text + "'")])
              && (!c.Translate? && !c.SwitchLanguage? ==> currentLanguage == old(currentLanguage))
    {
      var command := ParseCommand(rawInput);
      done := false;
      match command {
        case Quit =>
          done := true;
          spoken := [SayGoodbye()];
        case ListLanguages =>
          spoken := [];
        case Demo =>
          spoken := DemonstrateLanguages();
        case Translate =>
          spoken := TranslateDemo();
        case SwitchLanguage(languageCode) =>
          var changed := ChangeLanguage(languageCode);
          spoken := if changed then [Greet()] else [];
        case Echo(text) =>
          spoken := [Speak("You said: '" + text + "'")];
      }
    }
  }

  /** `main` builds the agent with "en", which is supported, so it never
      raises. */
  method MainAgent() returns (agent: MultiLanguageVoiceAgent)
    ensures agent.Valid() && agent.currentLanguage == "en"
  {
    var r := MultiLanguageVoiceAgent.Create("en");
    agent := r.value;
  }
}
