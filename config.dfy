/**
 * The `/validate_config/` handler without its HTTP plumbing. The response starts as
 * `{errors: [], valid: true}` and three independent checks run in turn; each failing
 * check clears `valid` and appends its fixed message.
 *
 * Two versions are given. `ValidateConfigAsWritten` and `CheckSettings` do what the
 * handler's code does: `ValidateConfigAsWritten` looks the settings up under symbol
 * keys, which a parsed JSON object never has, and passes the two lookups to
 * `CheckSettings`, which crashes when `lang` is absent because `.downcase` is sent
 * to `nil`. `ValidateConfig` and `CheckSettingsGuarded` are the intended behaviour:
 * lookups under string keys, and an absent `lang` treated as the empty string.
 */
module ConfigValidation {
  import opened Wrappers
  import opened Greetings

  const NoConfigMessage := "There is no config to validate."
  const LangMissingMessage := "Please choose a language from the menu."
  const NameMissingMessage := "Please enter your name into the name box."

  /** The message of the third check, echoing the submitted language as it was typed. */
  function UnknownLanguageMessage(lang: string): (m: string)
    ensures |m| == 44 + |lang| + 25
    ensures m[44..44 + |lang|] == lang
  {
    "We couldn't find the language you selected (" + lang + "). Please choose another."
  }

  /** A key of a Ruby hash: a string such as "lang", or a symbol such as :lang. */
  datatype Key = Str(text: string) | Sym(name: string)

  /** The hash into which `JSON.parse` turns the config: every key it makes is a string. */
  predicate FromJson(settings: map<Key, string>) {
    forall k :: k in settings ==> k.Str?
  }

  /** `hash[key]`: the value under exactly that key, or `nil`. */
  function Lookup(settings: map<Key, string>, key: Key): (v: Option<string>)
    ensures v.Some? <==> key in settings
    ensures v.Some? ==> v.value == settings[key]
  {
    if key in settings then Some(settings[key]) else None
  }

  /** A hash made by `JSON.parse`. */
  type JsonHash = settings: map<Key, string> | FromJson(settings) witness map[]

  /** A symbol key is never found in a hash made by `JSON.parse`. */
  lemma SymbolLookupMisses(settings: map<Key, string>, name: string)
    requires FromJson(settings)
    ensures Lookup(settings, Sym(name)) == None
  {
  }

  /** The `config` form field: missing, present but not JSON, or parsed. */
  datatype ConfigParam = Absent | Malformed | Parsed(settings: JsonHash)

  /** 400 for a missing config, a raised exception (500), or the JSON report. */
  datatype ConfigOutcome = BadRequest(message: string) | Crash | Report(valid: bool, errors: seq<string>)

  predicate Blank(v: Option<string>) { v.None? || v.value == "" }

  /**
   * The errors the three checks accumulate for a present `lang`, in check order: lang
   * empty, name missing or empty, and lowered lang not a table key.
   */
  function ExpectedErrors(lang: string, name: Option<string>): (errors: seq<string>)
    ensures |errors| <= 3
    ensures LangMissingMessage in errors <==> lang == ""
    ensures NameMissingMessage in errors <==> Blank(name)
    ensures UnknownLanguageMessage(lang) in errors <==> Lower(lang) !in Table
    ensures forall m :: m in errors ==>
      m == LangMissingMessage || m == NameMissingMessage || m == UnknownLanguageMessage(lang)
  {
    MessagesDistinct(lang);
    (if lang == "" then [LangMissingMessage] else []) +
    (if Blank(name) then [NameMissingMessage] else []) +
    (if Lower(lang) !in Table then [UnknownLanguageMessage(lang)] else [])
  }

  /** The three messages differ, so no message stands for two checks. */
  lemma MessagesDistinct(lang: string)
    ensures LangMissingMessage != NameMissingMessage
    ensures UnknownLanguageMessage(lang) != LangMissingMessage
    ensures UnknownLanguageMessage(lang) != NameMissingMessage
  {
    var opening := "We couldn't find the language you selected (";
    assert UnknownLanguageMessage(lang)[0] == opening[0] == 'W';
  }

  /** Position of a message in the order the checks run. */
  function Rank(m: string): nat {
    if m == LangMissingMessage then 0 else if m == NameMissingMessage then 1 else 2
  }

  /** The errors come in check order, each at most once. */
  lemma ErrorsOrdered(lang: string, name: Option<string>)
    ensures var e := ExpectedErrors(lang, name);
      forall i, j :: 0 <= i < j < |e| ==> Rank(e[i]) < Rank(e[j])
  {
  }

  /**
   * Lines 121-148 as written, given the two lookups: no check short-circuits, and the
   * third check raises when `lang` is `nil`. The report is valid exactly when no
   * error was appended.
   */
  method CheckSettings(lang: Option<string>, name: Option<string>) returns (out: ConfigOutcome)
    ensures out == Crash <==> lang.None?
    ensures lang.Some? ==> out.Report? && out.errors == ExpectedErrors(lang.value, name)
    ensures out.Report? ==> (out.valid <==> out.errors == [])
  {
    var valid := true;
    var errors: seq<string> := [];
    if Blank(lang) {
      valid := false;
      errors := errors + [LangMissingMessage];
    }
    if Blank(name) {
      valid := false;
      errors := errors + [NameMissingMessage];
    }
    if lang.None? {
      // `.downcase` is sent to nil: NoMethodError, and the response is never sent.
      return Crash;
    }
    if Lower(lang.value) !in Table {
      valid := false;
      errors := errors + [UnknownLanguageMessage(lang.value)];
    }
    out := Report(valid, errors);
  }

  /** What Ruby's `"#{lang}"` interpolation prints: `nil` becomes the empty string. */
  function Echo(lang: Option<string>): (s: string)
    ensures lang.Some? ==> s == lang.value
    ensures lang.None? ==> s == ""
  {
    lang.GetOr("")
  }

  /**
   * The checks with the third one guarded: an absent `lang` fails it like an empty one,
   * so the outcome is always a report, the one an empty `lang` gets.
   */
  method CheckSettingsGuarded(lang: Option<string>, name: Option<string>) returns (out: ConfigOutcome)
    ensures out == Report(ExpectedErrors(Echo(lang), name) == [], ExpectedErrors(Echo(lang), name))
  {
    var valid := true;
    var errors: seq<string> := [];
    if Blank(lang) {
      valid := false;
      errors := errors + [LangMissingMessage];
    }
    if Blank(name) {
      valid := false;
      errors := errors + [NameMissingMessage];
    }
    var typed := Echo(lang);
    if Lower(typed) !in Table {
      valid := false;
      errors := errors + [UnknownLanguageMessage(typed)];
    }
    out := Report(valid, errors);
  }

  /**
   * The handler as written: settings looked up under `:lang` and `:name`. Since
   * `JSON.parse` makes string keys only, both lookups give `nil` and every parsed
   * config crashes.
   */
  method ValidateConfigAsWritten(config: ConfigParam) returns (out: ConfigOutcome)
    ensures config.Absent? <==> out == BadRequest(NoConfigMessage)
    ensures config.Malformed? ==> out == Crash
    ensures config.Parsed? ==> out == Crash
  {
    match config
    case Absent =>
      out := BadRequest(NoConfigMessage);
    case Malformed =>
      out := Crash;
    case Parsed(settings) =>
      out := CheckSettings(Lookup(settings, Sym("lang")), Lookup(settings, Sym("name")));
      SymbolLookupMisses(settings, "lang");
  }

  /** The handler as intended: settings looked up under "lang" and "name", `lang` guarded. */
  method ValidateConfig(config: ConfigParam) returns (out: ConfigOutcome)
    ensures config.Absent? <==> out == BadRequest(NoConfigMessage)
    ensures config.Malformed? ==> out == Crash
    ensures config.Parsed? ==>
      var lang, name := Lookup(config.settings, Str("lang")), Lookup(config.settings, Str("name"));
      out == Report(ExpectedErrors(Echo(lang), name) == [], ExpectedErrors(Echo(lang), name))
  {
    match config
    case Absent =>
      out := BadRequest(NoConfigMessage);
    case Malformed =>
      out := Crash;
    case Parsed(settings) =>
      out := CheckSettingsGuarded(Lookup(settings, Str("lang")), Lookup(settings, Str("name")));
  }

  /** A known language and a name: no errors, so the report is valid. */
  lemma AliceInEnglishIsValid()
    ensures ExpectedErrors("english", Some("Alice")) == []
  {
    TableKeysLowercase();
  }

  /** Membership is tested on the lowered language, so a capitalised key is accepted. */
  lemma CapitalisedLanguageAccepted()
    ensures ExpectedErrors("English", Some("Alice")) == []
  {
    var lowered := Lower("English");
    assert lowered[0] == LowerChar('E') == 'e';
    assert forall i :: 1 <= i < 7 ==> lowered[i] == LowerChar("English"[i]) == "English"[i];
    assert lowered == "english";
    TableKeys();
    assert lowered in Table;
  }

  /** An unknown language is reported once, and the message carries it as submitted. */
  lemma KlingonIsReported()
    ensures ExpectedErrors("Klingon", Some("Bob")) == [UnknownLanguageMessage("Klingon")]
    ensures UnknownLanguageMessage("Klingon")[44..51] == "Klingon"
  {
    TableKeys();
    var lowered := Lower("Klingon");
    assert lowered[0] == LowerChar('K') == 'k';
    assert lowered !in Table;
  }

  /**
   * An empty language fails the first check and, since "" is not a key, the third one
   * too: the empty config gets three errors.
   */
  lemma EmptySettingsGetThreeErrors()
    ensures ExpectedErrors("", Some("")) ==
      [LangMissingMessage, NameMissingMessage, UnknownLanguageMessage("")]
  {
  }
}
