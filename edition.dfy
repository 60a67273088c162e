/**
 * The `/edition/` handler without its HTTP plumbing: the ordered, short-circuiting
 * validation of `lang`, `name` and `local_delivery_time`, the Monday delivery gate,
 * the greeting handed to the template and the string whose digest becomes the ETag.
 */
module Edition {
  import opened Wrappers
  import opened Greetings
  import opened DateStamp

  datatype Weekday = Sunday | Monday | Tuesday | Wednesday | Thursday | Friday | Saturday

  /**
   * What `DateTime.parse` yields for `local_delivery_time`, read in the offset's own
   * local time: the calendar date, the hour of day and the weekday.
   */
  datatype DateTimeRec = DateTimeRec(day: nat, month: nat, year: int, hour: int, weekday: Weekday)

  /** A parsed time whose day and month are in their calendar ranges. */
  predicate ValidDate(t: DateTimeRec) {
    1 <= t.day <= 31 && 1 <= t.month <= 12
  }

  /**
   * The query parameters of one request; `time` is `None` when `local_delivery_time`
   * is missing or `DateTime.parse` rejects it (both are rescued the same way).
   */
  datatype EditionRequest = EditionRequest(lang: Option<string>, name: Option<string>, time: Option<DateTimeRec>)

  /** 400 with a plain-text reason, 204 with no body, or 200 with the greeting and the ETag's digest input. */
  datatype EditionResult = BadRequest(message: string) | NoContent | Ok(greeting: string, etagInput: string)

  const LangMessage := "Error: Invalid or missing lang parameter"
  const NameMessage := "Error: No name provided"
  const TimeMessage := "Error: Invalid or missing local_delivery_time"

  /** `lang` is present and is exactly (case-sensitively) a key of the greeting table. */
  predicate LangAccepted(lang: Option<string>) { lang.Some? && lang.value in Table }

  /** `name` is present and not the empty string. */
  predicate NameAccepted(name: Option<string>) { name.Some? && name.value != "" }

  /** The digest input of the ETag: language, name and the `%d%m%Y` stamp of the local date. */
  function EtagInput(lang: string, name: string, t: DateTimeRec): (s: string)
    ensures |s| >= |lang| + |name| + 8
    ensures s[..|lang|] == lang && s[|lang|..|lang| + |name|] == name
    ensures t.day < 100 && t.month < 100 ==> DecodeStamp(s[|lang| + |name|..]) == Date(t.day, t.month, t.year)
  {
    var stamp := Stamp(t.day, t.month, t.year);
    var s := lang + name + stamp;
    assert s[|lang| + |name|..] == stamp;
    s
  }

  /** The handler: each check returns at once when it fails, in the order lang, name, time, weekday. */
  function HandleEdition(req: EditionRequest): (r: EditionResult)
    ensures r == BadRequest(LangMessage) <==> !LangAccepted(req.lang)
    ensures r == BadRequest(NameMessage) <==> LangAccepted(req.lang) && !NameAccepted(req.name)
    ensures r == BadRequest(TimeMessage) <==>
      LangAccepted(req.lang) && NameAccepted(req.name) && req.time.None?
    ensures r.BadRequest? ==> r.message in {LangMessage, NameMessage, TimeMessage}
    ensures r == NoContent <==>
      LangAccepted(req.lang) && NameAccepted(req.name) && req.time.Some? && req.time.value.weekday != Monday
    ensures r.Ok? <==>
      LangAccepted(req.lang) && NameAccepted(req.name) && req.time.Some? && req.time.value.weekday == Monday
    ensures r.Ok? ==>
      r.greeting == Table[req.lang.value][Slot(req.time.value.hour)] + ", " + req.name.value &&
      r.etagInput == req.lang.value + req.name.value + Stamp(req.time.value.day, req.time.value.month, req.time.value.year)
  {
    if !LangAccepted(req.lang) then BadRequest(LangMessage)
    else if !NameAccepted(req.name) then BadRequest(NameMessage)
    else if req.time.None? then BadRequest(TimeMessage)
    else if req.time.value.weekday != Monday then NoContent
    else
      var lang, name, t := req.lang.value, req.name.value, req.time.value;
      Ok(GreetingFor(lang, t.hour) + ", " + name, EtagInput(lang, name, t))
  }

  /**
   * For a fixed language and name, two delivery times give the same ETag input exactly
   * when they fall on the same local calendar date; the hour and the offset do not matter.
   */
  lemma EtagInputSameDay(lang: string, name: string, t1: DateTimeRec, t2: DateTimeRec)
    requires ValidDate(t1) && ValidDate(t2)
    ensures EtagInput(lang, name, t1) == EtagInput(lang, name, t2) <==>
      t1.day == t2.day && t1.month == t2.month && t1.year == t2.year
  {
  }

  /**
   * With the other two parts fixed, changing the language, or changing the name, changes
   * the ETag input: a deterministic digest of it gives equal tags for equal requests and
   * can only collide, not coincide by construction, for different ones.
   */
  lemma EtagInputSeparatesLanguages(lang1: string, lang2: string, name: string, t: DateTimeRec)
    ensures EtagInput(lang1, name, t) == EtagInput(lang2, name, t) <==> lang1 == lang2
  {
    var s1, s2 := EtagInput(lang1, name, t), EtagInput(lang2, name, t);
    if s1 == s2 {
      assert s1[..|lang1|] == lang1;
      assert s2[..|lang2|] == lang2;
    }
  }

  lemma EtagInputSeparatesNames(lang: string, name1: string, name2: string, t: DateTimeRec)
    ensures EtagInput(lang, name1, t) == EtagInput(lang, name2, t) <==> name1 == name2
  {
    var s1, s2 := EtagInput(lang, name1, t), EtagInput(lang, name2, t);
    if s1 == s2 {
      assert s1[|lang|..|lang| + |name1|] == name1;
      assert s2[|lang|..|lang| + |name2|] == name2;
    }
  }

  /**
   * Two accepted Monday requests for the same language, name and calendar date get the
   * same ETag under any deterministic digest, whatever their hours.
   */
  lemma SameDaySameTag(digest: string -> string, req1: EditionRequest, req2: EditionRequest)
    requires HandleEdition(req1).Ok? && HandleEdition(req2).Ok?
    requires req1.lang == req2.lang && req1.name == req2.name
    requires req1.time.value.day == req2.time.value.day && req1.time.value.month == req2.time.value.month
    requires req1.time.value.year == req2.time.value.year
    ensures digest(HandleEdition(req1).etagInput) == digest(HandleEdition(req2).etagInput)
  {
  }

  /**
   * `/edition/` matches `lang` case-sensitively: "English" is refused although
   * `/validate_config/` accepts it after lowering.
   */
  lemma CapitalisedLanguageRefused(name: Option<string>, time: Option<DateTimeRec>)
    ensures HandleEdition(EditionRequest(Some("English"), name, time)) == BadRequest(LangMessage)
  {
  }
}
