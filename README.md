# Little Printer "hello world" publication — verified model

The publication is a small Sinatra service. It greets a subscriber in one of seven
languages on the paper of a Little Printer. Under its HTTP handlers it holds
three pieces of logic, modelled here without the HTTP plumbing:

- **The greeting table and slot selection** (module `Greetings`). This is the fixed map from
  a lowercase language to its [morning, afternoon, evening] greetings. It also holds the
  `case date.hour` that picks a slot, the ASCII `downcase` used by the config check,
  and the fixed greeting of the `/sample/` edition.
- **The `/edition/` decision** (modules `Edition` and `DateStamp`). This is a pure function
  from the request's `lang`, `name` and parsed `local_delivery_time` to one of three results:
  a 400 with its reason, a 204 (the Monday gate), or a 200 carrying the template's greeting
  and the string whose MD5 becomes the ETag. `DateStamp` models `strftime('%d%m%Y')` and
  decodes it back, which shows that the stamp determines the calendar date.
- **The `/validate_config/` checks** (module `ConfigValidation`). Methods build the
  `{errors, valid}` response with a loop-free sequence of updates, as the handler does.
  They are proved against `ExpectedErrors`, a reference function whose properties
  are lemmas. The code as written and the intended behaviour are both modelled; see
  "## Findings".

Two behaviours of the code are easy to misread. The model follows the code in both:

- Hours 18..24 get the *afternoon* greeting. The empty `when 18..24` sits right
  above `when 0..3` with `i = 2`, which reads as if both ranges were meant to be
  evening. Ruby's `case` does not fall through, though, so the empty branch keeps
  the initial index 1 (`Greetings.Slot`).
- The three checks of `/validate_config/` (lines 131-148), applied to an empty name
  and an empty language, give three errors, not two. `"".downcase` is not a table
  key, so the unknown-language message (echoing an empty language) follows the other
  two (`ConfigValidation.EmptySettingsGetThreeErrors`). The handler reaches these
  checks with such values only once its lookups use string keys
  (`ConfigValidation.ValidateConfig`). As written, every parsed config crashes
  first; see "## Findings".

## Model

| member | source | states |
|---|---|---|
| Greetings.TableKeys | publication.rb:8-16 | the table's keys are exactly english, french, german, spanish, portuguese, italian, swedish |
| Greetings.TableSize | publication.rb:8-16 | the table has exactly seven entries |
| Greetings.TableKeysLowercase | publication.rb:8-16 | every key is lowercase, so lowering a key yields that key |
| Greetings.TableEntriesHaveThreeSlots | publication.rb:8-16 | every entry has three greetings, so any slot 0..2 is a valid index |
| Greetings.Lower | publication.rb:143 | ASCII `downcase` keeps the length, lowers each capital letter, leaves every other character alone, and returns a lowercase string |
| Greetings.Slot | publication.rb:81-90 | slot is below 3; morning exactly for hours 4..11; evening exactly for 0..3; afternoon for every other hour, 18..24 included (Ruby `case` has no fall-through) |
| Greetings.GreetingFor | publication.rb:81-98 | for a table language the greeting is its morning entry for hours 4..11, its evening entry for hours 0..3, and its afternoon entry for every other hour (18..24 included) |
| Greetings.SampleGreeting | publication.rb:34 | the sample greeting is "Good morning, Little Printer" |
| DateStamp.YearField | publication.rb:96 | Ruby's `%Y`: for a year that is not negative, all digits, at least four of them, and exactly four for a year in 0..9999. For a negative year, '-' followed by at least four digits. It decodes back to the year |
| DateStamp.Stamp | publication.rb:96 | `%d%m%Y` has at least eight characters, all digits when the year is not negative. With a two-digit day and month and a year in 0..9999 it is exactly eight digits, DDMMYYYY. With a two-digit day and month it decodes back to the day, month and year (any sign) it was made from |
| DateStamp.StampInjective | publication.rb:96 | two dates have the same stamp if and only if they are the same date |
| Edition.EtagInput | publication.rb:96 | the digest input starts with the language, then the name, then at least eight stamp characters. For a two-digit day and month the rest decodes to the local calendar date |
| Edition.HandleEdition | publication.rb:54-100 | the checks run in a fixed order and stop at the first failure. An invalid or missing lang gives the lang 400, whatever name and time are. Otherwise a missing or empty name gives the name 400. Otherwise an unparsed time gives the time 400. Otherwise any weekday but Monday gives 204. 200 happens if and only if all checks pass on a Monday: its greeting is `table[lang][Slot(hour)] + ", " + name` and its ETag input is `lang + name + ddmmyyyy` |
| Edition.EtagInputSameDay | publication.rb:92-96 | with language and name fixed, two delivery times give the same ETag input if and only if they fall on the same local date |
| Edition.EtagInputSeparatesLanguages | publication.rb:92-96 | with name and time fixed, the ETag inputs are equal if and only if the languages are equal |
| Edition.EtagInputSeparatesNames | publication.rb:92-96 | with language and time fixed, the ETag inputs are equal if and only if the names are equal |
| Edition.SameDaySameTag | publication.rb:92-96 | two accepted requests with the same language, name and date get equal tags under any deterministic digest |
| Edition.CapitalisedLanguageRefused | publication.rb:55-56 | `/edition/` matches lang case-sensitively: "English" gets the lang 400 |
| ConfigValidation.UnknownLanguageMessage | publication.rb:147 | the unknown-language message holds the submitted language exactly as typed, starting at a fixed offset |
| ConfigValidation.SymbolLookupMisses | publication.rb:128-138 | a symbol key is never found in a hash made by `JSON.parse` |
| ConfigValidation.ExpectedErrors | publication.rb:131-148 | at most three errors. The lang message appears if and only if lang is empty. The name message appears if and only if name is missing or empty. The unknown-language message appears if and only if lowered lang is not a key. No other messages appear |
| ConfigValidation.MessagesDistinct | publication.rb:134-147 | the three error messages are pairwise different |
| ConfigValidation.ErrorsOrdered | publication.rb:131-148 | errors appear in check order (lang, name, unknown language), each at most once |
| ConfigValidation.CheckSettings | publication.rb:121-148 | as written: it crashes if and only if lang is nil. Otherwise it reports exactly `ExpectedErrors`, and the report is valid if and only if there are no errors |
| ConfigValidation.CheckSettingsGuarded | publication.rb:121-148 | intended: always a report, with a nil lang treated as "". It reports exactly `ExpectedErrors`, and the report is valid if and only if there are no errors |
| ConfigValidation.ValidateConfigAsWritten | publication.rb:115-151 | a missing config gives 400 "There is no config to validate." (nothing else does). Malformed JSON crashes. Every hash `JSON.parse` makes (string keys only) crashes too, because the lookups use symbol keys |
| ConfigValidation.ValidateConfig | publication.rb:115-151 | intended: the same 400, and malformed JSON still crashes. Otherwise the "lang" and "name" string-key lookups get a report with exactly `ExpectedErrors`, valid if and only if there are none |
| ConfigValidation.AliceInEnglishIsValid | publication.rb:131-148 | the three checks give no errors for lang "english" and name "Alice" (the values `ValidateConfig`'s string-key lookups find in `{"name":"Alice","lang":"english"}`; as written that config crashes) |
| ConfigValidation.CapitalisedLanguageAccepted | publication.rb:143 | membership is tested on the lowered language, so lang "English" with name "Alice" gives no errors from the three checks |
| ConfigValidation.KlingonIsReported | publication.rb:143-147 | for lang "Klingon" and name "Bob" the three checks give exactly the unknown-language error, and that message contains "Klingon" |
| ConfigValidation.EmptySettingsGetThreeErrors | publication.rb:131-148 | for an empty lang and an empty name the three checks give the lang error, the name error and the unknown-language error, in that order |

## Left out

- HTTP routing, `get '/'` (a fixed text), status codes, headers and `content_type`: these are server plumbing. Each outcome is a datatype constructor instead.
- Sinatra's `etag` helper on a conditional request: it can halt with 304 (a matching If-None-Match) or 412 (a failing If-Match) before the greeting is built. It is header plumbing, so `Edition.HandleEdition` always reaches its 200 outcome on an accepted Monday request.
- ERB rendering of `:edition`: it is an external template. The model stops at the greeting string the template receives.
- `Digest::MD5.hexdigest`: a foreign call. The edition result carries the string it is applied to. `Edition.SameDaySameTag` takes the digest as a function parameter.
- `DateTime.parse`: a library parser. The model takes its result as an optional record with local day, month, year, hour and weekday. `None` stands for a missing or rejected `local_delivery_time`. The hour is any integer, so hours outside 0..23 fall to the initial slot as they would in the code.
- `JSON.parse` and `to_json`: library (de)serialisation. A parsed config is a map from Ruby keys to string values. JSON values that are not strings (numbers, arrays, null) are not modelled, and neither is a top-level JSON value that is not an object.
- `p user_settings`: debug output.
- `downcase` beyond ASCII: `Greetings.Lower` lowers only A..Z. The table keys are ASCII.
- A crash is one outcome (`Crash`). The 500 page Sinatra renders for it is not modelled.

## Findings

| source | as written | input that shows it | evidently intended | confidence | as-written member | corrected member |
|---|---|---|---|---|---|---|
| publication.rb:132-143 | `user_settings[:lang]` and `user_settings[:name]` use symbol keys on the hash from `JSON.parse`, whose keys are strings. Both lookups are always nil, and line 143 then sends `downcase` to nil | config `{"name":"Alice","lang":"english"}` | look up "lang" and "name" and answer `{"valid":true,"errors":[]}` | high; not executed | ConfigValidation.ValidateConfigAsWritten | ConfigValidation.ValidateConfig |
| publication.rb:143 | `user_settings[:lang].downcase` has no nil guard, so a config without lang raises instead of reporting | config `{"name":"Alice"}` (with string-key lookups) | treat a missing lang like an empty one: lang error plus unknown-language error, `valid` false | medium; not executed | ConfigValidation.CheckSettings | ConfigValidation.CheckSettingsGuarded |
