/**
 * The publication's process-wide greeting table, the ASCII lower-casing used when a
 * submitted language is compared with it, the time-of-day slot selection of the
 * edition handler and the fixed greeting of the sample edition.
 */
module Greetings {

  /** Language (a lowercase key) to [morning, afternoon, evening] greetings. */
  const Table: map<string, seq<string>> := map[
    "english"    := ["Good morning", "Hello", "Good evening"],
    "french"     := ["Bonjour", "Bonjour", "Bonsoir"],
    "german"     := ["Guten morgen", "Hallo", "Guten abend"],
    "spanish"    := ["Buenos días", "Hola", "Buenas noches"],
    "portuguese" := ["Bom dia", "Olá", "Boa noite"],
    "italian"    := ["Buongiorno", "Ciao", "Buonasera"],
    "swedish"    := ["God morgon", "Hallå", "God kväll"]
  ]

  /** Slot indices into a table entry. */
  const Morning := 0
  const Afternoon := 1
  const Evening := 2

  predicate IsUpper(c: char) { 'A' <= c <= 'Z' }

  /** ASCII `downcase` of one character; every other character is left alone. */
  function LowerChar(c: char): (r: char)
    ensures !IsUpper(r)
    ensures IsUpper(c) ==> r as int == c as int + 32
    ensures !IsUpper(c) ==> r == c
  {
    if IsUpper(c) then (c as int + 32) as char else c
  }

  /** No character of `s` is an ASCII capital. */
  predicate IsLowercase(s: string) {
    forall i :: 0 <= i < |s| ==> !IsUpper(s[i])
  }

  /** ASCII `downcase` of a string, character by character. */
  function Lower(s: string): (r: string)
    ensures |r| == |s|
    ensures forall i :: 0 <= i < |s| ==> r[i] == LowerChar(s[i])
    ensures IsLowercase(r)
  {
    if s == [] then [] else [LowerChar(s[0])] + Lower(s[1..])
  }

  /** The table's keys are exactly the seven languages. */
  lemma TableKeys()
    ensures Table.Keys == {"english", "french", "german", "spanish", "portuguese", "italian", "swedish"}
  {
  }

  /** The seven languages are pairwise different, so the table has seven entries. */
  lemma TableSize()
    ensures |Table| == 7
  {
  }

  /** Every key is lowercase, so lowering a key gives the key back. */
  lemma TableKeysLowercase()
    ensures forall l :: l in Table ==> IsLowercase(l) && Lower(l) == l
  {
  }

  /** Every entry holds three greetings, so any slot index 0..2 is in bounds for any key. */
  lemma TableEntriesHaveThreeSlots()
    ensures forall l :: l in Table ==> |Table[l]| == 3
  {
  }

  /**
   * The slot the edition handler picks for a local hour, as Ruby's `case` evaluates it:
   * the first matching `when` range wins and no branch falls through, so the empty
   * `when 18..24` branch leaves the initial index 1 in place.
   */
  function Slot(hour: int): (i: nat)
    ensures i < 3
    ensures i == Morning <==> 4 <= hour <= 11
    ensures i == Evening <==> 0 <= hour <= 3
    ensures i == Afternoon <==> hour < 0 || 12 <= hour
    ensures 18 <= hour <= 24 ==> i == Afternoon
  {
    // Ruby starts from `i = 1`; a branch with no assignment, and no match at all, keep it.
    if 4 <= hour <= 11 then Morning
    else if 12 <= hour <= 17 then Afternoon
    else if 18 <= hour <= 24 then Afternoon
    else if 0 <= hour <= 3 then Evening
    else Afternoon
  }

  /**
   * The greeting for a known language at a local hour: the morning entry from 4 to 11,
   * the evening entry from 0 to 3, and the afternoon entry for every other hour.
   */
  function GreetingFor(lang: string, hour: int): (g: string)
    requires lang in Table
    ensures 4 <= hour <= 11 ==> g == Table[lang][Morning]
    ensures 0 <= hour <= 3 ==> g == Table[lang][Evening]
    ensures !(0 <= hour <= 11) ==> g == Table[lang][Afternoon]
  {
    TableEntriesHaveThreeSlots();
    Table[lang][Slot(hour)]
  }

  /** The greeting of the sample edition: the English morning greeting to "Little Printer". */
  function SampleGreeting(): (g: string)
    ensures g == "Good morning, Little Printer"
  {
    assert Table["english"] == ["Good morning", "Hello", "Good evening"];
    Table["english"][Morning] + ", Little Printer"
  }
}
