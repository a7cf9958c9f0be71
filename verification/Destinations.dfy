/** Destination matching (app/data/destinations.py) and fare classification. */
module Destinations {
  import opened Domain

  datatype DestinationInfo = DestinationInfo(classification: FareClass, typicalRoundTrip: real)
  datatype Entry = Entry(key: string, info: DestinationInfo)

  const KNOWN_DESTINATIONS: seq<Entry> := [
    Entry("central london", DestinationInfo(Local, 55.0)),
    Entry("paddington", DestinationInfo(Local, 50.0)),
    Entry("kensington", DestinationInfo(Local, 45.0)),
    Entry("chelsea", DestinationInfo(Local, 45.0)),
    Entry("hammersmith", DestinationInfo(Local, 35.0)),
    Entry("ealing", DestinationInfo(Local, 30.0)),
    Entry("richmond", DestinationInfo(Local, 35.0)),
    Entry("hounslow", DestinationInfo(Local, 25.0)),
    Entry("uxbridge", DestinationInfo(Local, 30.0)),
    Entry("canary wharf", DestinationInfo(Local, 60.0)),
    Entry("victoria", DestinationInfo(Local, 50.0)),
    Entry("heathrow hotel", DestinationInfo(Local, 20.0)),
    Entry("windsor", DestinationInfo(FaresFare, 65.0)),
    Entry("reading", DestinationInfo(FaresFare, 75.0)),
    Entry("maidenhead", DestinationInfo(FaresFare, 60.0)),
    Entry("woking", DestinationInfo(FaresFare, 70.0)),
    Entry("guildford", DestinationInfo(FaresFare, 80.0)),
    Entry("basingstoke", DestinationInfo(FaresFare, 90.0)),
    Entry("st albans", DestinationInfo(FaresFare, 85.0)),
    Entry("watford", DestinationInfo(FaresFare, 70.0))
  ]

  /** `needle in text` */
  predicate Contains(text: string, needle: string) {
    needle <= text || (text != "" && Contains(text[1..], needle))
  }

  /** That is, it stands somewhere in the text. */
  lemma {:induction false} ContainsIff(text: string, needle: string)
    ensures Contains(text, needle) <==>
            exists i :: 0 <= i <= |text| - |needle| && text[i..][..|needle|] == needle
  {
    if needle <= text {
      assert text[0..][..|needle|] == needle;
    } else if text != "" {
      ContainsIff(text[1..], needle);
      forall i | 0 <= i <= |text[1..]| - |needle| && text[1..][i..][..|needle|] == needle
        ensures text[i + 1..][..|needle|] == needle
      {
        assert text[1..][i..] == text[i + 1..];
      }
      forall i | 0 <= i <= |text| - |needle| && text[i..][..|needle|] == needle
        ensures 0 < i && text[1..][i - 1..][..|needle|] == needle
      {
        assert i > 0;
        assert text[1..][i - 1..] == text[i..];
      }
      if i :| 0 <= i <= |text| - |needle| && text[i..][..|needle|] == needle {
        assert 0 <= i - 1 <= |text[1..]| - |needle| && text[1..][i - 1..][..|needle|] == needle;
      }
    }
  }

  predicate Overlaps(text: string, key: string) {
    Contains(text, key) || Contains(key, text)
  }

  /** The dictionary lookup: the entry with exactly this key. */
  function ExactIndex(table: seq<Entry>, text: string): nat {
    if table == [] || table[0].key == text then 0 else 1 + ExactIndex(table[1..], text)
  }

  /** The scan with early return: how many entries it passes before one overlaps. */
  function ScanIndex(table: seq<Entry>, text: string): nat {
    if table == [] || Overlaps(text, table[0].key) then 0 else 1 + ScanIndex(table[1..], text)
  }

  function FindIn(table: seq<Entry>, text: string): Option<DestinationInfo> {
    if text == "" then None
    else
      var exact := ExactIndex(table, text);
      if exact < |table| then Some(table[exact].info)
      else
        var first := ScanIndex(table, text);
        if first < |table| then Some(table[first].info) else None
  }

  function FindDestination(text: string): Option<DestinationInfo> {
    FindIn(KNOWN_DESTINATIONS, text)
  }

  predicate IsSpace(c: char) {
    c in " \t\n\r\U{b}\U{c}\U{1c}\U{1d}\U{1e}\U{1f}"
  }

  function Strip(text: string): string {
    if text == "" then text
    else if IsSpace(text[0]) then Strip(text[1..])
    else if IsSpace(text[|text| - 1]) then Strip(text[..|text| - 1])
    else text
  }

  function Lower(text: string): string {
    seq(|text|, i requires 0 <= i < |text| =>
          if 'A' <= text[i] <= 'Z' then (text[i] as int + 32) as char else text[i])
  }

  function ClassifyDestination(text: string, override: Option<FareClass>, roundTripOverride: Option<real>)
    : (FareClass, Option<real>)
  {
    if override.Some? then (override.value, roundTripOverride)
    else
      match FindDestination(Lower(Strip(text)))
      case None => (Standard, None)
      case Some(info) => (info.classification, Some(info.typicalRoundTrip))
  }

  lemma {:induction false} ExactIndexIsFirst(table: seq<Entry>, text: string)
    ensures var n := ExactIndex(table, text);
            && n <= |table|
            && (n < |table| ==> table[n].key == text)
            && forall i :: 0 <= i < n ==> table[i].key != text
  {
    if table != [] && table[0].key != text {
      ExactIndexIsFirst(table[1..], text);
      assert forall i :: 1 <= i < |table| ==> table[i] == table[1..][i - 1];
    }
  }

  lemma {:induction false} ScanIndexIsFirst(table: seq<Entry>, text: string)
    ensures var n := ScanIndex(table, text);
            && n <= |table|
            && (n < |table| ==> Overlaps(text, table[n].key))
            && forall i :: 0 <= i < n ==> !Overlaps(text, table[i].key)
  {
    if table != [] && !Overlaps(text, table[0].key) {
      ScanIndexIsFirst(table[1..], text);
      assert forall i :: 1 <= i < |table| ==> table[i] == table[1..][i - 1];
    }
  }

  /** A known key returns its own entry, whatever other keys overlap it. */
  lemma KnownKeyWins(table: seq<Entry>, i: nat)
    requires i < |table| && table[i].key != ""
    requires forall j, k :: 0 <= j < k < |table| ==> table[j].key != table[k].key
    ensures FindIn(table, table[i].key) == Some(table[i].info)
  {
    ExactIndexIsFirst(table, table[i].key);
  }

  /** There is a match exactly when the text is non-empty and overlaps some key. */
  lemma MatchIff(table: seq<Entry>, text: string)
    ensures FindIn(table, text).Some? <==>
            text != "" && exists i :: 0 <= i < |table| && (Contains(text, table[i].key) || Contains(table[i].key, text))
  {
    ExactIndexIsFirst(table, text);
    ScanIndexIsFirst(table, text);
    var n := ExactIndex(table, text);
    if n < |table| {
      assert Contains(text, table[n].key);
    }
  }

  /** Without an exact hit the answer is the first overlapping key in table order. */
  lemma FirstOverlapWins(table: seq<Entry>, text: string, i: nat)
    requires text != "" && i < |table| && (Contains(text, table[i].key) || Contains(table[i].key, text))
    requires forall j :: 0 <= j < |table| ==> table[j].key != text
    requires forall j :: 0 <= j < i ==> !Contains(text, table[j].key) && !Contains(table[j].key, text)
    ensures FindIn(table, text) == Some(table[i].info)
  {
    ExactIndexIsFirst(table, text);
    ScanIndexIsFirst(table, text);
  }

  // ---- the table itself ----

  lemma KeysAreDistinct(i: nat, j: nat)
    requires i < j < |KNOWN_DESTINATIONS|
    ensures KNOWN_DESTINATIONS[i].key != KNOWN_DESTINATIONS[j].key
  {
  }

  predicate Letter(c: char) {
    'a' <= c <= 'z'
  }

  /** Every key, taken four at a time. */
  lemma KeyIsLetters(group: nat, n: nat)
    requires group < 5 && 4 * group <= n < 4 * group + 4
    ensures n < |KNOWN_DESTINATIONS|
    ensures var key := KNOWN_DESTINATIONS[n].key;
            && key != "" && Letter(key[0]) && Letter(key[|key| - 1])
            && forall j :: 0 <= j < |key| ==> Letter(key[j]) || key[j] == ' '
  {
  }

  // ---- however it is written ----

  predicate Blank(c: char) {
    c == ' ' || 9 <= c as int <= 13 || 28 <= c as int <= 31
  }

  ghost predicate Blanks(text: string) {
    forall i :: 0 <= i < |text| ==> Blank(text[i])
  }

  /** The same character, or its upper-case form. */
  predicate SameLetter(c: char, k: char) {
    c == k || (Letter(k) && c as int + 32 == k as int)
  }

  ghost predicate SameLetters(word: string, plain: string) {
    |word| == |plain| && forall i :: 0 <= i < |word| ==> SameLetter(word[i], plain[i])
  }

  /** Lower-case text, not beginning or ending with a blank. */
  ghost predicate Plain(text: string) {
    && text != "" && !Blank(text[0]) && !Blank(text[|text| - 1])
    && forall i :: 0 <= i < |text| ==> !('A' <= text[i] <= 'Z')
  }

  lemma BlanksAreSpaces(c: char)
    ensures IsSpace(c) <==> Blank(c)
  {
  }

  lemma {:induction false} BlanksAreStripped(before: string, word: string, after: string)
    requires Blanks(before) && Blanks(after) && word != "" && !Blank(word[0]) && !Blank(word[|word| - 1])
    ensures Strip(before + word + after) == word
    decreases |before| + |after|
  {
    hide IsSpace, Blank;
    var text := before + word + after;
    BlanksAreSpaces(text[0]);
    BlanksAreSpaces(text[|text| - 1]);
    if before != "" {
      assert text[0] == before[0];
      assert text[1..] == before[1..] + word + after;
      BlanksAreStripped(before[1..], word, after);
    } else if after != "" {
      assert text[0] == word[0] && text[|text| - 1] == after[|after| - 1];
      assert text[..|text| - 1] == before + word + after[..|after| - 1];
      BlanksAreStripped(before, word, after[..|after| - 1]);
    } else {
      assert text == word;
    }
  }

  lemma CaseIsIgnored(word: string, plain: string)
    requires SameLetters(word, plain) && Plain(plain)
    ensures Lower(word) == plain
    ensures word != "" && !Blank(word[0]) && !Blank(word[|word| - 1])
  {
    assert SameLetter(word[0], plain[0]) && SameLetter(word[|word| - 1], plain[|plain| - 1]);
    forall i | 0 <= i < |word| ensures Lower(word)[i] == plain[i] {
      assert SameLetter(word[i], plain[i]);
    }
  }

  /** Blanks around the text and the case of its letters make no difference to the answer. */
  lemma WritingDoesNotMatter(before: string, word: string, after: string, plain: string)
    requires Blanks(before) && Blanks(after) && SameLetters(word, plain) && Plain(plain)
    ensures ClassifyDestination(before + word + after, None, None) ==
              match FindIn(KNOWN_DESTINATIONS, plain)
              case None => (Standard, None)
              case Some(info) => (info.classification, Some(info.typicalRoundTrip))
  {
    hide Blanks, SameLetters, Plain, Strip, Lower, KNOWN_DESTINATIONS, FindIn;
    CaseIsIgnored(word, plain);
    BlanksAreStripped(before, word, after);
  }

  lemma KeyIsPlain(n: nat)
    requires n < |KNOWN_DESTINATIONS|
    ensures Plain(KNOWN_DESTINATIONS[n].key)
  {
    KeyIsLetters(n / 4, n);
  }

  /** A known place has its own class and estimate, whatever its case, the blanks around it and the
      other keys that overlap it. */
  lemma KnownPlaceAnyCase(before: string, word: string, after: string, i: nat)
    requires i < |KNOWN_DESTINATIONS| && Blanks(before) && Blanks(after)
    requires SameLetters(word, KNOWN_DESTINATIONS[i].key)
    ensures var info := KNOWN_DESTINATIONS[i].info;
            ClassifyDestination(before + word + after, None, None) == (info.classification, Some(info.typicalRoundTrip))
  {
    hide KNOWN_DESTINATIONS, Blanks, SameLetters, Plain, FindIn, ClassifyDestination;
    KeyIsPlain(i);
    WritingDoesNotMatter(before, word, after, KNOWN_DESTINATIONS[i].key);
    ExactKeyAnswers(i);
  }

  lemma ExactKeyAnswers(i: nat)
    requires i < |KNOWN_DESTINATIONS|
    ensures FindIn(KNOWN_DESTINATIONS, KNOWN_DESTINATIONS[i].key) == Some(KNOWN_DESTINATIONS[i].info)
  {
    hide FindIn;
    forall j, k | 0 <= j < k < |KNOWN_DESTINATIONS|
      ensures KNOWN_DESTINATIONS[j].key != KNOWN_DESTINATIONS[k].key
    {
      KeysAreDistinct(j, k);
    }
    KeyIsPlain(i);
    KnownKeyWins(KNOWN_DESTINATIONS, i);
  }

  /** Text that neither contains a key nor is contained in one is a standard fare without estimate. */
  lemma ForeignPlaceIsStandard(before: string, word: string, after: string, plain: string)
    requires Blanks(before) && Blanks(after) && SameLetters(word, plain) && Plain(plain)
    requires forall i :: 0 <= i < |KNOWN_DESTINATIONS| ==>
               !Contains(plain, KNOWN_DESTINATIONS[i].key) && !Contains(KNOWN_DESTINATIONS[i].key, plain)
    ensures ClassifyDestination(before + word + after, None, None) == (Standard, None)
  {
    hide KNOWN_DESTINATIONS, Blanks, SameLetters, Plain, Contains, FindIn, ClassifyDestination;
    WritingDoesNotMatter(before, word, after, plain);
    MatchIff(KNOWN_DESTINATIONS, plain);
  }

  lemma TestedEntries()
    ensures |KNOWN_DESTINATIONS| == 20
    ensures KNOWN_DESTINATIONS[2] == Entry("kensington", DestinationInfo(Local, 45.0))
    ensures KNOWN_DESTINATIONS[7] == Entry("hounslow", DestinationInfo(Local, 25.0))
    ensures KNOWN_DESTINATIONS[12] == Entry("windsor", DestinationInfo(FaresFare, 65.0))
  {
  }

  lemma AsTyped(word: string, i: nat)
    requires i < |KNOWN_DESTINATIONS| && SameLetters(word, KNOWN_DESTINATIONS[i].key)
    ensures var info := KNOWN_DESTINATIONS[i].info;
            ClassifyDestination(word, None, None) == (info.classification, Some(info.typicalRoundTrip))
  {
    hide KNOWN_DESTINATIONS, SameLetters, ClassifyDestination;
    assert "" + word + "" == word;
    KnownPlaceAnyCase("", word, "", i);
  }

  /** Places as the repository's tests write them. */
  lemma TestedPlaces()
    ensures ClassifyDestination("Kensington", None, None) == (Local, Some(45.0))
    ensures ClassifyDestination("Hounslow", None, None) == (Local, Some(25.0))
    ensures ClassifyDestination("Windsor", None, None) == (FaresFare, Some(65.0))
  {
    hide KNOWN_DESTINATIONS, ClassifyDestination;
    TestedEntries();
    AsTyped("Kensington", 2);
    AsTyped("Hounslow", 7);
    AsTyped("Windsor", 12);
  }

  /** Every estimate of the table lies within the floor of its class. */
  lemma EstimatesWithinFloors(i: nat)
    requires i < |KNOWN_DESTINATIONS|
    ensures var info := KNOWN_DESTINATIONS[i].info;
            || (info.classification == Local && 20.0 <= info.typicalRoundTrip <= 60.0)
            || (info.classification == FaresFare && 60.0 <= info.typicalRoundTrip <= 90.0)
  {
  }

  lemma KeyHasOwnClass(i: nat)
    requires i < |KNOWN_DESTINATIONS|
    ensures var entry := KNOWN_DESTINATIONS[i];
            ClassifyDestination(entry.key, None, None) == (entry.info.classification, Some(entry.info.typicalRoundTrip))
  {
    var key := KNOWN_DESTINATIONS[i].key;
    assert "" + key + "" == key;
    KnownPlaceAnyCase("", key, "", i);
  }
}
