/** The producer panel's prompt composition: the prompt and lyrics are
    joined, then the optional tempo, key, mood and instrument role are
    appended as one comma-separated line. Also the key selectors, which keep
    a key such as "C# Minor" in one string, and the mood and role toggles. */
module MusicProducers {
  import opened JsText

  /** The musical settings; `bpm` is `None` while the number field is empty. */
  datatype PromptSettings = PromptSettings(bpm: Option<int>, key: string, mood: string, role: string)

  /** The base prompt: the lyrics follow the prompt after a blank line. */
  function BasePrompt(prompt: string, lyrics: string): (r: string)
    ensures StartsWith(r, prompt)
    ensures lyrics == "" ==> r == prompt
    ensures lyrics != "" ==> r[|prompt|..] == "\n\n" + lyrics
  {
    if lyrics != "" then prompt + "\n\n" + lyrics else prompt
  }

  predicate HasBpm(p: PromptSettings) {
    p.bpm.Some? && p.bpm.value > 0
  }

  /** The text that records each setting that is on. */
  function BpmText(bpm: int): string {
    IntToString(bpm) + " BPM"
  }

  /** The additions, in the order the prompt lists them. */
  function Additions(p: PromptSettings): seq<string> {
    (if HasBpm(p) then [BpmText(p.bpm.value)] else [])
      + (if p.key != "" then ["Key: " + p.key] else [])
      + (if p.mood != "" then ["Mood: " + p.mood] else [])
      + (if p.role != "" then ["Instrument role: " + p.role] else [])
  }

  /** `buildEnhancedPrompt`: the base prompt, unchanged when no setting is
      on, and otherwise followed by a blank line and the additions joined
      with ", ". */
  method BuildEnhancedPrompt(basePrompt: string, p: PromptSettings) returns (enhanced: string)
    ensures StartsWith(enhanced, basePrompt)
    ensures !HasBpm(p) && p.key == "" && p.mood == "" && p.role == "" ==> enhanced == basePrompt
    ensures Additions(p) != [] ==> enhanced == basePrompt + "\n\n" + Join(Additions(p), ", ")
  {
    enhanced := basePrompt;
    var additions: seq<string> := [];
    if p.bpm.Some? && p.bpm.value > 0 {
      additions := additions + [BpmText(p.bpm.value)];
    }
    if p.key != "" {
      additions := additions + ["Key: " + p.key];
    }
    if p.mood != "" {
      additions := additions + ["Mood: " + p.mood];
    }
    if p.role != "" {
      additions := additions + ["Instrument role: " + p.role];
    }
    assert additions == Additions(p);
    if |additions| > 0 {
      enhanced := enhanced + "\n\n" + Join(additions, ", ");
    }
  }

  function Count(b: bool): nat {
    if b then 1 else 0
  }

  /** Each setting that is on contributes exactly one addition, at the
      position its rank gives it: tempo, key, mood, role. */
  lemma AdditionsInOrder(p: PromptSettings)
    ensures var a := Additions(p);
      var b, k, m, r := Count(HasBpm(p)), Count(p.key != ""), Count(p.mood != ""), Count(p.role != "");
      && |a| == b + k + m + r
      && (HasBpm(p) ==> a[0] == BpmText(p.bpm.value))
      && (p.key != "" ==> a[b] == "Key: " + p.key)
      && (p.mood != "" ==> a[b + k] == "Mood: " + p.mood)
      && (p.role != "" ==> a[b + k + m] == "Instrument role: " + p.role)
  {
  }

  /** A tempo of "" or of 0 or below adds nothing; a positive tempo is
      written in decimal and reads back as itself. */
  lemma {:induction false} BpmReadsBack(p: PromptSettings)
    ensures !HasBpm(p) ==> Additions(p) == Additions(p.(bpm := None))
    ensures HasBpm(p) ==>
      var text := Additions(p)[0];
      var digits := text[..|text| - 4];
      text[|text| - 4..] == " BPM" && AllDigits(digits) && DigitsValue(digits) == p.bpm.value
  {
    if HasBpm(p) {
      var n: nat := p.bpm.value;
      var text := Additions(p)[0];
      assert text == NatToString(n) + " BPM";
      assert text[..|text| - 4] == NatToString(n);
      NatToStringRoundTrip(n);
    }
  }

  // ---------------------------------------------------------------------
  // Key selectors
  // ---------------------------------------------------------------------

  const KeyNames: seq<string> := ["C", "C#", "D", "D#", "E", "F", "F#", "G", "G#", "A", "A#", "B"]

  /** The type select's options, "" standing for "Type". */
  predicate KeyTypeOption(t: string) {
    t == "" || t == "Major" || t == "Minor"
  }

  /** What the base select shows for a key: its first word. */
  function ShownBase(key: string): string {
    FirstWord(key)
  }

  /** What the type select shows for a key. */
  function ShownType(key: string): string {
    if Contains(key, "Major") then "Major" else if Contains(key, "Minor") then "Minor" else ""
  }

  /** Choosing `base` in the base select keeps the " Major" or " Minor"
      suffix; choosing the empty option clears the key. The trim is the
      identity on these strings and is not modelled. */
  function SelectBase(key: string, base: string): string {
    var suffix := if Contains(key, "Major") then " Major" else if Contains(key, "Minor") then " Minor" else "";
    if base != "" then base + suffix else ""
  }

  /** Choosing `keyType` in the type select. */
  function SelectType(key: string, keyType: string): string {
    var base := FirstWord(key);
    if base != "" && keyType != "" then base + " " + keyType else base
  }

  /** The keys the two selects can produce. */
  datatype MusicalKey = NoKey | Key(name: string, keyType: string)

  predicate WellFormed(k: MusicalKey) {
    k.Key? ==> k.name in KeyNames && KeyTypeOption(k.keyType)
  }

  function KeyText(k: MusicalKey): string {
    match k
    case NoKey => ""
    case Key(name, t) => if t == "" then name else name + " " + t
  }

  /** Skipping a prefix that does not hold the first character of `t`. */
  lemma {:induction false} ContainsSkip(p: string, rest: string, t: string)
    requires t != [] && t[0] !in p
    ensures Contains(p + rest, t) == Contains(rest, t)
    decreases |p|
  {
    if p != [] {
      assert (p + rest)[0] == p[0] != t[0];
      assert !StartsWith(p + rest, t);
      assert (p + rest)[1..] == p[1..] + rest;
      ContainsSkip(p[1..], rest, t);
    } else {
      assert p + rest == rest;
    }
  }

  lemma {:induction false} ContainsEnd(p: string, t: string)
    ensures Contains(p + t, t)
    decreases |p|
  {
    if p != [] {
      assert (p + t)[1..] == p[1..] + t;
      ContainsEnd(p[1..], t);
    }
  }

  lemma KeyNameFacts(name: string)
    requires name in KeyNames
    ensures 1 <= |name| <= 2 && ' ' !in name && 'M' !in name && name != ""
  {
  }

  /** The first word of `p + " " + rest` is `p` when `p` has no space. */
  lemma {:induction false} FirstWordOfJoined(p: string, rest: string)
    requires ' ' !in p
    ensures FirstWord(p + " " + rest) == p && FirstWord(p) == p
    decreases |p|
  {
    if p != [] {
      assert (p + " " + rest)[1..] == p[1..] + " " + rest;
      FirstWordOfJoined(p[1..], rest);
    }
  }

  /** The selects show a well-formed key's parts. */
  lemma {:induction false} ShownParts(k: MusicalKey)
    requires WellFormed(k)
    ensures ShownBase(KeyText(k)) == (if k.Key? then k.name else "")
    ensures ShownType(KeyText(k)) == (if k.Key? then k.keyType else "")
  {
    if k.Key? {
      KeyNameFacts(k.name);
      FirstWordOfJoined(k.name, k.keyType);
      var text := KeyText(k);
      ContainsSkip(k.name, "", "Major");
      ContainsSkip(k.name, "", "Minor");
      if k.keyType == "Major" {
        ContainsEnd(k.name + " ", "Major");
        assert text == (k.name + " ") + "Major";
      } else if k.keyType == "Minor" {
        ContainsEnd(k.name + " ", "Minor");
        assert text == (k.name + " ") + "Minor";
        ContainsSkip(k.name + " ", "Minor", "Major");
        assert !StartsWith("Minor", "Major");
        assert "Minor"[1..] == "inor" + "";
        ContainsSkip("inor", "", "Major");
      }
    }
  }

  /** Choosing a base appends the type the type select shows. */
  lemma SelectBaseUsesShownType(key: string, base: string)
    ensures SelectBase(key, base) ==
      if base == "" then "" else if ShownType(key) == "" then base else base + " " + ShownType(key)
  {
  }

  /** Choosing a base keeps the type; the empty base clears the key. */
  lemma {:induction false} SelectBaseKeepsType(k: MusicalKey, base: string)
    requires WellFormed(k)
    ensures SelectBase(KeyText(k), base) ==
      if base == "" then "" else KeyText(Key(base, if k.Key? then k.keyType else ""))
  {
    ShownParts(k);
    SelectBaseUsesShownType(KeyText(k), base);
  }

  /** Choosing a type applies it to the current base; without a base the key
      stays empty. */
  lemma {:induction false} SelectTypeKeepsBase(k: MusicalKey, keyType: string)
    requires WellFormed(k) && KeyTypeOption(keyType)
    ensures SelectType(KeyText(k), keyType) == if k.NoKey? then "" else KeyText(Key(k.name, keyType))
  {
    ShownParts(k);
  }

  // ---------------------------------------------------------------------
  // Mood and role
  // ---------------------------------------------------------------------

  /** Clicking an option: the selected one is cleared, any other selected. */
  function Toggle(current: string, clicked: string): (r: string)
    requires clicked != ""
    ensures r == "" <==> current == clicked
    ensures r != "" ==> r == clicked
  {
    if current == clicked then "" else clicked
  }

  /** Clicking the same option twice returns to where one started, unless
      another option was selected, which the first click replaced. */
  lemma ToggleTwice(current: string, clicked: string)
    requires clicked != ""
    ensures Toggle(Toggle(current, clicked), clicked) == if current == clicked then clicked else ""
  {
  }
}
