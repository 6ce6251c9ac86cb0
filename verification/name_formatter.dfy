/**
 * `formatName(name, format)` of src/name-formatter.ts: a fifteen-entry token
 * table and a global, case-sensitive, first-alternative-wins replace.
 */
module NameFormatter {
  import opened Wrappers
  import opened AsciiCase
  import opened Names
  import opened TokenScan

  /** `tokenMap`, in the order its keys are written and joined into the regex. */
  const TokenMap: seq<Entry> := [
    Entry("F", First, AsIs), Entry("f", First, ToLower), Entry("FIRST", First, ToUpper),
    Entry("L", Last, AsIs), Entry("l", Last, ToLower), Entry("LAST", Last, ToUpper),
    Entry("M", Middle, AsIs), Entry("m", Middle, ToLower), Entry("MIDDLE", Middle, ToUpper),
    Entry("I", First, InitialUpper), Entry("i", First, InitialLower),
    Entry("J", Middle, InitialUpper), Entry("j", Middle, InitialLower),
    Entry("K", Last, InitialUpper), Entry("k", Last, InitialLower)
  ]

  /** `FIRST`, `LAST` and `MIDDLE` each come after the one-letter key they start with. */
  lemma TokenMapFacts()
    ensures Shadowed(TokenMap) && LetterTable(TokenMap) && WellFormed(TokenMap)
  {
    TokenMapShadowed();
    ShadowedWellFormed(TokenMap, 0, {});
    assert TokenMap[0..] == TokenMap;
    HeadsAreLetters();
    SingleKeysAreLetterEntries();
    EveryLetterListed();
  }

  lemma TokenMapShadowed()
    ensures Shadowed(TokenMap)
  {
  }

  lemma HeadsAreLetters()
    ensures forall k :: 0 <= k < |TokenMap| ==> TokenMap[k].key != "" && TokenMap[k].key[0] in TokenLetters
  {
  }

  lemma SingleKeysAreLetterEntries()
    ensures forall k :: 0 <= k < |TokenMap| && |TokenMap[k].key| == 1 ==> TokenMap[k] == LetterEntry(TokenMap[k].key[0])
  {
  }

  lemma EveryLetterListed()
    ensures forall c :: c in TokenLetters ==> LetterEntry(c) in TokenMap
  {
  }

  /**
   * `formatName(name, format)`: a missing name (`None`) or a falsy format
   * (`None` for null/undefined, or `""`) gives `""`; otherwise every token
   * letter is replaced by its value and every other character is kept.
   */
  function FormatName(name: Option<Name>, format: Option<string>): (r: string)
    ensures name.None? || format.None? || format == Some("") ==> r == ""
    ensures name.Some? && format.Some? ==> r == Letterwise(name.value, format.value)
  {
    TokenMapFacts();
    if name.None? || format.None? || format.value == "" then ""
    else
      ScanIsLetterwise(TokenMap, name.value, format.value);
      Scan(TokenMap, name.value, format.value)
  }

  /**
   * The regex picks the one-letter key equal to the current character, case
   * for case; `FIRST`, `LAST` and `MIDDLE` never win.
   */
  lemma MultiLetterKeysNeverWin(s: string)
    ensures Match(TokenMap, s) == if s != "" && s[0] in TokenLetters then Some(LetterEntry(s[0])) else None
    ensures Match(TokenMap, s).Some? ==> |Match(TokenMap, s).value.key| == 1
  {
    TokenMapFacts();
    LetterTableMatch(TokenMap, s);
  }


  /** The output for `a + b` is the output for `a` followed by the output for `b`. */
  lemma FormatNameAppend(name: Name, a: string, b: string)
    ensures FormatName(Some(name), Some(a + b)) == FormatName(Some(name), Some(a)) + FormatName(Some(name), Some(b))
  {
    LetterwiseAppend(name, a, b);
    if a == "" { assert a + b == b; }
    if b == "" { assert a + b == a; }
  }

  /** A format without token letters comes back unchanged: separators and unknown letters are copied. */
  lemma LiteralsCopied(name: Name, s: string)
    requires forall i :: 0 <= i < |s| ==> s[i] !in TokenLetters
    ensures FormatName(Some(name), Some(s)) == s
  {
    assert FormatName(Some(name), Some(s)) == Letterwise(name, s);
  }

  /** Tokens that read an absent or empty field can be left out of the format. */
  lemma EmptyFieldTokensVanish(name: Name, part: Part, s: string)
    requires Field(name, part) == ""
    ensures FormatName(Some(name), Some(s)) == FormatName(Some(name), Some(Without(s, PartLetters(part))))
  {
    EmptyFieldVanishes(name, part, s);
  }

  /** What the first-name letters stand for on their own (a one-letter format). */
  lemma FirstNameTokens(name: Name)
    ensures Letterwise(name, "F") == Field(name, First)
    ensures Letterwise(name, "f") == Lower(Field(name, First))
    ensures Letterwise(name, "I") == Initial(Field(name, First), true)
    ensures Letterwise(name, "i") == Initial(Field(name, First), false)
  {
  }

  /** What the middle-name letters stand for on their own. */
  lemma MiddleNameTokens(name: Name)
    ensures Letterwise(name, "M") == Field(name, Middle)
    ensures Letterwise(name, "m") == Lower(Field(name, Middle))
    ensures Letterwise(name, "J") == Initial(Field(name, Middle), true)
    ensures Letterwise(name, "j") == Initial(Field(name, Middle), false)
  {
  }

  /** What the last-name letters stand for on their own. */
  lemma LastNameTokens(name: Name)
    ensures Letterwise(name, "L") == Field(name, Last)
    ensures Letterwise(name, "l") == Lower(Field(name, Last))
    ensures Letterwise(name, "K") == Initial(Field(name, Last), true)
    ensures Letterwise(name, "k") == Initial(Field(name, Last), false)
  {
  }
}
