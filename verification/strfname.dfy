/**
 * src/strfname.ts: `formatName(options)`, whose options object carries the
 * name fields and an optional format, and a module-level default format that
 * `setDefaultFormat` replaces. Its token table has only the twelve
 * one-letter keys, so the replace is a per-character map.
 */
module Strfname {
  import opened Wrappers
  import opened Names
  import opened TokenScan
  import NameFormatter

  /**
   * `FormatNameOptions`: the three name fields and `format`, each `None` for
   * `null` / `undefined`.
   */
  datatype FormatNameOptions = FormatNameOptions(
    firstName: Option<string>,
    middleName: Option<string>,
    lastName: Option<string>,
    format: Option<string>)
  {
    /** The options object seen as the `Name` the token lambdas read. */
    function AsName(): Name
    {
      Name(firstName, middleName, lastName)
    }
  }

  /** `tokenMap`, in the order its keys are written and joined into the regex. */
  const TokenMap: seq<Entry> := [
    Entry("F", First, AsIs), Entry("f", First, ToLower),
    Entry("L", Last, AsIs), Entry("l", Last, ToLower),
    Entry("M", Middle, AsIs), Entry("m", Middle, ToLower),
    Entry("I", First, InitialUpper), Entry("i", First, InitialLower),
    Entry("J", Middle, InitialUpper), Entry("j", Middle, InitialLower),
    Entry("K", Last, InitialUpper), Entry("k", Last, InitialLower)
  ]

  /** The value `globalDefaultFormat` starts with. */
  const InitialDefaultFormat: string := "F L"

  /** Every key is one of the twelve token letters, and each letter has its entry. */
  lemma TokenMapFacts()
    ensures Shadowed(TokenMap) && LetterTable(TokenMap) && WellFormed(TokenMap)
    ensures forall k :: 0 <= k < |TokenMap| ==> |TokenMap[k].key| == 1
  {
    TokenMapShadowed();
    ShadowedWellFormed(TokenMap, 0, {});
    assert TokenMap[0..] == TokenMap;
    HeadsAreLetters();
    KeysAreLetterEntries();
    EveryLetterListed();
  }

  lemma TokenMapShadowed()
    ensures Shadowed(TokenMap)
  {
  }

  lemma HeadsAreLetters()
    ensures forall k :: 0 <= k < |TokenMap| ==> TokenMap[k].key != "" && TokenMap[k].key[0] in TokenLetters
  {
  }

  lemma KeysAreLetterEntries()
    ensures forall k :: 0 <= k < |TokenMap| ==> |TokenMap[k].key| == 1 && TokenMap[k] == LetterEntry(TokenMap[k].key[0])
  {
  }

  lemma EveryLetterListed()
    ensures forall c :: c in TokenLetters ==> LetterEntry(c) in TokenMap
  {
  }

  /** `options.format || globalDefaultFormat`: a null, undefined or empty format falls back. */
  function FormatToUse(format: Option<string>, defaultFormat: string): (r: string)
    ensures r == "" <==> (format.None? || format.value == "") && defaultFormat == ""
    ensures r == defaultFormat || format == Some(r)
    ensures r != defaultFormat ==> format == Some(r) && r != ""
    ensures format.Some? && format.value != "" ==> r == format.value
  {
    if format.Some? && format.value != "" then format.value else defaultFormat
  }

  /**
   * What `formatName(options)` returns when the default format is
   * `defaultFormat`: `""` without options or without a format to use;
   * otherwise every token letter of the format to use replaced by its value
   * and every other character kept.
   */
  function Render(options: Option<FormatNameOptions>, defaultFormat: string): (r: string)
    ensures options.None? ==> r == ""
    ensures options.Some? ==> r == Letterwise(options.value.AsName(), FormatToUse(options.value.format, defaultFormat))
  {
    if options.None? then ""
    else
      var formatToUse := FormatToUse(options.value.format, defaultFormat);
      if formatToUse == "" then ""
      else
        TokenMapFacts();
        ScanIsLetterwise(TokenMap, options.value.AsName(), formatToUse);
        Scan(TokenMap, options.value.AsName(), formatToUse)
  }

  /** The module state of src/strfname.ts: the default format. */
  class Formatter {
    var globalDefaultFormat: string

    constructor()
      ensures globalDefaultFormat == InitialDefaultFormat
    {
      globalDefaultFormat := InitialDefaultFormat;
    }

    /** `setDefaultFormat`: replaces the default unconditionally, `""` included. */
    method SetDefaultFormat(newDefaultFormat: string)
      modifies this
      ensures globalDefaultFormat == newDefaultFormat
    {
      globalDefaultFormat := newDefaultFormat;
    }

    /**
     * `formatName(options)`: reads the default at call time and changes
     * nothing (it has no `modifies` clause).
     */
    method FormatName(options: Option<FormatNameOptions>) returns (r: string)
      ensures r == Render(options, globalDefaultFormat)
      ensures options.None? ==> r == ""
      ensures options.Some? && options.value.format.Some? && options.value.format.value != ""
        ==> r == Letterwise(options.value.AsName(), options.value.format.value)
      ensures options.Some? && (options.value.format.None? || options.value.format == Some(""))
        ==> r == Letterwise(options.value.AsName(), globalDefaultFormat)
    {
      if options.None? {
        return "";
      }
      var formatToUse := globalDefaultFormat;
      if options.value.format.Some? && options.value.format.value != "" {
        formatToUse := options.value.format.value;
      }
      if formatToUse == "" {
        return "";
      }
      var name := options.value.AsName();
      TokenMapFacts();
      ScanIsLetterwise(TokenMap, name, formatToUse);
      r := Scan(TokenMap, name, formatToUse);
    }
  }

  /** A non-empty explicit format makes the default irrelevant. */
  lemma ExplicitFormatIgnoresDefault(o: FormatNameOptions, d1: string, d2: string)
    requires o.format.Some? && o.format.value != ""
    ensures Render(Some(o), d1) == Render(Some(o), d2)
  {
  }

  /** Without an explicit format, the result is the default format applied to the name. */
  lemma FallsBackToDefault(o: FormatNameOptions, d: string)
    requires o.format.None? || o.format == Some("")
    ensures Render(Some(o), d) == Letterwise(o.AsName(), d)
  {
    assert FormatToUse(o.format, d) == d;
  }

  /** With no explicit format and an empty default there is nothing to format. */
  lemma EmptyDefaultGivesEmpty(o: FormatNameOptions)
    requires o.format.None? || o.format == Some("")
    ensures Render(Some(o), "") == ""
  {
  }

  /**
   * Both replaces give the same output on every format: the fifteen-entry
   * table of src/name-formatter.ts adds only keys that never win.
   */
  lemma {:induction false} TablesAgree(name: Name, s: string)
    ensures WellFormed(TokenMap) && WellFormed(NameFormatter.TokenMap)
    ensures Scan(TokenMap, name, s) == Scan(NameFormatter.TokenMap, name, s)
  {
    TokenMapFacts();
    NameFormatter.TokenMapFacts();
    ScanIsLetterwise(TokenMap, name, s);
    ScanIsLetterwise(NameFormatter.TokenMap, name, s);
  }

  /**
   * `formatName(options)` agrees with `formatName(name, format)` of
   * src/name-formatter.ts on the same fields and the format it uses.
   */
  lemma AgreesWithNameFormatter(o: FormatNameOptions, d: string)
    ensures Render(Some(o), d) == NameFormatter.FormatName(Some(o.AsName()), Some(FormatToUse(o.format, d)))
  {
  }

  /** Every key is one character, so the output of `a + b` is that of `a` then that of `b`. */
  lemma {:induction false} ScanAppend(name: Name, a: string, b: string)
    ensures WellFormed(TokenMap)
    ensures Scan(TokenMap, name, a + b) == Scan(TokenMap, name, a) + Scan(TokenMap, name, b)
  {
    TokenMapFacts();
    ScanIsLetterwise(TokenMap, name, a + b);
    ScanIsLetterwise(TokenMap, name, a);
    ScanIsLetterwise(TokenMap, name, b);
    LetterwiseAppend(name, a, b);
  }

  /**
   * The life of the module state: the default starts as `"F L"`, formatting
   * leaves it alone, and `setDefaultFormat("")` makes option-less formats empty.
   */
  method DefaultFormatLifecycle(o: FormatNameOptions) returns (before: string, after: string)
    requires o.format.None? || o.format == Some("")
    ensures before == Letterwise(o.AsName(), InitialDefaultFormat)
    ensures after == ""
  {
    var f := new Formatter();
    before := f.FormatName(Some(o));
    assert f.globalDefaultFormat == InitialDefaultFormat;
    f.SetDefaultFormat("");
    after := f.FormatName(Some(o));
  }
}
