/**
 * `format.replace(regex, callback)` where the regex is the keys of a token
 * table joined by `|` with only the `g` flag.
 *
 * Regex alternation tries the alternatives in the order written and takes the
 * first that matches, not the longest; matching is case-sensitive.  A global
 * replace therefore scans left to right: where some key starts, the first such
 * key in table order is replaced by its derived value and the scan resumes
 * after it; elsewhere one character is copied unchanged.
 */
module TokenScan {
  import opened Wrappers
  import opened Names

  predicate IsPrefix(p: string, s: string) { |p| <= |s| && s[..|p|] == p }

  /** Every key is non-empty, so every match consumes at least one character. */
  predicate WellFormed(t: seq<Entry>) { forall e :: e in t ==> e.key != "" }

  /** The first characters of the keys: the only characters at which a match can start. */
  function KeyHeads(t: seq<Entry>): (r: set<char>)
    ensures forall e :: e in t && e.key != "" ==> e.key[0] in r
    ensures forall c :: c in r ==> exists e :: e in t && e.key != "" && e.key[0] == c
  {
    if t == [] then {}
    else (if t[0].key != "" then {t[0].key[0]} else {}) + KeyHeads(t[1..])
  }

  /** The first entry at index `i` or later whose key starts `s`. */
  function MatchFrom(t: seq<Entry>, s: string, i: nat): (r: Option<Entry>)
    ensures r.Some? ==> r.value in t && IsPrefix(r.value.key, s)
    ensures r.None? ==> forall k :: i <= k < |t| ==> !IsPrefix(t[k].key, s)
    decreases |t| - i
  {
    if i >= |t| then None
    else if IsPrefix(t[i].key, s) then Some(t[i])
    else MatchFrom(t, s, i + 1)
  }

  /** The alternative the regex picks at the start of `s`. */
  function Match(t: seq<Entry>, s: string): (r: Option<Entry>)
    ensures r.Some? ==> r.value in t && IsPrefix(r.value.key, s)
    ensures r.None? ==> forall e :: e in t ==> !IsPrefix(e.key, s)
  {
    MatchFrom(t, s, 0)
  }

  lemma {:induction false} MatchFromIsFirst(t: seq<Entry>, s: string, j: nat, i: nat)
    requires j <= i < |t| && IsPrefix(t[i].key, s)
    requires forall k :: j <= k < i ==> !IsPrefix(t[k].key, s)
    ensures MatchFrom(t, s, j) == Some(t[i])
    decreases i - j
  {
    if j < i {
      MatchFromIsFirst(t, s, j + 1, i);
    }
  }

  /** The match is the first entry, in table order, whose key starts `s`. */
  lemma MatchIsFirst(t: seq<Entry>, s: string, i: nat)
    requires i < |t| && IsPrefix(t[i].key, s)
    requires forall k :: 0 <= k < i ==> !IsPrefix(t[k].key, s)
    ensures Match(t, s) == Some(t[i])
  {
    MatchFromIsFirst(t, s, 0, i);
  }

  /** The global replace over the whole format string. */
  function Scan(t: seq<Entry>, name: Name, s: string): (r: string)
    requires WellFormed(t)
    ensures (forall i :: 0 <= i < |s| ==> s[i] !in KeyHeads(t)) ==> r == s
    decreases |s|
  {
    if s == "" then ""
    else match Match(t, s)
      case Some(e) => Derive(e, name) + Scan(t, name, s[|e.key|..])
      case None => [s[0]] + Scan(t, name, s[1..])
  }

  // ---------------------------------------------------------------------------
  // Shadowed keys

  /**
   * From index `i` on, every key is one character, or longer and shadowed: an
   * earlier one-character key (collected in `seen`) is its first character.
   */
  predicate ShadowedAt(t: seq<Entry>, i: nat, seen: set<char>)
    decreases |t| - i
  {
    i >= |t| ||
    if |t[i].key| == 1 then ShadowedAt(t, i + 1, seen + {t[i].key[0]})
    else |t[i].key| > 1 && t[i].key[0] in seen && ShadowedAt(t, i + 1, seen)
  }

  predicate Shadowed(t: seq<Entry>) { ShadowedAt(t, 0, {}) }

  lemma {:induction false} ShadowedWellFormed(t: seq<Entry>, i: nat, seen: set<char>)
    requires i <= |t| && ShadowedAt(t, i, seen)
    ensures WellFormed(t[i..])
    decreases |t| - i
  {
    if i < |t| {
      ShadowedWellFormed(t, i + 1, if |t[i].key| == 1 then seen + {t[i].key[0]} else seen);
      assert t[i..] == [t[i]] + t[i + 1..];
    }
  }

  lemma {:induction false} MatchByHeadAt(t: seq<Entry>, i: nat, seen: set<char>, s: string)
    requires ShadowedAt(t, i, seen)
    requires s != "" && s[0] !in seen
    ensures MatchFrom(t, s, i) == MatchFrom(t, [s[0]], i)
    decreases |t| - i
  {
    if i < |t| {
      var k := t[i].key;
      if |k| == 1 {
        if k == [s[0]] {
          assert IsPrefix(k, s) && IsPrefix(k, [s[0]]);
        } else {
          assert !IsPrefix(k, s) && !IsPrefix(k, [s[0]]);
          MatchByHeadAt(t, i + 1, seen + {k[0]}, s);
        }
      } else {
        assert !IsPrefix(k, s) by {
          if |k| <= |s| { assert s[..|k|][0] == s[0]; }
        }
        MatchByHeadAt(t, i + 1, seen, s);
      }
    }
  }

  /**
   * In a shadowed table the first character alone decides the match, so the
   * winning key is always one character long: a longer key never wins.
   */
  lemma MatchByHead(t: seq<Entry>, s: string)
    requires Shadowed(t) && s != ""
    ensures Match(t, s) == Match(t, [s[0]])
    ensures Match(t, s).Some? ==> Match(t, s).value.key == [s[0]]
  {
    ShadowedWellFormed(t, 0, {});
    assert t[0..] == t;
    MatchByHeadAt(t, 0, {}, s);
  }

  // ---------------------------------------------------------------------------
  // The twelve single-letter tokens

  /** The letters that are keys of both token tables. */
  const TokenLetters: set<char> := {'F', 'f', 'L', 'l', 'M', 'm', 'I', 'i', 'J', 'j', 'K', 'k'}

  /** The entry a token letter has in both tables. */
  function LetterEntry(c: char): (e: Entry)
    requires c in TokenLetters
    ensures e.key == [c]
    ensures (c == 'F' || c == 'f' || c == 'I' || c == 'i') <==> e.part == First
    ensures (c == 'M' || c == 'm' || c == 'J' || c == 'j') <==> e.part == Middle
    ensures (c == 'L' || c == 'l' || c == 'K' || c == 'k') <==> e.part == Last
    ensures e.transform == (if c in {'F', 'L', 'M'} then AsIs
                            else if c in {'f', 'l', 'm'} then ToLower
                            else if c in {'I', 'J', 'K'} then InitialUpper
                            else InitialLower)
  {
    match c
    case 'F' => Entry("F", First, AsIs)
    case 'f' => Entry("f", First, ToLower)
    case 'L' => Entry("L", Last, AsIs)
    case 'l' => Entry("l", Last, ToLower)
    case 'M' => Entry("M", Middle, AsIs)
    case 'm' => Entry("m", Middle, ToLower)
    case 'I' => Entry("I", First, InitialUpper)
    case 'i' => Entry("i", First, InitialLower)
    case 'J' => Entry("J", Middle, InitialUpper)
    case 'j' => Entry("j", Middle, InitialLower)
    case 'K' => Entry("K", Last, InitialUpper)
    case 'k' => Entry("k", Last, InitialLower)
  }

  /**
   * A table whose keys all start with a token letter, whose one-character
   * keys are exactly the letter entries, and which lists every letter.
   */
  predicate LetterTable(t: seq<Entry>)
  {
    && (forall k :: 0 <= k < |t| ==> t[k].key != "" && t[k].key[0] in TokenLetters)
    && (forall k :: 0 <= k < |t| && |t[k].key| == 1 ==> t[k] == LetterEntry(t[k].key[0]))
    && (forall c :: c in TokenLetters ==> LetterEntry(c) in t)
  }

  /** What one format character becomes: a token letter's value, or itself. */
  function LetterValue(name: Name, c: char): (r: string)
    ensures c !in TokenLetters ==> r == [c]
    ensures c in TokenLetters && Field(name, LetterEntry(c).part) == "" ==> r == ""
    ensures c in TokenLetters && IsInitial(LetterEntry(c).transform) ==> |r| <= 1
    ensures c in TokenLetters && !IsInitial(LetterEntry(c).transform) ==> |r| == |Field(name, LetterEntry(c).part)|
  {
    if c in TokenLetters then Derive(LetterEntry(c), name) else [c]
  }

  /** Reference definition: each character replaced independently, results concatenated in order. */
  function Letterwise(name: Name, s: string): (r: string)
    ensures (forall i :: 0 <= i < |s| ==> s[i] !in TokenLetters) ==> r == s
  {
    if s == "" then "" else LetterValue(name, s[0]) + Letterwise(name, s[1..])
  }

  lemma LetterMatch(t: seq<Entry>, c: char)
    requires LetterTable(t)
    ensures Match(t, [c]) == if c in TokenLetters then Some(LetterEntry(c)) else None
  {
    var m := Match(t, [c]);
    if m.Some? {
      var k :| 0 <= k < |t| && t[k] == m.value;
      assert t[k].key == [c];
    }
  }

  /** In a shadowed letter table the match is the entry of the first character, if it is a token letter. */
  lemma LetterTableMatch(t: seq<Entry>, s: string)
    requires Shadowed(t) && LetterTable(t)
    ensures Match(t, s) == if s != "" && s[0] in TokenLetters then Some(LetterEntry(s[0])) else None
  {
    if s != "" {
      MatchByHead(t, s);
      LetterMatch(t, s[0]);
    } else {
      NothingMatchesEmpty(t);
    }
  }

  lemma NothingMatchesEmpty(t: seq<Entry>)
    requires Shadowed(t)
    ensures Match(t, "") == None
  {
    ShadowedWellFormed(t, 0, {});
    assert t[0..] == t;
  }

  /** In a shadowed letter table the scan is the per-character reference. */
  lemma {:induction false} ScanIsLetterwise(t: seq<Entry>, name: Name, s: string)
    requires Shadowed(t) && LetterTable(t)
    ensures WellFormed(t) && Scan(t, name, s) == Letterwise(name, s)
    decreases |s|
  {
    ShadowedWellFormed(t, 0, {});
    assert t[0..] == t;
    if s != "" {
      MatchByHead(t, s);
      LetterMatch(t, s[0]);
      ScanIsLetterwise(t, name, s[1..]);
    }
  }

  /** No reordering: the output of a concatenation is the concatenation of the outputs. */
  lemma {:induction false} LetterwiseAppend(name: Name, a: string, b: string)
    ensures Letterwise(name, a + b) == Letterwise(name, a) + Letterwise(name, b)
  {
    if a != "" {
      assert (a + b)[0] == a[0] && (a + b)[1..] == a[1..] + b;
      LetterwiseAppend(name, a[1..], b);
      assert Letterwise(name, a + b) == LetterValue(name, a[0]) + Letterwise(name, a[1..] + b);
    } else {
      assert a + b == b;
    }
  }

  /** The token letters whose entry reads `part`. */
  function PartLetters(part: Part): (r: set<char>)
    ensures forall c :: c in r <==> c in TokenLetters && LetterEntry(c).part == part
  {
    match part
    case First => {'F', 'f', 'I', 'i'}
    case Middle => {'M', 'm', 'J', 'j'}
    case Last => {'L', 'l', 'K', 'k'}
  }

  /** `s` with every character of `drop` removed, the rest kept in order. */
  function Without(s: string, drop: set<char>): (r: string)
    ensures |r| <= |s|
    ensures forall i :: 0 <= i < |r| ==> r[i] !in drop
  {
    if s == "" then ""
    else if s[0] in drop then Without(s[1..], drop)
    else [s[0]] + Without(s[1..], drop)
  }

  /**
   * A field that is absent or empty contributes nothing: every token reading
   * it can be deleted from the format, and the literals around it stay.
   */
  lemma {:induction false} EmptyFieldVanishes(name: Name, part: Part, s: string)
    requires Field(name, part) == ""
    ensures Letterwise(name, s) == Letterwise(name, Without(s, PartLetters(part)))
    decreases |s|
  {
    if s != "" {
      EmptyFieldVanishes(name, part, s[1..]);
      if s[0] in PartLetters(part) {
      } else {
        var w := Without(s[1..], PartLetters(part));
        assert ([s[0]] + w)[0] == s[0] && ([s[0]] + w)[1..] == w;
      }
    }
  }
}
