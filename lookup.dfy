/** The two registry lookups of Parser.java: linear scans where the first declared match wins. */
module Lookup {
  import opened Wrappers
  import opened Text
  import opened Options

  /** The option is selected by `letter` in tar and short forms. */
  predicate HasFirstLetter(option: OptionSpec, letter: char) {
    |option.alias| > 0 && option.alias[0] == letter
  }

  /** The option is selected by the long-form abbreviation `abbr`. */
  predicate HasAbbreviation(option: OptionSpec, abbr: string) {
    StartsWith(option.alias, abbr)
  }

  /** `findByFirstLetter`: a declared option whose alias begins with `letter`, if any (the earliest, see below). */
  function FindByFirstLetter(options: seq<OptionSpec>, letter: char): (r: Option<OptionSpec>)
    requires ValidOptions(options)
    ensures r.Some? ==> r.value in options && HasFirstLetter(r.value, letter)
  {
    if |options| == 0 then None
    else if options[0].alias[0] == letter then Some(options[0])
    else FindByFirstLetter(options[1..], letter)
  }

  /** `findByAbbreviation`: a declared option whose alias starts with `abbr`, if any (the earliest, see below). */
  function FindByAbbreviation(options: seq<OptionSpec>, abbr: string): (r: Option<OptionSpec>)
    ensures r.Some? ==> r.value in options && HasAbbreviation(r.value, abbr)
  {
    if |options| == 0 then None
    else if StartsWith(options[0].alias, abbr) then Some(options[0])
    else FindByAbbreviation(options[1..], abbr)
  }

  /** The first-letter lookup finds nothing exactly when no declared option has that letter. */
  lemma {:induction false} FirstLetterAbsent(options: seq<OptionSpec>, letter: char)
    requires ValidOptions(options)
    ensures FindByFirstLetter(options, letter).None? <==> forall k :: 0 <= k < |options| ==> !HasFirstLetter(options[k], letter)
  {
    if |options| > 0 && options[0].alias[0] != letter {
      FirstLetterAbsent(options[1..], letter);
      assert forall k :: 1 <= k < |options| ==> options[k] == options[1..][k - 1];
    }
  }

  /** The first-letter lookup returns the earliest declared option with that letter; a later one is shadowed. */
  lemma {:induction false} FirstLetterPicksEarliest(options: seq<OptionSpec>, letter: char, k: nat)
    requires ValidOptions(options) && k < |options| && HasFirstLetter(options[k], letter)
    requires forall j :: 0 <= j < k ==> !HasFirstLetter(options[j], letter)
    ensures FindByFirstLetter(options, letter) == Some(options[k])
  {
    if k > 0 {
      assert !HasFirstLetter(options[0], letter);
      assert forall j :: 0 <= j < k - 1 ==> options[1..][j] == options[j + 1];
      FirstLetterPicksEarliest(options[1..], letter, k - 1);
    }
  }

  /** The abbreviation lookup finds nothing exactly when no declared alias starts with it. */
  lemma {:induction false} AbbreviationAbsent(options: seq<OptionSpec>, abbr: string)
    ensures FindByAbbreviation(options, abbr).None? <==> forall k :: 0 <= k < |options| ==> !HasAbbreviation(options[k], abbr)
  {
    if |options| > 0 && !StartsWith(options[0].alias, abbr) {
      AbbreviationAbsent(options[1..], abbr);
      assert forall k :: 1 <= k < |options| ==> options[k] == options[1..][k - 1];
    }
  }

  /**
   * The abbreviation lookup returns the earliest declared option whose alias starts with the
   * abbreviation; a later match, even an exact one, is shadowed and no ambiguity is reported.
   */
  lemma {:induction false} AbbreviationPicksEarliest(options: seq<OptionSpec>, abbr: string, k: nat)
    requires k < |options| && HasAbbreviation(options[k], abbr)
    requires forall j :: 0 <= j < k ==> !HasAbbreviation(options[j], abbr)
    ensures FindByAbbreviation(options, abbr) == Some(options[k])
  {
    if k > 0 {
      assert !HasAbbreviation(options[0], abbr);
      assert forall j :: 0 <= j < k - 1 ==> options[1..][j] == options[j + 1];
      AbbreviationPicksEarliest(options[1..], abbr, k - 1);
    }
  }
}
