/** What one option-looking token does, for the short form `-abc` and the long form `--abbr[=value]`. */
module FormProperties {
  import opened Wrappers
  import opened Text
  import opened Options
  import opened Lookup
  import opened Semantics
  import opened Properties

  // ---------------------------------------------------------------- short options

  /** Leading letters that take no parameter each emit `(name, absent)`, in order. */
  lemma {:induction false} ShortPlainPrefix(options: seq<OptionSpec>, s: ScanState, body: string, k: nat)
    requires ValidOptions(options) && k <= |body| && PlainFlags(options, body[..k])
    ensures ScanShort(options, s, body, 0)
         == ScanShort(options, s.(entries := s.entries + FlagEntries(options, body[..k])), body, k)
    decreases k
  {
    if k == 0 {
      assert s.entries + FlagEntries(options, body[..k]) == s.entries;
    } else {
      assert body[..k] == body[..k - 1] + [body[k - 1]];
      PlainFlagsSnoc(options, body[..k - 1], body[k - 1]);
      ShortPlainPrefix(options, s, body, k - 1);
      var s1 := s.(entries := s.entries + FlagEntries(options, body[..k - 1]));
      ShortPlainStep(options, s1, body, k - 1);
      var e := Entry(Some(FindByFirstLetter(options, body[k - 1]).value.name), None);
      assert FlagEntries(options, body[..k]) == FlagEntries(options, body[..k - 1]) + [e];
      assert s1.entries + [e] == s.entries + FlagEntries(options, body[..k]);
    }
  }

  lemma ShortPlainStep(options: seq<OptionSpec>, s: ScanState, body: string, j: nat)
    requires ValidOptions(options) && j < |body|
    requires FindByFirstLetter(options, body[j]).Some? && !FindByFirstLetter(options, body[j]).value.takesParam
    ensures ScanShort(options, s, body, j)
         == ScanShort(options, s.(entries := s.entries + [Entry(Some(FindByFirstLetter(options, body[j]).value.name), None)]), body, j + 1)
  {
  }

  lemma PlainFlagsSnoc(options: seq<OptionSpec>, chars: string, c: char)
    requires ValidOptions(options) && PlainFlags(options, chars + [c])
    ensures PlainFlags(options, chars) && FindByFirstLetter(options, c).Some?
    ensures FlagEntries(options, chars + [c])
         == FlagEntries(options, chars) + [Entry(Some(FindByFirstLetter(options, c).value.name), None)]
  {
    assert forall i :: 0 <= i < |chars| ==> (chars + [c])[i] == chars[i];
    assert (chars + [c])[|chars|] == c;
  }

  /** `"-" + body` reaches the short-option case when nothing is pending and `--` was not seen. */
  lemma ShortTokenIsShort(options: seq<OptionSpec>, s: ScanState, body: string)
    requires ValidOptions(options) && !s.terminated && s.pending.None?
    requires |body| > 0 && body[0] != '-'
    ensures ScanToken(options, s, "-" + body) == ScanShort(options, s, body, 0)
  {
    var arg := "-" + body;
    assert arg[1] == body[0] && arg[1..] == body;
    assert StartsWith(arg, "-") && arg != "-";
    assert !StartsWith(arg, "--");
  }

  /**
   * In `-abc`, the first letter that takes a parameter ends the token: the rest of the token is
   * its parameter; with nothing left, a required parameter is deferred to the next token and an
   * optional one is absent. The letters before it each emit `(name, absent)`.
   */
  lemma ShortWithParam(options: seq<OptionSpec>, s: ScanState, body: string, k: nat, o: OptionSpec)
    requires ValidOptions(options) && !s.terminated && s.pending.None?
    requires |body| > 0 && body[0] != '-' && k < |body|
    requires PlainFlags(options, body[..k])
    requires FindByFirstLetter(options, body[k]) == Some(o) && o.takesParam
    ensures ScanToken(options, s, "-" + body)
         == var flagged := s.entries + FlagEntries(options, body[..k]);
            if k < |body| - 1 then Ok(s.(entries := flagged + [Entry(Some(o.name), Some(body[k + 1..]))]))
            else if o.requiresParam then Ok(s.(entries := flagged, pending := Some(o.name)))
            else Ok(s.(entries := flagged + [Entry(Some(o.name), None)]))
  {
    ShortTokenIsShort(options, s, body);
    ShortPlainPrefix(options, s, body, k);
  }

  /** A token of letters that take no parameter emits `(name, absent)` per letter, in order. */
  lemma ShortAllPlain(options: seq<OptionSpec>, s: ScanState, body: string)
    requires ValidOptions(options) && !s.terminated && s.pending.None?
    requires |body| > 0 && body[0] != '-' && PlainFlags(options, body)
    ensures ScanToken(options, s, "-" + body) == Ok(s.(entries := s.entries + FlagEntries(options, body)))
  {
    ShortTokenIsShort(options, s, body);
    assert body[..|body|] == body;
    ShortPlainPrefix(options, s, body, |body|);
  }

  /** An unknown letter before any parameter-taking letter aborts as an unrecognised option. */
  lemma ShortUnknownLetter(options: seq<OptionSpec>, s: ScanState, body: string, k: nat)
    requires ValidOptions(options) && !s.terminated && s.pending.None?
    requires |body| > 0 && body[0] != '-' && k < |body|
    requires PlainFlags(options, body[..k]) && FindByFirstLetter(options, body[k]).None?
    ensures ScanToken(options, s, "-" + body) == Err(UnrecognizedOption)
  {
    ShortTokenIsShort(options, s, body);
    ShortPlainPrefix(options, s, body, k);
  }

  // ---------------------------------------------------------------- long options

  /** The first `=` after a non-empty name without one separates name and value. */
  lemma SplitLongWithValue(abbr: string, value: string)
    requires |abbr| > 0 && '=' !in abbr
    ensures SplitLong(abbr + "=" + value) == Ok((abbr, Some(value)))
  {
    var m := abbr + "=" + value;
    assert m[|abbr|] == '=';
    var eq := IndexOf(m, '=');
    assert m[..eq] == abbr;
    assert m[eq + 1..] == value;
  }

  /** Splitting is undone by joining: name and value are what surrounds the first `=`. */
  lemma SplitLongInverse(master: string, abbr: string, param: Option<string>)
    requires SplitLong(master) == Ok((abbr, param))
    ensures '=' !in abbr
    ensures param.None? ==> master == abbr
    ensures param.Some? ==> |abbr| > 0 && master == abbr + "=" + param.value
  {
    var eq := IndexOf(master, '=');
    if eq >= 0 {
      assert master == master[..eq] + [master[eq]] + master[eq + 1..];
    }
  }

  /** `"--" + m` reaches the long-option case when nothing is pending and `--` was not seen. */
  lemma LongTokenIsLong(options: seq<OptionSpec>, s: ScanState, master: string)
    requires ValidOptions(options) && !s.terminated && s.pending.None? && |master| > 0
    ensures ScanToken(options, s, "--" + master) == ScanLong(options, s, master)
  {
    var arg := "--" + master;
    assert arg[..1] == "-" && arg[..2] == "--" && arg[2..] == master;
    assert arg != "-" && arg != "--";
  }

  /** `--abbr=value`: the first option the abbreviation matches gets `value`, if it takes a parameter. */
  lemma LongWithValue(options: seq<OptionSpec>, s: ScanState, abbr: string, value: string)
    requires ValidOptions(options) && !s.terminated && s.pending.None?
    requires |abbr| > 0 && '=' !in abbr
    ensures ScanToken(options, s, "--" + abbr + "=" + value)
         == match FindByAbbreviation(options, abbr)
            case None => Err(UnrecognizedOption)
            case Some(o) =>
              if o.takesParam then Ok(s.(entries := s.entries + [Entry(Some(o.name), Some(value))]))
              else Err(UnexpectedParameter)
  {
    assert "--" + abbr + "=" + value == "--" + (abbr + "=" + value);
    LongTokenIsLong(options, s, abbr + "=" + value);
    SplitLongWithValue(abbr, value);
  }

  /**
   * `--abbr` without `=`: a required parameter is deferred to the next token (this also happens
   * for an option marked required that takes no parameter, since `requiresParam` is read here
   * without `takesParam`); an optional one is an error, because the long form needs `=` for it.
   */
  lemma LongBare(options: seq<OptionSpec>, s: ScanState, abbr: string)
    requires ValidOptions(options) && !s.terminated && s.pending.None?
    requires |abbr| > 0 && '=' !in abbr
    ensures ScanToken(options, s, "--" + abbr)
         == match FindByAbbreviation(options, abbr)
            case None => Err(UnrecognizedOption)
            case Some(o) =>
              if o.requiresParam then Ok(s.(pending := Some(o.name)))
              else if o.takesParam then Err(MissingParameter)
              else Ok(s.(entries := s.entries + [Entry(Some(o.name), None)]))
  {
    LongTokenIsLong(options, s, abbr);
    assert IndexOf(abbr, '=') == -1;
  }

  /** `--=value` has an empty option name. */
  lemma LongEmptyName(options: seq<OptionSpec>, s: ScanState, value: string)
    requires ValidOptions(options) && !s.terminated && s.pending.None?
    ensures ScanToken(options, s, "--=" + value) == Err(EmptyOptionName)
  {
    assert "--=" + value == "--" + ("=" + value);
    LongTokenIsLong(options, s, "=" + value);
    assert ("=" + value)[0] == '=';
  }
}
