/** The scenarios of ParserTest.java, stated as facts about `parse`. */
module Scenarios {
  import opened Wrappers
  import opened Text
  import opened Options
  import opened Lookup
  import opened Semantics
  import opened Properties
  import opened FormProperties

  /** A non-empty word not starting with a dash is an operand. */
  lemma WordIsPositional(w: string)
    requires |w| > 0 && w[0] != '-'
    ensures LooksPositional(w)
  {
    assert !StartsWith(w, "-") by { assert w[..1] != "-"; }
  }

  /** One token of the main scan, read off a vector at position `i`. */
  lemma ScanAt(options: seq<OptionSpec>, s: ScanState, args: seq<string>, i: nat, s': ScanState)
    requires ValidOptions(options) && i < |args| && ScanToken(options, s, args[i]) == Ok(s')
    ensures ScanFold(options, s, args[i..]) == ScanFold(options, s', args[i + 1..])
  {
    assert args[i..][0] == args[i] && args[i..][1..] == args[i + 1..];
  }

  // ---------------------------------------------------------------- operands only

  /** No options, tar mode off: `-` and plain words are all operands, one entry each, in order. */
  lemma AllStandaloneWhenNoOptions()
    ensures Parse([], false, ["-", "arg1", "arg2", "arg3", "-"])
         == Ok([Entry(None, Some("-")), Entry(None, Some("arg1")), Entry(None, Some("arg2")),
                Entry(None, Some("arg3")), Entry(None, Some("-"))])
  {
    var args := ["-", "arg1", "arg2", "arg3", "-"];
    WordIsPositional("arg1");
    WordIsPositional("arg2");
    WordIsPositional("arg3");
    AllPositional([], args);
    assert seq(|args|, i requires 0 <= i < |args| => Entry(None, Some(args[i])))
        == [Entry(None, Some("-")), Entry(None, Some("arg1")), Entry(None, Some("arg2")),
            Entry(None, Some("arg3")), Entry(None, Some("-"))];
  }

  // ---------------------------------------------------------------- tar mode

  /** One tar letter that takes the parameter at the cursor. */
  lemma TarTakes(options: seq<OptionSpec>, args: seq<string>, t: TarState, flags: string, o: OptionSpec)
    requires ValidOptions(options) && t.cursor < |args| && |flags| > 0
    requires FindByFirstLetter(options, flags[0]) == Some(o) && o.takesParam
    ensures TarFold(options, args, t, flags)
         == TarFold(options, args, TarState(t.entries + [Entry(Some(o.name), Some(args[t.cursor]))], t.cursor + 1), flags[1..])
  {
  }

  /** One tar letter with no parameter: it takes none, or takes an optional one and the vector is used up. */
  lemma TarBare(options: seq<OptionSpec>, args: seq<string>, t: TarState, flags: string, o: OptionSpec)
    requires ValidOptions(options) && t.cursor <= |args| && |flags| > 0
    requires FindByFirstLetter(options, flags[0]) == Some(o)
    requires !o.takesParam || (!o.requiresParam && t.cursor == |args|)
    ensures TarFold(options, args, t, flags)
         == TarFold(options, args, TarState(t.entries + [Entry(Some(o.name), None)], t.cursor), flags[1..])
  {
  }

  /**
   * The option tables of the tar tests: options `a`..`d` with aliases `aopt`..`dopt`, and
   * `modes[i]` the (takes, requires) parameter flags of the i-th.
   */
  predicate TarTable(options: seq<OptionSpec>, modes: seq<(bool, bool)>) {
    && |modes| == 4 && |options| == 4
    && options[0] == OptionSpec("a", "aopt", modes[0].0, modes[0].1)
    && options[1] == OptionSpec("b", "bopt", modes[1].0, modes[1].1)
    && options[2] == OptionSpec("c", "copt", modes[2].0, modes[2].1)
    && options[3] == OptionSpec("d", "dopt", modes[3].0, modes[3].1)
  }

  /** The aliases of the tar tables, which are all the letter lookups depend on. */
  predicate TarAliases(options: seq<OptionSpec>) {
    && |options| == 4
    && options[0].alias == "aopt" && options[1].alias == "bopt"
    && options[2].alias == "copt" && options[3].alias == "dopt"
  }

  lemma TarTableValid(options: seq<OptionSpec>, modes: seq<(bool, bool)>)
    requires TarTable(options, modes)
    ensures ValidOptions(options)
  {
    forall o | o in options ensures |o.alias| > 0 {
      var k :| 0 <= k < 4 && options[k] == o;
    }
  }

  lemma TarTableA(options: seq<OptionSpec>)
    requires TarAliases(options) && ValidOptions(options)
    ensures FindByFirstLetter(options, 'a') == Some(options[0])
  {
    assert options[0].alias[0] == 'a';
    FirstLetterPicksEarliest(options, 'a', 0);
  }

  lemma TarTableB(options: seq<OptionSpec>)
    requires TarAliases(options) && ValidOptions(options)
    ensures FindByFirstLetter(options, 'b') == Some(options[1])
  {
    assert options[0].alias[0] == 'a' && options[1].alias[0] == 'b';
    FirstLetterPicksEarliest(options, 'b', 1);
  }

  lemma TarTableC(options: seq<OptionSpec>)
    requires TarAliases(options) && ValidOptions(options)
    ensures FindByFirstLetter(options, 'c') == Some(options[2])
  {
    assert options[0].alias[0] == 'a' && options[1].alias[0] == 'b' && options[2].alias[0] == 'c';
    FirstLetterPicksEarliest(options, 'c', 2);
  }

  lemma TarTableD(options: seq<OptionSpec>)
    requires TarAliases(options) && ValidOptions(options)
    ensures FindByFirstLetter(options, 'd') == Some(options[3])
  {
    assert options[0].alias[0] == 'a' && options[1].alias[0] == 'b' && options[2].alias[0] == 'c';
    assert options[3].alias[0] == 'd';
    FirstLetterPicksEarliest(options, 'd', 3);
  }

  /** In the tar tables each letter names the option of that index. */
  lemma TarTableLetters(options: seq<OptionSpec>, modes: seq<(bool, bool)>)
    requires TarTable(options, modes)
    ensures ValidOptions(options)
    ensures FindByFirstLetter(options, 'a') == Some(options[0]) && FindByFirstLetter(options, 'b') == Some(options[1])
    ensures FindByFirstLetter(options, 'c') == Some(options[2]) && FindByFirstLetter(options, 'd') == Some(options[3])
  {
    TarTableValid(options, modes);
    assert TarAliases(options);
    TarTableA(options);
    TarTableB(options);
    TarTableC(options);
    TarTableD(options);
  }

  /** `abcd` with every letter taking a parameter and enough tokens: each letter takes the next one. */
  lemma TarAllTake(options: seq<OptionSpec>, modes: seq<(bool, bool)>, args: seq<string>)
    requires TarTable(options, modes) && modes[0].0 && modes[1].0 && modes[2].0 && modes[3].0
    requires args == ["abcd", "aqwerty", "bqwerty", "cqwerty", "dqwerty", "free1", "free2"]
    ensures ValidOptions(options)
    ensures TarPrePass(options, true, args)
         == Ok(TarState([Entry(Some("a"), Some("aqwerty")), Entry(Some("b"), Some("bqwerty")),
                         Entry(Some("c"), Some("cqwerty")), Entry(Some("d"), Some("dqwerty"))], 5))
  {
    TarTableLetters(options, modes);
    var ea, eb := Entry(Some("a"), Some("aqwerty")), Entry(Some("b"), Some("bqwerty"));
    var ec, ed := Entry(Some("c"), Some("cqwerty")), Entry(Some("d"), Some("dqwerty"));
    var f := args[0];
    assert f[0] == 'a' && f[1..][0] == 'b' && f[2..][0] == 'c' && f[3..][0] == 'd';
    assert f[1..][1..] == f[2..] && f[2..][1..] == f[3..] && f[3..][1..] == f[4..] && |f[4..]| == 0;
    assert args[1] == "aqwerty" && args[2] == "bqwerty" && args[3] == "cqwerty" && args[4] == "dqwerty";
    assert [] + [ea] == [ea] && [ea] + [eb] == [ea, eb];
    assert [ea, eb] + [ec] == [ea, eb, ec] && [ea, eb, ec] + [ed] == [ea, eb, ec, ed];
    calc {
      TarFold(options, args, TarState([], 1), f);
      { TarTakes(options, args, TarState([], 1), f, options[0]); }
      TarFold(options, args, TarState([ea], 2), f[1..]);
      { TarTakes(options, args, TarState([ea], 2), f[1..], options[1]); }
      TarFold(options, args, TarState([ea, eb], 3), f[2..]);
      { TarTakes(options, args, TarState([ea, eb], 3), f[2..], options[2]); }
      TarFold(options, args, TarState([ea, eb, ec], 4), f[3..]);
      { TarTakes(options, args, TarState([ea, eb, ec], 4), f[3..], options[3]); }
      TarFold(options, args, TarState([ea, eb, ec, ed], 5), f[4..]);
      Ok(TarState([ea, eb, ec, ed], 5));
    }
    assert !StartsWith(args[0], "-") by { assert args[0][..1] != "-"; }
  }

  /** After the tar pre-pass, the two remaining words are operands. */
  lemma TwoOperandsAfter(options: seq<OptionSpec>, tar: seq<Entry>, args: seq<string>, cursor: nat)
    requires ValidOptions(options) && cursor + 2 == |args|
    requires args[cursor] == "free1" && args[cursor + 1] == "free2"
    ensures ScanFold(options, ScanState(tar, false, None), args[cursor..])
         == Ok(ScanState(tar + [Entry(None, Some("free1")), Entry(None, Some("free2"))], false, None))
  {
    var rest := args[cursor..];
    assert rest == ["free1", "free2"];
    WordIsPositional("free1");
    WordIsPositional("free2");
    assert LooksPositional(rest[0]) && LooksPositional(rest[1]);
    PositionalTokens(options, ScanState(tar, false, None), rest);
    assert Positional(None, rest) == [Entry(None, Some("free1")), Entry(None, Some("free2"))];
  }

  /** Tar mode, four letters that each require a parameter, then two operands. */
  lemma TarAllRequireParams(options: seq<OptionSpec>, args: seq<string>)
    requires TarTable(options, [(true, true), (true, true), (true, true), (true, true)])
    requires args == ["abcd", "aqwerty", "bqwerty", "cqwerty", "dqwerty", "free1", "free2"]
    ensures ValidOptions(options)
    ensures Parse(options, true, args)
         == Ok([Entry(Some("a"), Some("aqwerty")), Entry(Some("b"), Some("bqwerty")),
                Entry(Some("c"), Some("cqwerty")), Entry(Some("d"), Some("dqwerty")),
                Entry(None, Some("free1")), Entry(None, Some("free2"))])
  {
    var tar := [Entry(Some("a"), Some("aqwerty")), Entry(Some("b"), Some("bqwerty")),
                Entry(Some("c"), Some("cqwerty")), Entry(Some("d"), Some("dqwerty"))];
    TarAllTake(options, [(true, true), (true, true), (true, true), (true, true)], args);
    TwoOperandsAfter(options, tar, args, 5);
    assert tar + [Entry(None, Some("free1")), Entry(None, Some("free2"))]
        == [Entry(Some("a"), Some("aqwerty")), Entry(Some("b"), Some("bqwerty")),
            Entry(Some("c"), Some("cqwerty")), Entry(Some("d"), Some("dqwerty")),
            Entry(None, Some("free1")), Entry(None, Some("free2"))];
  }

  /** Tar mode, optional parameters that are present are taken like required ones. */
  lemma TarOptionalParamsPresent(options: seq<OptionSpec>, args: seq<string>)
    requires TarTable(options, [(true, true), (true, false), (true, false), (true, true)])
    requires args == ["abcd", "aqwerty", "bqwerty", "cqwerty", "dqwerty", "free1", "free2"]
    ensures ValidOptions(options)
    ensures Parse(options, true, args)
         == Ok([Entry(Some("a"), Some("aqwerty")), Entry(Some("b"), Some("bqwerty")),
                Entry(Some("c"), Some("cqwerty")), Entry(Some("d"), Some("dqwerty")),
                Entry(None, Some("free1")), Entry(None, Some("free2"))])
  {
    var tar := [Entry(Some("a"), Some("aqwerty")), Entry(Some("b"), Some("bqwerty")),
                Entry(Some("c"), Some("cqwerty")), Entry(Some("d"), Some("dqwerty"))];
    TarAllTake(options, [(true, true), (true, false), (true, false), (true, true)], args);
    TwoOperandsAfter(options, tar, args, 5);
    assert tar + [Entry(None, Some("free1")), Entry(None, Some("free2"))]
        == [Entry(Some("a"), Some("aqwerty")), Entry(Some("b"), Some("bqwerty")),
            Entry(Some("c"), Some("cqwerty")), Entry(Some("d"), Some("dqwerty")),
            Entry(None, Some("free1")), Entry(None, Some("free2"))];
  }

  /** `abcd` where `b` and `c` take no parameter: only `a` and `d` consume tokens. */
  lemma TarSomeTake(options: seq<OptionSpec>, args: seq<string>)
    requires TarTable(options, [(true, true), (false, false), (false, false), (true, true)])
    requires args == ["abcd", "aqwerty", "dqwerty", "free1", "free2"]
    ensures ValidOptions(options)
    ensures TarPrePass(options, true, args)
         == Ok(TarState([Entry(Some("a"), Some("aqwerty")), Entry(Some("b"), None),
                         Entry(Some("c"), None), Entry(Some("d"), Some("dqwerty"))], 3))
  {
    TarTableLetters(options, [(true, true), (false, false), (false, false), (true, true)]);
    var ea, eb := Entry(Some("a"), Some("aqwerty")), Entry(Some("b"), None);
    var ec, ed := Entry(Some("c"), None), Entry(Some("d"), Some("dqwerty"));
    var f := args[0];
    assert f[0] == 'a' && f[1..][0] == 'b' && f[2..][0] == 'c' && f[3..][0] == 'd';
    assert f[1..][1..] == f[2..] && f[2..][1..] == f[3..] && f[3..][1..] == f[4..] && |f[4..]| == 0;
    assert args[1] == "aqwerty" && args[2] == "dqwerty";
    assert [] + [ea] == [ea] && [ea] + [eb] == [ea, eb];
    assert [ea, eb] + [ec] == [ea, eb, ec] && [ea, eb, ec] + [ed] == [ea, eb, ec, ed];
    calc {
      TarFold(options, args, TarState([], 1), f);
      { TarTakes(options, args, TarState([], 1), f, options[0]); }
      TarFold(options, args, TarState([ea], 2), f[1..]);
      { TarBare(options, args, TarState([ea], 2), f[1..], options[1]); }
      TarFold(options, args, TarState([ea, eb], 2), f[2..]);
      { TarBare(options, args, TarState([ea, eb], 2), f[2..], options[2]); }
      TarFold(options, args, TarState([ea, eb, ec], 2), f[3..]);
      { TarTakes(options, args, TarState([ea, eb, ec], 2), f[3..], options[3]); }
      TarFold(options, args, TarState([ea, eb, ec, ed], 3), f[4..]);
      Ok(TarState([ea, eb, ec, ed], 3));
    }
    assert !StartsWith(args[0], "-") by { assert args[0][..1] != "-"; }
  }

  /** Tar mode, letters without parameters between two that require one: only those two take tokens. */
  lemma TarSomeRequireParams(options: seq<OptionSpec>, args: seq<string>)
    requires TarTable(options, [(true, true), (false, false), (false, false), (true, true)])
    requires args == ["abcd", "aqwerty", "dqwerty", "free1", "free2"]
    ensures ValidOptions(options)
    ensures Parse(options, true, args)
         == Ok([Entry(Some("a"), Some("aqwerty")), Entry(Some("b"), None),
                Entry(Some("c"), None), Entry(Some("d"), Some("dqwerty")),
                Entry(None, Some("free1")), Entry(None, Some("free2"))])
  {
    var tar := [Entry(Some("a"), Some("aqwerty")), Entry(Some("b"), None),
                Entry(Some("c"), None), Entry(Some("d"), Some("dqwerty"))];
    TarSomeTake(options, args);
    TwoOperandsAfter(options, tar, args, 3);
    assert tar + [Entry(None, Some("free1")), Entry(None, Some("free2"))]
        == [Entry(Some("a"), Some("aqwerty")), Entry(Some("b"), None),
            Entry(Some("c"), None), Entry(Some("d"), Some("dqwerty")),
            Entry(None, Some("free1")), Entry(None, Some("free2"))];
  }

  /**
   * Tar mode, more letters taking parameters than tokens left: once the vector is used up, an
   * optional parameter is absent (and a letter taking none is unaffected).
   */
  lemma TarOptionalParamsOmitted(options: seq<OptionSpec>, args: seq<string>)
    requires TarTable(options, [(true, false), (true, true), (true, false), (false, false)])
    requires args == ["abcd", "aqwerty", "bqwerty"]
    ensures ValidOptions(options)
    ensures Parse(options, true, args)
         == Ok([Entry(Some("a"), Some("aqwerty")), Entry(Some("b"), Some("bqwerty")),
                Entry(Some("c"), None), Entry(Some("d"), None)])
  {
    TarTableLetters(options, [(true, false), (true, true), (true, false), (false, false)]);
    var ea, eb := Entry(Some("a"), Some("aqwerty")), Entry(Some("b"), Some("bqwerty"));
    var ec, ed := Entry(Some("c"), None), Entry(Some("d"), None);
    var f := args[0];
    assert f[0] == 'a' && f[1..][0] == 'b' && f[2..][0] == 'c' && f[3..][0] == 'd';
    assert f[1..][1..] == f[2..] && f[2..][1..] == f[3..] && f[3..][1..] == f[4..] && |f[4..]| == 0;
    assert args[1] == "aqwerty" && args[2] == "bqwerty";
    assert [] + [ea] == [ea] && [ea] + [eb] == [ea, eb];
    assert [ea, eb] + [ec] == [ea, eb, ec] && [ea, eb, ec] + [ed] == [ea, eb, ec, ed];
    calc {
      TarFold(options, args, TarState([], 1), f);
      { TarTakes(options, args, TarState([], 1), f, options[0]); }
      TarFold(options, args, TarState([ea], 2), f[1..]);
      { TarTakes(options, args, TarState([ea], 2), f[1..], options[1]); }
      TarFold(options, args, TarState([ea, eb], 3), f[2..]);
      { TarBare(options, args, TarState([ea, eb], 3), f[2..], options[2]); }
      TarFold(options, args, TarState([ea, eb, ec], 3), f[3..]);
      { TarBare(options, args, TarState([ea, eb, ec], 3), f[3..], options[3]); }
      TarFold(options, args, TarState([ea, eb, ec, ed], 3), f[4..]);
      Ok(TarState([ea, eb, ec, ed], 3));
    }
    assert !StartsWith(args[0], "-") by { assert args[0][..1] != "-"; }
    assert args[3..] == [];
  }
}
