/** The real-world example of ParserTest.java: tar letters, short and long options, and `--`. */
module RealWorld {
  import opened Wrappers
  import opened Text
  import opened Options
  import opened Lookup
  import opened Semantics
  import opened Properties
  import opened FormProperties
  import opened Scenarios

  /** The aliases of the example's option table, which are all its lookups depend on. */
  predicate Aliases(options: seq<OptionSpec>) {
    && |options| == 10
    && options[0].alias == "create" && options[1].alias == "x" && options[2].alias == "j"
    && options[3].alias == "file" && options[4].alias == "output" && options[5].alias == "v"
    && options[6].alias == "q" && options[7].alias == "r" && options[8].alias == "longopt"
    && options[9].alias == "input"
  }

  /** The example's option table. */
  predicate Table(options: seq<OptionSpec>) {
    && |options| == 10
    && options[0] == OptionSpec("create", "create", false, false)
    && options[1] == OptionSpec("extract", "x", false, false)
    && options[2] == OptionSpec("whatever", "j", false, false)
    && options[3] == OptionSpec("file", "file", true, true)
    && options[4] == OptionSpec("output", "output", true, true)
    && options[5] == OptionSpec("v", "v", true, false)
    && options[6] == OptionSpec("q", "q", true, true)
    && options[7] == OptionSpec("r", "r", true, true)
    && options[8] == OptionSpec("longopt", "longopt", true, true)
    && options[9] == OptionSpec("input", "input", true, true)
  }

  /** The example's argument vector. */
  predicate Vector(args: seq<string>) {
    args == ["cxjf", "filename.dat", "-o", "output.txt", "-vqr", "random", "--longopt=value", "--", "-i", "--iii", "qq"]
  }

  lemma TableValid(options: seq<OptionSpec>)
    requires Table(options)
    ensures ValidOptions(options) && Aliases(options)
  {
    forall o | o in options ensures |o.alias| > 0 {
      var k :| 0 <= k < 10 && options[k] == o;
    }
  }

  lemma LetterC(options: seq<OptionSpec>)
    requires Aliases(options) && ValidOptions(options)
    ensures FindByFirstLetter(options, 'c') == Some(options[0])
  {
    assert options[0].alias[0] == 'c';
    FirstLetterPicksEarliest(options, 'c', 0);
  }

  lemma LetterX(options: seq<OptionSpec>)
    requires Aliases(options) && ValidOptions(options)
    ensures FindByFirstLetter(options, 'x') == Some(options[1])
  {
    assert options[0].alias[0] == 'c' && options[1].alias[0] == 'x';
    FirstLetterPicksEarliest(options, 'x', 1);
  }

  lemma LetterJ(options: seq<OptionSpec>)
    requires Aliases(options) && ValidOptions(options)
    ensures FindByFirstLetter(options, 'j') == Some(options[2])
  {
    assert options[0].alias[0] == 'c' && options[1].alias[0] == 'x' && options[2].alias[0] == 'j';
    FirstLetterPicksEarliest(options, 'j', 2);
  }

  lemma LetterF(options: seq<OptionSpec>)
    requires Aliases(options) && ValidOptions(options)
    ensures FindByFirstLetter(options, 'f') == Some(options[3])
  {
    assert options[0].alias[0] == 'c' && options[1].alias[0] == 'x' && options[2].alias[0] == 'j';
    assert options[3].alias[0] == 'f';
    FirstLetterPicksEarliest(options, 'f', 3);
  }

  lemma LetterO(options: seq<OptionSpec>)
    requires Aliases(options) && ValidOptions(options)
    ensures FindByFirstLetter(options, 'o') == Some(options[4])
  {
    assert options[0].alias[0] == 'c' && options[1].alias[0] == 'x' && options[2].alias[0] == 'j';
    assert options[3].alias[0] == 'f' && options[4].alias[0] == 'o';
    FirstLetterPicksEarliest(options, 'o', 4);
  }

  lemma LetterV(options: seq<OptionSpec>)
    requires Aliases(options) && ValidOptions(options)
    ensures FindByFirstLetter(options, 'v') == Some(options[5])
  {
    assert options[0].alias[0] == 'c' && options[1].alias[0] == 'x' && options[2].alias[0] == 'j';
    assert options[3].alias[0] == 'f' && options[4].alias[0] == 'o' && options[5].alias[0] == 'v';
    FirstLetterPicksEarliest(options, 'v', 5);
  }

  lemma AbbreviationLongopt(options: seq<OptionSpec>)
    requires Aliases(options)
    ensures FindByAbbreviation(options, "longopt") == Some(options[8])
  {
    assert options[0].alias[0] == 'c' && options[1].alias[0] == 'x' && options[2].alias[0] == 'j';
    assert options[3].alias[0] == 'f' && options[4].alias[0] == 'o' && options[5].alias[0] == 'v';
    assert options[6].alias[0] == 'q' && options[7].alias[0] == 'r';
    assert forall j :: 0 <= j < 8 ==> |options[j].alias| > 0 && options[j].alias[0] != 'l';
    AbbreviationPicksEarliest(options, "longopt", 8);
  }

  /** The tar letters `cxjf`: three flags, then `file` takes the next token. */
  lemma TarPart(options: seq<OptionSpec>, args: seq<string>)
    requires Table(options) && Vector(args)
    ensures ValidOptions(options)
    ensures TarPrePass(options, true, args)
         == Ok(TarState([Entry(Some("create"), None), Entry(Some("extract"), None),
                         Entry(Some("whatever"), None), Entry(Some("file"), Some("filename.dat"))], 2))
  {
    TableValid(options);
    LetterC(options);
    LetterX(options);
    LetterJ(options);
    LetterF(options);
    var ec, ex := Entry(Some("create"), None), Entry(Some("extract"), None);
    var ej, ef := Entry(Some("whatever"), None), Entry(Some("file"), Some("filename.dat"));
    var f := args[0];
    assert f[0] == 'c' && f[1..][0] == 'x' && f[2..][0] == 'j' && f[3..][0] == 'f';
    assert f[1..][1..] == f[2..] && f[2..][1..] == f[3..] && f[3..][1..] == f[4..] && |f[4..]| == 0;
    assert args[1] == "filename.dat";
    assert [] + [ec] == [ec] && [ec] + [ex] == [ec, ex];
    assert [ec, ex] + [ej] == [ec, ex, ej] && [ec, ex, ej] + [ef] == [ec, ex, ej, ef];
    calc {
      TarFold(options, args, TarState([], 1), f);
      { TarBare(options, args, TarState([], 1), f, options[0]); }
      TarFold(options, args, TarState([ec], 1), f[1..]);
      { TarBare(options, args, TarState([ec], 1), f[1..], options[1]); }
      TarFold(options, args, TarState([ec, ex], 1), f[2..]);
      { TarBare(options, args, TarState([ec, ex], 1), f[2..], options[2]); }
      TarFold(options, args, TarState([ec, ex, ej], 1), f[3..]);
      { TarTakes(options, args, TarState([ec, ex, ej], 1), f[3..], options[3]); }
      TarFold(options, args, TarState([ec, ex, ej, ef], 2), f[4..]);
      Ok(TarState([ec, ex, ej, ef], 2));
    }
    assert !StartsWith(args[0], "-") by { assert args[0][..1] != "-"; }
  }

  /** `-o`: `output` requires a parameter and the token ends, so it waits for the next token. */
  lemma ShortO(options: seq<OptionSpec>, s: ScanState)
    requires Table(options) && ValidOptions(options) && !s.terminated && s.pending.None?
    ensures ScanToken(options, s, "-o") == Ok(s.(pending := Some("output")))
  {
    TableValid(options);
    LetterO(options);
    var body := "o";
    assert body[0] == 'o' && body[..0] == [];
    assert "-" + body == "-o";
    ShortWithParam(options, s, body, 0, options[4]);
    assert s.entries + FlagEntries(options, body[..0]) == s.entries;
  }

  /** `-vqr`: `v` takes a parameter, so the rest of the token, `qr`, is its value. */
  lemma ShortVqr(options: seq<OptionSpec>, s: ScanState)
    requires Table(options) && ValidOptions(options) && !s.terminated && s.pending.None?
    ensures ScanToken(options, s, "-vqr") == Ok(s.(entries := s.entries + [Entry(Some("v"), Some("qr"))]))
  {
    TableValid(options);
    LetterV(options);
    var body := "vqr";
    assert body[0] == 'v' && body[..0] == [] && body[1..] == "qr";
    assert "-" + body == "-vqr";
    ShortWithParam(options, s, body, 0, options[5]);
    assert s.entries + FlagEntries(options, body[..0]) == s.entries;
  }

  /** `--longopt=value`: the abbreviation matches `longopt`, which gets `value`. */
  lemma LongLongopt(options: seq<OptionSpec>, s: ScanState)
    requires Table(options) && ValidOptions(options) && !s.terminated && s.pending.None?
    ensures ScanToken(options, s, "--longopt=value")
         == Ok(s.(entries := s.entries + [Entry(Some("longopt"), Some("value"))]))
  {
    TableValid(options);
    AbbreviationLongopt(options);
    assert "--" + "longopt" + "=" + "value" == "--longopt=value";
    assert '=' !in "longopt";
    LongWithValue(options, s, "longopt", "value");
  }

  /** The tokens between the tar pre-pass and `--`. */
  lemma BeforeTerminator(options: seq<OptionSpec>, tar: seq<Entry>, pre: seq<string>)
    requires Table(options) && ValidOptions(options)
    requires pre == ["-o", "output.txt", "-vqr", "random", "--longopt=value"]
    ensures ScanFold(options, ScanState(tar, false, None), pre)
         == Ok(ScanState(tar + [Entry(Some("output"), Some("output.txt")), Entry(Some("v"), Some("qr")),
                                Entry(None, Some("random")), Entry(Some("longopt"), Some("value"))], false, None))
  {
    var eo, ev := Entry(Some("output"), Some("output.txt")), Entry(Some("v"), Some("qr"));
    var er, el := Entry(None, Some("random")), Entry(Some("longopt"), Some("value"));
    var s0 := ScanState(tar, false, None);
    var s1 := ScanState(tar, false, Some("output"));
    var s2 := ScanState(tar + [eo], false, None);
    var s3 := ScanState(tar + [eo, ev], false, None);
    var s4 := ScanState(tar + [eo, ev, er], false, None);
    var s5 := ScanState(tar + [eo, ev, er, el], false, None);
    assert (tar + [eo]) + [ev] == tar + [eo, ev];
    assert (tar + [eo, ev]) + [er] == tar + [eo, ev, er];
    assert (tar + [eo, ev, er]) + [el] == tar + [eo, ev, er, el];
    WordIsPositional("output.txt");
    WordIsPositional("random");
    ShortO(options, s0);
    ShortVqr(options, s2);
    LongLongopt(options, s4);
    calc {
      ScanFold(options, s0, pre);
      { ScanAt(options, s0, pre, 0, s1); }
      ScanFold(options, s1, pre[1..]);
      { ScanAt(options, s1, pre, 1, s2); }
      ScanFold(options, s2, pre[2..]);
      { ScanAt(options, s2, pre, 2, s3); }
      ScanFold(options, s3, pre[3..]);
      { ScanAt(options, s3, pre, 3, s4); }
      ScanFold(options, s4, pre[4..]);
      { ScanAt(options, s4, pre, 4, s5); }
      ScanFold(options, s5, pre[5..]);
      { assert pre[5..] == []; }
      Ok(s5);
    }
  }

  /** `-- -i --iii qq`: the terminator emits nothing, and every later token is an operand. */
  lemma AfterTerminator(options: seq<OptionSpec>, m: ScanState, post: seq<string>)
    requires ValidOptions(options) && !m.terminated && m.pending.None?
    requires post == ["--", "-i", "--iii", "qq"]
    ensures ScanFold(options, m, post)
         == Ok(ScanState(m.entries + [Entry(None, Some("-i")), Entry(None, Some("--iii")), Entry(None, Some("qq"))], true, None))
  {
    var t := m.(terminated := true);
    assert ScanToken(options, m, post[0]) == Ok(t);
    ScanAt(options, m, post, 0, t);
    TerminatedTokens(options, t, post[1..]);
    assert Positional(None, post[1..]) == [Entry(None, Some("-i")), Entry(None, Some("--iii")), Entry(None, Some("qq"))];
  }

  /** The main scan of the example, from the end of the tar pre-pass, given the part before `--`. */
  lemma MainScan(options: seq<OptionSpec>, tar: seq<Entry>, tokens: seq<string>)
    requires ValidOptions(options)
    requires tokens == ["-o", "output.txt", "-vqr", "random", "--longopt=value", "--", "-i", "--iii", "qq"]
    requires ScanFold(options, ScanState(tar, false, None), tokens[..5])
          == Ok(ScanState(tar + [Entry(Some("output"), Some("output.txt")), Entry(Some("v"), Some("qr")),
                                 Entry(None, Some("random")), Entry(Some("longopt"), Some("value"))], false, None))
    ensures ScanFold(options, ScanState(tar, false, None), tokens)
         == Ok(ScanState(tar + [Entry(Some("output"), Some("output.txt")), Entry(Some("v"), Some("qr")),
                                Entry(None, Some("random")), Entry(Some("longopt"), Some("value")),
                                Entry(None, Some("-i")), Entry(None, Some("--iii")), Entry(None, Some("qq"))],
                         true, None))
  {
    var found := [Entry(Some("output"), Some("output.txt")), Entry(Some("v"), Some("qr")),
                  Entry(None, Some("random")), Entry(Some("longopt"), Some("value"))];
    var operands := [Entry(None, Some("-i")), Entry(None, Some("--iii")), Entry(None, Some("qq"))];
    assert tokens == tokens[..5] + tokens[5..];
    ScanFoldAppend(options, ScanState(tar, false, None), tokens[..5], tokens[5..]);
    AfterTerminator(options, ScanState(tar + found, false, None), tokens[5..]);
    assert (tar + found) + operands == tar + (found + operands);
    assert found + operands
        == [Entry(Some("output"), Some("output.txt")), Entry(Some("v"), Some("qr")),
            Entry(None, Some("random")), Entry(Some("longopt"), Some("value")),
            Entry(None, Some("-i")), Entry(None, Some("--iii")), Entry(None, Some("qq"))];
  }

  /**
   * The whole example: `create`, `extract`, `whatever` and `file filename.dat` from the tar
   * letters, then `output output.txt`, `v qr`, the operand `random`, `longopt value`, and after
   * `--` the operands `-i`, `--iii` and `qq`.
   */
  lemma RealWorldExample(options: seq<OptionSpec>, args: seq<string>)
    requires Table(options) && Vector(args)
    ensures ValidOptions(options)
    ensures Parse(options, true, args)
         == Ok([Entry(Some("create"), None), Entry(Some("extract"), None),
                Entry(Some("whatever"), None), Entry(Some("file"), Some("filename.dat")),
                Entry(Some("output"), Some("output.txt")), Entry(Some("v"), Some("qr")),
                Entry(None, Some("random")), Entry(Some("longopt"), Some("value")),
                Entry(None, Some("-i")), Entry(None, Some("--iii")), Entry(None, Some("qq"))])
  {
    TarPart(options, args);
    var tar := [Entry(Some("create"), None), Entry(Some("extract"), None),
                Entry(Some("whatever"), None), Entry(Some("file"), Some("filename.dat"))];
    var rest := [Entry(Some("output"), Some("output.txt")), Entry(Some("v"), Some("qr")),
                 Entry(None, Some("random")), Entry(Some("longopt"), Some("value")),
                 Entry(None, Some("-i")), Entry(None, Some("--iii")), Entry(None, Some("qq"))];
    assert args[2..][..5] == ["-o", "output.txt", "-vqr", "random", "--longopt=value"];
    BeforeTerminator(options, tar, args[2..][..5]);
    MainScan(options, tar, args[2..]);
    assert tar + rest
        == [Entry(Some("create"), None), Entry(Some("extract"), None),
            Entry(Some("whatever"), None), Entry(Some("file"), Some("filename.dat")),
            Entry(Some("output"), Some("output.txt")), Entry(Some("v"), Some("qr")),
            Entry(None, Some("random")), Entry(Some("longopt"), Some("value")),
            Entry(None, Some("-i")), Entry(None, Some("--iii")), Entry(None, Some("qq"))];
  }
}
