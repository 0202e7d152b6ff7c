/** What `parse` promises, proved about its meaning in module Semantics. */
module Properties {
  import opened Wrappers
  import opened Text
  import opened Options
  import opened Lookup
  import opened Semantics

  // ---------------------------------------------------------------- helpers

  /** Operand entries for `tokens`; the first one carries `pending` as its option name. */
  function Positional(pending: Option<string>, tokens: seq<string>): seq<Entry> {
    seq(|tokens|, i requires 0 <= i < |tokens| => Entry(if i == 0 then pending else None, Some(tokens[i])))
  }

  /** The parameters present in `entries`, in order. */
  function Supplied(entries: seq<Entry>): seq<string> {
    if |entries| == 0 then []
    else
      var last := entries[|entries| - 1];
      Supplied(entries[..|entries| - 1]) + if last.param.Some? then [last.param.value] else []
  }

  /** Every letter in `chars` names some option. */
  predicate KnownLetters(options: seq<OptionSpec>, chars: string)
    requires ValidOptions(options)
  {
    forall i :: 0 <= i < |chars| ==> FindByFirstLetter(options, chars[i]).Some?
  }

  /** The letter names an option whose parameter is mandatory. */
  predicate RequiresParamLetter(options: seq<OptionSpec>, c: char)
    requires ValidOptions(options)
  {
    match FindByFirstLetter(options, c)
    case None => false
    case Some(o) => o.takesParam && o.requiresParam
  }

  /** Every letter in `chars` names an option that takes no parameter. */
  predicate PlainFlags(options: seq<OptionSpec>, chars: string)
    requires ValidOptions(options)
  {
    forall i :: 0 <= i < |chars| ==>
      FindByFirstLetter(options, chars[i]).Some? && !FindByFirstLetter(options, chars[i]).value.takesParam
  }

  /** One `(name, absent)` entry per letter, in order. */
  function FlagEntries(options: seq<OptionSpec>, chars: string): seq<Entry>
    requires ValidOptions(options) && KnownLetters(options, chars)
  {
    seq(|chars|, i requires 0 <= i < |chars| => Entry(Some(FindByFirstLetter(options, chars[i]).value.name), None))
  }

  /**
   * The entry the tar letter `flag` produces when the parameter cursor stands at `cursor`:
   * its option's name, with the token under the cursor if the option takes a parameter and
   * a token remains, and no parameter otherwise.
   */
  predicate TarEntryFor(options: seq<OptionSpec>, args: seq<string>, flag: char, e: Entry, cursor: nat)
    requires ValidOptions(options)
  {
    match FindByFirstLetter(options, flag)
    case None => false
    case Some(o) => e == Entry(Some(o.name), if o.takesParam && cursor < |args| then Some(args[cursor]) else None)
  }

  lemma PositionalCons(pending: Option<string>, tokens: seq<string>)
    requires |tokens| > 0
    ensures Positional(pending, tokens) == [Entry(pending, Some(tokens[0]))] + Positional(None, tokens[1..])
  {
    var rhs := [Entry(pending, Some(tokens[0]))] + Positional(None, tokens[1..]);
    assert forall i :: 1 <= i < |tokens| ==> rhs[i] == Positional(None, tokens[1..])[i - 1];
  }

  // ---------------------------------------------------------------- empty input

  /** No arguments: no entries, whatever the options or the tar mode. */
  lemma EmptyArgs(options: seq<OptionSpec>, tarEnabled: bool)
    requires ValidOptions(options)
    ensures Semantics.Parse(options, tarEnabled, []) == Ok([])
  {
  }

  // ---------------------------------------------------------------- the main scan as a fold

  /** Scanning `a + b` is scanning `a`, then `b` from where `a` left off. */
  lemma {:induction false} ScanFoldAppend(options: seq<OptionSpec>, s: ScanState, a: seq<string>, b: seq<string>)
    requires ValidOptions(options)
    decreases |a|
    ensures ScanFold(options, s, a + b)
         == match ScanFold(options, s, a)
            case Err(e) => Err(e)
            case Ok(m) => ScanFold(options, m, b)
  {
    if |a| > 0 {
      assert (a + b)[0] == a[0] && (a + b)[1..] == a[1..] + b;
      match ScanToken(options, s, a[0])
      case Err(_) =>
      case Ok(s') => ScanFoldAppend(options, s', a[1..], b);
    } else {
      assert a + b == b;
    }
  }

  // ---------------------------------------------------------------- positional tokens and `--`

  /** Operand-looking tokens become operands, one each and in order; a pending option takes the first. */
  lemma {:induction false} PositionalTokens(options: seq<OptionSpec>, s: ScanState, tokens: seq<string>)
    requires ValidOptions(options)
    requires forall i :: 0 <= i < |tokens| ==> LooksPositional(tokens[i])
    ensures ScanFold(options, s, tokens)
         == Ok(ScanState(s.entries + Positional(s.pending, tokens), s.terminated, if |tokens| == 0 then s.pending else None))
    decreases |tokens|
  {
    if |tokens| > 0 {
      var s' := ScanState(s.entries + [Entry(s.pending, Some(tokens[0]))], s.terminated, None);
      assert ScanToken(options, s, tokens[0]) == Ok(s');
      PositionalTokens(options, s', tokens[1..]);
      PositionalCons(s.pending, tokens);
      assert s'.entries + Positional(None, tokens[1..]) == s.entries + Positional(s.pending, tokens);
      assert ScanFold(options, s, tokens) == ScanFold(options, s', tokens[1..]);
    } else {
      assert s.entries + Positional(s.pending, tokens) == s.entries;
    }
  }

  /** After `--` every token is an operand, whatever its shape; a pending option takes the first. */
  lemma {:induction false} TerminatedTokens(options: seq<OptionSpec>, s: ScanState, tokens: seq<string>)
    requires ValidOptions(options) && s.terminated
    ensures ScanFold(options, s, tokens)
         == Ok(ScanState(s.entries + Positional(s.pending, tokens), true, if |tokens| == 0 then s.pending else None))
    decreases |tokens|
  {
    if |tokens| > 0 {
      var s' := ScanState(s.entries + [Entry(s.pending, Some(tokens[0]))], true, None);
      assert ScanToken(options, s, tokens[0]) == Ok(s');
      TerminatedTokens(options, s', tokens[1..]);
      PositionalCons(s.pending, tokens);
      assert s'.entries + Positional(None, tokens[1..]) == s.entries + Positional(s.pending, tokens);
      assert ScanFold(options, s, tokens) == ScanFold(options, s', tokens[1..]);
    } else {
      assert s.entries + Positional(s.pending, tokens) == s.entries;
    }
  }

  /**
   * The first `--` emits nothing and keeps a pending option, which the next token then
   * satisfies; every later token, another `--` included, is an operand.
   */
  lemma EndOfOptions(options: seq<OptionSpec>, s: ScanState, pre: seq<string>, post: seq<string>, m: ScanState)
    requires ValidOptions(options)
    requires ScanFold(options, s, pre) == Ok(m) && !m.terminated
    ensures ScanFold(options, s, pre + ["--"] + post)
         == Ok(ScanState(m.entries + Positional(m.pending, post), true, if |post| == 0 then m.pending else None))
  {
    ScanFoldAppend(options, s, pre, ["--"] + post);
    assert pre + ["--"] + post == pre + (["--"] + post);
    assert ScanToken(options, m, "--") == Ok(m.(terminated := true));
    assert (["--"] + post)[1..] == post;
    TerminatedTokens(options, m.(terminated := true), post);
  }

  /** With tar mode off, a vector of operands parses to one `(absent, token)` entry per token, in order. */
  lemma AllPositional(options: seq<OptionSpec>, args: seq<string>)
    requires ValidOptions(options)
    requires forall i :: 0 <= i < |args| ==> LooksPositional(args[i])
    ensures Semantics.Parse(options, false, args) == Ok(seq(|args|, i requires 0 <= i < |args| => Entry(None, Some(args[i]))))
  {
    if |args| == 0 {
      assert seq(|args|, i requires 0 <= i < |args| => Entry(None, Some(args[i]))) == [];
    } else {
      assert args[0..] == args;
      PositionalTokens(options, ScanState([], false, None), args);
      assert [] + Positional(None, args) == seq(|args|, i requires 0 <= i < |args| => Entry(None, Some(args[i])));
    }
  }

  /** A pending option takes the next operand-looking token (any token after `--`) as its parameter. */
  lemma PendingTakesNext(options: seq<OptionSpec>, s: ScanState, name: string, arg: string, rest: seq<string>)
    requires ValidOptions(options) && s.pending == Some(name)
    requires s.terminated || LooksPositional(arg)
    ensures ScanFold(options, s, [arg] + rest)
         == ScanFold(options, ScanState(s.entries + [Entry(Some(name), Some(arg))], s.terminated, None), rest)
  {
    assert ([arg] + rest)[0] == arg && ([arg] + rest)[1..] == rest;
  }

  /** A pending option followed by an option-looking token other than `--` aborts with a missing parameter. */
  lemma PendingBeforeOption(options: seq<OptionSpec>, s: ScanState, arg: string, rest: seq<string>)
    requires ValidOptions(options) && s.pending.Some? && !s.terminated
    requires StartsWith(arg, "-") && arg != "-" && arg != "--"
    ensures ScanFold(options, s, [arg] + rest) == Err(MissingParameter)
  {
    assert ([arg] + rest)[0] == arg;
  }

  /** A pending option left when the vector ends aborts the whole parse with a missing parameter. */
  lemma PendingAtEnd(options: seq<OptionSpec>, tarEnabled: bool, args: seq<string>, pre: TarState, fin: ScanState)
    requires ValidOptions(options) && |args| > 0
    requires TarPrePass(options, tarEnabled, args) == Ok(pre)
    requires ScanFold(options, ScanState(pre.entries, false, None), args[pre.cursor..]) == Ok(fin)
    ensures Semantics.Parse(options, tarEnabled, args).Ok? <==> fin.pending.None?
    ensures fin.pending.Some? ==> Semantics.Parse(options, tarEnabled, args) == Err(MissingParameter)
    ensures fin.pending.None? ==> Semantics.Parse(options, tarEnabled, args) == Ok(fin.entries)
  {
  }

  // ---------------------------------------------------------------- tar pre-pass

  lemma SuppliedSnoc(entries: seq<Entry>, e: Entry)
    ensures Supplied(entries + [e]) == Supplied(entries) + if e.param.Some? then [e.param.value] else []
  {
    assert (entries + [e])[..|entries|] == entries;
  }

  lemma {:induction false} SuppliedAppend(a: seq<Entry>, b: seq<Entry>)
    ensures Supplied(a + b) == Supplied(a) + Supplied(b)
    decreases |b|
  {
    if |b| == 0 {
      assert a + b == a;
    } else {
      var b' := b[..|b| - 1];
      assert a + b == (a + b') + [b[|b| - 1]];
      SuppliedAppend(a, b');
      SuppliedSnoc(a + b', b[|b| - 1]);
      SuppliedSnoc(b', b[|b| - 1]);
      assert b' + [b[|b| - 1]] == b;
    }
  }

  /** One tar letter appends the entry for that letter at the current cursor and consumes at most that token. */
  lemma TarFlagShape(options: seq<OptionSpec>, args: seq<string>, t: TarState, flag: char, t': TarState)
    requires ValidOptions(options) && t.cursor <= |args|
    requires TarFlag(options, args, t, flag) == Ok(t')
    ensures |t'.entries| == |t.entries| + 1 && t'.entries[..|t.entries|] == t.entries
    ensures TarEntryFor(options, args, flag, t'.entries[|t.entries|], t.cursor)
    ensures t.cursor <= t'.cursor <= |args| && Supplied(t'.entries) == Supplied(t.entries) + args[t.cursor..t'.cursor]
    ensures |Supplied([t'.entries[|t.entries|]])| == t'.cursor - t.cursor
  {
    var e := t'.entries[|t.entries|];
    assert t'.entries == t.entries + [e];
    SuppliedSnoc(t.entries, e);
    SuppliedSnoc([], e);
  }

  /**
   * A tar letter fails exactly when it names no option (an unrecognised option) or when its
   * option requires a parameter and the tokens have run out (a missing parameter).
   */
  lemma TarFlagErrors(options: seq<OptionSpec>, args: seq<string>, t: TarState, flag: char)
    requires ValidOptions(options)
    ensures var o := FindByFirstLetter(options, flag);
      TarFlag(options, args, t, flag).Err? <==> o.None? || (o.value.takesParam && o.value.requiresParam && |args| <= t.cursor)
    ensures var o := FindByFirstLetter(options, flag);
      TarFlag(options, args, t, flag).Err? ==>
        TarFlag(options, args, t, flag).error == if o.None? then UnrecognizedOption else MissingParameter
  {
  }

  /** Dropping the first entry of a prefix drops that entry's parameter, if any, from the parameters supplied. */
  lemma SuppliedShift(es: seq<Entry>, i: nat)
    requires 1 <= i <= |es|
    ensures |Supplied(es[..i])| == |Supplied([es[0]])| + |Supplied(es[1..][..i - 1])|
  {
    assert es[..i] == [es[0]] + es[1..][..i - 1];
    SuppliedAppend([es[0]], es[1..][..i - 1]);
  }

  /**
   * The entries `es` are those of the tar letters `flags` with the cursor starting at `c`: the
   * i-th is the entry `TarEntryFor` gives at `c` plus the number of parameters before it.
   */
  predicate TarEntriesAt(options: seq<OptionSpec>, args: seq<string>, flags: string, es: seq<Entry>, c: nat)
    requires ValidOptions(options)
  {
    |es| == |flags|
    && forall i :: 0 <= i < |flags| ==> TarEntryFor(options, args, flags[i], es[i], c + |Supplied(es[..i])|)
  }

  /**
   * The inductive step of `TarFoldEntries`: the entry of the first letter at cursor `c`, followed
   * by the entries of the later letters at `c` moved past the first letter's parameter.
   */
  lemma TarEntriesCons(options: seq<OptionSpec>, args: seq<string>, flags: string, es: seq<Entry>, c: nat, c': nat)
    requires ValidOptions(options) && |flags| > 0 && |es| > 0
    requires TarEntryFor(options, args, flags[0], es[0], c) && c' == c + |Supplied([es[0]])|
    requires TarEntriesAt(options, args, flags[1..], es[1..], c')
    ensures TarEntriesAt(options, args, flags, es, c)
  {
    assert es[..0] == [] && Supplied([]) == [];
    forall i | 1 <= i < |flags|
      ensures TarEntryFor(options, args, flags[i], es[i], c + |Supplied(es[..i])|)
    {
      var k := i - 1;
      assert TarEntryFor(options, args, flags[1..][k], es[1..][k], c' + |Supplied(es[1..][..k])|);
      SuppliedShift(es, i);
      assert c' + |Supplied(es[1..][..k])| == c + |Supplied(es[..i])|;
      assert flags[1..][k] == flags[i] && es[1..][k] == es[i];
    }
  }

  /**
   * The tar letters produce exactly one entry each, in letter order: the entry of the i-th
   * letter is the one `TarEntryFor` gives at the cursor reached by then, the start cursor plus
   * the number of parameters the earlier letters took.
   */
  lemma {:induction false} TarFoldEntries(options: seq<OptionSpec>, args: seq<string>, t: TarState, flags: string, u: TarState)
    requires ValidOptions(options) && t.cursor <= |args|
    requires TarFold(options, args, t, flags) == Ok(u)
    ensures |u.entries| == |t.entries| + |flags| && u.entries[..|t.entries|] == t.entries
    ensures TarEntriesAt(options, args, flags, u.entries[|t.entries|..], t.cursor)
    decreases |flags|
  {
    if |flags| > 0 {
      var t' := TarFlag(options, args, t, flags[0]).value;
      TarFlagShape(options, args, t, flags[0], t');
      TarFoldEntries(options, args, t', flags[1..], u);
      var n := |t.entries|;
      SlicesAt(u.entries, n);
      assert u.entries[n..][0] == t'.entries[n];
      TarEntriesCons(options, args, flags, u.entries[n..], t.cursor, t'.cursor);
    } else {
      assert u == t && u.entries[|t.entries|..] == [];
    }
  }

  /**
   * Once a parameter-taking tar letter is left without a parameter the vector is used up, so no
   * later tar letter carries one either.
   */
  lemma TarNoParamAfterGap(options: seq<OptionSpec>, args: seq<string>, t: TarState, flags: string, u: TarState)
    requires ValidOptions(options) && t.cursor <= |args|
    requires TarFold(options, args, t, flags) == Ok(u)
    ensures |u.entries| == |t.entries| + |flags|
    ensures var es := u.entries[|t.entries|..];
      forall i, j ::
        (0 <= i < j < |flags| && es[i].param.None? && FindByFirstLetter(options, flags[i]).Some?
         && FindByFirstLetter(options, flags[i]).value.takesParam) ==> es[j].param.None?
  {
    TarFoldEntries(options, args, t, flags, u);
    var es := u.entries[|t.entries|..];
    forall i, j | 0 <= i < j < |flags| && es[i].param.None? && FindByFirstLetter(options, flags[i]).Some?
                  && FindByFirstLetter(options, flags[i]).value.takesParam
      ensures es[j].param.None?
    {
      assert es[..j] == es[..i] + es[i..j];
      SuppliedAppend(es[..i], es[i..j]);
    }
  }

  /** The parameters the tar letters carry are the tokens after the cursor, consumed in order. */
  lemma {:induction false} TarFoldParams(options: seq<OptionSpec>, args: seq<string>, t: TarState, flags: string, u: TarState)
    requires ValidOptions(options) && t.cursor <= |args|
    requires TarFold(options, args, t, flags) == Ok(u)
    ensures t.cursor <= u.cursor <= |args| && Supplied(u.entries) == Supplied(t.entries) + args[t.cursor..u.cursor]
    decreases |flags|
  {
    if |flags| > 0 {
      var t' := TarFlag(options, args, t, flags[0]).value;
      TarFlagShape(options, args, t, flags[0], t');
      TarFoldParams(options, args, t', flags[1..], u);
      SliceJoin(args, t.cursor, t'.cursor, u.cursor);
    } else {
      assert u == t;
    }
  }

  /**
   * Once the vector is used up, the remaining tar letters abort with a missing parameter if any
   * of them requires one, and otherwise each yields its name with no parameter.
   */
  lemma {:induction false} TarExhausted(options: seq<OptionSpec>, args: seq<string>, t: TarState, flags: string)
    requires ValidOptions(options) && t.cursor == |args| && KnownLetters(options, flags)
    ensures TarFold(options, args, t, flags)
         == if exists i :: 0 <= i < |flags| && RequiresParamLetter(options, flags[i]) then Err(MissingParameter)
            else Ok(TarState(t.entries + FlagEntries(options, flags), t.cursor))
    decreases |flags|
  {
    if |flags| == 0 {
      assert t.entries + FlagEntries(options, flags) == t.entries;
    } else {
      var o := FindByFirstLetter(options, flags[0]).value;
      assert KnownLetters(options, flags[1..]) by {
        forall i | 0 <= i < |flags[1..]| ensures FindByFirstLetter(options, flags[1..][i]).Some? {
          assert flags[1..][i] == flags[i + 1];
        }
      }
      if RequiresParamLetter(options, flags[0]) {
        assert TarFlag(options, args, t, flags[0]) == Err(MissingParameter);
      } else {
        var t' := TarState(t.entries + [Entry(Some(o.name), None)], t.cursor);
        assert TarFlag(options, args, t, flags[0]) == Ok(t');
        TarExhausted(options, args, t', flags[1..]);
        assert (exists i :: 0 <= i < |flags| && RequiresParamLetter(options, flags[i]))
           <==> (exists i :: 0 <= i < |flags[1..]| && RequiresParamLetter(options, flags[1..][i])) by {
          forall i | 0 <= i < |flags[1..]| ensures flags[1..][i] == flags[i + 1] { }
          if exists i :: 0 <= i < |flags| && RequiresParamLetter(options, flags[i]) {
            var i :| 0 <= i < |flags| && RequiresParamLetter(options, flags[i]);
            assert i > 0 && RequiresParamLetter(options, flags[1..][i - 1]);
          }
        }
        assert t'.entries + FlagEntries(options, flags[1..]) == t.entries + FlagEntries(options, flags);
      }
    }
  }

  /** The tar letters `a + b` are the letters `a`, then the letters `b` from where `a` left off. */
  lemma {:induction false} TarFoldSplit(options: seq<OptionSpec>, args: seq<string>, t: TarState, a: string, b: string)
    requires ValidOptions(options) && t.cursor <= |args|
    ensures TarFold(options, args, t, a + b)
         == match TarFold(options, args, t, a)
            case Err(e) => Err(e)
            case Ok(m) => TarFold(options, args, m, b)
    decreases |a|
  {
    if |a| > 0 {
      assert (a + b)[0] == a[0] && (a + b)[1..] == a[1..] + b;
      match TarFlag(options, args, t, a[0])
      case Err(_) =>
      case Ok(t') => TarFoldSplit(options, args, t', a[1..], b);
    } else {
      assert a + b == b;
    }
  }

  /**
   * A tar letter that names no option aborts the whole pre-pass with an unrecognised option,
   * whatever the letters after it are, once the letters before it have succeeded.
   */
  lemma TarUnknownLetter(options: seq<OptionSpec>, args: seq<string>, t: TarState, flags: string, k: nat, m: TarState)
    requires ValidOptions(options) && t.cursor <= |args| && k < |flags|
    requires TarFold(options, args, t, flags[..k]) == Ok(m)
    requires FindByFirstLetter(options, flags[k]).None?
    ensures TarFold(options, args, t, flags) == Err(UnrecognizedOption)
  {
    var pre, rest := flags[..k], flags[k..];
    TarUnknownHead(options, args, m, rest);
    TarFoldSplit(options, args, t, pre, rest);
    SplitAt(flags, k);
  }

  lemma SplitAt(s: string, k: nat)
    requires k <= |s|
    ensures s[..k] + s[k..] == s
  {
  }

  lemma SliceAll(xs: seq<Entry>)
    ensures xs[0..] == xs
  {
  }

  lemma SliceJoin(xs: seq<string>, i: nat, j: nat, k: nat)
    requires i <= j <= k <= |xs|
    ensures xs[i..k] == xs[i..j] + xs[j..k]
  {
  }

  lemma SlicesAt(xs: seq<Entry>, n: nat)
    requires n < |xs|
    ensures xs[..n + 1][..n] == xs[..n] && xs[n..][0] == xs[n] && xs[n..][1..] == xs[n + 1..]
  {
  }

  lemma TarUnknownHead(options: seq<OptionSpec>, args: seq<string>, t: TarState, flags: string)
    requires ValidOptions(options) && t.cursor <= |args| && |flags| > 0
    requires FindByFirstLetter(options, flags[0]).None?
    ensures TarFold(options, args, t, flags) == Err(UnrecognizedOption)
  {
  }

  /** Every letter in `chars` names an option that takes a parameter. */
  predicate ParamFlags(options: seq<OptionSpec>, chars: string)
    requires ValidOptions(options)
  {
    forall i :: 0 <= i < |chars| ==>
      FindByFirstLetter(options, chars[i]).Some? && FindByFirstLetter(options, chars[i]).value.takesParam
  }

  /**
   * Tar letters that all take a parameter, with enough tokens after the cursor, pair up with
   * those tokens in order: the i-th letter gets the i-th token.
   */
  lemma {:induction false} TarParamsInOrder(options: seq<OptionSpec>, args: seq<string>, t: TarState, flags: string)
    requires ValidOptions(options) && ParamFlags(options, flags) && t.cursor + |flags| <= |args|
    ensures TarFold(options, args, t, flags)
         == Ok(TarState(t.entries + seq(|flags|, i requires 0 <= i < |flags| =>
                          Entry(Some(FindByFirstLetter(options, flags[i]).value.name), Some(args[t.cursor + i]))),
                        t.cursor + |flags|))
    decreases |flags|
  {
    var expected := seq(|flags|, i requires 0 <= i < |flags| =>
                      Entry(Some(FindByFirstLetter(options, flags[i]).value.name), Some(args[t.cursor + i])));
    if |flags| == 0 {
      assert t.entries + expected == t.entries;
    } else {
      var o := FindByFirstLetter(options, flags[0]).value;
      var t' := TarState(t.entries + [Entry(Some(o.name), Some(args[t.cursor]))], t.cursor + 1);
      assert TarFlag(options, args, t, flags[0]) == Ok(t');
      assert ParamFlags(options, flags[1..]) by {
        forall i | 0 <= i < |flags[1..]| ensures flags[1..][i] == flags[i + 1] { }
      }
      TarParamsInOrder(options, args, t', flags[1..]);
      var rest := seq(|flags[1..]|, i requires 0 <= i < |flags[1..]| =>
                    Entry(Some(FindByFirstLetter(options, flags[1..][i]).value.name), Some(args[t'.cursor + i])));
      assert expected == [Entry(Some(o.name), Some(args[t.cursor]))] + rest;
      assert t'.entries + rest == t.entries + expected;
    }
  }

  /**
   * With tar mode off, or a first token starting with `-`, nothing is consumed before the main
   * scan, which starts at the first token with no entries.
   */
  lemma TarSkipped(options: seq<OptionSpec>, tarEnabled: bool, args: seq<string>)
    requires ValidOptions(options) && |args| > 0
    requires !tarEnabled || StartsWith(args[0], "-")
    ensures TarPrePass(options, tarEnabled, args) == Ok(TarState([], 0))
    ensures Semantics.Parse(options, tarEnabled, args)
         == match ScanFold(options, ScanState([], false, None), args)
            case Err(e) => Err(e)
            case Ok(fin) => if fin.pending.Some? then Err(MissingParameter) else Ok(fin.entries)
  {
    assert args[0..] == args;
  }

  /**
   * A successful parse in tar mode starts with the tar entries: one per letter of the first
   * token, named by its first-letter match, with parameters taken from the following tokens in
   * order; the main scan resumes at the first token not consumed.
   */
  lemma TarEntriesFirst(options: seq<OptionSpec>, args: seq<string>, es: seq<Entry>)
    requires ValidOptions(options) && TarApplies(true, args)
    requires Semantics.Parse(options, true, args) == Ok(es)
    ensures TarFold(options, args, TarState([], 1), args[0]).Ok?
    ensures var u := TarFold(options, args, TarState([], 1), args[0]).value;
      && |args[0]| <= |es|
      && es[..|args[0]|] == u.entries
      && TarEntriesAt(options, args, args[0], u.entries, 1)
      && Supplied(u.entries) == args[1..u.cursor]
      && var scan := ScanFold(options, ScanState(u.entries, false, None), args[u.cursor..]);
         scan.Ok? && scan.value.entries == es && scan.value.pending.None?
  {
    var u := TarFold(options, args, TarState([], 1), args[0]).value;
    TarFoldEntries(options, args, TarState([], 1), args[0], u);
    TarFoldParams(options, args, TarState([], 1), args[0], u);
    SliceAll(u.entries);
    assert Supplied([]) == [];
  }
}
