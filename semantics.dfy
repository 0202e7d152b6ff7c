/**
 * The meaning of `Parser.parse` as pure functions: one step function per token (or per
 * tar flag, or per short-option letter), folded left to right. The imperative parser
 * in module Parser is proved to compute exactly `Parse`.
 */
module Semantics {
  import opened Wrappers
  import opened Text
  import opened Options
  import opened Lookup

  /** One parsed unit: an option name (absent for a positional operand) and its parameter. */
  datatype Entry = Entry(name: Option<string>, param: Option<string>)

  /** The four ways a parse aborts; the source raises each as an `IOException`. */
  datatype ParseError = UnrecognizedOption | MissingParameter | UnexpectedParameter | EmptyOptionName

  /** The state of the tar pre-pass: entries so far and the cursor of the next parameter. */
  datatype TarState = TarState(entries: seq<Entry>, cursor: nat)

  /** The state of the main scan: entries so far, whether `--` was seen, and the option awaiting its parameter. */
  datatype ScanState = ScanState(entries: seq<Entry>, terminated: bool, pending: Option<string>)

  /** The tar pre-pass runs when tar mode is on and the first token does not start with a dash. */
  predicate TarApplies(tarEnabled: bool, args: seq<string>) {
    tarEnabled && |args| > 0 && !StartsWith(args[0], "-")
  }

  /** A token the main scan treats as an operand, whatever the state. */
  predicate LooksPositional(arg: string) {
    arg == "-" || !StartsWith(arg, "-")
  }

  /** One letter of the tar master token. */
  function TarFlag(options: seq<OptionSpec>, args: seq<string>, t: TarState, flag: char): Result<TarState, ParseError>
    requires ValidOptions(options)
  {
    match FindByFirstLetter(options, flag)
    case None => Err(UnrecognizedOption)
    case Some(opt) =>
      if !opt.takesParam then Ok(TarState(t.entries + [Entry(Some(opt.name), None)], t.cursor))
      else if opt.requiresParam && !(t.cursor < |args|) then Err(MissingParameter)
      else if t.cursor < |args| then Ok(TarState(t.entries + [Entry(Some(opt.name), Some(args[t.cursor]))], t.cursor + 1))
      else Ok(TarState(t.entries + [Entry(Some(opt.name), None)], t.cursor))
  }

  /** The letters `flags` of the tar master token, in order; the cursor never passes the end of `args`. */
  function TarFold(options: seq<OptionSpec>, args: seq<string>, t: TarState, flags: string): (r: Result<TarState, ParseError>)
    requires ValidOptions(options) && t.cursor <= |args|
    ensures r.Ok? ==> t.cursor <= r.value.cursor <= |args|
    decreases |flags|
  {
    if |flags| == 0 then Ok(t)
    else
      match TarFlag(options, args, t, flags[0])
      case Err(e) => Err(e)
      case Ok(t') => TarFold(options, args, t', flags[1..])
  }

  /** Phase A: the tar pre-pass when it applies, otherwise nothing consumed. */
  function TarPrePass(options: seq<OptionSpec>, tarEnabled: bool, args: seq<string>): (r: Result<TarState, ParseError>)
    requires ValidOptions(options)
    ensures r.Ok? ==> r.value.cursor <= |args|
  {
    if TarApplies(tarEnabled, args) then TarFold(options, args, TarState([], 1), args[0])
    else Ok(TarState([], 0))
  }

  /**
   * Splits the text after `--` at its first `=` into abbreviation and value; an `=` in first
   * position leaves no name and is an error.
   */
  function SplitLong(master: string): (r: Result<(string, Option<string>), ParseError>)
    ensures r.Err? <==> |master| > 0 && master[0] == '='
    ensures r.Err? ==> r.error == EmptyOptionName
    ensures r.Ok? ==> (r.value.1.Some? <==> '=' in master)
  {
    var eq := IndexOf(master, '=');
    if eq < 0 then Ok((master, None))
    else if eq == 0 then Err(EmptyOptionName)
    else Ok((master[..eq], Some(master[eq + 1..])))
  }

  /**
   * A long option `--abbr[=value]`, given the text after `--`. It either defers the option to
   * the next token or appends one entry, and it leaves the `--` flag alone; an unexpected
   * parameter is only ever reported for a token that carries `=`.
   */
  function ScanLong(options: seq<OptionSpec>, s: ScanState, master: string): (r: Result<ScanState, ParseError>)
    ensures r.Ok? ==> r.value.terminated == s.terminated
    ensures r.Ok? ==> (r.value.entries == s.entries && r.value.pending.Some?)
                      || (|r.value.entries| == |s.entries| + 1 && r.value.entries[..|s.entries|] == s.entries
                          && r.value.pending == s.pending)
    ensures r == Err(UnexpectedParameter) ==> '=' in master
  {
    match SplitLong(master)
    case Err(e) => Err(e)
    case Ok((abbr, param)) =>
      match FindByAbbreviation(options, abbr)
      case None => Err(UnrecognizedOption)
      case Some(opt) =>
        if !opt.takesParam && param.Some? then Err(UnexpectedParameter)
        else if opt.takesParam && !opt.requiresParam && param.None? then Err(MissingParameter)
        else if opt.requiresParam && param.None? then Ok(s.(pending := Some(opt.name)))
        else Ok(s.(entries := s.entries + [Entry(Some(opt.name), param)]))
  }

  /** Letters `body[j..]` of a combined short option; the first letter taking a parameter ends the token. */
  function ScanShort(options: seq<OptionSpec>, s: ScanState, body: string, j: nat): (r: Result<ScanState, ParseError>)
    requires ValidOptions(options) && j <= |body|
    ensures r.Ok? ==> r.value.terminated == s.terminated && s.entries <= r.value.entries
    ensures r.Ok? ==> |r.value.entries| <= |s.entries| + (|body| - j)
    decreases |body| - j
  {
    if j == |body| then Ok(s)
    else
      match FindByFirstLetter(options, body[j])
      case None => Err(UnrecognizedOption)
      case Some(opt) =>
        if opt.takesParam then
          var hasParam := j < |body| - 1;
          if opt.requiresParam && !hasParam then Ok(s.(pending := Some(opt.name)))
          else Ok(s.(entries := s.entries + [Entry(Some(opt.name), if hasParam then Some(body[j + 1..]) else None)]))
        else ScanShort(options, s.(entries := s.entries + [Entry(Some(opt.name), None)]), body, j + 1)
  }

  /**
   * One token of the main scan, with its five cases in the source's priority order. A token
   * never removes or reorders entries, and after `--` every token is accepted.
   */
  function ScanToken(options: seq<OptionSpec>, s: ScanState, arg: string): (r: Result<ScanState, ParseError>)
    requires ValidOptions(options)
    ensures s.terminated ==> r.Ok? && r.value.terminated
    ensures r.Ok? ==> s.entries <= r.value.entries
  {
    if s.terminated || LooksPositional(arg) then
      Ok(ScanState(s.entries + [Entry(s.pending, Some(arg))], s.terminated, None))
    else if arg == "--" then Ok(s.(terminated := true))
    else if s.pending.Some? then Err(MissingParameter)
    else if StartsWith(arg, "--") then ScanLong(options, s, arg[2..])
    else ScanShort(options, s, arg[1..], 0)
  }

  /**
   * Phase B over `tokens`, stopping at the first error. It only appends to the entries it
   * starts with, and once `--` has been seen it cannot fail.
   */
  function ScanFold(options: seq<OptionSpec>, s: ScanState, tokens: seq<string>): (r: Result<ScanState, ParseError>)
    requires ValidOptions(options)
    ensures s.terminated ==> r.Ok? && r.value.terminated
    ensures r.Ok? ==> s.entries <= r.value.entries
    decreases |tokens|
  {
    if |tokens| == 0 then Ok(s)
    else
      match ScanToken(options, s, tokens[0])
      case Err(e) => Err(e)
      case Ok(s') => ScanFold(options, s', tokens[1..])
  }

  /**
   * `parse`: the tar pre-pass, the main scan from the cursor it leaves, and the check for a
   * dangling option. A successful parse starts with the entries of the pre-pass.
   */
  function Parse(options: seq<OptionSpec>, tarEnabled: bool, args: seq<string>): (r: Result<seq<Entry>, ParseError>)
    requires ValidOptions(options)
    ensures r.Ok? ==> TarPrePass(options, tarEnabled, args).Ok? && TarPrePass(options, tarEnabled, args).value.entries <= r.value
  {
    if |args| == 0 then Ok([])
    else
      match TarPrePass(options, tarEnabled, args)
      case Err(e) => Err(e)
      case Ok(pre) =>
        match ScanFold(options, ScanState(pre.entries, false, None), args[pre.cursor..])
        case Err(e) => Err(e)
        case Ok(fin) => if fin.pending.Some? then Err(MissingParameter) else Ok(fin.entries)
  }
}
