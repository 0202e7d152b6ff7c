/**
 * `Parser.parse` as the source writes it: one list of entries appended in place, a tar
 * parameter cursor, and a main loop carrying the `terminated` flag and the pending option.
 * The parser object's two final fields (tar mode and the option array) are parameters.
 * The tar block and the bodies of the long and short cases are separate methods here, each
 * proved against the function of module Semantics that gives its meaning.
 */
module Parser {
  import opened Wrappers
  import opened Text
  import opened Options
  import opened Lookup
  import opened Semantics

  /** `findByFirstLetter`: the declared options in order, returning the first whose alias begins with `letter`. */
  method LetterLookup(options: seq<OptionSpec>, letter: char) returns (r: Option<OptionSpec>)
    requires ValidOptions(options)
    ensures r == FindByFirstLetter(options, letter)
  {
    var i := 0;
    while i < |options|
      invariant 0 <= i <= |options| && ValidOptions(options[i..])
      invariant FindByFirstLetter(options, letter) == FindByFirstLetter(options[i..], letter)
    {
      assert options[i..][0] == options[i] && options[i..][1..] == options[i + 1..];
      if options[i].alias[0] == letter {
        return Some(options[i]);
      }
      i := i + 1;
    }
    return None;
  }

  /** `findByAbbreviation`: the declared options in order, returning the first whose alias starts with `abbr`. */
  method AbbreviationLookup(options: seq<OptionSpec>, abbr: string) returns (r: Option<OptionSpec>)
    ensures r == FindByAbbreviation(options, abbr)
  {
    var i := 0;
    while i < |options|
      invariant 0 <= i <= |options|
      invariant FindByAbbreviation(options, abbr) == FindByAbbreviation(options[i..], abbr)
    {
      assert options[i..][0] == options[i] && options[i..][1..] == options[i + 1..];
      if StartsWith(options[i].alias, abbr) {
        return Some(options[i]);
      }
      i := i + 1;
    }
    return None;
  }

  /** The tar block: every letter of `args[0]` is a flag; parameters come from `args[1..]` in order. */
  method TarPass(options: seq<OptionSpec>, args: seq<string>) returns (r: Result<TarState, ParseError>)
    requires ValidOptions(options) && |args| > 0
    ensures r == TarFold(options, args, TarState([], 1), args[0])
  {
    var master := args[0];
    var entries: seq<Entry> := [];
    var nextParamIndex: nat := 1;
    var j := 0;
    while j < |master|
      invariant 0 <= j <= |master| && 1 <= nextParamIndex <= |args|
      invariant TarFold(options, args, TarState([], 1), master)
             == TarFold(options, args, TarState(entries, nextParamIndex), master[j..])
    {
      assert master[j..][1..] == master[j + 1..];
      var opt := LetterLookup(options, master[j]);
      if opt.None? {
        return Err(UnrecognizedOption);
      }
      var param: Option<string>;
      if opt.value.takesParam {
        var hasParam := nextParamIndex < |args|;
        if opt.value.requiresParam && !hasParam {
          return Err(MissingParameter);
        } else if hasParam {
          param := Some(args[nextParamIndex]);
          nextParamIndex := nextParamIndex + 1;
        } else {
          param := None;
        }
      } else {
        param := None;
      }
      entries := entries + [Entry(Some(opt.value.name), param)];
      j := j + 1;
    }
    return Ok(TarState(entries, nextParamIndex));
  }

  /** The long case `--abbr[=value]`, given the text after `--`. */
  method LongOption(options: seq<OptionSpec>, s: ScanState, master: string) returns (r: Result<ScanState, ParseError>)
    ensures r == ScanLong(options, s, master)
  {
    var eqIndex := IndexOf(master, '=');
    var opt: string, param: Option<string>;
    if eqIndex < 0 {
      opt, param := master, None;
    } else if eqIndex == 0 {
      return Err(EmptyOptionName);
    } else {
      opt, param := master[..eqIndex], Some(master[eqIndex + 1..]);
    }
    var option := AbbreviationLookup(options, opt);
    if option.None? {
      return Err(UnrecognizedOption);
    }
    if !option.value.takesParam && param.Some? {
      return Err(UnexpectedParameter);
    }
    if option.value.takesParam && !option.value.requiresParam && param.None? {
      return Err(MissingParameter);
    }
    if option.value.requiresParam && param.None? {
      return Ok(s.(pending := Some(option.value.name)));
    }
    return Ok(s.(entries := s.entries + [Entry(Some(option.value.name), param)]));
  }

  /** The short case `-abc`, given the text after the dash. */
  method ShortOption(options: seq<OptionSpec>, s: ScanState, body: string) returns (r: Result<ScanState, ParseError>)
    requires ValidOptions(options)
    ensures r == ScanShort(options, s, body, 0)
  {
    var entries := s.entries;
    var currentOptName := s.pending;
    var j := 0;
    while j < |body|
      invariant 0 <= j <= |body|
      invariant ScanShort(options, s, body, 0)
             == ScanShort(options, ScanState(entries, s.terminated, currentOptName), body, j)
    {
      var opt := LetterLookup(options, body[j]);
      if opt.None? {
        return Err(UnrecognizedOption);
      }
      if opt.value.takesParam {
        var hasParam := j < |body| - 1;
        var param := if hasParam then Some(body[j + 1..]) else None;
        if opt.value.requiresParam && !hasParam {
          currentOptName := Some(opt.value.name);
        } else {
          entries := entries + [Entry(Some(opt.value.name), param)];
        }
        return Ok(ScanState(entries, s.terminated, currentOptName));
      } else {
        entries := entries + [Entry(Some(opt.value.name), None)];
      }
      j := j + 1;
    }
    return Ok(ScanState(entries, s.terminated, currentOptName));
  }

  /** `parse`: the tar pre-pass when it applies, then the main scan, then the dangling-option check. */
  method Parse(options: seq<OptionSpec>, tarEnabled: bool, args: seq<string>) returns (r: Result<seq<Entry>, ParseError>)
    requires ValidOptions(options)
    ensures r == Semantics.Parse(options, tarEnabled, args)
  {
    if |args| == 0 {
      return Ok([]);
    }
    var entries: seq<Entry>;
    var pos: nat;
    if tarEnabled && !StartsWith(args[0], "-") {
      var tar := TarPass(options, args);
      if tar.Err? {
        return Err(tar.error);
      }
      entries, pos := tar.value.entries, tar.value.cursor;
    } else {
      entries, pos := [], 0;
    }

    ghost var start := ScanState(entries, false, None);
    var terminated := false;
    var currentOptName: Option<string> := None;
    var i := pos;
    while i < |args|
      invariant pos <= i <= |args|
      invariant ScanFold(options, start, args[pos..])
             == ScanFold(options, ScanState(entries, terminated, currentOptName), args[i..])
    {
      var arg := args[i];
      assert args[i..][0] == arg && args[i..][1..] == args[i + 1..];
      if terminated || arg == "-" || !StartsWith(arg, "-") {
        entries := entries + [Entry(currentOptName, Some(arg))];
        currentOptName := None;
      } else if arg == "--" {
        terminated := true;
      } else if currentOptName.Some? {
        return Err(MissingParameter);
      } else {
        var next: Result<ScanState, ParseError>;
        if StartsWith(arg, "--") {
          next := LongOption(options, ScanState(entries, terminated, None), arg[2..]);
        } else {
          next := ShortOption(options, ScanState(entries, terminated, None), arg[1..]);
        }
        if next.Err? {
          return Err(next.error);
        }
        entries, terminated, currentOptName := next.value.entries, next.value.terminated, next.value.pending;
      }
      i := i + 1;
    }

    if currentOptName.Some? {
      return Err(MissingParameter);
    }
    return Ok(entries);
  }
}
