/**
 bin/input_collector.py as it runs: reading the terminal consumes lines,
 creating a directory adds a path, and saving appends to the record of files
 written. Each method is proved to do what the functions in collector.dfy
 say of the state it starts from.
 */
module InputCollector {
  import opened Options
  import opened Dicts
  import opened Prompt
  import opened Collector

  /** One run of the collector. */
  class Session {
    /** The lines the operator has yet to type. */
    var input: seq<string>
    /** The paths that exist. */
    var dirs: set<string>
    /** The files written so far, in order. */
    ghost var log: seq<Write>

    constructor (lines: seq<string>, existing: set<string>)
      ensures input == lines && dirs == existing && log == []
    {
      input := lines;
      dirs := existing;
      log := [];
    }

    /** `get_user_input`: reads lines until one answers the question; the
        lines read are gone afterwards. `None` means the terminal ran dry. */
    method AskUser(default: Option<Value>, kind: Kind) returns (v: Option<Value>)
      modifies this
      ensures match Ask(old(input), default, kind)
        case Got(x, n) => v == Some(x) && input == old(input)[n..]
        case Exhausted => v == None && input == []
      ensures dirs == old(dirs) && log == old(log)
    {
      var a := GetUserInput(input, default, kind);
      match a
      case Got(x, n) =>
        v := Some(x);
        input := input[n..];
      case Exhausted =>
        v := None;
        input := [];
    }

    /** `validate_directory(path)`: an empty or existing path passes without
        a question; otherwise one line is read and the path is created when
        it says "yes". `None` means the terminal ran dry. */
    method ValidateDirectory(path: string) returns (ok: Option<bool>)
      modifies this
      ensures match CheckDirectory(old(dirs), path, old(input))
        case Checked(b, d, n) => ok == Some(b) && dirs == d && input == old(input)[n..]
        case CheckExhausted => ok == None && dirs == old(dirs) && input == []
      ensures log == old(log)
    {
      if path == [] || path in dirs {
        return Some(true);
      }
      if input == [] {
        return None;
      }
      var create := input[0];
      input := input[1..];
      if IsYes(create) {
        dirs := dirs + {path};
        ok := Some(true);
      } else {
        ok := Some(false);
      }
    }

    // `collect_parameters` is one straight-line function. Its last three
    // questions are split off into the methods below, each calling the next,
    // only so that each proof stays small: asking all four questions in one
    // method costs the verifier several times what the four pieces cost.
    // Nothing else calls them, and together they run the same steps in the
    // same order.

    /** The last question of `collect_parameters`: the profile, stored in
        the options. */
    method AskFromProfile(params: Dict<Value>, options: Dict<Value>)
      returns (r: Option<(Dict<Value>, Dict<Value>)>)
      modifies this
      ensures match CollectFrom(Questions[3..], old(input), old(dirs), params, options)
        case Collected(p, o, d, rest) => r == Some((p, o)) && dirs == d && input == rest
        case OutOfInput(d) => r == None && dirs == d && input == []
      ensures log == old(log)
    {
      assert Questions[3..][1..] == [];
      var profile := AskUser(Some(Str(ProfileDefault)), StrKind);
      if profile.None? {
        return None;
      }
      var options' := Put(options, "profile", profile.value);
      assert CollectFrom([], input, dirs, params, options') == Collected(params, options', dirs, input);
      r := Some((params, options'));
    }

    /** `collect_parameters` from the normalisation question on. */
    method AskFromNorm(params: Dict<Value>, options: Dict<Value>)
      returns (r: Option<(Dict<Value>, Dict<Value>)>)
      modifies this
      ensures match CollectFrom(Questions[2..], old(input), old(dirs), params, options)
        case Collected(p, o, d, rest) => r == Some((p, o)) && dirs == d && input == rest
        case OutOfInput(d) => r == None && dirs == d && input == []
      ensures log == old(log)
    {
      assert Questions[2..][1..] == Questions[3..];
      var doNorm := AskUser(Some(Bool(NormDefault)), BoolKind);
      if doNorm.None? {
        return None;
      }
      var params' := Put(params, "do_norm", doNorm.value);
      r := AskFromProfile(params', options);
    }

    /** `collect_parameters` from the output directory question on; the
        result of checking the output directory is not looked at. */
    method AskFromOutdir(params: Dict<Value>, options: Dict<Value>)
      returns (r: Option<(Dict<Value>, Dict<Value>)>)
      modifies this
      ensures match CollectFrom(Questions[1..], old(input), old(dirs), params, options)
        case Collected(p, o, d, rest) => r == Some((p, o)) && dirs == d && input == rest
        case OutOfInput(d) => r == None && dirs == d && input == []
      ensures log == old(log)
    {
      assert Questions[1..][1..] == Questions[2..];
      var outdir := AskUser(Some(Str(OutdirDefault)), StrKind);
      if outdir.None? {
        return None;
      }
      AskKeepsType(old(input), Some(Str(OutdirDefault)), StrKind);
      var params' := Put(params, "outdir", outdir.value);
      var created := ValidateDirectory(outdir.value.text);
      if created.None? {
        return None;
      }
      r := AskFromNorm(params', options);
    }

    /** `collect_parameters`: the four questions and two checks in order,
        filling the two dictionaries key by key. A missing input directory
        only brings a warning. */
    method CollectParameters() returns (r: Option<(Dict<Value>, Dict<Value>)>)
      modifies this
      ensures match Collect(old(input), old(dirs))
        case Collected(p, o, d, rest) => r == Some((p, o)) && dirs == d && input == rest
        case OutOfInput(d) => r == None && dirs == d && input == []
      ensures log == old(log)
    {
      var params: Dict<Value> := [];
      var options: Dict<Value> := [];
      var inputDir := AskUser(None, StrKind);
      if inputDir.None? {
        return None;
      }
      AskKeepsType(old(input), None, StrKind);
      params := Put(params, "input_dir", inputDir.value);
      var found := ValidateDirectory(inputDir.value.text);
      if found.None? {
        return None;
      }
      r := AskFromOutdir(params, options);
    }

    /** `save_params`: the parameters file, then the options file. */
    method SaveParams(params: Dict<Value>, options: Dict<Value>, paramsFile: string, optionsFile: string)
      modifies this
      ensures log == old(log) + [Write(paramsFile, params), Write(optionsFile, options)]
      ensures paramsFile == ParamsFile && optionsFile == OptionsFile ==> log == old(log) + Saves(params, options)
      ensures input == old(input) && dirs == old(dirs)
    {
      log := log + [Write(paramsFile, params)];
      log := log + [Write(optionsFile, options)];
    }

    /** `main`: collect, confirm, and save only on "yes". */
    method Run() returns (ending: Ending)
      modifies this
      ensures var r := MainFlow(old(input), old(dirs));
        ending == r.ending && dirs == r.dirs && log == old(log) + r.writes
      ensures match Collect(old(input), old(dirs))
        case Collected(_, _, _, rest) => input == if rest == [] then [] else rest[1..]
        case OutOfInput(_) => input == []
    {
      var collected := CollectParameters();
      if collected.None? {
        return Interrupted;
      }
      ghost var rest := input;
      var (params, options) := collected.value;
      if rest != [] {
        DefaultedStrTakesOneLine(rest, Str(ConfirmDefault));
      }
      var confirm := AskUser(Some(Str(ConfirmDefault)), StrKind);
      if confirm.None? {
        return Interrupted;
      }
      assert Confirm(rest) == Some(IsYes(confirm.value.text));
      if IsYes(confirm.value.text) {
        SaveParams(params, options, ParamsFile, OptionsFile);
        ending := Saved;
      } else {
        ending := Declined;
      }
    }
  }
}
