/**
 What `validate_directory`, `collect_parameters` and `main` in
 bin/input_collector.py do, as functions of the lines the operator types and
 of the set of paths that exist. The class in session.dfy carries out the
 same steps on mutable state and is proved to agree with these functions.
 */
module Collector {
  import opened Options
  import opened Text
  import opened Dicts
  import opened Prompt

  /** The answers, once lower-cased, that count as "yes". */
  const YesWords: seq<string> := ["y", "yes"]

  /** `answer.lower() in ['y', 'yes']`: "yes" is `y` or `yes` in any letter
      case, with nothing around it, since the answer is not stripped first. */
  function IsYes(answer: string): (yes: bool)
    ensures yes <==> AnyCase(answer, "y") || AnyCase(answer, "yes")
  {
    OneOfSpec(Lower(answer), YesWords);
    LowerIsAnyCase(answer, "y");
    LowerIsAnyCase(answer, "yes");
    OneOf(Lower(answer), YesWords)
  }

  /** The outcome of checking a directory: whether it exists afterwards, the
      paths that exist, and how many lines the question took (none or one);
      or the lines ran out before the question was answered. */
  datatype Check = Checked(ok: bool, dirs: set<string>, consumed: nat) | CheckExhausted

  /** `validate_directory(path)`: an empty or existing path is accepted
      without a question; for a missing one the operator is asked, and the
      path is created exactly when the answer is "yes". */
  function CheckDirectory(dirs: set<string>, path: string, lines: seq<string>): (c: Check)
    ensures c.CheckExhausted? <==> path != [] && path !in dirs && lines == []
    ensures c.Checked? ==> dirs <= c.dirs <= dirs + {path} && c.consumed <= 1 && c.consumed <= |lines|
    ensures c.Checked? ==> (c.ok <==> path == [] || path in c.dirs)
    ensures c.Checked? ==> (c.consumed == 0 <==> path == [] || path in dirs)
    ensures c.Checked? && path != [] && path !in dirs ==>
      (c.ok <==> IsYes(lines[0])) && c.dirs == (if c.ok then dirs + {path} else dirs)
  {
    if path == [] || path in dirs then Checked(true, dirs, 0)
    else if lines == [] then CheckExhausted
    else if IsYes(lines[0]) then Checked(true, dirs + {path}, 1)
    else Checked(false, dirs, 1)
  }

  /** A missing path is created exactly when the answer is `y` or `yes` in
      any letter case; otherwise nothing changes and the check fails. */
  lemma CreatedIffYes(dirs: set<string>, path: string, answer: string, more: seq<string>)
    requires path != [] && path !in dirs
    ensures var c := CheckDirectory(dirs, path, [answer] + more);
      c.Checked? && c.consumed == 1 &&
      (c.ok <==> AnyCase(answer, "y") || AnyCase(answer, "yes")) &&
      c.dirs == (if c.ok then dirs + {path} else dirs)
  {
  }

  /** Checking a path that a check has just accepted asks nothing and changes
      nothing. */
  lemma CheckAgainIsQuiet(dirs: set<string>, path: string, lines: seq<string>, later: seq<string>)
    requires CheckDirectory(dirs, path, lines).Checked? && CheckDirectory(dirs, path, lines).ok
    ensures var d := CheckDirectory(dirs, path, lines).dirs;
      CheckDirectory(d, path, later) == Checked(true, d, 0)
  {
  }

  const OutdirDefault: string := "./results"
  const NormDefault: bool := true
  const ProfileDefault: string := "conda"

  /** Which of the two dictionaries an answer goes into. */
  datatype Target = ToParams | ToOptions

  /** One question of `collect_parameters`: the key the answer is stored
      under and the dictionary it goes into.
      A `str` question may have a default, and may have its answer checked
      as a directory; a `bool` question always has a default here. */
  datatype Question =
    | Text(key: string, fallback: Option<string>, checked: bool, target: Target)
    | Flag(key: string, flagDefault: bool, target: Target)

  /** The default `get_user_input` is called with. */
  function DefaultOf(q: Question): (d: Option<Value>)
    ensures d.None? || Fits(d.value, KindOf(q))
  {
    match q
    case Text(_, fallback, _, _) => if fallback.Some? then Some(Str(fallback.value)) else None
    case Flag(_, flagDefault, _) => Some(Bool(flagDefault))
  }

  /** The `input_type` `get_user_input` is called with. */
  function KindOf(q: Question): Kind
  {
    if q.Text? then StrKind else BoolKind
  }

  /** The questions of `collect_parameters`, in the order they are asked. */
  const Questions: seq<Question> := [
    Text("input_dir", None, true, ToParams),
    Text("outdir", Some(OutdirDefault), true, ToParams),
    Flag("do_norm", NormDefault, ToParams),
    Text("profile", Some(ProfileDefault), false, ToOptions)]

  /** The table is the calls of `collect_parameters` in order: the keys
      `input_dir`, `outdir` and `do_norm` go into the parameters and
      `profile` into the options; only the input directory is required; only
      `do_norm` is a bool; the two directories, and nothing else, are
      checked. */
  lemma QuestionsFollowSource()
    ensures |Questions| == |ParamKeys| + |OptionKeys|
    ensures forall i | 0 <= i < |Questions| :: Questions[i].key == (ParamKeys + OptionKeys)[i]
    ensures forall i | 0 <= i < |Questions| :: (Questions[i].target == ToParams <==> i < |ParamKeys|)
    ensures DefaultOf(Questions[0]) == None && DefaultOf(Questions[1]) == Some(Str(OutdirDefault))
    ensures DefaultOf(Questions[2]) == Some(Bool(NormDefault)) && DefaultOf(Questions[3]) == Some(Str(ProfileDefault))
    ensures forall i | 0 <= i < |Questions| :: (KindOf(Questions[i]) == BoolKind <==> i == 2)
    ensures forall i | 0 <= i < |Questions| :: (Questions[i].Text? && Questions[i].checked <==> i < 2)
  {
  }

  /** The keys of the two dictionaries, in the order they are filled. */
  const ParamKeys: seq<string> := ["input_dir", "outdir", "do_norm"]
  const OptionKeys: seq<string> := ["profile"]

  /** `v` is a non-empty string. */
  predicate NonEmptyText(v: Option<Value>)
  {
    v.Some? && v.value.Str? && v.value.text != []
  }

  /** The shape of a finished collection: exactly the expected keys, in
      order, a non-empty string for every path and for the profile, and a
      boolean for the normalisation flag. */
  predicate Complete(params: Dict<Value>, opts: Dict<Value>)
  {
    Keys(params) == ParamKeys && Keys(opts) == OptionKeys &&
    NonEmptyText(Get(params, "input_dir")) && NonEmptyText(Get(params, "outdir")) &&
    Get(params, "do_norm").Some? && Get(params, "do_norm").value.Bool? &&
    NonEmptyText(Get(opts, "profile"))
  }

  /** The outcome of `collect_parameters`: the two dictionaries, the paths
      that exist afterwards and the lines not yet read; or the lines ran out
      first, with the paths that exist at that point. */
  datatype Collection =
    | Collected(params: Dict<Value>, opts: Dict<Value>, dirs: set<string>, rest: seq<string>)
    | OutOfInput(dirs: set<string>)

  /** `rest` is what is left of `lines` after reading some of them. */
  predicate LeftOf(lines: seq<string>, rest: seq<string>)
  {
    |rest| <= |lines| && rest == lines[|lines| - |rest|..]
  }

  /** What is left of what is left is left of the whole. */
  lemma LeftOfLeft(lines: seq<string>, mid: seq<string>, rest: seq<string>)
    requires LeftOf(lines, mid) && LeftOf(mid, rest)
    ensures LeftOf(lines, rest)
  {
    assert lines[|lines| - |mid|..][|mid| - |rest|..] == lines[|lines| - |rest|..];
  }

  /** Storing an answer under its key in the dictionary it belongs to: that
      dictionary then maps the key to the answer, and the other one is left
      as it was. */
  function Store(target: Target, key: string, v: Value, params: Dict<Value>, opts: Dict<Value>): (r: (Dict<Value>, Dict<Value>))
    ensures target == ToParams ==> Get(r.0, key) == Some(v) && r.1 == opts
    ensures target == ToOptions ==> Get(r.1, key) == Some(v) && r.0 == params
  {
    PutGet(params, key, v, key);
    PutGet(opts, key, v, key);
    match target
    case ToParams => (Put(params, key, v), opts)
    case ToOptions => (params, Put(opts, key, v))
  }

  /** Asking the questions `qs` in order over `lines`: each answer is stored
      as soon as it is given, then checked as a directory when the question
      says so; the outcome of the check is not looked at. Every question
      takes at least one line. */
  function CollectFrom(qs: seq<Question>, lines: seq<string>, dirs: set<string>,
                       params: Dict<Value>, opts: Dict<Value>): (c: Collection)
    ensures dirs <= c.dirs
    ensures c.Collected? ==> LeftOf(lines, c.rest) && |c.rest| + |qs| <= |lines|
    decreases |qs|, |lines|
  {
    if qs == [] then Collected(params, opts, dirs, lines)
    else
      var q := qs[0];
      match Ask(lines, DefaultOf(q), KindOf(q))
      case Exhausted => OutOfInput(dirs)
      case Got(v, n) =>
        var stored := Store(q.target, q.key, v, params, opts);
        assert LeftOf(lines, lines[n..]);
        if q.Text? && q.checked then
          AskKeepsType(lines, DefaultOf(q), KindOf(q));
          match CheckDirectory(dirs, v.text, lines[n..])
          case CheckExhausted => OutOfInput(dirs)
          case Checked(_, dirs', m) =>
            assert LeftOf(lines[n..], lines[n..][m..]);
            LeftOfLeft(lines, lines[n..], lines[n..][m..]);
            var c := CollectFrom(qs[1..], lines[n..][m..], dirs', stored.0, stored.1);
            if c.Collected? then LeftOfLeft(lines, lines[n..][m..], c.rest); c else c
        else
          var c := CollectFrom(qs[1..], lines[n..], dirs, stored.0, stored.1);
          if c.Collected? then LeftOfLeft(lines, lines[n..], c.rest); c else c
  }

  /** A line the current question refuses (a blank line with no default, or
      no boolean at a `bool` question) is skipped, and the same question is
      asked again over the lines after it, with nothing else changed. */
  lemma RefusedLineSkipped(qs: seq<Question>, lines: seq<string>, dirs: set<string>,
                           params: Dict<Value>, opts: Dict<Value>)
    requires qs != [] && lines != [] && !Decide(lines[0], DefaultOf(qs[0]), KindOf(qs[0])).Accept?
    ensures CollectFrom(qs, lines, dirs, params, opts) == CollectFrom(qs, lines[1..], dirs, params, opts)
  {
    var q := qs[0];
    match Ask(lines[1..], DefaultOf(q), KindOf(q))
    case Exhausted =>
      assert Ask(lines, DefaultOf(q), KindOf(q)) == Exhausted;
    case Got(v, n) =>
      assert Ask(lines, DefaultOf(q), KindOf(q)) == Got(v, n + 1);
      assert lines[n + 1..] == lines[1..][n..];
  }

  /** The two dictionaries as `collect_parameters` returns them. */
  function Build(inputDir: string, outdir: string, doNorm: bool, profile: string): (r: (Dict<Value>, Dict<Value>))
    requires inputDir != [] && outdir != [] && profile != []
    ensures Complete(r.0, r.1)
    ensures Get(r.0, "input_dir") == Some(Str(inputDir)) && Get(r.0, "outdir") == Some(Str(outdir))
    ensures Get(r.0, "do_norm") == Some(Bool(doNorm)) && Get(r.1, "profile") == Some(Str(profile))
  {
    var params := [("input_dir", Str(inputDir)), ("outdir", Str(outdir)), ("do_norm", Bool(doNorm))];
    assert params[1..] == [("outdir", Str(outdir)), ("do_norm", Bool(doNorm))];
    assert params[1..][1..] == [("do_norm", Bool(doNorm))];
    assert Get(params[1..], "do_norm") == Get(params[1..][1..], "do_norm");
    (params, [("profile", Str(profile))])
  }

  /** Assigning the keys one after another, as `collect_parameters` does,
      gives exactly these dictionaries. */
  lemma BuildByAssignment(inputDir: string, outdir: string, doNorm: bool, profile: string)
    requires inputDir != [] && outdir != [] && profile != []
    ensures var r := Build(inputDir, outdir, doNorm, profile);
      Put(Put(Put([], "input_dir", Str(inputDir)), "outdir", Str(outdir)), "do_norm", Bool(doNorm)) == r.0 &&
      Put([], "profile", Str(profile)) == r.1
  {
    var d1 := [("input_dir", Str(inputDir))];
    var d2 := d1 + [("outdir", Str(outdir))];
    PutNew([], "input_dir", Str(inputDir));
    PutNew(d1, "outdir", Str(outdir));
    assert Keys(d2) == ["input_dir", "outdir"];
    PutNew(d2, "do_norm", Bool(doNorm));
    PutNew([], "profile", Str(profile));
  }

  /** `collect_parameters` spelled out question by question, as a reference
      for `Collect`: the last question, the profile, which is taken as typed;
      the two dictionaries are then complete. */
  function ReferenceFromProfile(lines: seq<string>, dirs: set<string>,
                                inputDir: string, outdir: string, doNorm: bool): (c: Collection)
    requires inputDir != [] && outdir != []
    ensures c.Collected? ==> Complete(c.params, c.opts)
    ensures c.Collected? ==> Get(c.params, "input_dir") == Some(Str(inputDir)) && Get(c.params, "outdir") == Some(Str(outdir))
    ensures c.dirs == dirs
  {
    match Ask(lines, Some(Str(ProfileDefault)), StrKind)
    case Exhausted => OutOfInput(dirs)
    case Got(profile, n4) =>
      AskStrNonEmpty(lines, Some(Str(ProfileDefault)));
      var dicts := Build(inputDir, outdir, doNorm, profile.text);
      Collected(dicts.0, dicts.1, dirs, lines[n4..])
  }

  /** The reference from the normalisation question on. */
  function ReferenceFromNorm(lines: seq<string>, dirs: set<string>, inputDir: string, outdir: string): (c: Collection)
    requires inputDir != [] && outdir != []
    ensures c.Collected? ==> Complete(c.params, c.opts)
    ensures c.Collected? ==> Get(c.params, "input_dir") == Some(Str(inputDir)) && Get(c.params, "outdir") == Some(Str(outdir))
    ensures c.dirs == dirs
  {
    match Ask(lines, Some(Bool(NormDefault)), BoolKind)
    case Exhausted => OutOfInput(dirs)
    case Got(doNorm, n3) =>
      AskKeepsType(lines, Some(Bool(NormDefault)), BoolKind);
      ReferenceFromProfile(lines[n3..], dirs, inputDir, outdir, doNorm.flag)
  }

  /** The reference from the output directory question on; the result of
      checking the output directory is not looked at. */
  function ReferenceFromOutdir(lines: seq<string>, dirs: set<string>, inputDir: string): (c: Collection)
    requires inputDir != []
    ensures c.Collected? ==> Complete(c.params, c.opts)
    ensures c.Collected? ==> Get(c.params, "input_dir") == Some(Str(inputDir))
    ensures c.Collected? ==> dirs <= c.dirs <= dirs + {Get(c.params, "outdir").value.text}
    ensures dirs <= c.dirs
  {
    match Ask(lines, Some(Str(OutdirDefault)), StrKind)
    case Exhausted => OutOfInput(dirs)
    case Got(outdir, n2) =>
      AskStrNonEmpty(lines, Some(Str(OutdirDefault)));
      match CheckDirectory(dirs, outdir.text, lines[n2..])
      case CheckExhausted => OutOfInput(dirs)
      case Checked(_, dirs2, m2) => ReferenceFromNorm(lines[n2..][m2..], dirs2, inputDir, outdir.text)
  }

  /** The reference for the whole of `collect_parameters`: four questions
      and two directory checks; neither check's result stops the collection,
      a missing input directory only brings a warning. */
  function Reference(lines: seq<string>, dirs: set<string>): (c: Collection)
    ensures c.Collected? ==> Complete(c.params, c.opts)
    ensures c.Collected? ==>
      dirs <= c.dirs <= dirs + {Get(c.params, "input_dir").value.text, Get(c.params, "outdir").value.text}
    ensures dirs <= c.dirs
  {
    match Ask(lines, None, StrKind)
    case Exhausted => OutOfInput(dirs)
    case Got(inputDir, n1) =>
      AskStrNonEmpty(lines, None);
      match CheckDirectory(dirs, inputDir.text, lines[n1..])
      case CheckExhausted => OutOfInput(dirs)
      case Checked(_, dirs1, m1) => ReferenceFromOutdir(lines[n1..][m1..], dirs1, inputDir.text)
  }

  /** The last question of the table agrees with the reference. */
  lemma ProfileAgrees(lines: seq<string>, dirs: set<string>, inputDir: string, outdir: string, doNorm: bool)
    requires inputDir != [] && outdir != []
    ensures CollectFrom(Questions[3..], lines, dirs,
        [("input_dir", Str(inputDir)), ("outdir", Str(outdir)), ("do_norm", Bool(doNorm))], []) ==
      ReferenceFromProfile(lines, dirs, inputDir, outdir, doNorm)
  {
    var qs := Questions[3..];
    assert qs[0] == Text("profile", Some(ProfileDefault), false, ToOptions);
    assert qs[1..] == [];
    match Ask(lines, Some(Str(ProfileDefault)), StrKind)
    case Exhausted =>
    case Got(v, n) =>
      PutNew([], "profile", v);
  }

  /** The table from the normalisation question on agrees with the reference. */
  lemma NormAgrees(lines: seq<string>, dirs: set<string>, inputDir: string, outdir: string)
    requires inputDir != [] && outdir != []
    ensures CollectFrom(Questions[2..], lines, dirs,
        [("input_dir", Str(inputDir)), ("outdir", Str(outdir))], []) ==
      ReferenceFromNorm(lines, dirs, inputDir, outdir)
  {
    var qs := Questions[2..];
    var params := [("input_dir", Str(inputDir)), ("outdir", Str(outdir))];
    assert qs[0] == Flag("do_norm", NormDefault, ToParams);
    assert qs[1..] == Questions[3..];
    match Ask(lines, Some(Bool(NormDefault)), BoolKind)
    case Exhausted =>
    case Got(v, n) =>
      AskKeepsType(lines, Some(Bool(NormDefault)), BoolKind);
      PutNew(params, "do_norm", v);
      assert params + [("do_norm", v)] ==
        [("input_dir", Str(inputDir)), ("outdir", Str(outdir)), ("do_norm", Bool(v.flag))];
      ProfileAgrees(lines[n..], dirs, inputDir, outdir, v.flag);
      assert CollectFrom(qs, lines, dirs, params, []) ==
        CollectFrom(qs[1..], lines[n..], dirs, params + [("do_norm", v)], []);
  }

  /** The table from the output directory question on agrees with the
      reference. */
  lemma OutdirAgrees(lines: seq<string>, dirs: set<string>, inputDir: string)
    requires inputDir != []
    ensures CollectFrom(Questions[1..], lines, dirs, [("input_dir", Str(inputDir))], []) ==
      ReferenceFromOutdir(lines, dirs, inputDir)
  {
    var qs := Questions[1..];
    var params := [("input_dir", Str(inputDir))];
    assert qs[0] == Text("outdir", Some(OutdirDefault), true, ToParams);
    assert qs[1..] == Questions[2..];
    match Ask(lines, Some(Str(OutdirDefault)), StrKind)
    case Exhausted =>
    case Got(v, n) =>
      AskStrNonEmpty(lines, Some(Str(OutdirDefault)));
      PutNew(params, "outdir", v);
      match CheckDirectory(dirs, v.text, lines[n..])
      case CheckExhausted =>
      case Checked(_, dirs', m) =>
        NormAgrees(lines[n..][m..], dirs', inputDir, v.text);
  }

  /** The whole table agrees with the reference. */
  lemma TableAgrees(lines: seq<string>, dirs: set<string>)
    ensures CollectFrom(Questions, lines, dirs, [], []) == Reference(lines, dirs)
  {
    assert Questions[0] == Text("input_dir", None, true, ToParams);
    match Ask(lines, None, StrKind)
    case Exhausted =>
    case Got(v, n) =>
      AskStrNonEmpty(lines, None);
      PutNew([], "input_dir", v);
      match CheckDirectory(dirs, v.text, lines[n..])
      case CheckExhausted =>
      case Checked(_, dirs', m) =>
        OutdirAgrees(lines[n..][m..], dirs', v.text);
  }

  /** `collect_parameters`: the questions of the table, in order. The two
      dictionaries come out complete, the operator has typed at least one
      line per question, and the only paths created are the two entered. */
  function Collect(lines: seq<string>, dirs: set<string>): (c: Collection)
    ensures c.Collected? ==> Complete(c.params, c.opts) && LeftOf(lines, c.rest) && |c.rest| + 4 <= |lines|
    ensures c.Collected? ==>
      dirs <= c.dirs <= dirs + {Get(c.params, "input_dir").value.text, Get(c.params, "outdir").value.text}
    ensures dirs <= c.dirs
  {
    TableAgrees(lines, dirs);
    CollectFrom(Questions, lines, dirs, [], [])
  }

  /** The files `save_params` writes, by default. */
  const ParamsFile: string := "pipeline_params.json"
  const OptionsFile: string := "execution_opts.json"

  /** One file written: its name and the dictionary serialised into it. */
  datatype Write = Write(file: string, entries: Dict<Value>)

  /** `save_params`: the parameters file, then the options file. */
  function Saves(params: Dict<Value>, opts: Dict<Value>): (w: seq<Write>)
    ensures |w| == 2 && w[0].file == ParamsFile && w[1].file == OptionsFile
    ensures w[0].entries == params && w[1].entries == opts
  {
    [Write(ParamsFile, params), Write(OptionsFile, opts)]
  }

  /** How a run ends: saved, declined, or cut short because the lines ran out
      (the place of an interrupted or closed terminal). */
  datatype Ending = Saved | Declined | Interrupted

  /** The outcome of `main`: how it ended, the paths that exist afterwards
      and the files written, in order. */
  datatype Run = Run(ending: Ending, dirs: set<string>, writes: seq<Write>)

  const ConfirmDefault: string := "y"

  /** The confirmation question over the lines left after collection. It
      takes one line: blank means the default "y" and so "save"; otherwise
      the stripped line must be `y` or `yes` in any letter case. With no
      line left there is no answer. */
  function Confirm(rest: seq<string>): (r: Option<bool>)
    ensures r == if rest == [] then None else Some(Blank(rest[0]) || IsYes(Strip(rest[0])))
  {
    match Ask(rest, Some(Str(ConfirmDefault)), StrKind)
    case Exhausted => None
    case Got(confirm, _) =>
      DefaultedStrTakesOneLine(rest, Str(ConfirmDefault));
      Some(IsYes(confirm.text))
  }

  /** `main`: collect, then ask for confirmation (default "y") and save both
      files only when the answer, lower-cased, is `y` or `yes`. */
  function MainFlow(lines: seq<string>, dirs: set<string>): (r: Run)
    ensures r.dirs == Collect(lines, dirs).dirs
    ensures r.ending == Saved <==> r.writes != []
  {
    match Collect(lines, dirs)
    case OutOfInput(d) => Run(Interrupted, d, [])
    case Collected(params, opts, d, rest) =>
      match Confirm(rest)
      case None => Run(Interrupted, d, [])
      case Some(yes) => if yes then Run(Saved, d, Saves(params, opts)) else Run(Declined, d, [])
  }

  /** The files are written exactly when collection finished and the next
      line is blank (the default "y") or, stripped, is `y` or `yes` in any
      letter case; then the parameters go first and the options second,
      each holding exactly what was collected. Otherwise nothing is written. */
  lemma SavedIffConfirmed(lines: seq<string>, dirs: set<string>)
    ensures var r := MainFlow(lines, dirs);
      var c := Collect(lines, dirs);
      (r.ending == Saved <==>
        c.Collected? && c.rest != [] &&
        var confirm := c.rest[0];
        Blank(confirm) || AnyCase(Strip(confirm), "y") || AnyCase(Strip(confirm), "yes")) &&
      (r.ending == Saved ==> r.writes == [Write(ParamsFile, c.params), Write(OptionsFile, c.opts)]) &&
      (r.ending != Saved ==> r.writes == [])
  {
    var c := Collect(lines, dirs);
    if c.Collected? && c.rest != [] {
      var yes := IsYes(Strip(c.rest[0]));
      assert MainFlow(lines, dirs).ending == if Blank(c.rest[0]) || yes then Saved else Declined;
    }
  }

  /** Whatever the operator types, a run writes either nothing or exactly
      the two files, each with the keys its schema lists, in order. */
  lemma WritesFollowSchema(lines: seq<string>, dirs: set<string>)
    ensures var r := MainFlow(lines, dirs);
      r.writes == [] ||
      (|r.writes| == 2 && r.writes[0].file == ParamsFile && r.writes[1].file == OptionsFile &&
       Keys(r.writes[0].entries) == ParamKeys && Keys(r.writes[1].entries) == OptionKeys &&
       Complete(r.writes[0].entries, r.writes[1].entries))
  {
    var c := Collect(lines, dirs);
    if c.Collected? {
      assert Complete(c.params, c.opts);
    }
  }
}
