/**
 Runs of `collect_parameters` and `main` in bin/input_collector.py, one
 question at a time and then whole, for the kinds of lines an operator types.
 */
module Scenarios {
  import opened Options
  import opened Text
  import opened Dicts
  import opened Prompt
  import opened Collector

  /** The input directory question, answered with a non-blank line: the
      stripped text is stored, and a path that does not exist costs one more
      line, the answer to whether to create it. */
  lemma InputDirStep(lines: seq<string>, dirs: set<string>)
    requires lines != [] && Strip(lines[0]) != []
    requires Strip(lines[0]) !in dirs ==> |lines| >= 2
    ensures var path := Strip(lines[0]);
      var asked := path !in dirs;
      Collect(lines, dirs) ==
        CollectFrom(Questions[1..], lines[if asked then 2 else 1..],
          if asked && IsYes(lines[1]) then dirs + {path} else dirs, [("input_dir", Str(path))], [])
  {
    var path := Strip(lines[0]);
    StripSpec(lines[0]);
    StrTakesNonBlankLine(lines, None);
    PutNew([], "input_dir", Str(path));
    assert Questions[0] == Text("input_dir", None, true, ToParams);
    if path in dirs {
      assert lines[1..][0..] == lines[1..];
    } else {
      assert lines[1..][1..] == lines[2..];
    }
  }

  /** The output directory question: a blank line gives "./results", any
      other line its stripped text; the path is checked like the input
      directory, and the answer is stored whatever the check says. */
  lemma OutdirStep(rest: seq<string>, dirs: set<string>, params: Dict<Value>, opts: Dict<Value>)
    requires rest != []
    requires (if Blank(rest[0]) then OutdirDefault else Strip(rest[0])) !in dirs ==> |rest| >= 2
    ensures var path := if Blank(rest[0]) then OutdirDefault else Strip(rest[0]);
      var asked := path !in dirs;
      CollectFrom(Questions[1..], rest, dirs, params, opts) ==
        CollectFrom(Questions[2..], rest[if asked then 2 else 1..],
          if asked && IsYes(rest[1]) then dirs + {path} else dirs, Put(params, "outdir", Str(path)), opts)
  {
    var path := if Blank(rest[0]) then OutdirDefault else Strip(rest[0]);
    StripSpec(rest[0]);
    DefaultedStrTakesOneLine(rest, Str(OutdirDefault));
    assert Questions[1..][0] == Text("outdir", Some(OutdirDefault), true, ToParams);
    assert Questions[1..][1..] == Questions[2..];
    if path in dirs {
      assert rest[1..][0..] == rest[1..];
    } else {
      assert rest[1..][1..] == rest[2..];
    }
  }

  /** The normalisation question, answered with a blank line (true) or a
      token standing for a boolean (that boolean): one line, stored. */
  lemma NormStep(rest: seq<string>, dirs: set<string>, params: Dict<Value>, opts: Dict<Value>)
    requires rest != [] && (Blank(rest[0]) || ParseBool(Strip(rest[0])).Some?)
    ensures var flag := if Blank(rest[0]) then NormDefault else ParseBool(Strip(rest[0])).value;
      CollectFrom(Questions[2..], rest, dirs, params, opts) ==
        CollectFrom(Questions[3..], rest[1..], dirs, Put(params, "do_norm", Bool(flag)), opts)
  {
    DecideMeaning(rest[0], Some(Bool(NormDefault)), BoolKind);
    assert Questions[2..][0] == Flag("do_norm", NormDefault, ToParams);
    assert Questions[2..][1..] == Questions[3..];
  }

  /** At the normalisation question, a line standing for no boolean is
      skipped and the question is asked again. */
  lemma NormRetry(rest: seq<string>, dirs: set<string>, params: Dict<Value>, opts: Dict<Value>)
    requires rest != [] && !Blank(rest[0]) && ParseBool(Strip(rest[0])).None?
    ensures CollectFrom(Questions[2..], rest, dirs, params, opts) ==
      CollectFrom(Questions[2..], rest[1..], dirs, params, opts)
  {
    var d := Some(Bool(NormDefault));
    DecideMeaning(rest[0], d, BoolKind);
    assert Questions[2..][0] == Flag("do_norm", NormDefault, ToParams);
    RefusedLineSkipped(Questions[2..], rest, dirs, params, opts);
  }

  /** The profile question: one line, a blank one giving "conda" and any
      other its stripped text, which is not checked against any list; it
      goes into the options and ends the collection. */
  lemma ProfileStep(rest: seq<string>, dirs: set<string>, params: Dict<Value>, opts: Dict<Value>)
    requires rest != []
    ensures var profile := if Blank(rest[0]) then ProfileDefault else Strip(rest[0]);
      CollectFrom(Questions[3..], rest, dirs, params, opts) ==
        Collected(params, Put(opts, "profile", Str(profile)), dirs, rest[1..])
  {
    DefaultedStrTakesOneLine(rest, Str(ProfileDefault));
    assert Questions[3..][0] == Text("profile", Some(ProfileDefault), false, ToOptions);
    assert Questions[3..][1..] == [];
  }

  /** An existing input directory, then Enter at every question with a
      default, the default output directory existing: the defaults are
      collected from four lines and nothing is created. */
  lemma DefaultsCollected(lines: seq<string>, dirs: set<string>)
    requires |lines| >= 4 && Strip(lines[0]) != [] && Strip(lines[0]) in dirs && OutdirDefault in dirs
    requires Blank(lines[1]) && Blank(lines[2]) && Blank(lines[3])
    ensures var dicts := Build(Strip(lines[0]), OutdirDefault, NormDefault, ProfileDefault);
      Collect(lines, dirs) == Collected(dicts.0, dicts.1, dirs, lines[4..])
  {
    var path := Strip(lines[0]);
    var p1 := [("input_dir", Str(path))];
    var p2 := Put(p1, "outdir", Str(OutdirDefault));
    var p3 := Put(p2, "do_norm", Bool(NormDefault));
    InputDirStep(lines, dirs);
    OutdirStep(lines[1..], dirs, p1, []);
    assert lines[1..][1..] == lines[2..];
    NormStep(lines[2..], dirs, p2, []);
    assert lines[2..][1..] == lines[3..];
    ProfileStep(lines[3..], dirs, p3, []);
    assert lines[3..][1..] == lines[4..];
    BuildByAssignment(path, OutdirDefault, NormDefault, ProfileDefault);
    assert Put([], "input_dir", Str(path)) == p1;
  }

  /** The defaults confirmed with Enter: both files are written, the
      parameters first. */
  lemma DefaultsSaved(lines: seq<string>, dirs: set<string>)
    requires |lines| >= 5 && Strip(lines[0]) != [] && Strip(lines[0]) in dirs && OutdirDefault in dirs
    requires Blank(lines[1]) && Blank(lines[2]) && Blank(lines[3]) && Blank(lines[4])
    ensures var dicts := Build(Strip(lines[0]), OutdirDefault, NormDefault, ProfileDefault);
      MainFlow(lines, dirs) ==
        Run(Saved, dirs, [Write(ParamsFile, dicts.0), Write(OptionsFile, dicts.1)])
  {
    DefaultsCollected(lines, dirs);
  }

  /** The same answers with anything but `y` or `yes` at the confirmation:
      nothing is written. */
  lemma DeclinedWritesNothing(lines: seq<string>, dirs: set<string>)
    requires |lines| >= 5 && Strip(lines[0]) != [] && Strip(lines[0]) in dirs && OutdirDefault in dirs
    requires Blank(lines[1]) && Blank(lines[2]) && Blank(lines[3])
    requires !Blank(lines[4]) && !AnyCase(Strip(lines[4]), "y") && !AnyCase(Strip(lines[4]), "yes")
    ensures MainFlow(lines, dirs) == Run(Declined, dirs, [])
  {
    DefaultsCollected(lines, dirs);
  }

  /** The default output directory does not exist: the operator is asked,
      it is created exactly when the answer is `y` or `yes` in any letter
      case, and the collection goes on with it either way. */
  lemma MissingOutdirAsked(lines: seq<string>, dirs: set<string>)
    requires |lines| >= 5 && Strip(lines[0]) != [] && Strip(lines[0]) in dirs && OutdirDefault !in dirs
    requires Blank(lines[1]) && Blank(lines[3]) && Blank(lines[4])
    ensures var dicts := Build(Strip(lines[0]), OutdirDefault, NormDefault, ProfileDefault);
      var yes := AnyCase(lines[2], "y") || AnyCase(lines[2], "yes");
      Collect(lines, dirs) ==
        Collected(dicts.0, dicts.1, if yes then dirs + {OutdirDefault} else dirs, lines[5..])
  {
    var path := Strip(lines[0]);
    var made := if IsYes(lines[2]) then dirs + {OutdirDefault} else dirs;
    var p1 := [("input_dir", Str(path))];
    var p2 := Put(p1, "outdir", Str(OutdirDefault));
    var p3 := Put(p2, "do_norm", Bool(NormDefault));
    InputDirStep(lines, dirs);
    OutdirStep(lines[1..], dirs, p1, []);
    assert lines[1..][1..] == lines[2..] && lines[1..][2..] == lines[3..];
    NormStep(lines[3..], made, p2, []);
    assert lines[3..][1..] == lines[4..];
    ProfileStep(lines[4..], made, p3, []);
    assert lines[4..][1..] == lines[5..];
    BuildByAssignment(path, OutdirDefault, NormDefault, ProfileDefault);
    assert Put([], "input_dir", Str(path)) == p1;
  }

  /** A missing input directory: it is created exactly when the answer is
      `y` or `yes` in any letter case, and otherwise only a warning follows,
      the path being kept all the same; a typed profile is taken as typed,
      whatever it names. */
  lemma MissingInputKept(lines: seq<string>, dirs: set<string>)
    requires |lines| >= 5 && Strip(lines[0]) != [] && Strip(lines[0]) !in dirs && OutdirDefault in dirs
    requires Blank(lines[2]) && Blank(lines[3]) && Strip(lines[4]) != []
    ensures var dicts := Build(Strip(lines[0]), OutdirDefault, NormDefault, Strip(lines[4]));
      var yes := AnyCase(lines[1], "y") || AnyCase(lines[1], "yes");
      Collect(lines, dirs) ==
        Collected(dicts.0, dicts.1, if yes then dirs + {Strip(lines[0])} else dirs, lines[5..])
  {
    var path := Strip(lines[0]);
    var made := if IsYes(lines[1]) then dirs + {path} else dirs;
    var p1 := [("input_dir", Str(path))];
    var p2 := Put(p1, "outdir", Str(OutdirDefault));
    var p3 := Put(p2, "do_norm", Bool(NormDefault));
    StripSpec(lines[4]);
    InputDirStep(lines, dirs);
    OutdirStep(lines[2..], made, p1, []);
    assert lines[2..][1..] == lines[3..];
    NormStep(lines[3..], made, p2, []);
    assert lines[3..][1..] == lines[4..];
    ProfileStep(lines[4..], made, p3, []);
    assert lines[4..][1..] == lines[5..];
    BuildByAssignment(path, OutdirDefault, NormDefault, Strip(lines[4]));
    assert Put([], "input_dir", Str(path)) == p1;
  }

  /** At a `bool` question with default `True`, "maybe" stands for no
      boolean and is asked again; "No" then reads as false. */
  lemma NotABooleanAskedAgain()
    ensures Ask(["maybe", "No"], Some(Bool(NormDefault)), BoolKind) == Got(Bool(false), 2)
  {
    var d := Some(Bool(NormDefault));
    StripNoSpace("maybe");
    StripNoSpace("No");
    assert Lower("maybe") == "maybe" && Lower("No") == "no";
    assert ParseBool("maybe") == None && ParseBool("No") == Some(false);
    assert Ask(["No"], d, BoolKind) == Got(Bool(false), 1);
    assert ["maybe", "No"][1..] == ["No"];
  }

  /** A line standing for no boolean at the normalisation question, then a
      boolean token: the question takes two lines and stores that boolean. */
  lemma BooleanAskedAgain(lines: seq<string>, dirs: set<string>)
    requires |lines| >= 5 && Strip(lines[0]) != [] && Strip(lines[0]) in dirs && OutdirDefault in dirs
    requires Blank(lines[1]) && !Blank(lines[2]) && ParseBool(Strip(lines[2])).None?
    requires !Blank(lines[3]) && ParseBool(Strip(lines[3])).Some? && Blank(lines[4])
    ensures var dicts := Build(Strip(lines[0]), OutdirDefault, ParseBool(Strip(lines[3])).value, ProfileDefault);
      Collect(lines, dirs) == Collected(dicts.0, dicts.1, dirs, lines[5..])
  {
    var path := Strip(lines[0]);
    var flag := ParseBool(Strip(lines[3])).value;
    var p1 := [("input_dir", Str(path))];
    var p2 := Put(p1, "outdir", Str(OutdirDefault));
    var p3 := Put(p2, "do_norm", Bool(flag));
    InputDirStep(lines, dirs);
    OutdirStep(lines[1..], dirs, p1, []);
    assert lines[1..][1..] == lines[2..];
    NormRetry(lines[2..], dirs, p2, []);
    assert lines[2..][1..] == lines[3..];
    NormStep(lines[3..], dirs, p2, []);
    assert lines[3..][1..] == lines[4..];
    ProfileStep(lines[4..], dirs, p3, []);
    assert lines[4..][1..] == lines[5..];
    BuildByAssignment(path, OutdirDefault, flag, ProfileDefault);
    assert Put([], "input_dir", Str(path)) == p1;
  }
}
