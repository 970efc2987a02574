/**
 `get_user_input` (bin/input_collector.py): show a prompt, read a line, and
 either accept it, giving the field's value, or print a hint and read the
 next line. The terminal is the sequence of lines the operator types; a
 run of lines with no acceptable one leaves the question unanswered.
 */
module Prompt {
  import opened Options
  import opened Text

  /** The values a field can take: a string or a Python bool. */
  datatype Value = Str(text: string) | Bool(flag: bool)

  /** The `input_type` argument: `str` or `bool`. */
  datatype Kind = StrKind | BoolKind

  /** `v` has the type a field of `kind` asks for. */
  predicate Fits(v: Value, kind: Kind)
  {
    match kind
    case StrKind => v.Str?
    case BoolKind => v.Bool?
  }

  /** Python's `str(v)`, as the prompt shows a default: a string as it is,
      a bool as a word that reads back as that bool when typed. */
  function Show(v: Value): (s: string)
    ensures v.Str? ==> s == v.text
    ensures v.Bool? ==> ParseBool(s) == Some(v.flag)
  {
    match v
    case Str(t) => t
    case Bool(b) => if b then "True" else "False"
  }

  /** The prompt text: `"{prompt} [{default}]: "` or `"{prompt}: "`. */
  function PromptText(prompt: string, default: Option<Value>): (p: string)
    ensures |p| >= |prompt| + 2
    ensures p[..|prompt|] == prompt && p[|p| - 2..] == ": "
    ensures default.None? ==> |p| == |prompt| + 2
    ensures default.Some? ==> p[|prompt|..|p| - 2] == " [" + Show(default.value) + "]"
  {
    match default
    case None => prompt + ": "
    case Some(d) => prompt + " [" + Show(d) + "]: "
  }

  const TrueWords: seq<string> := ["true", "yes", "y", "1"]
  const FalseWords: seq<string> := ["false", "no", "n", "0"]

  /** The boolean a token stands for, once lower-cased, if any. */
  function ParseBool(token: string): (r: Option<bool>)
    ensures r == Some(true) <==> Lower(token) in TrueWords
    ensures r == Some(false) <==> Lower(token) in FalseWords
  {
    var t := Lower(token);
    OneOfSpec(t, TrueWords);
    OneOfSpec(t, FalseWords);
    if OneOf(t, TrueWords) then Some(true)
    else if OneOf(t, FalseWords) then Some(false)
    else None
  }

  /** Bool coercion ignores letter case: `True`, `YES`, `y` and `1` read as
      true, `False`, `No`, `N` and `0` as false, and nothing else reads as
      either. */
  lemma ParseBoolAnyCase(token: string)
    ensures ParseBool(token) == Some(true) <==>
      AnyCase(token, "true") || AnyCase(token, "yes") || AnyCase(token, "y") || AnyCase(token, "1")
    ensures ParseBool(token) == Some(false) <==>
      AnyCase(token, "false") || AnyCase(token, "no") || AnyCase(token, "n") || AnyCase(token, "0")
  {
    OneOfSpec(Lower(token), TrueWords);
    OneOfSpec(Lower(token), FalseWords);
    LowerIsAnyCase(token, "true");
    LowerIsAnyCase(token, "yes");
    LowerIsAnyCase(token, "y");
    LowerIsAnyCase(token, "1");
    LowerIsAnyCase(token, "false");
    LowerIsAnyCase(token, "no");
    LowerIsAnyCase(token, "n");
    LowerIsAnyCase(token, "0");
  }

  /** What one line of input leads to: a value, or a hint and another line
      because the field is required, or because the token is not a bool. */
  datatype Decision = Accept(value: Value) | Required | NotABool

  /** The decision for one line typed at the prompt of a field with the
      given default and type. */
  function Decide(line: string, default: Option<Value>, kind: Kind): (d: Decision)
    ensures d == Required ==> default.None?
    ensures d == NotABool ==> kind == BoolKind
    ensures d.Accept? && (default.None? || Fits(default.value, kind)) ==> Fits(d.value, kind)
  {
    var input := Strip(line);
    if input == [] && default.Some? then Accept(default.value)
    else if input == [] then Required
    else if kind == BoolKind then
      match ParseBool(input)
      case Some(b) => Accept(Bool(b))
      case None => NotABool
    else Accept(Str(input))
  }

  /** What a line leads to, in terms of what was typed: a line of nothing but
      whitespace gives the default unchanged, or re-prompts when there is no
      default; otherwise a `str` field takes the stripped text and a `bool`
      field the boolean the token stands for, re-prompting when it stands for
      none. An accepted value has the field's type whenever the default has. */
  lemma DecideMeaning(line: string, default: Option<Value>, kind: Kind)
    ensures var d := Decide(line, default, kind);
      (d == Required <==> Blank(line) && default.None?) &&
      (Blank(line) && default.Some? ==> d == Accept(default.value)) &&
      (d == NotABool <==> kind == BoolKind && !Blank(line) && ParseBool(Strip(line)).None?) &&
      (d.Accept? && !Blank(line) ==>
        (kind == StrKind ==> d.value == Str(Strip(line))) &&
        (kind == BoolKind ==> d.value.Bool? && ParseBool(Strip(line)) == Some(d.value.flag))) &&
      (d.Accept? && (default.None? || Fits(default.value, kind)) ==> Fits(d.value, kind))
  {
    StripSpec(line);
  }

  /** The outcome of asking: the value and how many lines it took, or the
      lines ran out before one was acceptable. */
  datatype Answer = Got(value: Value, consumed: nat) | Exhausted

  /** The decision each line would get, in order. */
  function Decisions(lines: seq<string>, decide: string -> Decision): (ds: seq<Decision>)
    ensures |ds| == |lines|
  {
    seq(|lines|, k requires 0 <= k < |lines| => decide(lines[k]))
  }

  /** The answer a run of decisions gives: the first acceptance, counting the
      lines up to and including it. */
  function FirstAccepted(ds: seq<Decision>): (a: Answer)
    ensures a.Got? ==> 1 <= a.consumed <= |ds| && ds[a.consumed - 1] == Accept(a.value)
    ensures a.Got? ==> forall k | 0 <= k < a.consumed - 1 :: !ds[k].Accept?
    ensures a.Exhausted? ==> forall k | 0 <= k < |ds| :: !ds[k].Accept?
  {
    if ds == [] then Exhausted
    else if ds[0].Accept? then Got(ds[0].value, 1)
    else match FirstAccepted(ds[1..])
      case Got(v, n) => Got(v, n + 1)
      case Exhausted => Exhausted
  }

  /** `FirstAccepted` is the only answer with its contract. */
  lemma FirstAcceptedDetermined(ds: seq<Decision>, a: Answer)
    requires a.Got? ==> 1 <= a.consumed <= |ds| && ds[a.consumed - 1] == Accept(a.value)
    requires a.Got? ==> forall k | 0 <= k < a.consumed - 1 :: !ds[k].Accept?
    requires a.Exhausted? ==> forall k | 0 <= k < |ds| :: !ds[k].Accept?
    ensures a == FirstAccepted(ds)
  {
    var b := FirstAccepted(ds);
    if a.Got? && b.Got? {
      // neither accepted line comes before the other
      assert ds[a.consumed - 1].Accept? && ds[b.consumed - 1].Accept?;
    }
  }

  /** The per-line decision of one field. */
  function Decider(default: Option<Value>, kind: Kind): string -> Decision
  {
    line => Decide(line, default, kind)
  }

  /** The answer to a question asked over `lines`. */
  function Ask(lines: seq<string>, default: Option<Value>, kind: Kind): (a: Answer)
    ensures a.Got? ==> 1 <= a.consumed <= |lines|
  {
    if lines == [] then Exhausted
    else match Decide(lines[0], default, kind)
      case Accept(v) => Got(v, 1)
      case _ =>
        match Ask(lines[1..], default, kind)
        case Got(v, n) => Got(v, n + 1)
        case Exhausted => Exhausted
  }

  /** Asking line by line gives the first acceptance among the decisions of
      all the lines. */
  lemma {:induction false} AskIsFirstAccepted(lines: seq<string>, default: Option<Value>, kind: Kind)
    ensures Ask(lines, default, kind) == FirstAccepted(Decisions(lines, Decider(default, kind)))
  {
    if lines != [] {
      var decide := Decider(default, kind);
      AskIsFirstAccepted(lines[1..], default, kind);
      assert Decisions(lines, decide)[0] == Decide(lines[0], default, kind);
      assert Decisions(lines, decide)[1..] == Decisions(lines[1..], decide);
    }
  }

  /** `get_user_input`: read lines until one is acceptable and return its
      value with the number of lines read; report exhaustion when none is. */
  method GetUserInput(lines: seq<string>, default: Option<Value>, kind: Kind) returns (a: Answer)
    ensures a == Ask(lines, default, kind)
  {
    var decide := Decider(default, kind);
    ghost var ds := Decisions(lines, decide);
    var i := 0;
    while i < |lines|
      invariant 0 <= i <= |lines|
      invariant forall k | 0 <= k < i :: !ds[k].Accept?
    {
      match decide(lines[i])
      case Accept(v) =>
        a := Got(v, i + 1);
        FirstAcceptedDetermined(ds, a);
        AskIsFirstAccepted(lines, default, kind);
        return;
      case Required =>
        i := i + 1;
      case NotABool =>
        i := i + 1;
    }
    a := Exhausted;
    FirstAcceptedDetermined(ds, a);
    AskIsFirstAccepted(lines, default, kind);
  }

  /** The answer to a question is the value of the first acceptable line, and
      exhaustion means no line was acceptable. */
  lemma AskFirstAcceptable(lines: seq<string>, default: Option<Value>, kind: Kind)
    ensures var a := Ask(lines, default, kind);
      (a.Got? ==> 1 <= a.consumed <= |lines| && Decide(lines[a.consumed - 1], default, kind) == Accept(a.value)) &&
      (a.Got? ==> forall k | 0 <= k < a.consumed - 1 :: !Decide(lines[k], default, kind).Accept?) &&
      (a.Exhausted? ==> forall k | 0 <= k < |lines| :: !Decide(lines[k], default, kind).Accept?)
  {
    var ds := Decisions(lines, Decider(default, kind));
    AskIsFirstAccepted(lines, default, kind);
    forall k | 0 <= k < |lines|
      ensures ds[k] == Decide(lines[k], default, kind)
    {
    }
  }

  /** Asking never changes the type: the value has the field's type whenever
      the default (if any) has it, so a `bool` field with default `True`
      yields a bool and a `str` field with a string default a string. */
  lemma AskKeepsType(lines: seq<string>, default: Option<Value>, kind: Kind)
    requires default.None? || Fits(default.value, kind)
    ensures Ask(lines, default, kind).Got? ==> Fits(Ask(lines, default, kind).value, kind)
  {
    AskFirstAcceptable(lines, default, kind);
    var a := Ask(lines, default, kind);
    if a.Got? {
      DecideMeaning(lines[a.consumed - 1], default, kind);
    }
  }

  /** A field with a default and type `str` accepts every line, so it takes
      exactly the next line: a blank one gives the default unchanged, any
      other its stripped text with case preserved. */
  lemma DefaultedStrTakesOneLine(lines: seq<string>, default: Value)
    requires lines != []
    ensures Ask(lines, Some(default), StrKind) ==
      Got(if Blank(lines[0]) then default else Str(Strip(lines[0])), 1)
  {
    DecideMeaning(lines[0], Some(default), StrKind);
  }

  /** A required `str` field never yields an empty value: blank lines are
      refused, and the value is the first non-blank line, stripped, with
      case preserved. */
  lemma RequiredIsNonEmpty(lines: seq<string>)
    ensures var a := Ask(lines, None, StrKind);
      a.Got? ==>
        a.value == Str(Strip(lines[a.consumed - 1])) && a.value.text != [] &&
        !IsSpace(a.value.text[0]) && !IsSpace(a.value.text[|a.value.text| - 1]) &&
        forall k | 0 <= k < a.consumed - 1 :: Blank(lines[k])
  {
    AskFirstAcceptable(lines, None, StrKind);
    var a := Ask(lines, None, StrKind);
    if a.Got? {
      var line := lines[a.consumed - 1];
      DecideMeaning(line, None, StrKind);
      StripSpec(line);
      forall k | 0 <= k < a.consumed - 1
        ensures Blank(lines[k])
      {
        DecideMeaning(lines[k], None, StrKind);
      }
    }
  }

  /** A required field over nothing but blank lines keeps re-prompting: no
      value ever comes of it. */
  lemma BlankLinesNeverAnswerRequired(lines: seq<string>, kind: Kind)
    requires forall k | 0 <= k < |lines| :: Blank(lines[k])
    ensures Ask(lines, None, kind) == Exhausted
  {
    AskFirstAcceptable(lines, None, kind);
    var a := Ask(lines, None, kind);
    if a.Got? {
      DecideMeaning(lines[a.consumed - 1], None, kind);
    }
  }

  /** A `bool` field with a default takes the first line that is blank (the
      default) or whose token stands for a boolean (that boolean); every line
      before it was a token standing for neither. */
  lemma DefaultedBoolTakesFirstBoolean(lines: seq<string>, default: bool)
    ensures var a := Ask(lines, Some(Bool(default)), BoolKind);
      (a.Got? ==>
        var line := lines[a.consumed - 1];
        a.value.Bool? &&
        (Blank(line) ==> a.value.flag == default) &&
        (!Blank(line) ==> ParseBool(Strip(line)) == Some(a.value.flag))) &&
      forall k | 0 <= k < (if a.Got? then a.consumed - 1 else |lines|) ::
        !Blank(lines[k]) && ParseBool(Strip(lines[k])).None?
  {
    var d := Some(Bool(default));
    var a := Ask(lines, d, BoolKind);
    var m := if a.Got? then a.consumed - 1 else |lines|;
    AskFirstAcceptable(lines, d, BoolKind);
    forall k | 0 <= k < m
      ensures !Blank(lines[k]) && ParseBool(Strip(lines[k])).None?
    {
      DecideMeaning(lines[k], d, BoolKind);
    }
    if a.Got? {
      DecideMeaning(lines[m], d, BoolKind);
    }
  }

  /** The decisions for two runs of lines, one after the other. */
  lemma DecisionsAppend(lines: seq<string>, more: seq<string>, decide: string -> Decision)
    ensures Decisions(lines + more, decide) == Decisions(lines, decide) + Decisions(more, decide)
  {
    var all := lines + more;
    var l, r := Decisions(all, decide), Decisions(lines, decide) + Decisions(more, decide);
    forall k | 0 <= k < |all|
      ensures l[k] == r[k]
    {
      if k < |lines| {
        assert all[k] == lines[k];
      } else {
        assert all[k] == more[k - |lines|];
      }
    }
  }

  /** Lines typed after the accepted one do not change the answer:
      `get_user_input` never reads past the line it accepts. */
  lemma AskIgnoresLaterLines(lines: seq<string>, more: seq<string>, default: Option<Value>, kind: Kind)
    requires Ask(lines, default, kind).Got?
    ensures Ask(lines + more, default, kind) == Ask(lines, default, kind)
  {
    var decide := Decider(default, kind);
    var ds, rest := Decisions(lines, decide), Decisions(more, decide);
    AskIsFirstAccepted(lines, default, kind);
    AskIsFirstAccepted(lines + more, default, kind);
    DecisionsAppend(lines, more, decide);
    FirstAcceptedDetermined(ds + rest, FirstAccepted(ds));
  }

  /** A `str` field whose default, if any, is a non-empty string only ever
      yields a non-empty string. */
  lemma AskStrNonEmpty(lines: seq<string>, default: Option<Value>)
    requires default.None? || (default.value.Str? && default.value.text != [])
    ensures var a := Ask(lines, default, StrKind);
      a.Got? ==> a.value.Str? && a.value.text != []
  {
    AskFirstAcceptable(lines, default, StrKind);
    var a := Ask(lines, default, StrKind);
    if a.Got? {
      DecideMeaning(lines[a.consumed - 1], default, StrKind);
      StripSpec(lines[a.consumed - 1]);
    }
  }

  /** A blank next line answers any question that has a default, with the
      default itself. */
  lemma BlankTakesDefault(lines: seq<string>, default: Value, kind: Kind)
    requires lines != [] && Blank(lines[0])
    ensures Ask(lines, Some(default), kind) == Got(default, 1)
  {
    DecideMeaning(lines[0], Some(default), kind);
  }

  /** A non-blank next line answers any `str` question, with its stripped
      text. */
  lemma StrTakesNonBlankLine(lines: seq<string>, default: Option<Value>)
    requires lines != [] && !Blank(lines[0])
    ensures Ask(lines, default, StrKind) == Got(Str(Strip(lines[0])), 1)
  {
    DecideMeaning(lines[0], default, StrKind);
  }
}
