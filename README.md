# input_collector in Dafny

A model of `bin/input_collector.py`, the interactive script that asks the
operator for the pipeline's parameters. It asks for the input directory,
the output directory, whether to normalise, and the execution profile. It
checks the two directories, and it creates one when the operator says so.
Then it asks for confirmation and writes `pipeline_params.json` and
`execution_opts.json`.

The terminal is modelled as the sequence of lines the operator will type.
The filesystem is the set of paths that exist. The files written are a
record of (file name, dictionary) pairs.

- `options.dfy`: the `Option` type.
- `text.dfy`: Python's `str.strip()` and `str.lower()` on ASCII. `Strip` is
  characterised by its contract (`StripSpec`, `StripOfPadded`). `lower()`
  followed by `in [...]` is shown to be a case-insensitive comparison
  (`LowerIsAnyCase`).
- `dicts.dfy`: Python dictionaries as sequences of entries in insertion
  order. The order matters because it is the order of the keys in the JSON
  output.
- `prompt.dfy`: `get_user_input`.
  - `Decide` is what one typed line leads to. `DecideMeaning` states its
    meaning.
  - `Ask` is the answer over a sequence of lines. `AskIsFirstAccepted`
    proves it is the first acceptable line.
  - `GetUserInput` is the `while True` loop itself, proved to compute
    `Ask`.
- `collector.dfy`: `validate_directory`, `collect_parameters` and `main`,
  as functions of the lines and the existing paths.
  - `collect_parameters` is a table of its four questions (`Questions`),
    run by the interpreter `CollectFrom`.
  - The table is proved equal (`TableAgrees`) to `Reference`, an
    independent, question-by-question definition. `Reference` has its own
    guarantees: a complete pair of dictionaries, and only the two entered
    paths ever created.
  - `MainFlow` adds the confirmation. `SavedIffConfirmed` proves the files
    are written exactly when the confirmation line says so.
- `session.dfy`: the class `Session`.
  - It holds the lines not yet read, the existing paths and a ghost record
    of the files written.
  - Each function of the script is a method of `Session` that consumes
    input, creates directories or writes.
  - `AskUser`, `ValidateDirectory` and the collection methods are proved to
    leave exactly the lines, paths and result that `Ask`, `CheckDirectory`
    and `Collect` give.
  - `SaveParams` appends the two writes for whatever file names it is given,
    and with the default names it appends exactly `Saves`.
  - `Run` is proved to end as `MainFlow` says, with the same paths and
    writes, and with the confirmation line consumed and nothing more.
- `scenarios.dfy`: typical runs, one question at a time and then whole:
  - all defaults, saved or declined;
  - a missing output or input directory;
  - a token that is not a boolean, asked again.

Two behaviours of the source are easy to miss, and the model keeps both:

- The answer to "Create it? (y/n)" is lower-cased but not stripped, so
  `" y"` means no.
- The confirmation answer passes through `get_user_input`, so it is
  stripped, and a blank line means the default `y`.

## Model

| member | source | states |
|---|---|---|
| Text.TrimLeft | bin/input_collector.py:18 | the result is no longer than the input |
| Text.TrimLeftSpec | bin/input_collector.py:18 | leading-whitespace removal cuts a whitespace prefix, and the rest does not start with whitespace |
| Text.TrimRight | bin/input_collector.py:18 | the result is no longer than the input |
| Text.TrimRightSpec | bin/input_collector.py:18 | trailing-whitespace removal cuts a whitespace suffix, and the rest does not end with whitespace |
| Text.Strip | bin/input_collector.py:18 | `strip()` never lengthens a string |
| Text.Lead | bin/input_collector.py:18 | the whitespace cut in front plus what is kept fits in the input |
| Text.StripSpec | bin/input_collector.py:18 | `strip()` keeps a contiguous middle part that neither starts nor ends with whitespace, with only whitespace around it; the result is empty iff the line is blank |
| Text.TrimLeftBlankPrefix | bin/input_collector.py:18 | whitespace put in front does not change the left trim |
| Text.TrimRightBlankSuffix | bin/input_collector.py:18 | whitespace put behind does not change the right trim |
| Text.StripOfPadded | bin/input_collector.py:18 | a middle part padded with whitespace strips to exactly that middle part |
| Text.StripIdempotent | bin/input_collector.py:18 | stripping twice equals stripping once |
| Text.StripNoSpace | bin/input_collector.py:18 | a string without whitespace strips to itself |
| Text.Lower | bin/input_collector.py:31 | `lower()` keeps the length |
| Text.LowerSpec | bin/input_collector.py:31 | `lower()` works character by character |
| Text.OneOfSpec | bin/input_collector.py:31-33 | the word-by-word comparison is exactly list membership (`in [...]`) |
| Text.LowerIsAnyCase | bin/input_collector.py:31-33 | `t.lower() == w` for a lower-case word `w` iff `t` is `w` in any mixture of letter cases |
| Dicts.Keys | bin/input_collector.py:61-62 | one key per entry, in entry order |
| Dicts.Get | bin/input_collector.py:67 | a lookup finds nothing iff the key is absent |
| Dicts.Put | bin/input_collector.py:66-81 | `d[k] = v` appends a new key at the end and keeps the place of a known key |
| Dicts.PutGet | bin/input_collector.py:66-81 | after `d[k] = v`, `k` maps to `v` and every other key to what it did before |
| Dicts.PutNew | bin/input_collector.py:66-81 | assigning an absent key appends exactly one entry |
| Prompt.Show | bin/input_collector.py:13 | a string default is shown as it is; a bool default is shown as a word that, typed back at the prompt, reads as that same bool |
| Prompt.PromptText | bin/input_collector.py:12-15 | (definition) the prompt is the label, then ` [default]` when there is a default, then `: ` |
| Prompt.ParseBool | bin/input_collector.py:30-37 | a token reads as true iff its lower-cased form is in the true list, and as false iff it is in the false list |
| Prompt.ParseBoolAnyCase | bin/input_collector.py:30-34 | a token reads as true iff it is true/yes/y/1 in any letter case, and as false iff it is false/no/n/0 in any letter case |
| Prompt.Decide | bin/input_collector.py:18-40 | the decision for one line: only a field without a default re-prompts for a missing value, only a bool field re-prompts for a non-boolean token, and an accepted value has the field's type whenever the default has |
| Prompt.DecideMeaning | bin/input_collector.py:18-40 | per line: blank with a default gives the default; blank without one re-prompts; a str field takes the stripped text; a bool field takes the boolean the token stands for or re-prompts; an accepted value has the field's type |
| Prompt.Decisions | bin/input_collector.py:17-18 | one decision per line read |
| Prompt.FirstAccepted | bin/input_collector.py:17-43 | the answer is the first accepted decision, none before it was accepted, and exhaustion means none was |
| Prompt.FirstAcceptedDetermined | bin/input_collector.py:17-43 | any answer meeting that contract equals the first acceptance |
| Prompt.Ask | bin/input_collector.py:17-43 | an answer takes at least one line and no more lines than there are |
| Prompt.AskIsFirstAccepted | bin/input_collector.py:17-43 | asking line by line gives the first acceptance among all lines' decisions |
| Prompt.GetUserInput | bin/input_collector.py:10-43 | the loop returns the first acceptable line's value and the lines read, or exhaustion when no line is acceptable |
| Prompt.AskFirstAcceptable | bin/input_collector.py:17-43 | the accepted line is acceptable, every earlier line is not, and exhaustion means no line was |
| Prompt.AskKeepsType | bin/input_collector.py:20-40 | the value has the field's type whenever the default does |
| Prompt.DefaultedStrTakesOneLine | bin/input_collector.py:20-22 | a str field with a default takes exactly the next line: the default if blank, else the stripped text |
| Prompt.RequiredIsNonEmpty | bin/input_collector.py:24-27 | a required str field yields the first non-blank line, stripped and non-empty; every line before it was blank |
| Prompt.BlankLinesNeverAnswerRequired | bin/input_collector.py:24-27 | a required field over blank lines only never gets a value |
| Prompt.DefaultedBoolTakesFirstBoolean | bin/input_collector.py:20-37 | a bool field with a default takes the first blank or boolean line, with the default or that boolean; every earlier line was a non-boolean token |
| Prompt.DecisionsAppend | bin/input_collector.py:17-18 | the decisions for two runs of lines concatenate |
| Prompt.AskIgnoresLaterLines | bin/input_collector.py:17-43 | lines after the accepted one do not change the answer |
| Prompt.AskStrNonEmpty | bin/input_collector.py:18-27 | a str field with no default or a non-empty default only yields non-empty strings |
| Prompt.BlankTakesDefault | bin/input_collector.py:20-22 | a blank next line answers with the default itself, in one line |
| Prompt.StrTakesNonBlankLine | bin/input_collector.py:18-40 | a non-blank next line answers a str field with its stripped text, in one line |
| Collector.IsYes | bin/input_collector.py:49 | `answer.lower() in ['y', 'yes']` (also the test at line 116) holds iff the answer is `y` or `yes` in any letter case, with nothing around it |
| Collector.CheckDirectory | bin/input_collector.py:45-53 | an empty or existing path passes with no question and no change; for a missing one the question takes one line, the check succeeds iff that line means yes, and the path is added exactly then; the result is true iff the path is empty or exists afterwards |
| Collector.CreatedIffYes | bin/input_collector.py:47-52 | for a missing path, the check succeeds and creates the path iff the answer is y/yes in any case; otherwise nothing changes |
| Collector.CheckAgainIsQuiet | bin/input_collector.py:47 | re-checking an accepted path asks nothing and changes nothing |
| Collector.QuestionsFollowSource | bin/input_collector.py:66-81 | the question table `Questions` is the four calls in source order: their keys, which dictionary each goes into, their defaults and types, and that exactly the two directories are checked |
| Collector.DefaultOf | bin/input_collector.py:66-80 | every question's default has the question's type |
| Collector.LeftOfLeft | bin/input_collector.py:18 | lines left after reading from what was left are left of the whole |
| Collector.RefusedLineSkipped | bin/input_collector.py:17-37 | a line the current question refuses (blank with no default, or no boolean at a bool question) is skipped and the same question is asked again over the following lines, with nothing else changed |
| Collector.Store | bin/input_collector.py:66-81 | an answer is stored under its key in the dictionary its question names, and the other dictionary is left as it was |
| Collector.CollectFrom | bin/input_collector.py:66-81 | asking questions never removes a path, and a finished run leaves a suffix of the lines, having taken at least one line per question |
| Collector.Build | bin/input_collector.py:61-83 | the returned dictionaries have exactly the keys input_dir, outdir, do_norm and profile, in order, holding the given values |
| Collector.BuildByAssignment | bin/input_collector.py:61-81 | assigning the keys one by one gives exactly those dictionaries |
| Collector.ReferenceFromProfile | bin/input_collector.py:80-83 | the profile question completes both dictionaries and creates nothing |
| Collector.ReferenceFromNorm | bin/input_collector.py:75-83 | from the normalisation question on, the dictionaries come out complete and nothing is created |
| Collector.ReferenceFromOutdir | bin/input_collector.py:70-83 | from the output directory on, the dictionaries come out complete and at most the output directory is created |
| Collector.Reference | bin/input_collector.py:55-83 | a finished collection is complete, and only the entered input and output directories can be created |
| Collector.ProfileAgrees | bin/input_collector.py:80-83 | the table's last question agrees with the reference |
| Collector.NormAgrees | bin/input_collector.py:75-83 | the table from the normalisation question agrees with the reference |
| Collector.OutdirAgrees | bin/input_collector.py:70-83 | the table from the output directory question agrees with the reference |
| Collector.TableAgrees | bin/input_collector.py:55-83 | the question table run by the interpreter equals the reference definition |
| Collector.Collect | bin/input_collector.py:55-83 | collection gives complete dictionaries, reads at least four lines, and creates at most the two entered paths |
| Collector.Saves | bin/input_collector.py:85-93 | (definition) the parameters file is written first with the parameters, then the options file with the options |
| Collector.Confirm | bin/input_collector.py:115-116 | the confirmation takes one line and means save iff it is blank (the default `y`) or, stripped, means yes; no line left means no answer |
| Collector.MainFlow | bin/input_collector.py:108-127 | a run leaves the paths the collection left, and it writes something iff it ends saved |
| Collector.SavedIffConfirmed | bin/input_collector.py:110-123 | the files are written iff collection finished and the confirmation means yes; then exactly the params file, then the options file, with what was collected; otherwise nothing |
| Collector.WritesFollowSchema | bin/input_collector.py:108-127 | every run writes nothing or exactly the two files with their keys in order |
| Scenarios.InputDirStep | bin/input_collector.py:66-68 | a non-blank first line gives the input directory; a missing path costs one more line and is created iff that line says yes |
| Scenarios.OutdirStep | bin/input_collector.py:70-71 | a blank line gives ./results, else the stripped text; it is stored whatever the check says |
| Scenarios.NormStep | bin/input_collector.py:75 | a blank or boolean line stores True or that boolean, in one line |
| Scenarios.NormRetry | bin/input_collector.py:35-37 | a non-boolean line at the normalisation question is skipped and the question repeats |
| Scenarios.ProfileStep | bin/input_collector.py:80-81 | a blank line gives conda, else the stripped text unchecked; it goes into the options and ends the collection |
| Scenarios.DefaultsCollected | bin/input_collector.py:55-83 | with existing paths, an input directory and three Enters collect the defaults and create nothing |
| Scenarios.DefaultsSaved | bin/input_collector.py:108-117 | confirming those with Enter writes both files, the parameters first |
| Scenarios.DeclinedWritesNothing | bin/input_collector.py:115-123 | any other confirmation answer writes nothing |
| Scenarios.MissingOutdirAsked | bin/input_collector.py:70-71 | a missing default output directory is created iff the answer is y/yes in any case, and collection proceeds either way |
| Scenarios.MissingInputKept | bin/input_collector.py:66-68 | a missing input directory is created iff the answer is yes, and is kept either way; a typed profile is taken as typed |
| Scenarios.NotABooleanAskedAgain | bin/input_collector.py:30-37 | at a bool question with default True, "maybe" is refused and "No" then reads as false, two lines in all |
| Scenarios.BooleanAskedAgain | bin/input_collector.py:75 | a non-boolean line then a boolean one stores that boolean |
| InputCollector.Session.constructor | bin/input_collector.py:108-111 | a session starts with the given lines, the given paths and nothing written |
| InputCollector.Session.AskUser | bin/input_collector.py:10-43 | reads exactly the lines the answer takes and returns its value, or reports exhausted input |
| InputCollector.Session.ValidateDirectory | bin/input_collector.py:45-53 | the paths, the lines left and the result are those of the directory check |
| InputCollector.Session.AskFromProfile | bin/input_collector.py:80-83 | state and result are those of the table's last question |
| InputCollector.Session.AskFromNorm | bin/input_collector.py:75-83 | state and result are those of the table from the normalisation question on |
| InputCollector.Session.AskFromOutdir | bin/input_collector.py:70-83 | state and result are those of the table from the output directory on |
| InputCollector.Session.CollectParameters | bin/input_collector.py:55-83 | returns the collection's dictionaries, and leaves the paths and lines it leaves; writes nothing |
| InputCollector.Session.SaveParams | bin/input_collector.py:85-93 | appends the parameters file, then the options file, which with the default names is exactly `Saves`, and changes nothing else |
| InputCollector.Session.Run | bin/input_collector.py:108-127 | the ending, the paths and the files written are those of `MainFlow`; the lines left are those after the collection and the confirmation line |

## Left out

- Printing: the banners, hints, warnings, `display_summary` (lines 95-106)
  and the suggested commands after saving (lines 118-123). The label texts
  of the prompts are modelled by `PromptText` only.
- JSON serialisation and indentation: a written file is recorded as its
  name and the dictionary it holds.
- Failures of the file system: unwritable files, and `makedirs` creating
  missing parents or failing. Creating a directory adds the one path.
  Existence does not tell files from directories.
- `KeyboardInterrupt` and end of input (lines 125-127): the model has a
  finite sequence of lines. Running out of lines stands for an interrupted
  or closed terminal, ends the run as `Interrupted`, and writes nothing.
  The exit status is not modelled.
- Input types other than `str` and `bool` (lines 39-43): the script calls
  `get_user_input` only with those. `str(...)` never raises, so the
  `ValueError` branch is unreachable.
- Unicode: whitespace and letter case are ASCII only.
- An empty path is accepted without a question: lines 47 and 53 return
  `True`. It cannot arise from `collect_parameters`, because both paths are
  non-empty there.
- Paths are compared as plain strings. So `./results`, `results` and
  `results/` are three different paths to the model, while
  `os.path.exists` and `os.makedirs` (lines 47 and 50) treat them as one
  directory.
