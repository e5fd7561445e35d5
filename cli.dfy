/**
 * The command-line driver (`main` in app.js): from the four arguments
 * `<input-file> <output-path> {<input-lang>|.} <output-lang>[,...]` and two
 * facts about the filesystem to a plan, and the sequential run of the engine
 * once per output language.
 */
module Cli {
  import opened Wrappers
  import opened Engine

  /** What `fs.lstatSync(path)` finds at a path. */
  datatype PathKind = Missing | Directory | NotDirectory

  /** `path.join`, left abstract. */
  type PathJoin = (string, string) -> string

  /** One output language and the file its translation is saved to. */
  datatype Job = Job(lang: Lang, target: string)

  /** Why `main` stops after printing a message. */
  datatype AbortReason =
    | InputFileNotFound(file: string)
    | NoOutputLanguage
    | OutputDirectoryNotFound(path: string)

  datatype Plan =
    | Help                                        // usage text, exit code 1
    | Abort(reason: AbortReason)                  // message, nothing translated
    | Crash(path: string)                         // lstatSync throws on a missing path
    | Run(input: string, source: Lang, jobs: seq<Job>)

  /** The provider's auto-detect sentinel. */
  const AutoDetect: Lang := "auto"

  /** The input-language argument: "." asks for automatic detection. */
  function SourceLanguage(arg: string): Lang
  {
    if arg == "." then AutoDetect else arg
  }

  /** The pieces joined back with the separator between them. */
  function Join(pieces: seq<string>, sep: char): string
    requires |pieces| >= 1
  {
    if |pieces| == 1 then pieces[0] else pieces[0] + [sep] + Join(pieces[1..], sep)
  }

  /**
   * JavaScript's `s.split(sep)` for a one-character separator: the text between
   * consecutive separators, so "" gives [""] and "fr," gives ["fr", ""].
   */
  function Split(s: string, sep: char): (r: seq<string>)
    ensures |r| >= 1
    ensures Join(r, sep) == s
    ensures forall i :: 0 <= i < |r| ==> sep !in r[i]
  {
    if s == [] then [[]]
    else
      var rest := Split(s[1..], sep);
      if s[0] == sep then [[]] + rest
      else
        assert |rest| > 1 ==> Join(rest, sep) == rest[0] + [sep] + Join(rest[1..], sep);
        [[s[0]] + rest[0]] + rest[1..]
  }

  lemma {:induction false} SplitWithoutSeparator(s: string, sep: char)
    requires sep !in s
    ensures Split(s, sep) == [s]
  {
    if s != [] {
      SplitWithoutSeparator(s[1..], sep);
    }
  }

  lemma {:induction false} SplitAfterPiece(piece: string, sep: char, tail: string)
    requires sep !in piece
    ensures Split(piece + [sep] + tail, sep) == [piece] + Split(tail, sep)
  {
    if piece == [] {
      assert (piece + [sep] + tail)[1..] == tail;
    } else {
      var s := piece + [sep] + tail;
      assert s[0] == piece[0] && s[1..] == piece[1..] + [sep] + tail;
      SplitAfterPiece(piece[1..], sep, tail);
      assert [piece[0]] + piece[1..] == piece;
    }
  }

  /** Splitting undoes joining pieces that hold no separator. */
  lemma {:induction false} SplitJoin(pieces: seq<string>, sep: char)
    requires |pieces| >= 1
    requires forall i :: 0 <= i < |pieces| ==> sep !in pieces[i]
    ensures Split(Join(pieces, sep), sep) == pieces
  {
    if |pieces| == 1 {
      SplitWithoutSeparator(pieces[0], sep);
    } else {
      SplitJoin(pieces[1..], sep);
      SplitAfterPiece(pieces[0], sep, Join(pieces[1..], sep));
    }
  }

  /** The output file of one language: `<outputPath>/<lang>.json` in a directory, else outputPath itself. */
  function Target(outputPath: string, lang: Lang, isDirectory: bool, join: PathJoin): string
  {
    if isDirectory then join(outputPath, lang + ".json") else outputPath
  }

  /** One job per output language, in list order. */
  function Jobs(langs: seq<Lang>, outputPath: string, isDirectory: bool, join: PathJoin): (r: seq<Job>)
    ensures |r| == |langs|
    ensures forall i :: 0 <= i < |r| ==> r[i].lang == langs[i]
    ensures forall i :: 0 <= i < |r| ==> r[i].target == Target(outputPath, langs[i], isDirectory, join)
  {
    if langs == [] then []
    else [Job(langs[0], Target(outputPath, langs[0], isDirectory, join))]
         + Jobs(langs[1..], outputPath, isDirectory, join)
  }

  /** The last check and the jobs, once the kind of the output path is known. */
  function Schedule(args: seq<string>, isDirectory: bool, join: PathJoin): Plan
    requires |args| == 4
  {
    var langs := Split(args[3], ',');
    if |langs| > 1 && !isDirectory then Abort(OutputDirectoryNotFound(args[1]))
    else Run(args[0], SourceLanguage(args[2]), Jobs(langs, args[1], isDirectory, join))
  }

  /**
   * The argument handling of `main` as written: `fs.lstatSync(outputPath)`
   * throws when nothing exists at outputPath, so a missing output file crashes
   * the program although the usage text names an output file to create.
   */
  function PlanAsWritten(args: seq<string>, inputExists: bool, output: PathKind, join: PathJoin): (r: Plan)
    ensures r.Crash? <==> |args| == 4 && inputExists && args[3] != "" && output == Missing
    ensures r.Crash? ==> r.path == args[1]
    ensures !r.Crash? ==> r == MakePlan(args, inputExists, output, join)
  {
    if |args| != 4 then Help
    else if !inputExists then Abort(InputFileNotFound(args[0]))
    else if args[3] == "" then Abort(NoOutputLanguage)
    else if output == Missing then Crash(args[1])
    else Schedule(args, output == Directory, join)
  }

  /**
   * The argument handling of `main`, with a missing output path taken as a file
   * to create (not a directory).
   */
  function MakePlan(args: seq<string>, inputExists: bool, output: PathKind, join: PathJoin): (r: Plan)
    ensures !r.Crash?
    ensures r.Help? <==> |args| != 4
    ensures |args| == 4 && !inputExists ==> r == Abort(InputFileNotFound(args[0]))
    ensures |args| == 4 && inputExists && args[3] == "" ==> r == Abort(NoOutputLanguage)
    ensures (|args| == 4 && inputExists && args[3] != "" && |Split(args[3], ',')| > 1 && output != Directory)
              ==> r == Abort(OutputDirectoryNotFound(args[1]))
    ensures r.Run? <==> |args| == 4 && inputExists && args[3] != ""
                        && (|Split(args[3], ',')| == 1 || output == Directory)
    ensures r.Run? ==> r.input == args[0] && r.source == (if args[2] == "." then AutoDetect else args[2])
    ensures r.Run? ==> |r.jobs| == |Split(args[3], ',')|
    ensures r.Run? ==> forall i :: 0 <= i < |r.jobs| ==> r.jobs[i].lang == Split(args[3], ',')[i]
    ensures r.Run? ==> forall i :: 0 <= i < |r.jobs| ==>
              r.jobs[i].target == (if output == Directory then join(args[1], r.jobs[i].lang + ".json") else args[1])
  {
    if |args| != 4 then Help
    else if !inputExists then Abort(InputFileNotFound(args[0]))
    else if args[3] == "" then Abort(NoOutputLanguage)
    else Schedule(args, output == Directory, join)
  }

  /**
   * The usage text's first example, `app en.json fr.json en fr`, run before
   * fr.json exists: as written it crashes, corrected it translates into fr.json.
   */
  lemma MissingOutputFileCrashes(join: PathJoin)
    ensures PlanAsWritten(["en.json", "fr.json", "en", "fr"], true, Missing, join) == Crash("fr.json")
    ensures MakePlan(["en.json", "fr.json", "en", "fr"], true, Missing, join)
            == Run("en.json", "en", [Job("fr", "fr.json")])
  {
    SplitWithoutSeparator("fr", ',');
  }

  /**
   * `app <input> <dir> <lang> l1,l2,...` into an existing directory: the
   * languages come back from the comma-joined argument in their order, each
   * with its own file in the directory.
   */
  lemma {:induction false} DirectoryPlan(input: string, dir: string, inputLang: string, langs: seq<Lang>,
                                         join: PathJoin)
    requires |langs| >= 1
    requires forall i :: 0 <= i < |langs| ==> ',' !in langs[i]
    requires Join(langs, ',') != ""
    ensures MakePlan([input, dir, inputLang, Join(langs, ',')], true, Directory, join)
            == Run(input, SourceLanguage(inputLang), Jobs(langs, dir, true, join))
  {
    SplitJoin(langs, ',');
  }

  /** A translated dictionary and the file it is saved to. */
  datatype Save = Save(file: string, data: Dictionary<Option<string>>)

  /**
   * The loop over the output languages: for each job in turn the engine runs on
   * the loaded dictionary from the source language (passed on unchanged,
   * "auto" included), and its output is saved to the job's file.
   * `completions[i]` is the order in which the calls of the i-th run settle.
   */
  method RunJobs(data: Dictionary<string>, source: Lang, jobs: seq<Job>, translate: Translator,
                 completions: seq<seq<string>>)
    returns (saves: seq<Save>)
    requires data.Valid()
    requires |completions| == |jobs|
    requires forall i :: 0 <= i < |jobs| ==> IsCompletionOrder(completions[i], data.keys)
    ensures |saves| == |jobs|
    ensures forall i :: 0 <= i < |jobs| ==>
              saves[i] == Save(jobs[i].target, Translated(data, source, jobs[i].lang, translate))
  {
    saves := [];
    for i := 0 to |jobs|
      invariant |saves| == i
      invariant forall n :: 0 <= n < i ==>
                  saves[n] == Save(jobs[n].target, Translated(data, source, jobs[n].lang, translate))
    {
      var outputData, _, _, _ := TranslateDictionary(data, source, jobs[i].lang, translate, completions[i]);
      saves := saves + [Save(jobs[i].target, outputData)];
    }
  }

  /**
   * `main` end to end: plan from the arguments, then, for a run, translate the
   * loaded dictionary once per job. Help and aborts translate nothing.
   */
  method Execute(args: seq<string>, inputExists: bool, output: PathKind, join: PathJoin,
                 data: Dictionary<string>, translate: Translator, completions: seq<seq<string>>)
    returns (plan: Plan, saves: seq<Save>)
    requires data.Valid()
    requires forall c :: c in completions ==> IsCompletionOrder(c, data.keys)
    requires MakePlan(args, inputExists, output, join).Run? ==>
               |completions| == |MakePlan(args, inputExists, output, join).jobs|
    ensures plan == MakePlan(args, inputExists, output, join)
    ensures !plan.Run? ==> saves == []
    ensures plan.Run? ==> |saves| == |plan.jobs|
    ensures plan.Run? ==> forall i :: 0 <= i < |plan.jobs| ==>
              saves[i] == Save(plan.jobs[i].target, Translated(data, plan.source, plan.jobs[i].lang, translate))
  {
    plan := MakePlan(args, inputExists, output, join);
    saves := [];
    if plan.Run? {
      saves := RunJobs(data, plan.source, plan.jobs, translate, completions);
    }
  }
}
