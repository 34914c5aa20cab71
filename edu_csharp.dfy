/** The C# revision of edu (EDUCSharp.cs): the exact-size accumulator, the recursive directory
    walker over an input directory tree, and the argument loop of `Main`.

    The file system is an input: a `Directory` value says what `Directory.EnumerateFiles`,
    `FileInfo.Length` and `Directory.EnumerateDirectories` report for one directory, in
    enumeration order. The console is the `Line` sequence a method returns. */
module EduCSharp {
  import opened Megabytes
  import opened Text

  /** Display limit used when none (or an unusable one) is given. */
  const RECURSION_LIMIT_DEFAULT: int := 999

  /** The separator `Directory.EnumerateDirectories` puts between a directory and an entry
      (Windows). */
  const DirectorySeparatorChar: char := '\\'

  /** The console. */
  datatype Warning = NoEqualsSign | BadNumberConversion | LevelNotPositive

  datatype Line =
    | Warn(warning: Warning)                      // a warning about a /level option
    | Help                                        // the usage text
    | FilesError(path: string)                    // files of `path` could not all be read
    | DirsError(path: string)                     // subdirectories of `path` could not be listed
    | Report(path: string, level: int, total: Total)  // the total of one directory
    | GrandTotal(path: string, total: Total)      // the total printed in totals-only mode

  /** How the process ends: `Environment.Exit(code)`, the end of `Main`, or an exception
      nobody catches. */
  datatype Exit = Exited(code: int) | Crashed

  // ---------------------------------------------------------------------------------------
  // The accumulator

  /** `Add`: both fields increased, then whole megabytes moved out of the byte field while it
      exceeds MEGABYTE. */
  method Add(megs: nat, bytes: nat, number: Total) returns (result: Total)
    ensures result == Added(number, megs, bytes)
    ensures Value(result) == Value(number) + megs * MEGABYTE + bytes
    ensures result.bytes <= MEGABYTE
  {
    result := Total(number.megabytes + megs, number.bytes + bytes);
    while result.bytes > MEGABYTE
      invariant Added(result, 0, 0) == Added(number, megs, bytes)
      decreases result.bytes
    {
      CarryStep(result.bytes);
      result := Total(result.megabytes + 1, result.bytes - MEGABYTE);
    }
  }

  // ---------------------------------------------------------------------------------------
  // The file system, as the walker sees it

  /** What `new FileInfo(file).Length` gives for one listed file. */
  datatype Length = Length(n: nat) | LengthThrows

  /** What `Directory.EnumerateFiles(path)` gives: an exception, or one length per file. */
  datatype FileListing = FilesThrow | Files(lengths: seq<Length>)

  /** What `Directory.EnumerateDirectories(path)` gives: an exception, or the subdirectories. */
  datatype DirListing = DirsThrow | Dirs(subdirs: seq<Subdir>)

  datatype Subdir = Subdir(name: string, dir: Directory)

  datatype Directory = Directory(files: FileListing, dirs: DirListing)

  /** The settings the walker reads: the totals-only flag, the display limit, and whether
      diagnostics are shown. */
  datatype Display = Display(totalOnly: bool, limit: int, showErrors: bool)

  /** The path of a subdirectory as the enumeration returns it. */
  function Join(parent: string, name: string): string
  {
    parent + [DirectorySeparatorChar] + name
  }

  // ---------------------------------------------------------------------------------------
  // What the walker computes

  /** Bytes the file loop adds before the list ends or a `Length` throws. */
  function LengthsBytes(lengths: seq<Length>): nat
  {
    if lengths == [] || lengths[0].LengthThrows? then 0
    else lengths[0].n + LengthsBytes(lengths[1..])
  }

  /** The file part of a directory ends in the `catch`: the listing or some length throws. */
  predicate FilesCaught(files: FileListing)
  {
    files.FilesThrow? || exists i :: 0 <= i < |files.lengths| && files.lengths[i].LengthThrows?
  }

  function FilesBytes(files: FileListing): nat
  {
    if files.FilesThrow? then 0 else LengthsBytes(files.lengths)
  }

  /** Bytes found under `d`: files read before any exception, plus the subtrees of a successful
      subdirectory listing. */
  function DirBytes(d: Directory): nat
    decreases d, 1
  {
    FilesBytes(d.files) + (if d.dirs.DirsThrow? then 0 else SubdirsBytes(d.dirs.subdirs))
  }

  function SubdirsBytes(subdirs: seq<Subdir>): nat
    decreases subdirs, 0
  {
    if subdirs == [] then 0
    else SubdirsBytes(subdirs[..|subdirs| - 1]) + DirBytes(subdirs[|subdirs| - 1].dir)
  }

  /** The console lines of the walk of `d` at `path` and `level`, in the order printed. */
  function Output(d: Directory, path: string, level: int, s: Display): seq<Line>
    decreases d, 1
  {
    (if FilesCaught(d.files) && s.showErrors then [FilesError(path)] else [])
    + (if d.dirs.DirsThrow? then (if s.showErrors then [DirsError(path)] else [])
       else SubdirsOutput(d.dirs.subdirs, path, level + 1, s))
    + OwnLine(d, path, level, s)
  }

  /** The line `d` prints for itself: its total, when totals-only is off and its level is
      under the limit. */
  function OwnLine(d: Directory, path: string, level: int, s: Display): seq<Line>
  {
    if !s.totalOnly && level < s.limit then [Report(path, level, Normal(DirBytes(d)))] else []
  }

  function SubdirsOutput(subdirs: seq<Subdir>, parent: string, level: int, s: Display): seq<Line>
    decreases subdirs, 0
  {
    if subdirs == [] then []
    else
      var last := subdirs[|subdirs| - 1];
      SubdirsOutput(subdirs[..|subdirs| - 1], parent, level, s) + Output(last.dir, Join(parent, last.name), level, s)
  }

  /** The first `try` block of `DirectoryTotal`: the length of each listed file added to a
      fresh total, until the list ends or an exception ends the block; `caught` tells whether
      the `catch` ran. */
  method FilesTotal(files: FileListing) returns (total: Total, caught: bool)
    ensures total == Normal(FilesBytes(files))
    ensures caught == FilesCaught(files)
  {
    total := Total(0, 0);
    caught := false;
    match files {
      case FilesThrow =>
        caught := true;
      case Files(lengths) =>
        var i := 0;
        while i < |lengths|
          invariant 0 <= i <= |lengths|
          invariant forall j :: 0 <= j < i ==> lengths[j].Length?
          invariant Canonical(total) && Value(total) + LengthsBytes(lengths[i..]) == LengthsBytes(lengths)
        {
          if lengths[i].LengthThrows? {
            caught := true;
            break;
          }
          AddedNormal(total, Total(0, lengths[i].n));
          assert lengths[i..][1..] == lengths[i + 1..];
          total := Add(0, lengths[i].n, total);
          i := i + 1;
        }
    }
    CanonicalIsNormal(total);
  }

  // ---------------------------------------------------------------------------------------
  // The argument loop of `Main`

  const INT32_MIN: int := -0x8000_0000
  const INT32_MAX: int := 0x7FFF_FFFF

  /** `bIsOptionChar`: '/' and '-' both start an option. */
  predicate IsOptionChar(c: char)
  {
    c == '/' || c == '-'
  }

  /** `Convert.ToInt32(s)` for a string: white space around an optional sign and at least one
      decimal digit, the value within 32 bits; anything else throws (`None`). */
  function ToInt32(s: string): (r: Option<int>)
    ensures r.Some? ==> INT32_MIN <= r.value <= INT32_MAX
  {
    SignedInt32(TrimEnd(SkipSpaces(s)))
  }

  /** The conversion of the text left once the white space around it is gone. */
  function SignedInt32(t: string): Option<int>
  {
    var signed := t != [] && (t[0] == '-' || t[0] == '+');
    var digits := if signed then t[1..] else t;
    if digits == [] || !AllDigits(digits) then None
    else
      var v: int := if t[0] == '-' then -(DigitsValue(digits) as int) else DigitsValue(digits);
      if INT32_MIN <= v <= INT32_MAX then Some(v) else None
  }

  /** The options `Main` sets. */
  datatype Options = Options(totalOnly: bool, showErrors: bool, limit: int, startDirectory: string)

  /** The field initialisers of the program object. */
  const Defaults := Options(false, false, RECURSION_LIMIT_DEFAULT, ".")

  /** How the argument loop ends: all arguments read, help shown (then `Environment.Exit(0)`),
      or an argument too short for `szArgv[0]` or `szArgv[1]`. */
  datatype Outcome = Proceed | ShowHelp | IndexOutOfRange

  /** One argument read: the loop stops, or goes on with new options after some warnings. */
  datatype Step = Stop(outcome: Outcome) | Next(options: Options, warnings: seq<Warning>)

  /** The `/level` branch: the display limit it leaves and the warnings it prints. */
  function LevelOption(arg: string): (r: (int, seq<Warning>))
    ensures r.0 >= 1
    ensures r.0 == RECURSION_LIMIT_DEFAULT || r.1 == [] || r.1 == [NoEqualsSign]
  {
    var eq := IndexOf(arg, '=');
    LevelOf(if eq == -1 then [NoEqualsSign] else [], ToInt32(arg[eq + 1..]))
  }

  /** The limit and the warnings once the text after the '=' has been converted (or has failed
      to), after the warnings `noEquals` about a missing '='. */
  function LevelOf(noEquals: seq<Warning>, converted: Option<int>): (int, seq<Warning>)
  {
    match converted
    case None => (RECURSION_LIMIT_DEFAULT, noEquals + [BadNumberConversion])
    case Some(v) => if v <= 0 then (RECURSION_LIMIT_DEFAULT, noEquals + [LevelNotPositive]) else (v, noEquals)
  }

  /** The statements of the `/level` branch, on a local limit: the default when there is no
      '=', then the converted tail (the default again, with a warning, when it does not
      convert), then the default again when the result is not positive. */
  method LevelStatements(arg: string) returns (limit: int, warnings: seq<Warning>)
    ensures (limit, warnings) == LevelOption(arg)
  {
    warnings := [];
    limit := RECURSION_LIMIT_DEFAULT;
    var eq := IndexOf(arg, '=');
    if eq == -1 {
      limit := RECURSION_LIMIT_DEFAULT;
      warnings := warnings + [NoEqualsSign];
    }
    assert warnings == if eq == -1 then [NoEqualsSign] else [];
    limit, warnings := ConversionStatements(warnings, ToInt32(arg[eq + 1..]));
  }

  /** The `try`/`catch` around `Convert.ToInt32` and the test for a level not above 0, after
      the warnings `noEquals` already printed. */
  method ConversionStatements(noEquals: seq<Warning>, converted: Option<int>) returns (limit: int, warnings: seq<Warning>)
    ensures (limit, warnings) == LevelOf(noEquals, converted)
  {
    warnings := noEquals;
    match converted {
      case Some(v) =>
        limit := v;
      case None =>
        limit := RECURSION_LIMIT_DEFAULT;
        warnings := warnings + [BadNumberConversion];
    }
    if limit <= 0 {
      limit := RECURSION_LIMIT_DEFAULT;
      warnings := warnings + [LevelNotPositive];
    }
  }

  /** One pass of the `foreach` body on argument `arg`. The loop stops exactly on the
      arguments `Stops` names; otherwise each option changes its own field, only a level
      option prints warnings, and every other argument replaces the start directory. */
  function StepOf(o: Options, arg: string): (r: Step)
    ensures r.Stop? <==> Stops(arg)
    ensures r.Stop? ==> r.outcome == StopOutcome(arg)
    ensures r.Next? ==> r.options.totalOnly == (o.totalOnly || IsOption(arg, 'T'))
    ensures r.Next? ==> r.options.showErrors == (o.showErrors || IsOption(arg, 'S'))
    ensures r.Next? ==> r.options.limit == (if IsOption(arg, 'L') then LevelOption(arg).0 else o.limit)
    ensures r.Next? ==> r.options.startDirectory == (if NamesDirectory(arg) then arg else o.startDirectory)
    ensures r.Next? ==> r.warnings == (if IsOption(arg, 'L') then LevelOption(arg).1 else [])
  {
    if |arg| == 0 then Stop(IndexOutOfRange)
    else if !IsOptionChar(arg[0]) then Next(o.(startDirectory := arg), [])
    else if |arg| == 1 then Stop(IndexOutOfRange)
    else if ToUpper(arg[1]) == 'H' || arg[1] == '?' then Stop(ShowHelp)
    else if ToUpper(arg[1]) == 'T' then Next(o.(totalOnly := true), [])
    else if ToUpper(arg[1]) == 'S' then Next(o.(showErrors := true), [])
    else if ToUpper(arg[1]) == 'L' then
      var (limit, warnings) := LevelOption(arg);
      Next(o.(limit := limit), warnings)
    else Next(o.(startDirectory := arg), [])
  }

  /** The outcome of the argument loop, the options when it ended, and the warnings printed. */
  datatype Parsed = Parsed(outcome: Outcome, options: Options, warnings: seq<Warning>)

  /** The arguments read left to right from options `o`. */
  function ParseFrom(o: Options, args: seq<string>): Parsed
    decreases |args|
  {
    if args == [] then Parsed(Proceed, o, [])
    else
      match StepOf(o, args[0])
      case Stop(outcome) => Parsed(outcome, o, [])
      case Next(o', warnings) =>
        var p := ParseFrom(o', args[1..]);
        p.(warnings := warnings + p.warnings)
  }

  function Parse(args: seq<string>): Parsed
  {
    ParseFrom(Defaults, args)
  }

  function WarnLines(warnings: seq<Warning>): (lines: seq<Line>)
    ensures |lines| == |warnings|
    ensures forall i :: 0 <= i < |warnings| ==> lines[i] == Warn(warnings[i])
  {
    if warnings == [] then [] else [Warn(warnings[0])] + WarnLines(warnings[1..])
  }

  /** `p` with `warnings` printed before its own. */
  function Prepend(warnings: seq<Warning>, p: Parsed): Parsed
  {
    p.(warnings := warnings + p.warnings)
  }

  /** Reading one argument that does not stop the loop. */
  lemma ParseFromNext(o: Options, args: seq<string>)
    requires args != [] && StepOf(o, args[0]).Next?
    ensures ParseFrom(o, args) == Prepend(StepOf(o, args[0]).warnings, ParseFrom(StepOf(o, args[0]).options, args[1..]))
  {
  }

  lemma PrependTwice(first: seq<Warning>, second: seq<Warning>, p: Parsed)
    ensures Prepend(first, Prepend(second, p)) == Prepend(first + second, p)
  {
    assert first + (second + p.warnings) == (first + second) + p.warnings;
  }

  /** Everything `Main` prints when started with `args` on the file system `fs` (the directory
      tree each path names), and how it ends. */
  function Program(args: seq<string>, fs: string -> Directory): (r: (seq<Line>, Exit))
    ensures r.1 == Crashed <==> Parse(args).outcome == IndexOutOfRange
    ensures r.1 == Crashed || r.1 == Exited(0)
    ensures WarnLines(Parse(args).warnings) <= r.0
  {
    var p := Parse(args);
    var warned := WarnLines(p.warnings);
    match p.outcome
    case ShowHelp => (warned + [Help], Exited(0))
    case IndexOutOfRange => (warned, Crashed)
    case Proceed =>
      var o := p.options;
      var root := fs(o.startDirectory);
      (warned + Output(root, o.startDirectory, 0, Display(o.totalOnly, o.limit, o.showErrors))
       + (if o.totalOnly then [GrandTotal(o.startDirectory, Normal(DirBytes(root)))] else []),
       Exited(0))
  }

  // ---------------------------------------------------------------------------------------
  // The program object: the option fields `Main` sets, and the walker that reads them

  class Edu {
    var totalOnly: bool
    var recursionLimit: int
    var startDirectory: string
    var showErrors: bool

    /** The field initialisers. */
    constructor ()
      ensures totalOnly == false && recursionLimit == RECURSION_LIMIT_DEFAULT
      ensures startDirectory == "." && showErrors == false
    {
      totalOnly := false;
      recursionLimit := RECURSION_LIMIT_DEFAULT;
      startDirectory := ".";
      showErrors := false;
    }

    function Current(): Options
      reads this
    {
      Options(totalOnly, showErrors, recursionLimit, startDirectory)
    }

    /** The body of the `foreach` loop on one argument: the branch it takes either ends the
        loop, leaving the fields as they were, or updates the fields and prints `warnings`. */
    method ReadArgument(arg: string) returns (stopped: bool, outcome: Outcome, warnings: seq<Warning>)
      modifies this
      ensures stopped ==> StepOf(old(Current()), arg) == Stop(outcome) && Current() == old(Current())
      ensures !stopped ==> StepOf(old(Current()), arg) == Next(Current(), warnings)
    {
      stopped, outcome, warnings := false, Proceed, [];
      if |arg| == 0 || (IsOptionChar(arg[0]) && |arg| == 1) {
        stopped, outcome := true, IndexOutOfRange;
      } else if IsOptionChar(arg[0]) && (ToUpper(arg[1]) == 'H' || arg[1] == '?') {
        stopped, outcome := true, ShowHelp;
      } else if IsOptionChar(arg[0]) && ToUpper(arg[1]) == 'T' {
        totalOnly := true;
      } else if IsOptionChar(arg[0]) && ToUpper(arg[1]) == 'S' {
        showErrors := true;
      } else if IsOptionChar(arg[0]) && ToUpper(arg[1]) == 'L' {
        var limit;
        limit, warnings := LevelStatements(arg);
        recursionLimit := limit;
      } else {
        startDirectory := arg;
      }
    }

    /** The `foreach` loop of `Main` over the arguments, setting the option fields. */
    method ParseArguments(args: seq<string>) returns (outcome: Outcome, warnings: seq<Warning>)
      modifies this
      ensures Parsed(outcome, Current(), warnings) == ParseFrom(old(Current()), args)
    {
      outcome := Proceed;
      warnings := [];
      var i := 0;
      while i < |args|
        invariant 0 <= i <= |args|
        invariant outcome == Proceed
        invariant ParseFrom(old(Current()), args) == Prepend(warnings, ParseFrom(Current(), args[i..]))
      {
        var arg := args[i];
        ghost var o, w0 := Current(), warnings;
        assert args[i..][0] == arg && args[i..][1..] == args[i + 1..];
        var stopped, stepOutcome, stepWarnings := ReadArgument(arg);
        if stopped {
          assert warnings + [] == warnings;
          outcome := stepOutcome;
          return;
        }
        warnings := warnings + stepWarnings;
        ParseFromNext(o, args[i..]);
        PrependTwice(w0, stepWarnings, ParseFrom(Current(), args[i + 1..]));
        i := i + 1;
      }
    }

    /** `DirectoryTotal`: the files of `dir` are added first, then each subdirectory is walked
        one level deeper and its total merged in; a listing or a length that throws ends that
        part only. The directory's own line comes last. */
    method DirectoryTotal(dir: Directory, path: string, totalOnly: bool, recursionLevel: int, recursionLimit: int)
      returns (total: Total, out: seq<Line>)
      decreases dir, 1
      ensures total == Normal(DirBytes(dir))
      ensures out == Output(dir, path, recursionLevel, Display(totalOnly, recursionLimit, showErrors))
    {
      // The first try block: the files, until the list ends or something throws.
      var caught;
      total, caught := FilesTotal(dir.files);
      var filesOut := if caught && showErrors then [FilesError(path)] else [];

      // The second try block: the subdirectories, each walked and merged in.
      var dirsOut;
      match dir.dirs {
        case DirsThrow =>
          dirsOut := if showErrors then [DirsError(path)] else [];
        case Dirs(subdirs) =>
          total, dirsOut := SubdirsTotal(subdirs, path, totalOnly, recursionLevel + 1, recursionLimit, total);
      }

      // The directory's own line.
      var ownLine := if !totalOnly && recursionLevel < recursionLimit then [Report(path, recursionLevel, total)] else [];
      out := filesOut + dirsOut + ownLine;
    }

    /** The loop of the second try block: each subdirectory walked at `recursionLevel` and its
        total merged into `total` with `Add`. */
    method SubdirsTotal(subdirs: seq<Subdir>, path: string, totalOnly: bool, recursionLevel: int, recursionLimit: int,
                        number: Total)
      returns (total: Total, out: seq<Line>)
      requires Canonical(number)
      decreases subdirs, 0
      ensures total == Normal(Value(number) + SubdirsBytes(subdirs))
      ensures out == SubdirsOutput(subdirs, path, recursionLevel, Display(totalOnly, recursionLimit, showErrors))
    {
      total := number;
      out := [];
      var j := 0;
      while j < |subdirs|
        invariant 0 <= j <= |subdirs|
        invariant Canonical(total) && Value(total) == Value(number) + SubdirsBytes(subdirs[..j])
        invariant out == SubdirsOutput(subdirs[..j], path, recursionLevel, Display(totalOnly, recursionLimit, showErrors))
      {
        var subTotal, subOut := DirectoryTotal(subdirs[j].dir, Join(path, subdirs[j].name),
                                               totalOnly, recursionLevel, recursionLimit);
        AddedNormal(total, subTotal);
        total := Add(subTotal.megabytes, subTotal.bytes, total);
        out := out + subOut;
        assert subdirs[..j + 1][..j] == subdirs[..j];
        j := j + 1;
      }
      assert subdirs[..j] == subdirs;
      CanonicalIsNormal(total);
    }
  }

  /** `Main`: the arguments read into a fresh program object, then (unless help was shown or
      an argument was too short) one walk from the start directory at level 0, then the grand
      total in totals-only mode. */
  method Run(args: seq<string>, fs: string -> Directory) returns (out: seq<Line>, exit: Exit)
    ensures (out, exit) == Program(args, fs)
  {
    var p := new Edu();
    assert p.Current() == Defaults;
    var outcome, warnings := p.ParseArguments(args);
    ghost var parsed := Parse(args);
    assert outcome == parsed.outcome && warnings == parsed.warnings && p.Current() == parsed.options;
    out := WarnLines(warnings);
    if outcome == ShowHelp {
      out := out + [Help];
      exit := Exited(0);
      return;
    }
    if outcome == IndexOutOfRange {
      exit := Crashed;
      return;
    }
    var root := fs(p.startDirectory);
    var total, lines := p.DirectoryTotal(root, p.startDirectory, p.totalOnly, 0, p.recursionLimit);
    out := out + lines;
    if p.totalOnly {
      out := out + [GrandTotal(p.startDirectory, total)];
    } else {
      assert out == out + [];
    }
    exit := Exited(0);
  }

  // ---------------------------------------------------------------------------------------
  // Properties of the walk

  /** Every directory line in `lines` is at a level in `low`..`limit - 1`, and none is printed
      in totals-only mode. */
  predicate ReportsWithin(lines: seq<Line>, low: int, s: Display)
  {
    forall i :: 0 <= i < |lines| && lines[i].Report? ==> !s.totalOnly && low <= lines[i].level < s.limit
  }

  lemma ReportsWithinAppend(a: seq<Line>, b: seq<Line>, low: int, s: Display)
    requires ReportsWithin(a, low, s) && ReportsWithin(b, low, s)
    ensures ReportsWithin(a + b, low, s)
  {
    forall i | 0 <= i < |a + b| && (a + b)[i].Report?
      ensures !s.totalOnly && low <= (a + b)[i].level < s.limit
    {
      if i >= |a| {
        assert (a + b)[i] == b[i - |a|];
      }
    }
  }

  /** Depth gating and post-order: every directory line of the walk of `d` is at `level` or
      deeper, under the limit, with totals-only off; the walk ends with `d`'s own line, which
      is printed exactly when totals-only is off and `level < limit`; and every line before
      it comes from a deeper level, so subdirectories print before their parent. */
  lemma {:induction false} ReportsGated(d: Directory, path: string, level: int, s: Display)
    decreases d, 1
    ensures var out, own := Output(d, path, level, s), OwnLine(d, path, level, s);
      ReportsWithin(out, level, s) &&
      |own| <= |out| && out[|out| - |own|..] == own &&
      ReportsWithin(out[..|out| - |own|], level + 1, s)
  {
    var errors := if FilesCaught(d.files) && s.showErrors then [FilesError(path)] else [];
    var children := if d.dirs.DirsThrow? then (if s.showErrors then [DirsError(path)] else [])
                    else SubdirsOutput(d.dirs.subdirs, path, level + 1, s);
    var own := OwnLine(d, path, level, s);
    var out := Output(d, path, level, s);
    assert out == (errors + children) + own;
    assert out[..|out| - |own|] == errors + children;
    assert ReportsWithin(errors + children, level + 1, s) by {
      if !d.dirs.DirsThrow? {
        SubdirsReportsGated(d.dirs.subdirs, path, level + 1, s);
      }
      ReportsWithinAppend(errors, children, level + 1, s);
    }
    ReportsWithinWeaken(errors + children, level + 1, level, s);
    ReportsWithinAppend(errors + children, own, level, s);
  }

  lemma ReportsWithinWeaken(lines: seq<Line>, low: int, lower: int, s: Display)
    requires ReportsWithin(lines, low, s) && lower <= low
    ensures ReportsWithin(lines, lower, s)
  {
  }

  lemma {:induction false} SubdirsReportsGated(subdirs: seq<Subdir>, parent: string, level: int, s: Display)
    decreases subdirs, 0
    ensures ReportsWithin(SubdirsOutput(subdirs, parent, level, s), level, s)
  {
    if subdirs != [] {
      var last := subdirs[|subdirs| - 1];
      SubdirsReportsGated(subdirs[..|subdirs| - 1], parent, level, s);
      ReportsGated(last.dir, Join(parent, last.name), level, s);
      ReportsWithinAppend(SubdirsOutput(subdirs[..|subdirs| - 1], parent, level, s),
                          Output(last.dir, Join(parent, last.name), level, s), level, s);
    }
  }

  /** Diagnostics only with show-errors: without it the walk prints directory lines only. */
  lemma {:induction false} QuietWithoutShowErrors(d: Directory, path: string, level: int, s: Display)
    requires !s.showErrors
    decreases d, 1
    ensures forall l :: l in Output(d, path, level, s) ==> l.Report?
  {
    if !d.dirs.DirsThrow? {
      SubdirsQuiet(d.dirs.subdirs, path, level + 1, s);
    }
  }

  lemma {:induction false} SubdirsQuiet(subdirs: seq<Subdir>, parent: string, level: int, s: Display)
    requires !s.showErrors
    decreases subdirs, 0
    ensures forall l :: l in SubdirsOutput(subdirs, parent, level, s) ==> l.Report?
  {
    if subdirs != [] {
      var last := subdirs[|subdirs| - 1];
      SubdirsQuiet(subdirs[..|subdirs| - 1], parent, level, s);
      QuietWithoutShowErrors(last.dir, Join(parent, last.name), level, s);
    }
  }

  /** A `Length` that throws part-way: the lengths already added stay in the total and the
      files after it are skipped. */
  lemma {:induction false} LengthsUpToThrow(before: seq<Length>, after: seq<Length>)
    requires forall j :: 0 <= j < |before| ==> before[j].Length?
    ensures LengthsBytes(before + [LengthThrows] + after) == LengthsBytes(before)
    ensures FilesCaught(Files(before + [LengthThrows] + after))
  {
    var all := before + [LengthThrows] + after;
    assert all[|before|].LengthThrows?;
    if before != [] {
      assert all[1..] == before[1..] + [LengthThrows] + after;
      LengthsUpToThrow(before[1..], after);
    }
  }

  /** A failing directory listing still yields the directory's own line, with the bytes of
      its files; a failing file listing and a failing subdirectory listing together leave a
      zero total. */
  lemma FailedListingStillReported(d: Directory, path: string, level: int, s: Display)
    requires d.dirs.DirsThrow?
    requires !s.totalOnly && level < s.limit
    ensures var out := Output(d, path, level, s);
      out[|out| - 1] == Report(path, level, Normal(FilesBytes(d.files)))
    ensures d.files.FilesThrow? ==> DirBytes(d) == 0 && Normal(DirBytes(d)) == Total(0, 0)
  {
  }

  /** The addend `(0, length)` of every file whose length the walk of `d` adds, in walk order. */
  function FileAddends(d: Directory): (r: seq<Total>)
    decreases d, 1
    ensures forall i :: 0 <= i < |r| ==> r[i].megabytes == 0
  {
    (if d.files.FilesThrow? then [] else LengthAddends(d.files.lengths))
    + (if d.dirs.DirsThrow? then [] else SubdirsAddends(d.dirs.subdirs))
  }

  function LengthAddends(lengths: seq<Length>): (r: seq<Total>)
    ensures forall i :: 0 <= i < |r| ==> r[i].megabytes == 0
  {
    if lengths == [] || lengths[0].LengthThrows? then []
    else [Total(0, lengths[0].n)] + LengthAddends(lengths[1..])
  }

  function SubdirsAddends(subdirs: seq<Subdir>): (r: seq<Total>)
    decreases subdirs, 0
    ensures forall i :: 0 <= i < |r| ==> r[i].megabytes == 0
  {
    if subdirs == [] then []
    else SubdirsAddends(subdirs[..|subdirs| - 1]) + FileAddends(subdirs[|subdirs| - 1].dir)
  }

  /** Merging subdirectory totals gives the same pair as adding every file the walk reads,
      one at a time, to a single accumulator. */
  lemma MergedEqualsFlat(d: Directory)
    ensures Normal(DirBytes(d)) == Accumulate(FileAddends(d))
  {
    FileAddendsSum(d);
    AccumulateIsNormal(FileAddends(d));
  }

  lemma {:induction false} FileAddendsSum(d: Directory)
    decreases d, 1
    ensures Sum(FileAddends(d)) == DirBytes(d)
  {
    var files := if d.files.FilesThrow? then [] else LengthAddends(d.files.lengths);
    var dirs := if d.dirs.DirsThrow? then [] else SubdirsAddends(d.dirs.subdirs);
    SumAppend(files, dirs);
    if !d.files.FilesThrow? {
      LengthAddendsSum(d.files.lengths);
    }
    if !d.dirs.DirsThrow? {
      SubdirsAddendsSum(d.dirs.subdirs);
    }
  }

  lemma {:induction false} LengthAddendsSum(lengths: seq<Length>)
    ensures Sum(LengthAddends(lengths)) == LengthsBytes(lengths)
  {
    if lengths != [] && lengths[0].Length? {
      LengthAddendsSum(lengths[1..]);
      SumAppend([Total(0, lengths[0].n)], LengthAddends(lengths[1..]));
      assert Sum([Total(0, lengths[0].n)]) == lengths[0].n by {
        assert [Total(0, lengths[0].n)][..0] == [];
      }
    }
  }

  lemma {:induction false} SubdirsAddendsSum(subdirs: seq<Subdir>)
    decreases subdirs, 0
    ensures Sum(SubdirsAddends(subdirs)) == SubdirsBytes(subdirs)
  {
    if subdirs != [] {
      var init, last := subdirs[..|subdirs| - 1], subdirs[|subdirs| - 1];
      SubdirsAddendsSum(init);
      FileAddendsSum(last.dir);
      SumAppend(SubdirsAddends(init), FileAddends(last.dir));
    }
  }

  // ---------------------------------------------------------------------------------------
  // Properties of the /level option

  /** `Convert.ToInt32` of a string of digits: its value, when that fits in 32 bits. */
  lemma ToInt32OfDigits(ds: string)
    requires ds != [] && AllDigits(ds)
    ensures ToInt32(ds) == if DigitsValue(ds) <= INT32_MAX then Some(DigitsValue(ds) as int) else None
  {
    SkipSpacesNone(ds);
    TrimEndNone(ds);
    assert ToInt32(ds) == SignedInt32(ds);
  }

  /** The same after a minus sign: the negated value, when that fits in 32 bits. */
  lemma ToInt32OfNegativeDigits(ds: string)
    requires ds != [] && AllDigits(ds)
    ensures ToInt32("-" + ds) == if DigitsValue(ds) <= -INT32_MIN then Some(-(DigitsValue(ds) as int)) else None
  {
    var m := "-" + ds;
    SkipSpacesNone(m);
    TrimEndNone(m);
    assert ToInt32(m) == SignedInt32(m);
    assert m[1..] == ds;
  }

  /** A level written without '=': the whole argument is converted, which fails, so both
      warnings are printed and the limit is the default. */
  lemma LevelWithoutEquals(arg: string)
    requires |arg| >= 2 && IsOptionChar(arg[0]) && ToUpper(arg[1]) == 'L'
    requires '=' !in arg
    ensures LevelOption(arg) == (RECURSION_LIMIT_DEFAULT, [NoEqualsSign, BadNumberConversion])
  {
    OptionNotNumber(arg);
    var eq := IndexOf(arg, '=');
    assert eq == -1 && arg[eq + 1..] == arg;
    assert LevelOption(arg) == LevelOf([NoEqualsSign], None);
    assert [NoEqualsSign] + [BadNumberConversion] == [NoEqualsSign, BadNumberConversion];
  }

  /** An option character followed by a letter does not convert: after an optional sign
      there must be a digit. */
  lemma OptionNotNumber(arg: string)
    requires |arg| >= 2 && IsOptionChar(arg[0]) && ToUpper(arg[1]) == 'L'
    ensures ToInt32(arg) == None
  {
    SkipSpacesNone(arg);
    var t := TrimEnd(arg);
    assert |t| >= 2 by {
      assert !IsSpace(arg[1]);
    }
    assert !IsDigit(t[0]) && !IsDigit(t[1]);
  }

  /** With an '=', no missing-sign warning: what follows the first '=' decides, converted as
      a whole, and a value of 0 or less is replaced by the default. */
  lemma LevelWithEquals(prefix: string, tail: string)
    requires '=' !in prefix
    ensures LevelOption(prefix + "=" + tail) ==
      match ToInt32(tail)
      case None => (RECURSION_LIMIT_DEFAULT, [BadNumberConversion])
      case Some(v) => if v <= 0 then (RECURSION_LIMIT_DEFAULT, [LevelNotPositive]) else (v, [])
  {
    var arg := prefix + "=" + tail;
    IndexOfFirst(prefix, '=', tail);
    var k := IndexOf(arg, '=');
    assert arg[k + 1..] == tail;
    assert LevelOption(arg) == LevelOf([], ToInt32(tail));
    var noEquals: seq<Warning> := [];
    assert noEquals + [BadNumberConversion] == [BadNumberConversion];
    assert noEquals + [LevelNotPositive] == [LevelNotPositive];
  }

  /** Any positive 32-bit level is taken as written, with no warning: values above the
      documented 1..999 are accepted too. */
  lemma LevelAccepted(prefix: string, n: nat)
    requires '=' !in prefix
    requires 1 <= n <= INT32_MAX
    ensures LevelOption(prefix + "=" + Decimal(n)) == (n as int, [])
  {
    LevelWithEquals(prefix, Decimal(n));
    assert ToInt32(Decimal(n)) == Some(n as int) by {
      DecimalRoundTrip(n);
      ToInt32OfDigits(Decimal(n));
    }
  }

  /** A negative level converts, then is replaced by the default with one warning. */
  lemma LevelNotPositiveDefaults(prefix: string, n: nat)
    requires '=' !in prefix
    requires n <= -INT32_MIN
    ensures LevelOption(prefix + "=" + ("-" + Decimal(n))) == (RECURSION_LIMIT_DEFAULT, [LevelNotPositive])
  {
    var ds := Decimal(n);
    DecimalRoundTrip(n);
    assert ds != [] && AllDigits(ds) && DigitsValue(ds) == n;
    ToInt32OfNegativeDigits(ds);
    LevelWithEquals(prefix, "-" + ds);
  }

  /** A level of zero converts, then is replaced by the default with one warning. */
  lemma LevelZeroDefaults(prefix: string)
    requires '=' !in prefix
    ensures LevelOption(prefix + "=" + "0") == (RECURSION_LIMIT_DEFAULT, [LevelNotPositive])
  {
    LevelWithEquals(prefix, "0");
    assert ToInt32("0") == Some(0) by {
      assert DigitsValue("0") == 0;
      ToInt32OfDigits("0");
    }
  }

  /** A level beyond 32 bits, or nothing after the '=', does not convert. */
  lemma LevelUnconvertible(prefix: string, n: nat)
    requires '=' !in prefix
    requires n > INT32_MAX
    ensures LevelOption(prefix + "=" + Decimal(n)) == (RECURSION_LIMIT_DEFAULT, [BadNumberConversion])
    ensures LevelOption(prefix + "=" + "") == (RECURSION_LIMIT_DEFAULT, [BadNumberConversion])
  {
    LevelWithEquals(prefix, Decimal(n));
    assert ToInt32(Decimal(n)) == None by {
      DecimalRoundTrip(n);
      ToInt32OfDigits(Decimal(n));
    }
    LevelWithEquals(prefix, "");
    assert ToInt32("") == None by {
      SkipSpacesNone("");
      TrimEndNone("");
    }
  }

  // ---------------------------------------------------------------------------------------
  // The argument loop, read from the end: the last word wins

  /** An argument the loop does not get past: an empty one or a lone option character (the
      index into it throws), or a help option. */
  predicate Stops(arg: string)
  {
    |arg| == 0 || (IsOptionChar(arg[0]) && (|arg| == 1 || ToUpper(arg[1]) == 'H' || arg[1] == '?'))
  }

  /** How the loop ends on a stopping argument. */
  function StopOutcome(arg: string): Outcome
  {
    if |arg| <= 1 then IndexOutOfRange else ShowHelp
  }

  /** An option starting with `letter`, in either case. */
  predicate IsOption(arg: string, letter: char)
  {
    |arg| >= 2 && IsOptionChar(arg[0]) && ToUpper(arg[1]) == letter
  }

  /** Every argument that is neither a stop nor a known option names the start directory,
      including an option character followed by an unknown letter. */
  predicate NamesDirectory(arg: string)
  {
    !Stops(arg) && !IsOption(arg, 'T') && !IsOption(arg, 'S') && !IsOption(arg, 'L')
  }

  /** The last argument naming a directory, or `default`. */
  function LastDirectory(args: seq<string>, default: string): string
  {
    if args == [] then default
    else if NamesDirectory(args[|args| - 1]) then args[|args| - 1]
    else LastDirectory(args[..|args| - 1], default)
  }

  /** The limit set by the last level option, or `default`. */
  function LastLimit(args: seq<string>, default: int): int
  {
    if args == [] then default
    else if !Stops(args[|args| - 1]) && IsOption(args[|args| - 1], 'L') then LevelOption(args[|args| - 1]).0
    else LastLimit(args[..|args| - 1], default)
  }

  /** The warnings of all level options, in argument order. */
  function LevelWarnings(args: seq<string>): seq<Warning>
  {
    if args == [] then []
    else
      var last := args[|args| - 1];
      LevelWarnings(args[..|args| - 1]) + (if !Stops(last) && IsOption(last, 'L') then LevelOption(last).1 else [])
  }

  /** Some argument is the option `letter`. */
  predicate Given(args: seq<string>, letter: char)
  {
    exists i :: 0 <= i < |args| && IsOption(args[i], letter)
  }

  /** The loop after `p`, reading one more argument. */
  function ReadOneMore(p: Parsed, a: string): Parsed
  {
    match StepOf(p.options, a)
    case Stop(outcome) => Parsed(outcome, p.options, p.warnings)
    case Next(o', w) => Parsed(Proceed, o', p.warnings + w)
  }

  lemma ReadOneMorePrepend(w: seq<Warning>, p: Parsed, a: string)
    ensures ReadOneMore(Prepend(w, p), a) == Prepend(w, ReadOneMore(p, a))
  {
    match StepOf(p.options, a) {
      case Stop(_) =>
      case Next(o', w') =>
        assert w + (p.warnings + w') == (w + p.warnings) + w';
    }
  }

  /** Reading one more argument after a run that did not stop. */
  lemma {:induction false} ParseFromSnoc(o: Options, args: seq<string>, a: string)
    requires forall i :: 0 <= i < |args| ==> !Stops(args[i])
    decreases |args|
    ensures ParseFrom(o, args + [a]) == ReadOneMore(ParseFrom(o, args), a)
  {
    if args == [] {
      assert [] + [a] == [a];
    } else {
      var longer := args + [a];
      assert longer[0] == args[0] && longer[1..] == args[1..] + [a];
      assert !Stops(args[0]);
      var step := StepOf(o, args[0]);
      ParseFromNext(o, longer);
      ParseFromNext(o, args);
      ParseFromSnoc(step.options, args[1..], a);
      ReadOneMorePrepend(step.warnings, ParseFrom(step.options, args[1..]), a);
    }
  }


  lemma GivenSnoc(init: seq<string>, last: string, letter: char)
    ensures Given(init + [last], letter) == (Given(init, letter) || IsOption(last, letter))
  {
    var args := init + [last];
    if IsOption(last, letter) {
      assert IsOption(args[|args| - 1], letter);
    }
    if Given(init, letter) {
      var i :| 0 <= i < |init| && IsOption(init[i], letter);
      assert args[i] == init[i];
    }
  }

  /** When no argument stops the loop, its result is described argument by argument from the
      end: the flags are set iff some argument gives them, and the start directory and the
      limit come from the last argument that sets them; the warnings are those of the level
      options, in order. */
  lemma {:induction false} ParseWithoutStop(o: Options, args: seq<string>)
    requires forall i :: 0 <= i < |args| ==> !Stops(args[i])
    ensures var p := ParseFrom(o, args);
      p.outcome == Proceed &&
      p.options.totalOnly == (o.totalOnly || Given(args, 'T')) &&
      p.options.showErrors == (o.showErrors || Given(args, 'S')) &&
      p.options.startDirectory == LastDirectory(args, o.startDirectory) &&
      p.options.limit == LastLimit(args, o.limit) &&
      p.warnings == LevelWarnings(args)
  {
    if args != [] {
      var init, last := args[..|args| - 1], args[|args| - 1];
      assert init + [last] == args;
      ParseWithoutStop(o, init);
      ParseFromSnoc(o, init, last);
      GivenSnoc(init, last, 'T');
      GivenSnoc(init, last, 'S');
      var p := ParseFrom(o, init);
      assert !Stops(last);
      var step := StepOf(p.options, last);
      assert ParseFrom(o, args) == Parsed(Proceed, step.options, p.warnings + step.warnings);
    } else {
      assert !Given(args, 'T') && !Given(args, 'S');
    }
  }

  /** The loop ends at the first stopping argument, with the options and warnings of the
      arguments before it. */
  lemma {:induction false} ParseStopsAt(o: Options, args: seq<string>, k: nat)
    requires k < |args| && Stops(args[k])
    decreases k
    requires forall i :: 0 <= i < k ==> !Stops(args[i])
    ensures var before := ParseFrom(o, args[..k]);
      ParseFrom(o, args) == Parsed(StopOutcome(args[k]), before.options, before.warnings)
  {
    if k > 0 {
      assert !Stops(args[0]);
      var step := StepOf(o, args[0]);
      ParseStopsAt(step.options, args[1..], k - 1);
      assert args[..k][0] == args[0] && args[..k][1..] == args[1..][..k - 1];
    } else {
      assert args[..0] == [];
    }
  }

  /** The limit the loop leaves is always at least 1. */
  lemma {:induction false} ParseLimitPositive(o: Options, args: seq<string>)
    requires o.limit >= 1
    decreases |args|
    ensures ParseFrom(o, args).options.limit >= 1
  {
    if args != [] && StepOf(o, args[0]).Next? {
      ParseLimitPositive(StepOf(o, args[0]).options, args[1..]);
    }
  }

  /** '/' and '-' are interchangeable in front of an option letter or '?', and an argument
      that starts with any other character names the start directory. */
  lemma OptionCharsAlike(o: Options, c: char, rest: string)
    ensures NamesDirectory("/" + rest) == NamesDirectory("-" + rest)
    ensures !NamesDirectory("/" + rest) ==> StepOf(o, "/" + rest) == StepOf(o, "-" + rest)
    ensures !IsOptionChar(c) ==> StepOf(o, [c] + rest) == Next(o.(startDirectory := [c] + rest), [])
  {
    var slash, dash := "/" + rest, "-" + rest;
    if rest != [] && ToUpper(rest[0]) == 'L' {
      LevelOptionOptionChars(rest);
    }
    var a, b := StepOf(o, slash), StepOf(o, dash);
    if !NamesDirectory(slash) && a.Next? && b.Next? {
      assert a.options == b.options;
    }
  }

  /** The `/level` branch does not depend on the option character. */
  lemma LevelOptionOptionChars(rest: string)
    requires rest != [] && ToUpper(rest[0]) == 'L'
    ensures LevelOption("/" + rest) == LevelOption("-" + rest)
  {
    var slash, dash := "/" + rest, "-" + rest;
    if '=' !in rest {
      assert '=' !in slash && '=' !in dash;
      LevelWithoutEquals(slash);
      LevelWithoutEquals(dash);
    } else {
      LevelAfterEquals('/', rest);
      LevelAfterEquals('-', rest);
    }
  }

  /** A character other than '=' in front of the argument does not move the text after the
      first '='. */
  lemma LevelAfterEquals(head: char, rest: string)
    requires head != '=' && '=' in rest
    ensures LevelOption([head] + rest) == LevelOf([], ToInt32(rest[IndexOf(rest, '=') + 1..]))
  {
    var arg, k := [head] + rest, IndexOf(rest, '=');
    assert arg[k + 1] == '=' && arg[..k + 1] == [head] + rest[..k];
    assert IndexOf(arg, '=') == k + 1;
    assert arg[k + 2..] == rest[k + 1..];
  }

  // ---------------------------------------------------------------------------------------
  // Properties of the whole program

  /** A help option reached before any crash prints the warnings so far and the usage text,
      walks nothing and exits with 0. */
  lemma HelpExitsBeforeWalk(args: seq<string>, fs: string -> Directory, k: nat)
    requires k < |args| && Stops(args[k]) && |args[k]| >= 2
    requires forall i :: 0 <= i < k ==> !Stops(args[i])
    ensures Program(args, fs) == (WarnLines(LevelWarnings(args[..k])) + [Help], Exited(0))
  {
    ParseStopsAt(Defaults, args, k);
    ParseWithoutStop(Defaults, args[..k]);
  }

  /** In totals-only mode the walk prints no directory line, and the run ends with the grand
      total of the start directory. */
  lemma TotalsOnlyPrintsGrandTotal(args: seq<string>, fs: string -> Directory)
    requires Parse(args).outcome == Proceed && Parse(args).options.totalOnly
    ensures var (lines, exit) := Program(args, fs);
      var start := Parse(args).options.startDirectory;
      exit == Exited(0) &&
      lines[|lines| - 1] == GrandTotal(start, Normal(DirBytes(fs(start)))) &&
      forall i :: 0 <= i < |lines| ==> !lines[i].Report?
  {
    var p := Parse(args);
    var o := p.options;
    var s := Display(o.totalOnly, o.limit, o.showErrors);
    var walk := Output(fs(o.startDirectory), o.startDirectory, 0, s);
    ReportsGated(fs(o.startDirectory), o.startDirectory, 0, s);
    var warned := WarnLines(p.warnings);
    var last := [GrandTotal(o.startDirectory, Normal(DirBytes(fs(o.startDirectory))))];
    assert Program(args, fs).0 == warned + walk + last;
    assert ReportsWithin(warned, 0, s);
    assert ReportsWithin(last, 0, s);
    ReportsWithinAppend(warned, walk, 0, s);
    ReportsWithinAppend(warned + walk, last, 0, s);
  }

  /** Otherwise the run ends with the line of the start directory itself, at level 0, with
      the total of the whole tree. */
  lemma RootLineLast(args: seq<string>, fs: string -> Directory)
    requires Parse(args).outcome == Proceed && !Parse(args).options.totalOnly
    ensures var (lines, exit) := Program(args, fs);
      var start := Parse(args).options.startDirectory;
      exit == Exited(0) && |lines| >= 1 &&
      lines[|lines| - 1] == Report(start, 0, Normal(DirBytes(fs(start))))
  {
    ParseLimitPositive(Defaults, args);
  }
}
