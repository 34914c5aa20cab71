/** The portable C revision of edu (edu.c) with its UNIX branch selected: the exact-size
    accumulator, the `opendir`/`readdir`/`lstat` walker over an input directory tree, and the
    right-to-left argument loop of `main`.

    The file system is an input: a `Directory` value says whether `opendir` succeeds and, if
    it does, what `readdir` returns and what `lstat` reports for each entry, in order. The
    console (standard output and standard error together) is the `Line` sequence a method
    returns. */
module EduUnix {
  import opened Megabytes
  import opened Text

  /** Display limit of `main` when no level is given. */
  const RECURSION_LIMIT_DEFAULT: int := 999

  /** `PathDelimiter` on UNIX. */
  const PathDelimiter: char := '/'

  datatype Line =
    | Help                                        // the usage text
    | InvalidLimit(limit: int)                    // "Invalid directory display limit"
    | OpenError(path: string)                     // "Unable to open directory" and the perror text
    | Report(path: string, level: int, total: Total)  // the total of one directory
    | GrandTotal(total: Total)                    // the total printed in totals-only mode

  /** `exit(code)` or the `return 0` of `main`. */
  datatype Exit = Exited(code: int)

  // ---------------------------------------------------------------------------------------
  // The accumulator

  /** `Add`: the byte field increased, then the megabyte field, then whole megabytes moved out
      of the byte field while it exceeds MEGABYTE. */
  method Add(megs: nat, bytes: nat, number: Total) returns (result: Total)
    ensures result == Added(number, megs, bytes)
    ensures Value(result) == Value(number) + megs * MEGABYTE + bytes
    ensures result.bytes <= MEGABYTE
  {
    result := number.(bytes := number.bytes + bytes);
    result := result.(megabytes := result.megabytes + megs);
    while result.bytes > MEGABYTE
      invariant Added(result, 0, 0) == Added(number, megs, bytes)
      decreases result.bytes
    {
      CarryStep(result.bytes);
      result := result.(megabytes := result.megabytes + 1);
      result := result.(bytes := result.bytes - MEGABYTE);
    }
  }

  // ---------------------------------------------------------------------------------------
  // The file system, as the walker sees it

  /** What `lstat` on `dirname/name` reports: failure, a symbolic link, a directory (with what
      a walk of it finds), or anything else with its `st_size`. */
  datatype Stat = LstatFails | SymbolicLink | Dir(dir: Directory) | NonDir(size: nat)

  /** One `readdir` record. */
  datatype Entry = Entry(name: string, stat: Stat)

  /** `opendir` fails, or `readdir` returns `entries` before returning NULL. */
  datatype Directory = OpenFails | Opened(entries: seq<Entry>)

  /** The settings the walker reads. */
  datatype Display = Display(totalOnly: bool, limit: int)

  /** The path `sprintf("%s%c%s")` builds for an entry. */
  function Join(parent: string, name: string): string
  {
    parent + [PathDelimiter] + name
  }

  /** The directories not followed: a name that is '.' followed by its terminator or by a
      second '.', which covers "." and ".." but also "..x"; ".git" is followed. */
  predicate IsDotName(name: string)
  {
    At(name, 0) == '.' && (At(name, 1) == 0 as char || At(name, 1) == '.')
  }

  // ---------------------------------------------------------------------------------------
  // What the walker computes

  function EntryBytes(e: Entry): nat
    decreases e
  {
    match e.stat
    case LstatFails => 0
    case SymbolicLink => 0
    case Dir(dir) => if IsDotName(e.name) then 0 else DirBytes(dir)
    case NonDir(size) => size
  }

  function EntriesBytes(entries: seq<Entry>): nat
    decreases entries
  {
    if entries == [] then 0 else EntryBytes(entries[0]) + EntriesBytes(entries[1..])
  }

  /** Bytes found under `d`: the sizes of the entries that are neither directories nor
      symbolic links nor failed `lstat`s, and the bytes of the directories followed; nothing
      when `opendir` fails. */
  function DirBytes(d: Directory): nat
    decreases d
  {
    match d
    case OpenFails => 0
    case Opened(entries) => EntriesBytes(entries)
  }

  /** The lines printed for one entry of a directory at `parent` and `level`: the walk of a
      followed directory, one level deeper. */
  function EntryOutput(e: Entry, parent: string, level: int, s: Display): seq<Line>
    decreases e
  {
    match e.stat
    case Dir(dir) => if IsDotName(e.name) then [] else Output(dir, Join(parent, e.name), level + 1, s)
    case _ => []
  }

  function EntriesOutput(entries: seq<Entry>, parent: string, level: int, s: Display): seq<Line>
    decreases entries
  {
    if entries == [] then []
    else EntryOutput(entries[0], parent, level, s) + EntriesOutput(entries[1..], parent, level, s)
  }

  /** The lines of the walk of `d` at `path` and `level`, in the order printed: the error
      alone when `opendir` fails, whatever the mode; otherwise the followed directories'
      lines in `readdir` order, then `d`'s own. */
  function Output(d: Directory, path: string, level: int, s: Display): seq<Line>
    decreases d
  {
    match d
    case OpenFails => [OpenError(path)]
    case Opened(entries) => EntriesOutput(entries, path, level, s) + OwnLine(d, path, level, s)
  }

  /** The line an opened directory prints for itself: when totals-only is off and its level
      is at most the limit. */
  function OwnLine(d: Directory, path: string, level: int, s: Display): seq<Line>
  {
    if !s.totalOnly && level <= s.limit then [Report(path, level, Normal(DirBytes(d)))] else []
  }

  /** `DirectoryTotal`: a failed `opendir` prints the error and returns (0, 0); otherwise the
      `readdir` loop skips failed `lstat`s, symbolic links and dot directories, walks every
      other directory one level deeper and merges it in, and adds the size of everything
      else; the directory's own line comes last. */
  method DirectoryTotal(dir: Directory, dirname: string, totalOnly: bool, recursionLevel: int, recursionLimit: int)
    returns (total: Total, out: seq<Line>)
    decreases dir
    ensures total == Normal(DirBytes(dir))
    ensures out == Output(dir, dirname, recursionLevel, Display(totalOnly, recursionLimit))
  {
    total := Total(0, 0);
    if dir.OpenFails? {
      out := [OpenError(dirname)];
      return;
    }
    out := [];
    var s := Display(totalOnly, recursionLimit);
    var entries := dir.entries;
    var i := 0;
    while i < |entries|
      invariant 0 <= i <= |entries|
      invariant Canonical(total) && Value(total) + EntriesBytes(entries[i..]) == EntriesBytes(entries)
      invariant out + EntriesOutput(entries[i..], dirname, recursionLevel, s) == EntriesOutput(entries, dirname, recursionLevel, s)
    {
      assert entries[i] in dir.entries;
      assert entries[i..][1..] == entries[i + 1..];
      var entryOut;
      total, entryOut := EntryTotal(entries[i], dirname, totalOnly, recursionLevel, recursionLimit, total);
      out := out + entryOut;
      i := i + 1;
    }
    CanonicalIsNormal(total);
    out := out + (if !totalOnly && recursionLevel <= recursionLimit then [Report(dirname, recursionLevel, total)] else []);
  }

  /** The body of the `readdir` loop on one record, with its `continue`s as early returns. */
  method EntryTotal(e: Entry, dirname: string, totalOnly: bool, recursionLevel: int, recursionLimit: int, number: Total)
    returns (total: Total, out: seq<Line>)
    requires Canonical(number)
    decreases e
    ensures Canonical(total) && Value(total) == Value(number) + EntryBytes(e)
    ensures out == EntryOutput(e, dirname, recursionLevel, Display(totalOnly, recursionLimit))
  {
    total := number;
    out := [];
    if e.stat.LstatFails? || e.stat.SymbolicLink? {
      return;
    }
    if e.stat.Dir? {
      if At(e.name, 0) == '.' {
        if At(e.name, 1) == 0 as char || At(e.name, 1) == '.' {
          return;
        }
      }
      var subTotal, subOut := DirectoryTotal(e.stat.dir, Join(dirname, e.name), totalOnly, recursionLevel + 1, recursionLimit);
      AddedNormal(total, subTotal);
      total := Add(subTotal.megabytes, subTotal.bytes, total);
      out := subOut;
    } else {
      AddedNormal(total, Total(0, e.stat.size));
      total := Add(0, e.stat.size, total);
    }
  }

  // ---------------------------------------------------------------------------------------
  // The argument loop of `main`

  /** `isOptionChar`: '/' and '-' both start an option. */
  predicate IsOptionChar(c: char)
  {
    c == '/' || c == '-'
  }

  /** The options `main` sets. */
  datatype Options = Options(totalOnly: bool, limit: int, path: string)

  /** The initialisers of `main`'s locals. */
  const Defaults := Options(false, RECURSION_LIMIT_DEFAULT, ".")

  /** How the argument loop ends: all arguments read, help shown (`exit(0)`), or a level
      outside 1..999 reported (`exit(1)`). */
  datatype Outcome = Proceed | ShowHelp | BadLimit(limit: int)

  datatype Step = Stop(outcome: Outcome) | Next(options: Options)

  /** The limit a level option asks for: 999 without '=', otherwise `atoi` of the text after
      the first '='. */
  function LimitOf(arg: string): (limit: int)
    ensures '=' !in arg ==> limit == RECURSION_LIMIT_DEFAULT
  {
    var k := IndexOf(arg, '=');
    if k == -1 then RECURSION_LIMIT_DEFAULT else Atoi(arg[k + 1..])
  }

  predicate ValidLimit(limit: int)
  {
    1 <= limit <= 999
  }

  /** One pass of the loop body on `argv[argc]`; only 'H' asks for help. The loop stops
      exactly on the arguments `Stops` names; otherwise each option changes its own field and
      every other argument replaces the path. */
  function StepOf(o: Options, arg: string): (r: Step)
    ensures r.Stop? <==> Stops(arg)
    ensures r.Stop? ==> r.outcome == StopOutcome(arg)
    ensures r.Next? ==> r.options.totalOnly == (o.totalOnly || IsOption(arg, 'T'))
    ensures r.Next? ==> r.options.limit == (if IsOption(arg, 'L') then LimitOf(arg) else o.limit)
    ensures r.Next? ==> r.options.path == (if NamesPath(arg) then arg else o.path)
  {
    if IsOptionChar(At(arg, 0)) && ToUpper(At(arg, 1)) == 'H' then Stop(ShowHelp)
    else if IsOptionChar(At(arg, 0)) && ToUpper(At(arg, 1)) == 'T' then Next(o.(totalOnly := true))
    else if IsOptionChar(At(arg, 0)) && ToUpper(At(arg, 1)) == 'L' then
      var limit := LimitOf(arg);
      if !ValidLimit(limit) then Stop(BadLimit(limit)) else Next(o.(limit := limit))
    else Next(o.(path := arg))
  }

  datatype Parsed = Parsed(outcome: Outcome, options: Options)

  /** The arguments `argv[1..]`, read from the last to the first as `while(--argc)` does. */
  function ParseDown(o: Options, args: seq<string>): Parsed
    decreases |args|
  {
    if args == [] then Parsed(Proceed, o)
    else
      match StepOf(o, args[|args| - 1])
      case Stop(outcome) => Parsed(outcome, o)
      case Next(o') => ParseDown(o', args[..|args| - 1])
  }

  function Parse(args: seq<string>): Parsed
  {
    ParseDown(Defaults, args)
  }

  /** Everything `main` prints when started with `argv[1..] == args` on the file system `fs`
      (the tree each path names), and how it ends. */
  function Program(args: seq<string>, fs: string -> Directory): (r: (seq<Line>, Exit))
    ensures r.1 == Exited(0) || r.1 == Exited(1)
    ensures r.1 == Exited(1) <==> Parse(args).outcome.BadLimit?
    ensures Parse(args).outcome.Proceed? ==> r.0 != []
  {
    var p := Parse(args);
    match p.outcome
    case ShowHelp => ([Help], Exited(0))
    case BadLimit(limit) => ([InvalidLimit(limit)], Exited(1))
    case Proceed =>
      var o := p.options;
      var root := fs(o.path);
      ParseLimitValid(Defaults, args);
      (Output(root, o.path, 1, Display(o.totalOnly, o.limit))
       + (if o.totalOnly then [GrandTotal(Normal(DirBytes(root)))] else []),
       Exited(0))
  }

  /** `main`: the `while(--argc)` loop over the arguments into its locals, then one walk from
      the path at level 1, then the grand total in totals-only mode. */
  method Run(args: seq<string>, fs: string -> Directory) returns (out: seq<Line>, exit: Exit)
    ensures (out, exit) == Program(args, fs)
  {
    var path := ".";
    var totalOnly := false;
    var recursionLimit := RECURSION_LIMIT_DEFAULT;
    var argc := |args| + 1;
    assert args[..argc - 1] == args;
    while argc > 1
      invariant 1 <= argc <= |args| + 1
      invariant Parse(args) == ParseDown(Options(totalOnly, recursionLimit, path), args[..argc - 1])
    {
      argc := argc - 1;
      var arg := args[argc - 1];
      ghost var o := Options(totalOnly, recursionLimit, path);
      assert args[..argc][..argc - 1] == args[..argc - 1];
      if IsOptionChar(At(arg, 0)) && ToUpper(At(arg, 1)) == 'H' {
        out := [Help];
        exit := Exited(0);
        return;
      } else if IsOptionChar(At(arg, 0)) && ToUpper(At(arg, 1)) == 'T' {
        totalOnly := true;
      } else if IsOptionChar(At(arg, 0)) && ToUpper(At(arg, 1)) == 'L' {
        var k := IndexOf(arg, '=');
        if k == -1 {
          recursionLimit := RECURSION_LIMIT_DEFAULT;
        } else {
          recursionLimit := Atoi(arg[k + 1..]);
        }
        if recursionLimit <= 0 || recursionLimit > 999 {
          out := [InvalidLimit(recursionLimit)];
          exit := Exited(1);
          return;
        }
      } else {
        path := arg;
      }
      assert StepOf(o, arg) == Next(Options(totalOnly, recursionLimit, path));
    }
    var root := fs(path);
    var total;
    total, out := DirectoryTotal(root, path, totalOnly, 1, recursionLimit);
    if totalOnly {
      out := out + [GrandTotal(total)];
    } else {
      assert out == out + [];
    }
    exit := Exited(0);
  }

  // ---------------------------------------------------------------------------------------
  // Properties of the walk

  /** Which directories are followed: "." and ".." are not, and neither is any name that
      starts with two dots (they count and print nothing); a name with one leading dot and
      more after it is walked one level deeper under `parent/name`. */
  lemma DotFiltering(d: Directory, name: string, parent: string, level: int, s: Display)
    requires |name| >= 2 && name[0] == '.'
    ensures name[1] == '.' ==> EntryBytes(Entry(name, Dir(d))) == 0
    ensures name[1] == '.' ==> EntryOutput(Entry(name, Dir(d)), parent, level, s) == []
    ensures name[1] != '.' && name[1] != 0 as char ==> EntryBytes(Entry(name, Dir(d))) == DirBytes(d)
    ensures name[1] != '.' && name[1] != 0 as char ==>
      EntryOutput(Entry(name, Dir(d)), parent, level, s) == Output(d, Join(parent, name), level + 1, s)
    ensures EntryBytes(Entry(".", Dir(d))) == 0 && EntryBytes(Entry("..", Dir(d))) == 0
    ensures EntryOutput(Entry(".", Dir(d)), parent, level, s) == []
    ensures EntryOutput(Entry("..", Dir(d)), parent, level, s) == []
  {
  }

  /** Every directory line in `lines` is at a level in `low`..`limit`, printed with
      totals-only off; the other lines are `opendir` errors. */
  predicate ReportsWithin(lines: seq<Line>, low: int, s: Display)
  {
    forall i :: 0 <= i < |lines| ==>
      (lines[i].Report? && !s.totalOnly && low <= lines[i].level <= s.limit) || lines[i].OpenError?
  }

  lemma ReportsWithinAppend(a: seq<Line>, b: seq<Line>, low: int, s: Display)
    requires ReportsWithin(a, low, s) && ReportsWithin(b, low, s)
    ensures ReportsWithin(a + b, low, s)
  {
    forall i | 0 <= i < |a + b|
      ensures ((a + b)[i].Report? && !s.totalOnly && low <= (a + b)[i].level <= s.limit) || (a + b)[i].OpenError?
    {
      if i >= |a| {
        assert (a + b)[i] == b[i - |a|];
      }
    }
  }

  /** Depth gating and post-order: the walk of `d` prints directory lines only at `level` or
      deeper and at most the limit, none in totals-only mode, and otherwise only `opendir`
      errors; an opened directory ends with its own line, printed exactly when totals-only is
      off and `level <= limit`, after the lines of its subdirectories, which are all deeper. */
  lemma {:induction false} ReportsGated(d: Directory, path: string, level: int, s: Display)
    decreases d, 1
    ensures var out := Output(d, path, level, s);
      ReportsWithin(out, level, s) &&
      (d.Opened? ==>
        var own := OwnLine(d, path, level, s);
        |own| <= |out| && out[|out| - |own|..] == own &&
        ReportsWithin(out[..|out| - |own|], level + 1, s))
  {
    if d.Opened? {
      var children := EntriesOutput(d.entries, path, level, s);
      var own := OwnLine(d, path, level, s);
      var out := Output(d, path, level, s);
      assert out[..|out| - |own|] == children;
      EntriesReportsGated(d.entries, path, level, s);
      assert ReportsWithin(children, level, s);
      ReportsWithinAppend(children, own, level, s);
    }
  }

  lemma {:induction false} EntryReportsGated(e: Entry, parent: string, level: int, s: Display)
    decreases e, 0
    ensures ReportsWithin(EntryOutput(e, parent, level, s), level + 1, s)
  {
    if e.stat.Dir? && !IsDotName(e.name) {
      ReportsGated(e.stat.dir, Join(parent, e.name), level + 1, s);
    }
  }

  lemma {:induction false} EntriesReportsGated(entries: seq<Entry>, parent: string, level: int, s: Display)
    decreases entries
    ensures ReportsWithin(EntriesOutput(entries, parent, level, s), level + 1, s)
  {
    if entries != [] {
      EntryReportsGated(entries[0], parent, level, s);
      EntriesReportsGated(entries[1..], parent, level, s);
      ReportsWithinAppend(EntryOutput(entries[0], parent, level, s), EntriesOutput(entries[1..], parent, level, s), level + 1, s);
    }
  }

  /** `path` or a path below it. */
  predicate Under(p: string, path: string)
  {
    p == path || (|p| > |path| && p[..|path| + 1] == path + [PathDelimiter])
  }

  /** The path of a line of the walk, if it has one. */
  predicate PathsUnder(lines: seq<Line>, path: string)
  {
    forall i :: 0 <= i < |lines| ==> (lines[i].Report? || lines[i].OpenError?) && Under(lines[i].path, path)
  }

  lemma PathsUnderAppend(a: seq<Line>, b: seq<Line>, path: string)
    requires PathsUnder(a, path) && PathsUnder(b, path)
    ensures PathsUnder(a + b, path)
  {
    forall i | 0 <= i < |a + b|
      ensures ((a + b)[i].Report? || (a + b)[i].OpenError?) && Under((a + b)[i].path, path)
    {
      if i >= |a| {
        assert (a + b)[i] == b[i - |a|];
      }
    }
  }

  /** A path below `parent/name` is below `parent`. */
  lemma UnderJoin(p: string, parent: string, name: string)
    requires Under(p, Join(parent, name))
    ensures Under(p, parent)
  {
    var j := Join(parent, name);
    assert j[..|parent| + 1] == parent + [PathDelimiter];
    if p != j {
      assert p[..|parent| + 1] == p[..|j| + 1][..|parent| + 1];
    }
  }

  /** Path building: every line of the walk from `path` names `path` itself or a path below
      it, made by joining entry names with '/'. */
  lemma {:induction false} PathsBelowStart(d: Directory, path: string, level: int, s: Display)
    decreases d, 1
    ensures PathsUnder(Output(d, path, level, s), path)
  {
    if d.Opened? {
      EntriesPathsBelow(d.entries, path, level, s);
      PathsUnderAppend(EntriesOutput(d.entries, path, level, s), OwnLine(d, path, level, s), path);
    }
  }

  lemma {:induction false} EntryPathsBelow(e: Entry, parent: string, level: int, s: Display)
    decreases e, 0
    ensures PathsUnder(EntryOutput(e, parent, level, s), parent)
  {
    if e.stat.Dir? && !IsDotName(e.name) {
      var out := Output(e.stat.dir, Join(parent, e.name), level + 1, s);
      PathsBelowStart(e.stat.dir, Join(parent, e.name), level + 1, s);
      forall i | 0 <= i < |out|
        ensures Under(out[i].path, parent)
      {
        UnderJoin(out[i].path, parent, e.name);
      }
    }
  }

  lemma {:induction false} EntriesPathsBelow(entries: seq<Entry>, parent: string, level: int, s: Display)
    decreases entries
    ensures PathsUnder(EntriesOutput(entries, parent, level, s), parent)
  {
    if entries != [] {
      EntryPathsBelow(entries[0], parent, level, s);
      EntriesPathsBelow(entries[1..], parent, level, s);
      PathsUnderAppend(EntryOutput(entries[0], parent, level, s), EntriesOutput(entries[1..], parent, level, s), parent);
    }
  }

  // ---------------------------------------------------------------------------------------
  // The argument loop, read from the start: the first word wins

  /** The option `letter` (either case) after an option character. */
  predicate IsOption(arg: string, letter: char)
  {
    IsOptionChar(At(arg, 0)) && ToUpper(At(arg, 1)) == letter
  }

  /** An argument that ends the loop: help, or a level outside 1..999. */
  predicate Stops(arg: string)
  {
    IsOption(arg, 'H') || (IsOption(arg, 'L') && !ValidLimit(LimitOf(arg)))
  }

  function StopOutcome(arg: string): Outcome
  {
    if IsOption(arg, 'H') then ShowHelp else BadLimit(LimitOf(arg))
  }

  /** Every argument that is not help, totals-only or a level names the path, "/?" included. */
  predicate NamesPath(arg: string)
  {
    !IsOption(arg, 'H') && !IsOption(arg, 'T') && !IsOption(arg, 'L')
  }

  /** The first argument naming a path, or `default`. */
  function FirstPath(args: seq<string>, default: string): string
  {
    if args == [] then default
    else if NamesPath(args[0]) then args[0]
    else FirstPath(args[1..], default)
  }

  /** The limit of the first level option, or `default`. */
  function FirstLimit(args: seq<string>, default: int): int
  {
    if args == [] then default
    else if !IsOption(args[0], 'H') && IsOption(args[0], 'L') then LimitOf(args[0])
    else FirstLimit(args[1..], default)
  }

  predicate Given(args: seq<string>, letter: char)
  {
    exists i :: 0 <= i < |args| && IsOption(args[i], letter)
  }

  lemma {:induction false} FirstPathSnoc(args: seq<string>, a: string, default: string)
    ensures FirstPath(args + [a], default) == FirstPath(args, if NamesPath(a) then a else default)
  {
    if args != [] {
      assert (args + [a])[1..] == args[1..] + [a];
      FirstPathSnoc(args[1..], a, default);
    } else {
      assert [] + [a] == [a];
      assert [a][1..] == [];
    }
  }

  lemma {:induction false} FirstLimitSnoc(args: seq<string>, a: string, default: int)
    ensures FirstLimit(args + [a], default) ==
      FirstLimit(args, if !IsOption(a, 'H') && IsOption(a, 'L') then LimitOf(a) else default)
  {
    if args != [] {
      assert (args + [a])[1..] == args[1..] + [a];
      FirstLimitSnoc(args[1..], a, default);
    } else {
      assert [] + [a] == [a];
      assert [a][1..] == [];
    }
  }

  /** When no argument stops the loop, reading from the last argument to the first leaves the
      path and the limit of the FIRST argument that sets them, and totals-only set iff some
      argument asks for it. */
  lemma {:induction false} ParseWithoutStop(o: Options, args: seq<string>)
    requires forall i :: 0 <= i < |args| ==> !Stops(args[i])
    decreases |args|
    ensures var p := ParseDown(o, args);
      p.outcome == Proceed &&
      p.options.totalOnly == (o.totalOnly || Given(args, 'T')) &&
      p.options.path == FirstPath(args, o.path) &&
      p.options.limit == FirstLimit(args, o.limit)
  {
    if args != [] {
      var init, last := args[..|args| - 1], args[|args| - 1];
      assert init + [last] == args;
      assert !Stops(last);
      var o' := StepOf(o, last).options;
      ParseWithoutStop(o', init);
      FirstPathSnoc(init, last, o.path);
      FirstLimitSnoc(init, last, o.limit);
      assert Given(args, 'T') == (Given(init, 'T') || IsOption(last, 'T')) by {
        if IsOption(last, 'T') {
          assert IsOption(args[|args| - 1], 'T');
        }
        if Given(init, 'T') {
          var i :| 0 <= i < |init| && IsOption(init[i], 'T');
          assert args[i] == init[i];
        }
      }
    } else {
      assert !Given(args, 'T');
    }
  }

  /** '/' and '-' are interchangeable in front of an option letter, and an argument that
      starts with any other character names the path. */
  lemma OptionCharsAlike(o: Options, c: char, rest: string)
    ensures NamesPath("/" + rest) == NamesPath("-" + rest)
    ensures !NamesPath("/" + rest) ==> StepOf(o, "/" + rest) == StepOf(o, "-" + rest)
    ensures !IsOptionChar(c) ==> StepOf(o, [c] + rest) == Next(o.(path := [c] + rest))
  {
    var slash, dash := "/" + rest, "-" + rest;
    assert At(slash, 0) == '/' && At(dash, 0) == '-' && At(slash, 1) == At(dash, 1);
    if !NamesPath(slash) {
      LimitOfOptionChars(rest);
      var a, b := StepOf(o, slash), StepOf(o, dash);
      assert a.Stop? == b.Stop?;
      if a.Next? {
        assert a.options == b.options;
      }
    }
    if !IsOptionChar(c) {
      assert At([c] + rest, 0) == c;
    }
  }

  /** The level text does not depend on the option character. */
  lemma LimitOfOptionChars(rest: string)
    ensures LimitOf("/" + rest) == LimitOf("-" + rest)
  {
    var slash, dash := "/" + rest, "-" + rest;
    var k := IndexOf(rest, '=');
    if k == -1 {
      assert '=' !in slash && '=' !in dash;
    } else {
      assert slash[k + 1] == '=' && slash[..k + 1] == "/" + rest[..k];
      assert dash[k + 1] == '=' && dash[..k + 1] == "-" + rest[..k];
      assert IndexOf(slash, '=') == k + 1 == IndexOf(dash, '=');
      assert slash[k + 2..] == rest[k + 1..] == dash[k + 2..];
    }
  }

  /** "/?" is not a help option in this revision, and "/s" is no option either: every
      argument made of an option character and '?' or 's' (either case) names the path,
      whatever follows. */
  lemma QuestionMarkNamesPath(o: Options, c: char, x: char, rest: string)
    requires IsOptionChar(c) && (x == '?' || ToUpper(x) == 'S')
    ensures StepOf(o, [c, x] + rest) == Next(o.(path := [c, x] + rest))
    ensures ParseDown(o, [[c, x] + rest]) == Parsed(Proceed, o.(path := [c, x] + rest))
  {
    var arg := [c, x] + rest;
    assert At(arg, 0) == c && At(arg, 1) == x;
    assert [arg][..0] == [];
  }

  /** The loop ends at the LAST stopping argument, with the options the arguments after it
      left. */
  lemma {:induction false} ParseStopsAt(o: Options, args: seq<string>, k: nat)
    requires k < |args| && Stops(args[k])
    requires forall i :: k < i < |args| ==> !Stops(args[i])
    decreases |args|
    ensures ParseDown(o, args) == Parsed(StopOutcome(args[k]), ParseDown(o, args[k + 1..]).options)
  {
    var init, last := args[..|args| - 1], args[|args| - 1];
    if k < |args| - 1 {
      assert !Stops(last);
      var o' := StepOf(o, last).options;
      ParseStopsAt(o', init, k);
      assert args[k + 1..] == init[k + 1..] + [last];
      assert args[k + 1..][..|args[k + 1..]| - 1] == init[k + 1..];
    } else {
      assert args[k + 1..] == [];
    }
  }

  /** The limit the loop leaves is in 1..999 whenever it reads every argument. */
  lemma {:induction false} ParseLimitValid(o: Options, args: seq<string>)
    requires ValidLimit(o.limit)
    decreases |args|
    ensures ParseDown(o, args).outcome == Proceed ==> ValidLimit(ParseDown(o, args).options.limit)
  {
    if args != [] && StepOf(o, args[|args| - 1]).Next? {
      ParseLimitValid(StepOf(o, args[|args| - 1]).options, args[..|args| - 1]);
    }
  }

  /** A level option with '=' and a non-numeric tail asks for 0, which is refused. */
  lemma NonNumericLimitRefused(prefix: string, tail: string)
    requires '=' !in prefix
    requires tail == [] || (!IsDigit(tail[0]) && !IsSpace(tail[0]) && tail[0] != '-' && tail[0] != '+')
    ensures LimitOf(prefix + "=" + tail) == 0 && !ValidLimit(LimitOf(prefix + "=" + tail))
  {
    IndexOfFirst(prefix, '=', tail);
    assert (prefix + "=" + tail)[|prefix| + 1..] == tail;
    SkipSpacesNone(tail);
    AtoiNoDigits(tail);
  }

  /** A level option with '=' and a decimal number asks for that number; a level option
      without '=' asks for 999. */
  lemma LimitOfDecimal(prefix: string, n: nat)
    requires '=' !in prefix
    ensures LimitOf(prefix + "=" + Decimal(n)) == n
    ensures LimitOf(prefix) == RECURSION_LIMIT_DEFAULT
  {
    IndexOfFirst(prefix, '=', Decimal(n));
    assert (prefix + "=" + Decimal(n))[|prefix| + 1..] == Decimal(n) + "";
    AtoiOfDecimal(n, "");
  }

  // ---------------------------------------------------------------------------------------
  // Properties of the whole program

  /** The last stopping argument decides: help prints the usage text and exits with 0, a bad
      level prints it and exits with 1; either way nothing is walked. */
  lemma StoppedBeforeWalk(args: seq<string>, fs: string -> Directory, k: nat)
    requires k < |args| && Stops(args[k])
    requires forall i :: k < i < |args| ==> !Stops(args[i])
    ensures Program(args, fs) ==
      if IsOption(args[k], 'H') then ([Help], Exited(0)) else ([InvalidLimit(LimitOf(args[k]))], Exited(1))
  {
    ParseStopsAt(Defaults, args, k);
  }

  /** In totals-only mode the run prints no directory line and ends with the grand total;
      `opendir` errors are still printed. */
  lemma TotalsOnlyPrintsGrandTotal(args: seq<string>, fs: string -> Directory)
    requires Parse(args).outcome == Proceed && Parse(args).options.totalOnly
    ensures var (lines, exit) := Program(args, fs);
      var root := fs(Parse(args).options.path);
      exit == Exited(0) &&
      lines[|lines| - 1] == GrandTotal(Normal(DirBytes(root))) &&
      forall i :: 0 <= i < |lines| - 1 ==> lines[i].OpenError?
  {
    var o := Parse(args).options;
    var s := Display(o.totalOnly, o.limit);
    var walk := Output(fs(o.path), o.path, 1, s);
    ReportsGated(fs(o.path), o.path, 1, s);
    var lines := walk + [GrandTotal(Normal(DirBytes(fs(o.path))))];
    assert Program(args, fs).0 == lines;
    assert forall i :: 0 <= i < |lines| - 1 ==> lines[i] == walk[i];
  }

  /** Otherwise, when the start directory opens, the run ends with its own line at level 1
      with the total of the whole tree. */
  lemma RootLineLast(args: seq<string>, fs: string -> Directory)
    requires Parse(args).outcome == Proceed && !Parse(args).options.totalOnly
    requires fs(Parse(args).options.path).Opened?
    ensures var (lines, exit) := Program(args, fs);
      var path := Parse(args).options.path;
      exit == Exited(0) && |lines| >= 1 &&
      lines[|lines| - 1] == Report(path, 1, Normal(DirBytes(fs(path))))
  {
    ParseLimitValid(Defaults, args);
  }
}
