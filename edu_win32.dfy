/** The Win32 C++ revision of edu (EDU.cpp): the exact-size accumulator, the
    `FindFirstFile`/`FindNextFile` walker over an input directory tree, and the right-to-left
    argument loop of `main`.

    The file system is an input: a `Directory` value says what `FindFirstFile` on
    `path\*.*` and the following `FindNextFile` calls report for one directory, in order. The
    console (standard output and standard error together) is the `Line` sequence a method
    returns. */
module EduWin32 {
  import opened Megabytes
  import opened Text

  /** Display limit of `main` when no level is given. */
  const RECURSION_LIMIT_DEFAULT: int := 999

  /** The largest DWORD, 2^32 - 1. */
  const MAXDWORD: int := 0xFFFF_FFFF

  /** Values of 32-bit unsigned arithmetic (DWORD and, under Win32, `unsigned long`) are
      taken modulo this. */
  const WORD_MODULUS: int := 0x1_0000_0000

  newtype dword = x: int | 0 <= x < 0x1_0000_0000

  datatype Line =
    | Help                                        // the usage text
    | InvalidLimit(limit: int)                    // "Invalid directory display limit"
    | Report(path: string, level: int, total: Total)  // the total of one directory
    | GrandTotal(total: Total)                    // the total printed in totals-only mode

  /** `exit(code)` or the `return 0` of `main`. */
  datatype Exit = Exited(code: int)

  // ---------------------------------------------------------------------------------------
  // The accumulator

  /** `Add`: both fields increased, then whole megabytes moved out of the byte field while it
      exceeds MEGABYTE. */
  method Add(megs: nat, bytes: nat, number: Total) returns (result: Total)
    ensures result == Added(number, megs, bytes)
    ensures Value(result) == Value(number) + megs * MEGABYTE + bytes
    ensures result.bytes <= MEGABYTE
  {
    result := Total(number.megabytes + megs, number.bytes + bytes);
    while result.bytes > MEGABYTE
      invariant Added(result, 0, 0) == Added(number, megs, bytes)
      decreases result.bytes
    {
      CarryStep(result.bytes);
      result := Total(result.megabytes + 1, result.bytes - MEGABYTE);
    }
  }

  // ---------------------------------------------------------------------------------------
  // The file system, as the walker sees it

  /** One `WIN32_FIND_DATA` record: a directory (with what a walk of it finds) or a file with
      the two DWORD halves of its size. */
  datatype Entry =
    | FileEntry(name: string, sizeHigh: dword, sizeLow: dword)
    | DirEntry(name: string, dir: Directory)

  /** `FindFirstFile` fails (`INVALID_HANDLE_VALUE`, which includes a search with no match),
      or it returns `first` and the `FindNextFile` calls return `rest` before failing. */
  datatype Directory = FindFails | Found(first: Entry, rest: seq<Entry>)

  /** The settings the walker reads. */
  datatype Display = Display(totalOnly: bool, limit: int)

  /** The path `sprintf("%s\\%s")` builds for a subdirectory. */
  function Join(parent: string, name: string): string
  {
    parent + ['\\'] + name
  }

  /** The two entries the walker does not follow. */
  predicate IsDotName(name: string)
  {
    name == "." || name == ".."
  }

  /** `nFileSizeHigh * MAXDWORD + nFileSizeLow`: every operand is a DWORD, so the product and
      the sum wrap at 2^32 before the result is widened to 64 bits. */
  function FileSize(high: dword, low: dword): (size: nat)
    ensures size < WORD_MODULUS
    ensures high == 0 ==> size == low as int
  {
    (high as int * MAXDWORD + low as int) % WORD_MODULUS
  }

  /** The `(unsigned long)` cast on a subtotal's byte field: 32 bits under Win32. */
  function ULong(x: nat): nat
  {
    x % WORD_MODULUS
  }

  // ---------------------------------------------------------------------------------------
  // What the walker computes

  function EntryBytes(e: Entry): nat
    decreases e
  {
    match e
    case FileEntry(_, high, low) => FileSize(high, low)
    case DirEntry(name, dir) => if IsDotName(name) then 0 else DirBytes(dir)
  }

  function EntriesBytes(entries: seq<Entry>): nat
    decreases entries
  {
    if entries == [] then 0 else EntryBytes(entries[0]) + EntriesBytes(entries[1..])
  }

  /** Bytes found under `d`: the computed size of every file entry and the bytes of every
      subdirectory other than "." and ".."; nothing when the search fails. */
  function DirBytes(d: Directory): nat
    decreases d
  {
    match d
    case FindFails => 0
    case Found(first, rest) => EntryBytes(first) + EntriesBytes(rest)
  }

  /** The lines printed for one entry of a directory at `parent` and `level`: the walk of a
      subdirectory, one level deeper. */
  function EntryOutput(e: Entry, parent: string, level: int, s: Display): seq<Line>
    decreases e
  {
    match e
    case FileEntry(_, _, _) => []
    case DirEntry(name, dir) => if IsDotName(name) then [] else Output(dir, Join(parent, name), level + 1, s)
  }

  function EntriesOutput(entries: seq<Entry>, parent: string, level: int, s: Display): seq<Line>
    decreases entries
  {
    if entries == [] then []
    else EntryOutput(entries[0], parent, level, s) + EntriesOutput(entries[1..], parent, level, s)
  }

  /** The lines of the walk of `d` at `path` and `level`, in the order printed: nothing when the
      search fails, otherwise the subdirectories' lines in entry order, then `d`'s own. */
  function Output(d: Directory, path: string, level: int, s: Display): seq<Line>
    decreases d
  {
    match d
    case FindFails => []
    case Found(first, rest) =>
      EntryOutput(first, path, level, s) + EntriesOutput(rest, path, level, s) + OwnLine(d, path, level, s)
  }

  /** The line a directory whose search succeeded prints for itself: when totals-only is off
      and its level is at most the limit. */
  function OwnLine(d: Directory, path: string, level: int, s: Display): seq<Line>
  {
    if !s.totalOnly && level <= s.limit then [Report(path, level, Normal(DirBytes(d)))] else []
  }

  /** All the entries the search of a successful `d` returns, in order. */
  function Entries(d: Directory): seq<Entry>
    requires d.Found?
  {
    [d.first] + d.rest
  }

  /** `DirectoryTotal`: a failed search returns (0, 0) at once; otherwise each entry is
      processed in turn, a file adding its computed size, a subdirectory other than "." and
      ".." walked one level deeper and merged in; the directory's own line comes last. */
  method DirectoryTotal(dir: Directory, name: string, totalOnly: bool, recursionLevel: int, recursionLimit: int)
    returns (total: Total, out: seq<Line>)
    decreases dir
    ensures total == Normal(DirBytes(dir))
    ensures out == Output(dir, name, recursionLevel, Display(totalOnly, recursionLimit))
  {
    total := Total(0, 0);
    out := [];
    if dir.FindFails? {
      return;
    }
    var s := Display(totalOnly, recursionLimit);
    var entries := Entries(dir);
    var i := 0;
    while i < |entries|
      invariant 0 <= i <= |entries|
      invariant Canonical(total) && Value(total) + EntriesBytes(entries[i..]) == EntriesBytes(entries)
      invariant out + EntriesOutput(entries[i..], name, recursionLevel, s) == EntriesOutput(entries, name, recursionLevel, s)
    {
      assert entries[i] == dir.first || entries[i] in dir.rest;
      assert entries[i..][1..] == entries[i + 1..];
      var entryOut;
      total, entryOut := EntryTotal(entries[i], name, totalOnly, recursionLevel, recursionLimit, total);
      out := out + entryOut;
      i := i + 1;
    }
    assert entries[1..] == dir.rest;
    CanonicalIsNormal(total);
    out := out + (if !totalOnly && recursionLevel <= recursionLimit then [Report(name, recursionLevel, total)] else []);
  }

  /** The loop body on one record: a subdirectory other than "." and ".." is walked one level
      deeper and its total merged in, a file's computed size is added. */
  method EntryTotal(e: Entry, name: string, totalOnly: bool, recursionLevel: int, recursionLimit: int, number: Total)
    returns (total: Total, out: seq<Line>)
    requires Canonical(number)
    decreases e
    ensures Canonical(total) && Value(total) == Value(number) + EntryBytes(e)
    ensures out == EntryOutput(e, name, recursionLevel, Display(totalOnly, recursionLimit))
  {
    total := number;
    out := [];
    match e {
      case DirEntry(entryName, sub) =>
        if entryName != "." && entryName != ".." {
          var subTotal, subOut := DirectoryTotal(sub, Join(name, entryName), totalOnly, recursionLevel + 1, recursionLimit);
          assert ULong(subTotal.bytes) == subTotal.bytes;
          AddedNormal(total, subTotal);
          total := Add(subTotal.megabytes, ULong(subTotal.bytes), total);
          out := subOut;
        }
      case FileEntry(_, high, low) =>
        var fileSize := FileSize(high, low);
        AddedNormal(total, Total(0, fileSize));
        total := Add(0, fileSize, total);
    }
  }

  // ---------------------------------------------------------------------------------------
  // The argument loop of `main`

  /** `isOptionChar`: '/' and '-' both start an option. */
  predicate IsOptionChar(c: char)
  {
    c == '/' || c == '-'
  }

  /** The options `main` sets. */
  datatype Options = Options(totalOnly: bool, limit: int, path: string)

  /** The initialisers of `main`'s locals. */
  const Defaults := Options(false, RECURSION_LIMIT_DEFAULT, ".")

  /** How the argument loop ends: all arguments read, help shown (`exit(0)`), or a level
      outside 1..999 reported (`exit(1)`). */
  datatype Outcome = Proceed | ShowHelp | BadLimit(limit: int)

  datatype Step = Stop(outcome: Outcome) | Next(options: Options)

  /** The limit a level option asks for: 999 without '=', otherwise `atoi` of the text after
      the first '='. */
  function LimitOf(arg: string): (limit: int)
    ensures '=' !in arg ==> limit == RECURSION_LIMIT_DEFAULT
  {
    var k := IndexOf(arg, '=');
    if k == -1 then RECURSION_LIMIT_DEFAULT else Atoi(arg[k + 1..])
  }

  predicate ValidLimit(limit: int)
  {
    1 <= limit <= 999
  }

  /** One pass of the loop body on `argv[argc]`; a character past the end of the argument is
      its NUL terminator. */
  function StepOf(o: Options, arg: string): (r: Step)
    ensures r.Stop? <==> Stops(arg)
    ensures r.Stop? ==> r.outcome == StopOutcome(arg)
    ensures r.Next? ==> r.options.totalOnly == (o.totalOnly || IsOption(arg, 'T'))
    ensures r.Next? ==> r.options.limit == (if IsOption(arg, 'L') then LimitOf(arg) else o.limit)
    ensures r.Next? ==> r.options.path == (if NamesPath(arg) then arg else o.path)
  {
    if IsOptionChar(At(arg, 0)) && (ToUpper(At(arg, 1)) == 'H' || At(arg, 1) == '?') then Stop(ShowHelp)
    else if IsOptionChar(At(arg, 0)) && ToUpper(At(arg, 1)) == 'T' then Next(o.(totalOnly := true))
    else if IsOptionChar(At(arg, 0)) && ToUpper(At(arg, 1)) == 'L' then
      var limit := LimitOf(arg);
      if !ValidLimit(limit) then Stop(BadLimit(limit)) else Next(o.(limit := limit))
    else Next(o.(path := arg))
  }

  datatype Parsed = Parsed(outcome: Outcome, options: Options)

  /** The arguments `argv[1..]`, read from the last to the first as `while(--argc)` does. */
  function ParseDown(o: Options, args: seq<string>): Parsed
    decreases |args|
  {
    if args == [] then Parsed(Proceed, o)
    else
      match StepOf(o, args[|args| - 1])
      case Stop(outcome) => Parsed(outcome, o)
      case Next(o') => ParseDown(o', args[..|args| - 1])
  }

  function Parse(args: seq<string>): Parsed
  {
    ParseDown(Defaults, args)
  }

  /** Everything `main` prints when started with `argv[1..] == args` on the file system `fs`
      (the tree each path names), and how it ends. */
  function Program(args: seq<string>, fs: string -> Directory): (r: (seq<Line>, Exit))
    ensures r.1 == Exited(0) || r.1 == Exited(1)
    ensures r.1 == Exited(1) <==> Parse(args).outcome.BadLimit?
    ensures Parse(args).outcome.ShowHelp? <==> Help in r.0
  {
    var p := Parse(args);
    match p.outcome
    case ShowHelp => ([Help], Exited(0))
    case BadLimit(limit) => ([InvalidLimit(limit)], Exited(1))
    case Proceed =>
      var o := p.options;
      var root := fs(o.path);
      ReportsGated(root, o.path, 1, Display(o.totalOnly, o.limit));
      (Output(root, o.path, 1, Display(o.totalOnly, o.limit))
       + (if o.totalOnly then [GrandTotal(Normal(DirBytes(root)))] else []),
       Exited(0))
  }

  /** `main`: the `while(--argc)` loop over the arguments into its locals, then one walk from
      the path at level 1, then the grand total in totals-only mode. */
  method Run(args: seq<string>, fs: string -> Directory) returns (out: seq<Line>, exit: Exit)
    ensures (out, exit) == Program(args, fs)
  {
    var path := ".";
    var totalOnly := false;
    var recursionLimit := RECURSION_LIMIT_DEFAULT;
    var argc := |args| + 1;
    assert args[..argc - 1] == args;
    while argc > 1
      invariant 1 <= argc <= |args| + 1
      invariant Parse(args) == ParseDown(Options(totalOnly, recursionLimit, path), args[..argc - 1])
    {
      argc := argc - 1;
      var arg := args[argc - 1];
      ghost var o := Options(totalOnly, recursionLimit, path);
      assert args[..argc][..argc - 1] == args[..argc - 1];
      if IsOptionChar(At(arg, 0)) && (ToUpper(At(arg, 1)) == 'H' || At(arg, 1) == '?') {
        out := [Help];
        exit := Exited(0);
        return;
      } else if IsOptionChar(At(arg, 0)) && ToUpper(At(arg, 1)) == 'T' {
        totalOnly := true;
      } else if IsOptionChar(At(arg, 0)) && ToUpper(At(arg, 1)) == 'L' {
        var k := IndexOf(arg, '=');
        if k == -1 {
          recursionLimit := RECURSION_LIMIT_DEFAULT;
        } else {
          recursionLimit := Atoi(arg[k + 1..]);
        }
        if recursionLimit <= 0 || recursionLimit > 999 {
          out := [InvalidLimit(recursionLimit)];
          exit := Exited(1);
          return;
        }
      } else {
        path := arg;
      }
      assert StepOf(o, arg) == Next(Options(totalOnly, recursionLimit, path));
    }
    var root := fs(path);
    var total;
    total, out := DirectoryTotal(root, path, totalOnly, 1, recursionLimit);
    if totalOnly {
      out := out + [GrandTotal(total)];
    } else {
      assert out == out + [];
    }
    exit := Exited(0);
  }

  // ---------------------------------------------------------------------------------------
  // Properties of the size computation

  /** The computed size is the true size `high * 2^32 + low` exactly when the high word is 0. */
  lemma FileSizeTrueOnlyWhenSmall(high: dword, low: dword)
    ensures FileSize(high, low) == high as int * WORD_MODULUS + low as int <==> high == 0
  {
    if high != 0 {
      assert FileSize(high, low) < WORD_MODULUS <= high as int * WORD_MODULUS + low as int;
    }
  }

  /** Multiplying by MAXDWORD in 32 bits subtracts: the computed size is `low - high`
      modulo 2^32, so a file of 4 GiB and 10 bytes counts as 9 bytes. */
  lemma FileSizeSubtracts(high: dword, low: dword)
    ensures FileSize(high, low) == (low as int - high as int) % WORD_MODULUS
    ensures FileSize(1, 10) == 9
  {
    var a := high as int * MAXDWORD + low as int;
    assert a == (low as int - high as int) + high as int * WORD_MODULUS;
    ModShift(low as int - high as int, high as int);
  }

  lemma ModShift(x: int, k: int)
    ensures (x + k * WORD_MODULUS) % WORD_MODULUS == x % WORD_MODULUS
  {
  }

  // ---------------------------------------------------------------------------------------
  // Properties of the walk

  /** Which subdirectories are followed: "." and ".." are counted as nothing and walk
      nothing; every other name, ".x" and "..x" included, is walked one level deeper. */
  lemma DotFiltering(d: Directory, name: string, parent: string, level: int, s: Display)
    ensures EntryBytes(DirEntry(".", d)) == 0 && EntryOutput(DirEntry(".", d), parent, level, s) == []
    ensures EntryBytes(DirEntry("..", d)) == 0 && EntryOutput(DirEntry("..", d), parent, level, s) == []
    ensures name != "." && name != ".." ==> EntryBytes(DirEntry(name, d)) == DirBytes(d)
    ensures name != "." && name != ".." ==> EntryOutput(DirEntry(name, d), parent, level, s) == Output(d, Join(parent, name), level + 1, s)
  {
  }

  /** Every line in `lines` is a directory line at a level in `low`..`limit`, printed with
      totals-only off. */
  predicate ReportsWithin(lines: seq<Line>, low: int, s: Display)
  {
    forall i :: 0 <= i < |lines| ==> lines[i].Report? && !s.totalOnly && low <= lines[i].level <= s.limit
  }

  lemma ReportsWithinAppend(a: seq<Line>, b: seq<Line>, low: int, s: Display)
    requires ReportsWithin(a, low, s) && ReportsWithin(b, low, s)
    ensures ReportsWithin(a + b, low, s)
  {
    forall i | 0 <= i < |a + b|
      ensures (a + b)[i].Report? && !s.totalOnly && low <= (a + b)[i].level <= s.limit
    {
      if i >= |a| {
        assert (a + b)[i] == b[i - |a|];
      }
    }
  }

  /** Depth gating and post-order: the walk of `d` prints only directory lines, at `level` or
      deeper and at most the limit, none in totals-only mode; a directory whose search
      succeeded ends with its own line, printed exactly when totals-only is off and
      `level <= limit`, after the lines of its subdirectories, which are all deeper. */
  lemma {:induction false} ReportsGated(d: Directory, path: string, level: int, s: Display)
    decreases d, 1
    ensures var out := Output(d, path, level, s);
      ReportsWithin(out, level, s) &&
      (d.Found? ==>
        var own := OwnLine(d, path, level, s);
        |own| <= |out| && out[|out| - |own|..] == own &&
        ReportsWithin(out[..|out| - |own|], level + 1, s))
  {
    if d.Found? {
      var children := EntryOutput(d.first, path, level, s) + EntriesOutput(d.rest, path, level, s);
      var own := OwnLine(d, path, level, s);
      var out := Output(d, path, level, s);
      assert out == children + own;
      assert out[..|out| - |own|] == children;
      assert ReportsWithin(children, level + 1, s) by {
        EntryReportsGated(d.first, path, level, s);
        EntriesReportsGated(d.rest, path, level, s);
        ReportsWithinAppend(EntryOutput(d.first, path, level, s), EntriesOutput(d.rest, path, level, s), level + 1, s);
      }
      assert ReportsWithin(children, level, s);
      ReportsWithinAppend(children, own, level, s);
    }
  }

  lemma {:induction false} EntryReportsGated(e: Entry, parent: string, level: int, s: Display)
    decreases e, 0
    ensures ReportsWithin(EntryOutput(e, parent, level, s), level + 1, s)
  {
    if e.DirEntry? && !IsDotName(e.name) {
      ReportsGated(e.dir, Join(parent, e.name), level + 1, s);
    }
  }

  lemma {:induction false} EntriesReportsGated(entries: seq<Entry>, parent: string, level: int, s: Display)
    decreases entries
    ensures ReportsWithin(EntriesOutput(entries, parent, level, s), level + 1, s)
  {
    if entries != [] {
      EntryReportsGated(entries[0], parent, level, s);
      EntriesReportsGated(entries[1..], parent, level, s);
      ReportsWithinAppend(EntryOutput(entries[0], parent, level, s), EntriesOutput(entries[1..], parent, level, s), level + 1, s);
    }
  }

  /** In totals-only mode the walk prints nothing at all. */
  lemma {:induction false} TotalsOnlySilent(d: Directory, path: string, level: int, s: Display)
    requires s.totalOnly
    decreases d, 1
    ensures Output(d, path, level, s) == []
  {
    if d.Found? {
      EntryTotalsOnlySilent(d.first, path, level, s);
      EntriesTotalsOnlySilent(d.rest, path, level, s);
    }
  }

  lemma {:induction false} EntryTotalsOnlySilent(e: Entry, parent: string, level: int, s: Display)
    requires s.totalOnly
    decreases e, 0
    ensures EntryOutput(e, parent, level, s) == []
  {
    if e.DirEntry? && !IsDotName(e.name) {
      TotalsOnlySilent(e.dir, Join(parent, e.name), level + 1, s);
    }
  }

  lemma {:induction false} EntriesTotalsOnlySilent(entries: seq<Entry>, parent: string, level: int, s: Display)
    requires s.totalOnly
    decreases entries
    ensures EntriesOutput(entries, parent, level, s) == []
  {
    if entries != [] {
      EntryTotalsOnlySilent(entries[0], parent, level, s);
      EntriesTotalsOnlySilent(entries[1..], parent, level, s);
    }
  }

  // ---------------------------------------------------------------------------------------
  // The argument loop, read from the start: the first word wins

  /** The option `letter` (either case) after an option character. */
  predicate IsOption(arg: string, letter: char)
  {
    IsOptionChar(At(arg, 0)) && ToUpper(At(arg, 1)) == letter
  }

  predicate IsHelp(arg: string)
  {
    IsOption(arg, 'H') || (IsOptionChar(At(arg, 0)) && At(arg, 1) == '?')
  }

  /** An argument that ends the loop: help, or a level outside 1..999. */
  predicate Stops(arg: string)
  {
    IsHelp(arg) || (IsOption(arg, 'L') && !ValidLimit(LimitOf(arg)))
  }

  function StopOutcome(arg: string): Outcome
  {
    if IsHelp(arg) then ShowHelp else BadLimit(LimitOf(arg))
  }

  /** Every argument that is not help, totals-only or a level names the path, including an
      empty argument and an option character followed by an unknown letter. */
  predicate NamesPath(arg: string)
  {
    !IsHelp(arg) && !IsOption(arg, 'T') && !IsOption(arg, 'L')
  }

  /** The first argument naming a path, or `default`. */
  function FirstPath(args: seq<string>, default: string): string
  {
    if args == [] then default
    else if NamesPath(args[0]) then args[0]
    else FirstPath(args[1..], default)
  }

  /** The limit of the first level option, or `default`. */
  function FirstLimit(args: seq<string>, default: int): int
  {
    if args == [] then default
    else if !IsHelp(args[0]) && IsOption(args[0], 'L') then LimitOf(args[0])
    else FirstLimit(args[1..], default)
  }

  predicate Given(args: seq<string>, letter: char)
  {
    exists i :: 0 <= i < |args| && IsOption(args[i], letter)
  }

  lemma {:induction false} FirstPathSnoc(args: seq<string>, a: string, default: string)
    ensures FirstPath(args + [a], default) == FirstPath(args, if NamesPath(a) then a else default)
  {
    if args != [] {
      assert (args + [a])[1..] == args[1..] + [a];
      FirstPathSnoc(args[1..], a, default);
    } else {
      assert [] + [a] == [a];
      assert [a][1..] == [];
    }
  }

  lemma {:induction false} FirstLimitSnoc(args: seq<string>, a: string, default: int)
    ensures FirstLimit(args + [a], default) ==
      FirstLimit(args, if !IsHelp(a) && IsOption(a, 'L') then LimitOf(a) else default)
  {
    if args != [] {
      assert (args + [a])[1..] == args[1..] + [a];
      FirstLimitSnoc(args[1..], a, default);
    } else {
      assert [] + [a] == [a];
      assert [a][1..] == [];
    }
  }

  /** When no argument stops the loop, reading from the last argument to the first leaves the
      path and the limit of the FIRST argument that sets them, and totals-only set iff some
      argument asks for it; the limit is always in 1..999. */
  lemma {:induction false} ParseWithoutStop(o: Options, args: seq<string>)
    requires forall i :: 0 <= i < |args| ==> !Stops(args[i])
    decreases |args|
    ensures var p := ParseDown(o, args);
      p.outcome == Proceed &&
      p.options.totalOnly == (o.totalOnly || Given(args, 'T')) &&
      p.options.path == FirstPath(args, o.path) &&
      p.options.limit == FirstLimit(args, o.limit)
  {
    if args != [] {
      var init, last := args[..|args| - 1], args[|args| - 1];
      assert init + [last] == args;
      assert !Stops(last);
      var o' := StepOf(o, last).options;
      ParseWithoutStop(o', init);
      FirstPathSnoc(init, last, o.path);
      FirstLimitSnoc(init, last, o.limit);
      assert Given(args, 'T') == (Given(init, 'T') || IsOption(last, 'T')) by {
        if IsOption(last, 'T') {
          assert IsOption(args[|args| - 1], 'T');
        }
        if Given(init, 'T') {
          var i :| 0 <= i < |init| && IsOption(init[i], 'T');
          assert args[i] == init[i];
        }
      }
    } else {
      assert !Given(args, 'T');
    }
  }

  /** The loop ends at the LAST stopping argument, with the options the arguments after it
      left. */
  lemma {:induction false} ParseStopsAt(o: Options, args: seq<string>, k: nat)
    requires k < |args| && Stops(args[k])
    requires forall i :: k < i < |args| ==> !Stops(args[i])
    decreases |args|
    ensures ParseDown(o, args) == Parsed(StopOutcome(args[k]), ParseDown(o, args[k + 1..]).options)
  {
    var init, last := args[..|args| - 1], args[|args| - 1];
    if k < |args| - 1 {
      assert !Stops(last);
      var o' := StepOf(o, last).options;
      ParseStopsAt(o', init, k);
      assert args[k + 1..] == init[k + 1..] + [last];
      assert args[k + 1..][..|args[k + 1..]| - 1] == init[k + 1..];
    } else {
      assert args[k + 1..] == [];
    }
  }

  /** The limit the loop leaves is in 1..999 whenever it reads every argument. */
  lemma {:induction false} ParseLimitValid(o: Options, args: seq<string>)
    requires ValidLimit(o.limit)
    decreases |args|
    ensures ParseDown(o, args).outcome == Proceed ==> ValidLimit(ParseDown(o, args).options.limit)
  {
    if args != [] && StepOf(o, args[|args| - 1]).Next? {
      ParseLimitValid(StepOf(o, args[|args| - 1]).options, args[..|args| - 1]);
    }
  }

  /** '/' and '-' are interchangeable in front of an option letter or '?', and an argument
      that starts with any other character names the path. */
  lemma OptionCharsAlike(o: Options, c: char, rest: string)
    ensures NamesPath("/" + rest) == NamesPath("-" + rest)
    ensures !NamesPath("/" + rest) ==> StepOf(o, "/" + rest) == StepOf(o, "-" + rest)
    ensures !IsOptionChar(c) ==> StepOf(o, [c] + rest) == Next(o.(path := [c] + rest))
  {
    var slash, dash := "/" + rest, "-" + rest;
    assert At(slash, 0) == '/' && At(dash, 0) == '-' && At(slash, 1) == At(dash, 1);
    if !NamesPath(slash) {
      LimitOfOptionChars(rest);
      var a, b := StepOf(o, slash), StepOf(o, dash);
      assert a.Stop? == b.Stop?;
      if a.Next? {
        assert a.options == b.options;
      }
    }
    if !IsOptionChar(c) {
      assert At([c] + rest, 0) == c;
    }
  }

  /** The level text does not depend on the option character. */
  lemma LimitOfOptionChars(rest: string)
    ensures LimitOf("/" + rest) == LimitOf("-" + rest)
  {
    var slash, dash := "/" + rest, "-" + rest;
    var k := IndexOf(rest, '=');
    if k == -1 {
      assert '=' !in slash && '=' !in dash;
    } else {
      assert slash[k + 1] == '=' && slash[..k + 1] == "/" + rest[..k];
      assert dash[k + 1] == '=' && dash[..k + 1] == "-" + rest[..k];
      assert IndexOf(slash, '=') == k + 1 == IndexOf(dash, '=');
      assert slash[k + 2..] == rest[k + 1..] == dash[k + 2..];
    }
  }

  /** A level option with '=' and a non-numeric tail asks for 0, which is refused. */
  lemma NonNumericLimitRefused(prefix: string, tail: string)
    requires '=' !in prefix
    requires tail == [] || (!IsDigit(tail[0]) && !IsSpace(tail[0]) && tail[0] != '-' && tail[0] != '+')
    ensures LimitOf(prefix + "=" + tail) == 0 && !ValidLimit(LimitOf(prefix + "=" + tail))
  {
    IndexOfFirst(prefix, '=', tail);
    assert (prefix + "=" + tail)[|prefix| + 1..] == tail;
    SkipSpacesNone(tail);
    AtoiNoDigits(tail);
  }

  /** A level option with '=' and a decimal number asks for that number; a level option
      without '=' asks for 999. */
  lemma LimitOfDecimal(prefix: string, n: nat)
    requires '=' !in prefix
    ensures LimitOf(prefix + "=" + Decimal(n)) == n
    ensures LimitOf(prefix) == RECURSION_LIMIT_DEFAULT
  {
    IndexOfFirst(prefix, '=', Decimal(n));
    assert (prefix + "=" + Decimal(n))[|prefix| + 1..] == Decimal(n) + "";
    AtoiOfDecimal(n, "");
  }

  // ---------------------------------------------------------------------------------------
  // Properties of the whole program

  /** The last stopping argument decides: help prints the usage text and exits with 0, a bad
      level prints it and exits with 1; either way nothing is walked. */
  lemma StoppedBeforeWalk(args: seq<string>, fs: string -> Directory, k: nat)
    requires k < |args| && Stops(args[k])
    requires forall i :: k < i < |args| ==> !Stops(args[i])
    ensures Program(args, fs) ==
      if IsHelp(args[k]) then ([Help], Exited(0)) else ([InvalidLimit(LimitOf(args[k]))], Exited(1))
  {
    ParseStopsAt(Defaults, args, k);
  }

  /** In totals-only mode the only line is the grand total. */
  lemma TotalsOnlyPrintsGrandTotal(args: seq<string>, fs: string -> Directory)
    requires Parse(args).outcome == Proceed && Parse(args).options.totalOnly
    ensures var path := Parse(args).options.path;
      Program(args, fs) == ([GrandTotal(Normal(DirBytes(fs(path))))], Exited(0))
  {
    var o := Parse(args).options;
    var root := fs(o.path);
    TotalsOnlySilent(root, o.path, 1, Display(o.totalOnly, o.limit));
    var last := [GrandTotal(Normal(DirBytes(root)))];
    assert Program(args, fs).0 == [] + last;
    assert [] + last == last;
    assert Program(args, fs).1 == Exited(0);
  }

  /** Otherwise, when the start directory can be searched, the run ends with its own line at
      level 1 with the total of the whole tree (the limit is at least 1). */
  lemma RootLineLast(args: seq<string>, fs: string -> Directory)
    requires Parse(args).outcome == Proceed && !Parse(args).options.totalOnly
    requires fs(Parse(args).options.path).Found?
    ensures var (lines, exit) := Program(args, fs);
      var path := Parse(args).options.path;
      exit == Exited(0) && |lines| >= 1 &&
      lines[|lines| - 1] == Report(path, 1, Normal(DirBytes(fs(path))))
  {
    ParseLimitValid(Defaults, args);
  }
}
