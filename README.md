# edu — Extended Disk Usage, modelled in Dafny

edu walks a directory tree. It adds the size of every file to an exact byte counter kept as
a pair (whole megabytes, leftover bytes). For each directory within a display depth it prints
that directory's total in megabytes, children before their parent. In totals-only mode it
prints only the grand total. Three revisions of the program are modelled, each in its own
module:

- `EduCSharp` — the C# revision (`EDUCSharp.cs`). The program object holds the option fields.
  Files are listed first, then subdirectories, each listing in its own `try`. The start
  directory is level 0, and a directory prints when `level < limit`. Options are read left
  to right. There is a `/showerrors` option. A bad `/level` falls back to 999 with a warning.
- `EduWin32` — the Win32 C++ revision (`EDU.cpp`). It uses a `FindFirstFile`/`FindNextFile`
  loop and the size `nFileSizeHigh * MAXDWORD + nFileSizeLow`, computed in 32 bits. The start
  directory is level 1, and a directory prints when `level <= limit`. The `while(--argc)` loop
  reads the arguments from last to first. A `/level` outside 1..999 exits with status 1.
- `EduUnix` — the portable C revision (`edu.c`) with its UNIX branch selected. It uses
  `opendir`/`readdir`/`lstat`. Symbolic links and entries whose `lstat` fails are skipped. A
  directory whose name is "." followed by NUL or '.' is not followed. A failed `opendir`
  prints an error. `/?` is not a help option here.

They share two modules. `Megabytes` holds the accumulator pair, the closed form of the
`Add` loop and the facts about canonical pairs. `Text` holds the character and number
helpers the argument loops call: `toupper`/`Char.ToUpper` on ASCII, `atoi`, `strchr` or
`String.IndexOf`, and decimal digits. `CrossVersion` relates the three revisions on one
directory tree.

The file system is an input to the model. A `Directory` value says what the listing calls
report for one directory; `fs` maps a start path to its tree. The console is the sequence of
`Line` values printed, and the exit status is an `Exit`. Each revision has these parts:

- `Add`: a method with the normalising loop. It is proved to compute `Megabytes.Added`.
- `DirectoryTotal`: a recursive method over the tree. It is proved to return
  `Normal(DirBytes(dir))` and to print `Output(dir, …)`.
- `Run` (`main`): it reproduces the argument loop and is proved equal to the function
  `Program`.

In the C# revision the option fields live in the class `Edu`, whose `ParseArguments` method
updates them argument by argument.

## Model

| member | source | states |
|---|---|---|
| Megabytes.Normal | EDUCSharp.cs:152-169 | the canonical pair for a byte count stands for exactly that count, its leftover bytes are at most MEGABYTE, and they are 0 only for the empty count |
| Megabytes.Added | EDUCSharp.cs:152-169 | closed form of `Add`: the value grows by exactly `megs * MEGABYTE + bytes`, the leftover bytes end at most MEGABYTE, and the result is the plain field-wise sum exactly when that sum's byte field is already at most MEGABYTE (the loop does not run) |
| Megabytes.CarryStep | EDUCSharp.cs:163-167 | one pass of the normalising loop (one megabyte more, MEGABYTE bytes fewer) leaves the closed form unchanged |
| Megabytes.CanonicalIsNormal | EDUCSharp.cs:163-167 | a pair with leftover bytes in 1..MEGABYTE (or the empty pair) is determined by the byte count it stands for |
| Megabytes.AddedNormal | EDUCSharp.cs:250 | adding a file length `(0, n)` or a canonical subtotal to a canonical total gives the canonical pair of the summed count |
| Megabytes.AccumulateIsNormal | EDUCSharp.cs:200-251 | any sequence of such additions starting from (0, 0) ends at the canonical pair of the total byte count |
| Megabytes.AccumulateOrderFree | EDUCSharp.cs:200-251 | the final pair depends only on the byte count added, not on the enumeration order or on how the additions are grouped |
| Megabytes.RemainderBoundary | EDUCSharp.cs:163 | the strict `>` guard: a byte field of exactly MEGABYTE is kept, and any larger one is reduced into 1..MEGABYTE with at least one megabyte carried |
| Text.ToUpper | EDU.cpp:274 | `toupper` on ASCII: a lower-case letter becomes its capital, and every other character is unchanged |
| Text.DigitRun | edu.c:406 | the leading run `atoi` reads: all decimal digits, followed by a non-digit or the end |
| Text.SkipSpaces | edu.c:406 | the leading white space `atoi` skips: the result is a suffix of the text, everything dropped is white space, and the result is empty or starts with a non-space |
| Text.Atoi | edu.c:406 | `atoi`: a negative result needs a '-' after the leading white space, and a non-zero result needs a digit in the text |
| Text.TrimEnd | EDUCSharp.cs:408 | the trailing white space the conversion tolerates: the rest is a prefix that does not end in white space, and only white space was dropped |
| Text.Decimal | EDUCSharp.cs:408 | a decimal spelling: at least one digit, and no leading zero |
| Text.DecimalRoundTrip | EDUCSharp.cs:408 | reading the decimal spelling of `n` back gives `n` |
| Text.DigitRunOf | edu.c:406 | digits followed by a non-digit: the run read is exactly those digits |
| Text.AtoiOfDecimal | edu.c:406 | `atoi` of a decimal number followed by a non-digit returns that number |
| Text.AtoiOfNegativeDecimal | edu.c:406 | `atoi` of '-' and a decimal number returns its negation |
| Text.AtoiNoDigits | edu.c:406 | `atoi` of a text with no digit after its white space and optional sign returns 0 |
| Text.IndexOf | EDUCSharp.cs:390 | the first position of the character, or -1 exactly when it does not occur |
| Text.IndexOfFirst | edu.c:399 | in `prefix + c + rest` with `c` not in `prefix`, `c` is found at `|prefix|` whatever `rest` holds |
| EduCSharp.Add | EDUCSharp.cs:152-169 | the loop computes `Added`: the value grows by exactly the addend, and the leftover bytes end at most MEGABYTE |
| EduCSharp.FilesTotal | EDUCSharp.cs:190-222 | the first `try` block returns the canonical pair of the bytes of the files listed before the list ends or a `Length` throws, and reports exactly whether the `catch` ran |
| EduCSharp.IsOptionChar | EDUCSharp.cs:303-314 | '/' and '-' are the option characters, and no other character is |
| EduCSharp.StepOf | EDUCSharp.cs:336-435 | one argument: it stops the loop exactly when it is empty, a lone option character or a help option; otherwise `/t` and `/s` set their flags, `/l` sets the limit `LevelOption` gives, and every other argument names the start directory |
| EduCSharp.OptionCharsAlike | EDUCSharp.cs:303-314 | '/' and '-' lead to the same step for every option, and an argument starting with any other character names the start directory |
| EduCSharp.ToInt32 | EDUCSharp.cs:408 | `Convert.ToInt32` returns a value only within the 32-bit range |
| EduCSharp.LevelOption | EDUCSharp.cs:388-427 | the `/level` branch always leaves a limit of at least 1; a limit other than 999 comes with no warning, or only the missing-'=' one |
| EduCSharp.LevelStatements | EDUCSharp.cs:390-425 | the branch's statements on a local limit compute `LevelOption` |
| EduCSharp.ConversionStatements | EDUCSharp.cs:406-425 | the `try`/`catch` around the conversion and the not-positive test: a failed conversion or a value of 0 or less leaves 999 with one more warning, and any other value is kept with none |
| EduCSharp.WarnLines | EDUCSharp.cs:399 | one warning line per warning, in order |
| EduCSharp.Edu.constructor | EDUCSharp.cs:113-116 | the field initialisers: not totals-only, limit 999, start directory ".", errors hidden |
| EduCSharp.Edu.ReadArgument | EDUCSharp.cs:336-435 | the loop body on one argument: an empty argument or a lone option character ends the loop with the index exception, help ends it too, and either way the fields are unchanged; otherwise the fields and the warnings are exactly those of `StepOf` |
| EduCSharp.Edu.ParseArguments | EDUCSharp.cs:331-437 | the `foreach` loop over the object's fields: the outcome, the new fields and the warnings printed are those of `ParseFrom` from the old fields |
| EduCSharp.Edu.DirectoryTotal | EDUCSharp.cs:176-296 | returns the canonical pair of the bytes of the tree, and prints exactly `Output`: the file-listing error, the subdirectories' lines, then its own line |
| EduCSharp.Edu.SubdirsTotal | EDUCSharp.cs:243-251 | the subdirectory loop returns the canonical pair of `number` plus the bytes of every subdirectory, and prints their lines in listing order |
| EduCSharp.Program | EDUCSharp.cs:321-463 | the whole run crashes exactly when the argument loop hits the index exception, ends with 0 otherwise, and prints the level warnings first |
| EduCSharp.Run | EDUCSharp.cs:321-463 | `Main` prints and ends exactly as `Program` says |
| EduCSharp.ReportsGated | EDUCSharp.cs:276-289 | directory lines appear only at `level` or deeper and below the limit, and never in totals-only mode; the walk ends with the directory's own line, printed exactly when totals-only is off and `level < limit`; every earlier line is deeper (post-order) |
| EduCSharp.SubdirsReportsGated | EDUCSharp.cs:243-251 | the lines of the subdirectory walks are directory lines at their level or deeper, below the limit |
| EduCSharp.QuietWithoutShowErrors | EDUCSharp.cs:218-221 | without `/showerrors` the walk prints only directory lines |
| EduCSharp.SubdirsQuiet | EDUCSharp.cs:259-262 | the same for the subdirectory walks |
| EduCSharp.LengthsUpToThrow | EDUCSharp.cs:200-213 | a `Length` that throws ends the file loop: the files after it are not counted, and the `catch` runs |
| EduCSharp.FailedListingStillReported | EDUCSharp.cs:254-289 | a failing subdirectory listing still leaves the directory's own line with the total of its files; with both listings failing the total is (0, 0) |
| EduCSharp.FileAddends | EDUCSharp.cs:210 | every file is added as `(0, length)`: no addend carries megabytes |
| EduCSharp.LengthAddends | EDUCSharp.cs:200-211 | the same for the lengths of one listing |
| EduCSharp.SubdirsAddends | EDUCSharp.cs:243-251 | the same for all files below the subdirectories |
| EduCSharp.MergedEqualsFlat | EDUCSharp.cs:245-250 | merging canonical subtotals gives the same pair as adding every counted file length, in walk order, to one accumulator |
| EduCSharp.FileAddendsSum | EDUCSharp.cs:190-251 | the file addends of a tree sum to its byte count |
| EduCSharp.LengthAddendsSum | EDUCSharp.cs:200-211 | the addends of one listing sum to its counted bytes |
| EduCSharp.SubdirsAddendsSum | EDUCSharp.cs:243-251 | the addends below the subdirectories sum to their bytes |
| EduCSharp.ToInt32OfDigits | EDUCSharp.cs:408 | a decimal string converts to its value exactly when that is at most 2^31 - 1 |
| EduCSharp.ToInt32OfNegativeDigits | EDUCSharp.cs:408 | '-' and a decimal string convert to the negation exactly when it is at least -2^31 |
| EduCSharp.LevelWithoutEquals | EDUCSharp.cs:395-415 | a level option without '=' prints both the missing-'=' and the conversion warning (the whole argument is converted) and leaves 999 |
| EduCSharp.LevelWithEquals | EDUCSharp.cs:406-425 | with an '=', what follows the first '=' decides: no conversion gives 999 with the conversion warning, a value of 0 or less gives 999 with the not-positive warning, and any other value is taken |
| EduCSharp.LevelAccepted | EDUCSharp.cs:408 | every level in 1..2^31 - 1 is taken with no warning, values above 999 included |
| EduCSharp.LevelNotPositiveDefaults | EDUCSharp.cs:420-425 | a negative level gives 999 with the not-positive warning |
| EduCSharp.LevelZeroDefaults | EDUCSharp.cs:420-425 | a level of 0 gives 999 with the not-positive warning |
| EduCSharp.LevelUnconvertible | EDUCSharp.cs:410-415 | a level beyond 32 bits, or nothing after '=', gives 999 with the conversion warning |
| EduCSharp.ParseFromSnoc | EDUCSharp.cs:331-437 | one more argument after a run that did not stop either stops the loop or applies its step to the options reached |
| EduCSharp.ParseWithoutStop | EDUCSharp.cs:370-435 | with no stopping argument: totals-only and `/showerrors` are set exactly when some argument gives them, and the start directory and the limit come from the LAST argument that sets them; the warnings are those of the level options, in order |
| EduCSharp.ParseStopsAt | EDUCSharp.cs:336-365 | the loop ends at the FIRST stopping argument, with the options and warnings of the arguments before it |
| EduCSharp.ParseLimitPositive | EDUCSharp.cs:420-425 | the limit the loop leaves is always at least 1 |
| EduCSharp.HelpExitsBeforeWalk | EDUCSharp.cs:336-365 | help prints the warnings so far and the usage text, walks nothing, and exits with 0 |
| EduCSharp.TotalsOnlyPrintsGrandTotal | EDUCSharp.cs:449-461 | in totals-only mode no directory line is printed, and the run ends with the grand total of the start directory |
| EduCSharp.RootLineLast | EDUCSharp.cs:449 | otherwise the run ends with the start directory's own line, at level 0, holding the total of the whole tree |
| EduWin32.Add | EDU.cpp:122-139 | the loop computes `Added`: the value grows by exactly the addend, and the leftover bytes end at most MEGABYTE |
| EduWin32.DirectoryTotal | EDU.cpp:146-219 | a failed search returns (0, 0) and prints nothing; otherwise it returns the canonical pair of the bytes found and prints exactly `Output`: the subdirectories' lines in entry order, then its own line |
| EduWin32.EntryTotal | EDU.cpp:182-198 | the loop body on one record keeps the total canonical and adds exactly the record's bytes: the computed file size, the subtree's bytes, or nothing for "." and ".." |
| EduWin32.IsDotName | EDU.cpp:184 | the two records the walker does not follow, "." and ".." |
| EduWin32.FileSize | EDU.cpp:195 | the size as computed in 32-bit DWORD arithmetic: below 2^32, and equal to the low word when the high word is 0 |
| EduWin32.DotFiltering | EDU.cpp:182-198 | "." and ".." count and print nothing; every other directory name, ".x" and "..x" included, is walked at the next level with the path `parent\name` |
| EduWin32.IsOptionChar | EDU.cpp:226-237 | '/' and '-' are the option characters, and no other character is |
| EduWin32.LimitOf | EDU.cpp:301-312 | the `strchr` miss: without '=' the level is 999 (the `atoi` branch is stated by `LimitOfDecimal` and `NonNumericLimitRefused`) |
| EduWin32.StepOf | EDU.cpp:274-323 | one argument: it stops the loop exactly when it is a help option or a level option outside 1..999; otherwise `/t` sets totals-only, `/l` sets the limit, and every other argument names the path |
| EduWin32.OptionCharsAlike | EDU.cpp:226-237 | '/' and '-' lead to the same step for every option, and an argument starting with any other character names the path |
| EduWin32.NonNumericLimitRefused | EDU.cpp:303-318 | a level option whose text after '=' is not numeric asks for 0, which is refused |
| EduWin32.LimitOfDecimal | EDU.cpp:303-312 | a level option with '=' and a decimal number asks for that number, and one without '=' asks for 999 |
| EduWin32.Program | EDU.cpp:244-343 | the whole run exits with 1 exactly when a bad level stops the loop, with 0 otherwise, and prints the usage text exactly when help stops it |
| EduWin32.Run | EDU.cpp:244-343 | `main` prints and ends exactly as `Program` says |
| EduWin32.FileSizeTrueOnlyWhenSmall | EDU.cpp:195 | the computed size equals the true size `high * 2^32 + low` exactly when the high word is 0 |
| EduWin32.FileSizeSubtracts | EDU.cpp:195 | the computed size is `low - high` modulo 2^32, so a file of 4 GiB and 10 bytes counts as 9 bytes |
| EduWin32.ReportsGated | EDU.cpp:206-213 | the walk prints only directory lines, at `level` or deeper and at most the limit, and none in totals-only mode; a directory whose search succeeds ends with its own line, printed exactly when totals-only is off and `level <= limit`, after its deeper subdirectories' lines |
| EduWin32.EntryReportsGated | EDU.cpp:184-191 | the lines of one record are those of a subdirectory one level deeper |
| EduWin32.EntriesReportsGated | EDU.cpp:180-204 | the lines of all records are at least one level deeper |
| EduWin32.TotalsOnlySilent | EDU.cpp:206 | in totals-only mode the walk prints nothing |
| EduWin32.EntryTotalsOnlySilent | EDU.cpp:186-190 | the same for the walk of one record |
| EduWin32.EntriesTotalsOnlySilent | EDU.cpp:180-204 | the same for the walk of all records |
| EduWin32.FirstPathSnoc | EDU.cpp:320-323 | the `strcpy` of a later argument is overwritten by that of an earlier one: adding an argument at the end only supplies a new default path |
| EduWin32.FirstLimitSnoc | EDU.cpp:301-319 | the same for the limit of a level option |
| EduWin32.ParseWithoutStop | EDU.cpp:269-325 | with no stopping argument, reading from last to first leaves the path and the limit of the FIRST argument that sets them, and totals-only set exactly when some argument asks for it |
| EduWin32.ParseStopsAt | EDU.cpp:269-325 | the loop ends at the LAST stopping argument, with the options that the arguments after it left |
| EduWin32.ParseLimitValid | EDU.cpp:314-318 | whenever the loop reads every argument, the limit it leaves is in 1..999 |
| EduWin32.StoppedBeforeWalk | EDU.cpp:274-318 | the last stopping argument decides: help prints the usage text and exits with 0, and a bad level prints the limit message and exits with 1; nothing is walked |
| EduWin32.TotalsOnlyPrintsGrandTotal | EDU.cpp:330-339 | in totals-only mode the only line printed is the grand total of the path |
| EduWin32.RootLineLast | EDU.cpp:330 | otherwise, when the path can be searched, the run ends with its own line at level 1, holding the total of the whole tree |
| EduUnix.Add | edu.c:190-204 | the loop computes `Added`: the value grows by exactly the addend, and the leftover bytes end at most MEGABYTE |
| EduUnix.DirectoryTotal | edu.c:216-341 | a failed `opendir` prints the error and returns (0, 0); otherwise it returns the canonical pair of the bytes found and prints exactly `Output`: the subdirectories' lines in `readdir` order, then its own line |
| EduUnix.EntryTotal | edu.c:251-290 | the loop body on one record keeps the total canonical and adds exactly the record's bytes: nothing when `lstat` fails, for a symbolic link or for a dot name, the subtree for a directory, and `st_size` otherwise |
| EduUnix.IsDotName | edu.c:273-279 | a name that is '.' followed by the end of the name or by a second '.' is not followed |
| EduUnix.IsOptionChar | edu.c:347-357 | '/' and '-' are the option characters, and no other character is |
| EduUnix.LimitOf | edu.c:397-407 | the `strchr` miss: without '=' the level is 999 (the `atoi` branch is stated by `LimitOfDecimal` and `NonNumericLimitRefused`) |
| EduUnix.StepOf | edu.c:380-418 | one argument: it stops the loop exactly when it is a help option or a level option outside 1..999; otherwise `/t` sets totals-only, `/l` sets the limit, and every other argument names the path |
| EduUnix.OptionCharsAlike | edu.c:347-357 | '/' and '-' lead to the same step for every option, and an argument starting with any other character names the path |
| EduUnix.Program | edu.c:360-430 | the whole run exits with 1 exactly when a bad level stops the loop, with 0 otherwise, and prints something whenever the walk runs |
| EduUnix.Run | edu.c:360-430 | `main` prints and ends exactly as `Program` says |
| EduUnix.DotFiltering | edu.c:271-283 | ".", ".." and every directory name starting with two dots count and print nothing, while ".x" is walked at the next level with the path `parent/name` |
| EduUnix.ReportsGated | edu.c:327-332 | directory lines appear only at `level` or deeper and at most the limit, and none in totals-only mode; all other lines are `opendir` errors; an opened directory ends with its own line, printed exactly when totals-only is off and `level <= limit`, after its deeper subdirectories' lines |
| EduUnix.EntryReportsGated | edu.c:271-286 | the lines of one record come from a subdirectory one level deeper |
| EduUnix.EntriesReportsGated | edu.c:249-291 | the lines of all records are at least one level deeper |
| EduUnix.UnderJoin | edu.c:281 | a path below `dirname/name` is below `dirname` |
| EduUnix.PathsBelowStart | edu.c:281-283 | every line of the walk names the start path or a path built below it with '/' |
| EduUnix.EntryPathsBelow | edu.c:281-283 | the same for the walk of one record |
| EduUnix.EntriesPathsBelow | edu.c:249-291 | the same for the walk of all records |
| EduUnix.FirstPathSnoc | edu.c:415-418 | the `strcpy` of a later argument is overwritten by that of an earlier one: adding an argument at the end only supplies a new default path |
| EduUnix.FirstLimitSnoc | edu.c:397-414 | the same for the limit of a level option |
| EduUnix.ParseWithoutStop | edu.c:378-420 | with no stopping argument, reading from last to first leaves the path and the limit of the FIRST argument that sets them, and totals-only set exactly when some argument asks for it |
| EduUnix.QuestionMarkNamesPath | edu.c:380-418 | an option character followed by '?' or 's' (either case) is no option in this revision: whatever follows, the argument names the start directory and the loop goes on |
| EduUnix.ParseStopsAt | edu.c:378-420 | the loop ends at the LAST stopping argument, with the options that the arguments after it left |
| EduUnix.ParseLimitValid | edu.c:409-413 | whenever the loop reads every argument, the limit it leaves is in 1..999 |
| EduUnix.NonNumericLimitRefused | edu.c:399-413 | a level option whose text after '=' is not numeric asks for 0, which is refused |
| EduUnix.LimitOfDecimal | edu.c:399-407 | a level option with '=' and a decimal number asks for that number, and one without '=' asks for 999 |
| EduUnix.StoppedBeforeWalk | edu.c:380-413 | the last stopping argument decides: help prints the usage text and exits with 0, and a bad level prints the limit message and exits with 1; nothing is walked |
| EduUnix.TotalsOnlyPrintsGrandTotal | edu.c:423-427 | in totals-only mode the run ends with the grand total, and every earlier line is an `opendir` error |
| EduUnix.RootLineLast | edu.c:423 | otherwise, when the path opens, the run ends with its own line at level 1, holding the total of the whole tree |
| CrossVersion.CLengthsRead | EDUCSharp.cs:200-211 | the files of a tree, given to the C# walker, are all counted |
| CrossVersion.SubdirsCons | EDUCSharp.cs:243-251 | the subdirectory loop read from its first element: the first subtree's bytes and lines come before the rest's |
| CrossVersion.CSharpBytes | EDUCSharp.cs:176-296 | the C# walker counts exactly the bytes of the tree, and its file loop never reaches the `catch` |
| CrossVersion.CSubdirsBytes | EDUCSharp.cs:243-251 | the same for the subdirectories |
| CrossVersion.CSharpGated | EDUCSharp.cs:276-289 | the C# directory lines of a tree walked from depth `d` are the reference records: every directory less than `limit` steps below the start, in post-order, with its total |
| CrossVersion.CSubdirsGated | EDUCSharp.cs:243-251 | the same for the subdirectories |
| CrossVersion.WFilesRead | EDU.cpp:195-197 | files under 4 GiB, given as their two DWORD halves, are counted at their true size and print nothing |
| CrossVersion.WinEntriesSplit | EDU.cpp:180-204 | the records ".", "..", the files and the subdirectories contribute only through the files' sizes and the subdirectories |
| CrossVersion.Win32Bytes | EDU.cpp:146-219 | on a tree without files of 4 GiB or more, the C++ walker counts exactly its bytes |
| CrossVersion.WNodesBytes | EDU.cpp:184-191 | the same for the subdirectory records |
| CrossVersion.Win32Gated | EDU.cpp:206-213 | the C++ directory lines, walked from level `d + 1` with `<=`, are the reference records at depth `d` |
| CrossVersion.WNodesGated | EDU.cpp:184-191 | the same for the subdirectory records |
| CrossVersion.UFilesRead | edu.c:287-290 | the `st_size` of every file is counted, and files print nothing |
| CrossVersion.UnixEntriesSplit | edu.c:249-291 | the records ".", "..", the files and the subdirectories contribute only through the files' sizes and the subdirectories |
| CrossVersion.UnixBytes | edu.c:216-341 | the C walker counts exactly the bytes of the tree |
| CrossVersion.UNodesBytes | edu.c:271-286 | the same for the subdirectory records |
| CrossVersion.UnixGated | edu.c:327-332 | the C directory lines, walked from level `d + 1` with `<=`, are the reference records at depth `d`, with paths joined by '/' |
| CrossVersion.UNodesGated | edu.c:271-286 | the same for the subdirectory records |
| CrossVersion.SameTotals | EDUCSharp.cs:449 | on a tree that all three read alike, the three walkers count the same bytes |
| CrossVersion.SameNodesGated | EDUCSharp.cs:281 | with the same limit, C#'s `level < limit` from 0 and C/C++'s `level <= limit` from 1 print the same directories in the same order with the same totals; C# and C++ print the same paths, and C differs only in the separator |
| CrossVersion.LargeFileMiscounted | EDU.cpp:195 | a single 4 GiB file: the C# and C walkers count 2^32 bytes, the C++ walker 2^32 - 1 |

## Left out

- Output formatting: the megabyte figure is printed as a floating-point number (`%12.2lf`,
  `{0,12:##0.00}`). The model keeps the exact pair each line is computed from. Usage text,
  message wording and the `perror` detail are not modelled.
- Integer widths of the accumulator: the `ulong`, `DWORD64` and `unsigned long` fields are
  unbounded here. No realistic tree overflows 64 bits of megabytes.
- EduWin32.EntryTotal: the `(unsigned long)` cast on a subtotal's byte field is written out
  (`ULong`). It never changes the value, because a subtotal's byte field is at most MEGABYTE.
- EduUnix.EntryTotal: `st_size` is taken at its value. The truncating `(unsigned long)` cast
  is not modelled, because on a 32-bit platform its width depends on the platform.
- The file size of EDU.cpp, `nFileSizeHigh * MAXDWORD + nFileSizeLow` in 32-bit arithmetic,
  is modelled as written. `FileSizeSubtracts` and `LargeFileMiscounted` show that it differs
  from the true size for files of 4 GiB or more.
- Path joining is modelled as string concatenation with the separator ('\\' for C# and
  C++, '/' for C). `Directory.EnumerateDirectories` returning full paths is taken to be the
  same concatenation.
- `Char.ToUpper` and `toupper` are modelled on ASCII only. Culture-specific case mappings
  are left out.
- EduCSharp.ToInt32: it accepts white space, an optional sign and decimal digits within
  32 bits. Culture-specific formats and other characters `Convert.ToInt32` might accept are
  not modelled.
- `atoi` is modelled with unbounded integers. Its behaviour on overflow is undefined in C.
- The file system is a finite tree given as input. Cycles through junctions or links, and a
  tree that changes during the walk, are not modelled. `FindClose` and `closedir` are not
  modelled.
- A `FindFirstFile` that returns no entry at all is treated as a failed search, which
  prints and counts nothing, as the code does.
- The WIN95 branch of edu.c (`_findfirst`/`_findnext`) and its DOS/OS2 `stat` branch are
  not modelled: the UNIX branch is selected.
- Fixed-size buffers (`MAXPATHLEN`, `MAX_PATH + FILENAME_MAX + 1`) and the overflows
  `sprintf` and `strcpy` can cause on long paths are not modelled.
- The unused `szFileSpec`/`filespec` strings built after each `FindNextFile` and
  `_findnext` are not modelled. In edu.c the `filespec` given to `lstat` becomes the
  `Entry`'s `stat`.
- `argc == 0` and arguments containing NUL characters are not modelled. A character
  past the end of a C argument reads as its NUL terminator.
- Standard error and standard output are one sequence of lines. Their interleaving on a
  terminal is not modelled.
- In the C# revision an empty argument, or a lone '/' or '-', throws
  `IndexOutOfRangeException` from `szArgv[0]` or `szArgv[1]`. It is modelled as the
  `Crashed` exit, after the warnings printed so far. A one-character argument that is not
  an option character names the start directory.
- Where the code and its documentation disagree, the model follows the code:
  - The C# revision accepts any positive 32-bit `/level`, including values above 999.
  - The C# revision numbers the start directory 0 and prints when `level < limit`, one
    below the C and C++ revisions' numbering with `<=`. `CrossVersion.SameNodesGated`
    shows that the two conventions select the same directories.
