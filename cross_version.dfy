/** The three revisions side by side on a directory tree that each of them reads without
    failure: they find the same byte count, and their depth gating selects the same
    directories, in the same post-order, with the same totals, even though the C# revision
    numbers the start directory 0 and prints below the limit while the C and C++ revisions
    number it 1 and print up to the limit. */
module CrossVersion {
  import opened Megabytes
  import opened Text
  import C = EduCSharp
  import W = EduWin32
  import U = EduUnix

  /** A file and its size. */
  datatype File = File(name: string, size: nat)

  /** A directory: its files and its named subdirectories, in enumeration order. */
  datatype Tree = Tree(files: seq<File>, subdirs: seq<Node>)

  datatype Node = Node(name: string, tree: Tree)

  const WORD: nat := 0x1_0000_0000

  // ---------------------------------------------------------------------------------------
  // The reference: what a disk-usage walk of a tree should report

  function FilesSize(files: seq<File>): nat
  {
    if files == [] then 0 else files[0].size + FilesSize(files[1..])
  }

  /** Bytes under a tree. */
  function Bytes(t: Tree): nat
    decreases t, 1
  {
    FilesSize(t.files) + NodesBytes(t.subdirs)
  }

  function NodesBytes(nodes: seq<Node>): nat
    decreases nodes, 0
  {
    if nodes == [] then 0 else Bytes(nodes[0].tree) + NodesBytes(nodes[1..])
  }

  /** One printed directory: its path, its distance from the start directory, its total. */
  datatype Record = Record(path: string, depth: int, total: Total)

  /** Every directory at distance below `limit` from the start, children before parents,
      with paths joined by `sep`. */
  function Gated(t: Tree, path: string, sep: char, depth: int, limit: int): seq<Record>
    decreases t, 1
  {
    NodesGated(t.subdirs, path, sep, depth + 1, limit)
    + (if depth < limit then [Record(path, depth, Normal(Bytes(t)))] else [])
  }

  function NodesGated(nodes: seq<Node>, parent: string, sep: char, depth: int, limit: int): seq<Record>
    decreases nodes, 0
  {
    if nodes == [] then []
    else Gated(nodes[0].tree, parent + [sep] + nodes[0].name, sep, depth, limit)
         + NodesGated(nodes[1..], parent, sep, depth, limit)
  }

  /** Trees the three revisions read alike: no subdirectory is named like "." or ".." (nor,
      for edu.c, "..x"), and every file is under 4 GiB. */
  predicate Plain(t: Tree)
    decreases t, 1
  {
    (forall i :: 0 <= i < |t.files| ==> t.files[i].size < WORD) && NodesPlain(t.subdirs)
  }

  predicate NodesPlain(nodes: seq<Node>)
    decreases nodes, 0
  {
    nodes == [] || (!U.IsDotName(nodes[0].name) && Plain(nodes[0].tree) && NodesPlain(nodes[1..]))
  }

  // ---------------------------------------------------------------------------------------
  // The tree as each revision's file-system input

  function CLengths(files: seq<File>): seq<C.Length>
  {
    if files == [] then [] else [C.Length(files[0].size)] + CLengths(files[1..])
  }

  /** What the .NET enumerations report for the tree: every file and subdirectory listed. */
  function ToCSharp(t: Tree): C.Directory
    decreases t, 1
  {
    C.Directory(C.Files(CLengths(t.files)), C.Dirs(CSubdirs(t.subdirs)))
  }

  function CSubdirs(nodes: seq<Node>): seq<C.Subdir>
    decreases nodes, 0
  {
    if nodes == [] then [] else [C.Subdir(nodes[0].name, ToCSharp(nodes[0].tree))] + CSubdirs(nodes[1..])
  }

  /** The two DWORD halves of a size below 2^64. */
  function WFiles(files: seq<File>): seq<W.Entry>
  {
    if files == [] then []
    else [W.FileEntry(files[0].name, ((files[0].size / WORD) % WORD) as W.dword, (files[0].size % WORD) as W.dword)]
         + WFiles(files[1..])
  }

  /** What `FindFirstFile`/`FindNextFile` report for the tree: ".", "..", the files, then
      the subdirectories. */
  function ToWin32(t: Tree): W.Directory
    decreases t, 1
  {
    W.Found(W.DirEntry(".", W.FindFails), [W.DirEntry("..", W.FindFails)] + WFiles(t.files) + WNodes(t.subdirs))
  }

  function WNodes(nodes: seq<Node>): seq<W.Entry>
    decreases nodes, 0
  {
    if nodes == [] then [] else [W.DirEntry(nodes[0].name, ToWin32(nodes[0].tree))] + WNodes(nodes[1..])
  }

  function UFiles(files: seq<File>): seq<U.Entry>
  {
    if files == [] then [] else [U.Entry(files[0].name, U.NonDir(files[0].size))] + UFiles(files[1..])
  }

  /** What `readdir` and `lstat` report for the tree: ".", "..", the files, then the
      subdirectories. */
  function ToUnix(t: Tree): U.Directory
    decreases t, 1
  {
    U.Opened([U.Entry(".", U.Dir(U.OpenFails)), U.Entry("..", U.Dir(U.OpenFails))] + UFiles(t.files) + UNodes(t.subdirs))
  }

  function UNodes(nodes: seq<Node>): seq<U.Entry>
    decreases nodes, 0
  {
    if nodes == [] then [] else [U.Entry(nodes[0].name, U.Dir(ToUnix(nodes[0].tree)))] + UNodes(nodes[1..])
  }

  // ---------------------------------------------------------------------------------------
  // The directory lines of each revision, with the level counted from the start directory

  function CRecords(lines: seq<C.Line>): seq<Record>
  {
    if lines == [] then []
    else (if lines[0].Report? then [Record(lines[0].path, lines[0].level, lines[0].total)] else [])
         + CRecords(lines[1..])
  }

  function WRecords(lines: seq<W.Line>): seq<Record>
  {
    if lines == [] then []
    else (if lines[0].Report? then [Record(lines[0].path, lines[0].level - 1, lines[0].total)] else [])
         + WRecords(lines[1..])
  }

  function URecords(lines: seq<U.Line>): seq<Record>
  {
    if lines == [] then []
    else (if lines[0].Report? then [Record(lines[0].path, lines[0].level - 1, lines[0].total)] else [])
         + URecords(lines[1..])
  }

  lemma {:induction false} CRecordsAppend(a: seq<C.Line>, b: seq<C.Line>)
    ensures CRecords(a + b) == CRecords(a) + CRecords(b)
  {
    if a != [] {
      assert (a + b)[0] == a[0] && (a + b)[1..] == a[1..] + b;
      CRecordsAppend(a[1..], b);
    } else {
      assert a + b == b;
    }
  }

  lemma {:induction false} WRecordsAppend(a: seq<W.Line>, b: seq<W.Line>)
    ensures WRecords(a + b) == WRecords(a) + WRecords(b)
  {
    if a != [] {
      assert (a + b)[0] == a[0] && (a + b)[1..] == a[1..] + b;
      WRecordsAppend(a[1..], b);
    } else {
      assert a + b == b;
    }
  }

  lemma {:induction false} URecordsAppend(a: seq<U.Line>, b: seq<U.Line>)
    ensures URecords(a + b) == URecords(a) + URecords(b)
  {
    if a != [] {
      assert (a + b)[0] == a[0] && (a + b)[1..] == a[1..] + b;
      URecordsAppend(a[1..], b);
    } else {
      assert a + b == b;
    }
  }

  // ---------------------------------------------------------------------------------------
  // The C# revision

  lemma {:induction false} CLengthsRead(files: seq<File>)
    ensures C.LengthsBytes(CLengths(files)) == FilesSize(files)
    ensures forall i :: 0 <= i < |CLengths(files)| ==> CLengths(files)[i].Length?
  {
    if files != [] {
      CLengthsRead(files[1..]);
      assert CLengths(files)[1..] == CLengths(files[1..]);
    }
  }

  /** The left-to-right merge of subdirectory totals, read from the first subdirectory. */
  lemma {:induction false} SubdirsCons(x: C.Subdir, rest: seq<C.Subdir>, parent: string, level: int, s: C.Display)
    ensures C.SubdirsBytes([x] + rest) == C.DirBytes(x.dir) + C.SubdirsBytes(rest)
    ensures C.SubdirsOutput([x] + rest, parent, level, s) ==
      C.Output(x.dir, C.Join(parent, x.name), level, s) + C.SubdirsOutput(rest, parent, level, s)
  {
    var all := [x] + rest;
    if rest == [] {
      assert all[..|all| - 1] == [];
    } else {
      var init := rest[..|rest| - 1];
      assert all[..|all| - 1] == [x] + init;
      assert all[|all| - 1] == rest[|rest| - 1];
      SubdirsCons(x, init, parent, level, s);
    }
  }

  lemma {:induction false} CSharpBytes(t: Tree)
    decreases t, 1
    ensures C.DirBytes(ToCSharp(t)) == Bytes(t)
    ensures !C.FilesCaught(ToCSharp(t).files)
  {
    CLengthsRead(t.files);
    CSubdirsBytes(t.subdirs);
  }

  lemma {:induction false} CSubdirsBytes(nodes: seq<Node>)
    decreases nodes, 0
    ensures C.SubdirsBytes(CSubdirs(nodes)) == NodesBytes(nodes)
  {
    if nodes != [] {
      CSharpBytes(nodes[0].tree);
      CSubdirsBytes(nodes[1..]);
      SubdirsCons(C.Subdir(nodes[0].name, ToCSharp(nodes[0].tree)), CSubdirs(nodes[1..]), "", 0, C.Display(false, 0, false));
    }
  }

  lemma {:induction false} CSharpGated(t: Tree, path: string, depth: int, limit: int, showErrors: bool)
    decreases t, 1
    ensures CRecords(C.Output(ToCSharp(t), path, depth, C.Display(false, limit, showErrors)))
         == Gated(t, path, '\\', depth, limit)
  {
    var s := C.Display(false, limit, showErrors);
    var d := ToCSharp(t);
    CSharpBytes(t);
    CSubdirsGated(t.subdirs, path, depth + 1, limit, showErrors);
    var children := C.SubdirsOutput(CSubdirs(t.subdirs), path, depth + 1, s);
    var own := C.OwnLine(d, path, depth, s);
    assert C.Output(d, path, depth, s) == children + own by {
      assert d.dirs.subdirs == CSubdirs(t.subdirs);
      assert [] + children == children;
    }
    assert CRecords(own) == (if depth < limit then [Record(path, depth, Normal(Bytes(t)))] else []) by {
      if depth < limit {
        assert own[1..] == [];
      }
    }
    CRecordsAppend(children, own);
  }

  lemma {:induction false} CSubdirsGated(nodes: seq<Node>, parent: string, depth: int, limit: int, showErrors: bool)
    decreases nodes, 0
    ensures CRecords(C.SubdirsOutput(CSubdirs(nodes), parent, depth, C.Display(false, limit, showErrors)))
         == NodesGated(nodes, parent, '\\', depth, limit)
  {
    var s := C.Display(false, limit, showErrors);
    if nodes != [] {
      var x := C.Subdir(nodes[0].name, ToCSharp(nodes[0].tree));
      SubdirsCons(x, CSubdirs(nodes[1..]), parent, depth, s);
      CSharpGated(nodes[0].tree, C.Join(parent, nodes[0].name), depth, limit, showErrors);
      CSubdirsGated(nodes[1..], parent, depth, limit, showErrors);
      CRecordsAppend(C.Output(x.dir, C.Join(parent, x.name), depth, s), C.SubdirsOutput(CSubdirs(nodes[1..]), parent, depth, s));
    }
  }

  // ---------------------------------------------------------------------------------------
  // The Win32 revision

  lemma {:induction false} WEntriesAppend(a: seq<W.Entry>, b: seq<W.Entry>, parent: string, level: int, s: W.Display)
    ensures W.EntriesBytes(a + b) == W.EntriesBytes(a) + W.EntriesBytes(b)
    ensures W.EntriesOutput(a + b, parent, level, s) == W.EntriesOutput(a, parent, level, s) + W.EntriesOutput(b, parent, level, s)
  {
    if a != [] {
      assert (a + b)[0] == a[0] && (a + b)[1..] == a[1..] + b;
      WEntriesAppend(a[1..], b, parent, level, s);
    } else {
      assert a + b == b;
    }
  }

  lemma {:induction false} WFilesRead(files: seq<File>, parent: string, level: int, s: W.Display)
    requires forall i :: 0 <= i < |files| ==> files[i].size < WORD
    ensures W.EntriesBytes(WFiles(files)) == FilesSize(files)
    ensures W.EntriesOutput(WFiles(files), parent, level, s) == []
  {
    if files != [] {
      WFilesRead(files[1..], parent, level, s);
      assert WFiles(files)[1..] == WFiles(files[1..]);
      assert W.FileSize(0, files[0].size as W.dword) == files[0].size;
    }
  }

  /** The entries of a walked tree: the two dot entries, the files, the subdirectories. */
  lemma WinEntriesSplit(t: Tree, path: string, level: int, s: W.Display)
    requires Plain(t)
    ensures var d := ToWin32(t);
      W.DirBytes(d) == W.EntriesBytes(WNodes(t.subdirs)) + FilesSize(t.files) &&
      W.Output(d, path, level, s) == W.EntriesOutput(WNodes(t.subdirs), path, level, s) + W.OwnLine(d, path, level, s)
  {
    var dots := [W.DirEntry("..", W.FindFails)];
    var files := WFiles(t.files);
    var nodes := WNodes(t.subdirs);
    assert W.EntriesBytes(dots) == 0 && W.EntriesOutput(dots, path, level, s) == [] by {
      assert dots[1..] == [];
    }
    WFilesRead(t.files, path, level, s);
    WEntriesAppend(dots, files, path, level, s);
    WEntriesAppend(dots + files, nodes, path, level, s);
  }

  lemma {:induction false} Win32Bytes(t: Tree)
    requires Plain(t)
    decreases t, 1
    ensures W.DirBytes(ToWin32(t)) == Bytes(t)
  {
    WinEntriesSplit(t, "", 0, W.Display(false, 0));
    WNodesBytes(t.subdirs);
  }

  lemma {:induction false} WNodesBytes(nodes: seq<Node>)
    requires NodesPlain(nodes)
    decreases nodes, 0
    ensures W.EntriesBytes(WNodes(nodes)) == NodesBytes(nodes)
  {
    if nodes != [] {
      Win32Bytes(nodes[0].tree);
      WNodesBytes(nodes[1..]);
      assert WNodes(nodes)[1..] == WNodes(nodes[1..]);
    }
  }

  lemma {:induction false} Win32Gated(t: Tree, path: string, depth: int, limit: int)
    requires Plain(t)
    decreases t, 1
    ensures WRecords(W.Output(ToWin32(t), path, depth + 1, W.Display(false, limit))) == Gated(t, path, '\\', depth, limit)
  {
    var s := W.Display(false, limit);
    var d := ToWin32(t);
    WinEntriesSplit(t, path, depth + 1, s);
    Win32Bytes(t);
    WNodesGated(t.subdirs, path, depth + 1, limit);
    WRecordsAppend(W.EntriesOutput(WNodes(t.subdirs), path, depth + 1, s), W.OwnLine(d, path, depth + 1, s));
  }

  lemma {:induction false} WNodesGated(nodes: seq<Node>, parent: string, depth: int, limit: int)
    requires NodesPlain(nodes)
    decreases nodes, 0
    ensures WRecords(W.EntriesOutput(WNodes(nodes), parent, depth, W.Display(false, limit)))
         == NodesGated(nodes, parent, '\\', depth, limit)
  {
    var s := W.Display(false, limit);
    if nodes != [] {
      var es := WNodes(nodes);
      assert es[1..] == WNodes(nodes[1..]);
      assert !W.IsDotName(nodes[0].name);
      Win32Gated(nodes[0].tree, W.Join(parent, nodes[0].name), depth, limit);
      WNodesGated(nodes[1..], parent, depth, limit);
      WRecordsAppend(W.EntryOutput(es[0], parent, depth, s), W.EntriesOutput(es[1..], parent, depth, s));
    }
  }

  // ---------------------------------------------------------------------------------------
  // The UNIX revision

  lemma {:induction false} UEntriesAppend(a: seq<U.Entry>, b: seq<U.Entry>, parent: string, level: int, s: U.Display)
    ensures U.EntriesBytes(a + b) == U.EntriesBytes(a) + U.EntriesBytes(b)
    ensures U.EntriesOutput(a + b, parent, level, s) == U.EntriesOutput(a, parent, level, s) + U.EntriesOutput(b, parent, level, s)
  {
    if a != [] {
      assert (a + b)[0] == a[0] && (a + b)[1..] == a[1..] + b;
      UEntriesAppend(a[1..], b, parent, level, s);
    } else {
      assert a + b == b;
    }
  }

  lemma {:induction false} UFilesRead(files: seq<File>, parent: string, level: int, s: U.Display)
    ensures U.EntriesBytes(UFiles(files)) == FilesSize(files)
    ensures U.EntriesOutput(UFiles(files), parent, level, s) == []
  {
    if files != [] {
      UFilesRead(files[1..], parent, level, s);
      assert UFiles(files)[1..] == UFiles(files[1..]);
    }
  }

  lemma UnixEntriesSplit(t: Tree, path: string, level: int, s: U.Display)
    ensures var d := ToUnix(t);
      U.DirBytes(d) == U.EntriesBytes(UNodes(t.subdirs)) + FilesSize(t.files) &&
      U.Output(d, path, level, s) == U.EntriesOutput(UNodes(t.subdirs), path, level, s) + U.OwnLine(d, path, level, s)
  {
    var dots := [U.Entry(".", U.Dir(U.OpenFails)), U.Entry("..", U.Dir(U.OpenFails))];
    var files := UFiles(t.files);
    var nodes := UNodes(t.subdirs);
    assert U.EntriesBytes(dots) == 0 && U.EntriesOutput(dots, path, level, s) == [] by {
      assert U.IsDotName(".") && U.IsDotName("..");
      assert dots[1..][1..] == [];
    }
    UFilesRead(t.files, path, level, s);
    UEntriesAppend(dots, files, path, level, s);
    UEntriesAppend(dots + files, nodes, path, level, s);
  }

  lemma {:induction false} UnixBytes(t: Tree)
    requires Plain(t)
    decreases t, 1
    ensures U.DirBytes(ToUnix(t)) == Bytes(t)
  {
    UnixEntriesSplit(t, "", 0, U.Display(false, 0));
    UNodesBytes(t.subdirs);
  }

  lemma {:induction false} UNodesBytes(nodes: seq<Node>)
    requires NodesPlain(nodes)
    decreases nodes, 0
    ensures U.EntriesBytes(UNodes(nodes)) == NodesBytes(nodes)
  {
    if nodes != [] {
      UnixBytes(nodes[0].tree);
      UNodesBytes(nodes[1..]);
      assert UNodes(nodes)[1..] == UNodes(nodes[1..]);
    }
  }

  lemma {:induction false} UnixGated(t: Tree, path: string, depth: int, limit: int)
    requires Plain(t)
    decreases t, 1
    ensures URecords(U.Output(ToUnix(t), path, depth + 1, U.Display(false, limit))) == Gated(t, path, '/', depth, limit)
  {
    var s := U.Display(false, limit);
    var d := ToUnix(t);
    UnixEntriesSplit(t, path, depth + 1, s);
    UnixBytes(t);
    UNodesGated(t.subdirs, path, depth + 1, limit);
    URecordsAppend(U.EntriesOutput(UNodes(t.subdirs), path, depth + 1, s), U.OwnLine(d, path, depth + 1, s));
  }

  lemma {:induction false} UNodesGated(nodes: seq<Node>, parent: string, depth: int, limit: int)
    requires NodesPlain(nodes)
    decreases nodes, 0
    ensures URecords(U.EntriesOutput(UNodes(nodes), parent, depth, U.Display(false, limit)))
         == NodesGated(nodes, parent, '/', depth, limit)
  {
    var s := U.Display(false, limit);
    if nodes != [] {
      var es := UNodes(nodes);
      assert es[1..] == UNodes(nodes[1..]);
      UnixGated(nodes[0].tree, U.Join(parent, nodes[0].name), depth, limit);
      UNodesGated(nodes[1..], parent, depth, limit);
      URecordsAppend(U.EntryOutput(es[0], parent, depth, s), U.EntriesOutput(es[1..], parent, depth, s));
    }
  }

  // ---------------------------------------------------------------------------------------
  // The three together

  /** All three revisions find the bytes of the tree. */
  lemma SameTotals(t: Tree)
    requires Plain(t)
    ensures C.DirBytes(ToCSharp(t)) == Bytes(t)
    ensures W.DirBytes(ToWin32(t)) == Bytes(t)
    ensures U.DirBytes(ToUnix(t)) == Bytes(t)
  {
    CSharpBytes(t);
    Win32Bytes(t);
    UnixBytes(t);
  }

  /** With the same limit, the C# walk from level 0 with `level < limit` and the C and C++
      walks from level 1 with `level <= limit` print the same directories (those less than
      `limit` steps below the start), in the same order, with the same totals; the C# and C++
      paths are the same, and the C paths differ only in the separator. */
  lemma SameNodesGated(t: Tree, path: string, limit: int, showErrors: bool)
    requires Plain(t)
    ensures CRecords(C.Output(ToCSharp(t), path, 0, C.Display(false, limit, showErrors))) == Gated(t, path, '\\', 0, limit)
    ensures WRecords(W.Output(ToWin32(t), path, 1, W.Display(false, limit))) == Gated(t, path, '\\', 0, limit)
    ensures URecords(U.Output(ToUnix(t), path, 1, U.Display(false, limit))) == Gated(t, path, '/', 0, limit)
  {
    CSharpGated(t, path, 0, limit, showErrors);
    Win32Gated(t, path, 0, limit);
    UnixGated(t, path, 0, limit);
  }

  /** A file of exactly 4 GiB: the C# and C revisions count it, the C++ revision's 32-bit
      size computation counts it as 2^32 - 1 bytes. */
  lemma LargeFileMiscounted()
    ensures var t := Tree([File("big", WORD)], []);
      C.DirBytes(ToCSharp(t)) == WORD && U.DirBytes(ToUnix(t)) == WORD &&
      W.DirBytes(ToWin32(t)) == WORD - 1
  {
    var t := Tree([File("big", WORD)], []);
    CSharpBytes(t);
    UnixEntriesSplit(t, "", 0, U.Display(false, 0));
    UNodesBytes([]);
    assert WFiles(t.files) == [W.FileEntry("big", 1, 0)];
    var entries := [W.DirEntry("..", W.FindFails), W.FileEntry("big", 1, 0)];
    assert ToWin32(t) == W.Found(W.DirEntry(".", W.FindFails), entries);
    assert W.FileSize(1, 0) == WORD - 1;
    assert W.EntriesBytes(entries[1..]) == WORD - 1 by {
      assert entries[1..][1..] == [];
    }
  }
}
