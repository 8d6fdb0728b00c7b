/** The flow repository: the loops over directory entries and lines around the file actions. */
module Storage {
  import opened Text
  import opened FlowLine
  import opened Sums
  import opened Accumulator
  import opened Sift
  import opened Billing
  import opened BillingSafety
  import opened BillingHistory
  import opened BillingRecovery
  import opened Host

  datatype DirError = NoError | NoFiles | IoFailure

  /** The names of the regular files in the nas directory; none is an error of its own. */
  method ReadFileNamesInFlowDir(h: NasHost) returns (err: DirError, fileNameList: seq<Name>)
    requires h.Valid() && h.s.worker.Busy? && h.Pc().ListSpool?
    modifies h, h.db
    ensures h.Valid() && h.Continues()
    ensures err == NoError ==>
              fileNameList != [] && h.s.worker == old(h.s.worker).(pc := Move(FlowNames(fileNameList)))
    ensures err != NoError ==> h.s.worker.Idle?
    ensures h.trace != []
    ensures err == IoFailure <==> h.trace[|h.trace| - 1] == Abort(IoError)
    ensures err == IoFailure <==> h.ioFaults != old(h.ioFaults)
    ensures err == NoFiles <==> h.trace[|h.trace| - 1] == Listed([])
    ensures err == NoFiles ==> h.s.spool == map[]
    ensures err == NoError ==> SetOf(fileNameList) == h.s.spool.Keys
  {
    h.Interfere();
    var ok, entries := h.ReadDir();
    fileNameList := [];
    if !ok {
      return IoFailure, fileNameList;
    }
    fileNameList := TakeFileNames(entries);
    err := if |fileNameList| == 0 then NoFiles else NoError;
  }

  method TakeFileNames(entries: seq<DirEntry>) returns (fileNameList: seq<Name>)
    ensures fileNameList == FileNames(entries)
  {
    fileNameList := [];
    for i := 0 to |entries|
      invariant fileNameList == FileNames(entries[..i])
    {
      assert entries[..i + 1][..i] == entries[..i];
      if !entries[i].isDir {
        fileNameList := fileNameList + [entries[i].name];
      }
    }
    assert entries[..|entries|] == entries;
  }

  /** Makes tmp if need be and moves the file there. */
  method MoveFlowToTempDir(h: NasHost, fileName: Name) returns (ok: bool)
    requires h.Valid() && h.s.worker.Busy? && h.Pc().Move? && h.Pc().todo != [] && h.Pc().todo[0] == fileName
    modifies h, h.db
    ensures h.Valid() && h.Continues()
    ensures h.s.worker == if ok then old(h.s.worker).(pc := Move(old(h.Pc()).todo[1..])) else Idle
  {
    hide NasHost.Valid, FaultSince;
    h.Interfere();
    ok := h.MkdirTmp();
    if ok {
      h.Interfere();
      ok := h.RenameToTmp(fileName);
    }
  }

  /** The bytes of lines, a line feed counted for each. */
  function SizeOf(lines: seq<string>): nat {
    if lines == [] then 0 else SizeOf(lines[..|lines| - 1]) + |lines[|lines| - 1]| + 1
  }

  function AndFeed(line: string): int { |line| + 1 }

  /** Every line counts with its characters and one more. */
  lemma {:induction false} SizeOfExactly(lines: seq<string>)
    ensures SizeOf(lines) == SumSeq(lines, AndFeed)
  {
    if lines == [] {
    } else {
      SizeOfExactly(lines[..|lines| - 1]);
      SumSeqLast(lines, AndFeed);
    }
  }

  lemma {:induction false} SizeOfConcat(xs: seq<string>, ys: seq<string>)
    ensures SizeOf(xs + ys) == SizeOf(xs) + SizeOf(ys)
  {
    if ys == [] {
      assert xs + ys == xs;
    } else {
      var k := |ys| - 1;
      assert (xs + ys)[..|xs| + k] == xs + ys[..k];
      SizeOfConcat(xs, ys[..k]);
    }
  }

  lemma SizeOfSnoc(lines: seq<string>, line: string)
    ensures SizeOf(lines + [line]) == SizeOf(lines) + |line| + 1
  {
    assert (lines + [line])[..|lines|] == lines;
  }

  /** The lines are those of the file at the head of the list. */
  ghost predicate Reading(h: NasHost, raw: seq<string>)
    reads h`s
  {
    h.s.worker.Busy? && h.Pc().Read? && h.Pc().todo != [] && h.Pc().todo[0] !in h.s.worker.committed &&
    h.Pc().todo[0] in h.s.tmp && raw == RawLines(h.s.tmp[h.Pc().todo[0]].content)
  }

  lemma LongLine(h: NasHost, all: seq<string>, i: nat)
    requires Reading(h, all) && i < |all| && |all[i]| >= MAX_TOKEN
    ensures InTheWay(h.s, h.s.worker.committed, h.Pc())
  {
    hide RawLines;
  }

  /** One step of the line scanner: it fails when the read behind it does, or on a line too long for it. */
  method Scan(h: NasHost, ghost all: seq<string>, ghost i: nat, raw: string) returns (ok: bool)
    requires h.Valid() && Reading(h, all) && i < |all| && raw == all[i]
    modifies h, h.db
    ensures h.Valid() && h.Continues() && h.s.tmp == old(h.s.tmp)
    ensures h.s.worker == if ok then old(h.s.worker) else Idle
    ensures ok ==> |raw| < MAX_TOKEN
  {
    hide NasHost.Valid, FaultSince, InTheWay, Scannable, RawLines;
    h.Interfere();
    ok := h.ReadMore();
    if ok && |raw| >= MAX_TOKEN {
      LongLine(h, all, i);
      h.GiveUp();
      ok := false;
    }
  }

  /** Hands the lines to the accumulator one by one, each as soon as it is scanned. */
  method StreamLines(h: NasHost, raw: seq<string>, acc: FlowAccumulator) returns (ok: bool, size: nat)
    requires h.Valid() && Reading(h, raw) && acc.Valid()
    requires {h, h.db} !! {acc} + acc.Inner()
    modifies h, h.db, acc, acc.Inner()
    ensures h.Valid() && h.Continues() && acc.Valid() && fresh(acc.Inner() - old(acc.Inner()))
    ensures h.s.tmp == old(h.s.tmp) && h.s.worker == if ok then old(h.s.worker) else Idle
    ensures ok ==> acc.lines == old(acc.lines) + DropCRs(raw) && size == SizeOf(DropCRs(raw)) && Fit(raw)
  {
    hide NasHost.Valid, FlowAccumulator.Valid, SizeOf, DropCR, RawLines;
    size := 0;
    NoSize();
    for i := 0 to |raw|
      invariant h.Valid() && h.Continues() && acc.Valid() && fresh(acc.Inner() - old(acc.Inner()))
      invariant h.s.worker == old(h.s.worker) && h.s.tmp == old(h.s.tmp)
      invariant acc.lines == old(acc.lines) + DropCRs(raw)[..i] && size == SizeOf(DropCRs(raw)[..i])
      invariant forall k | 0 <= k < i :: |raw[k]| < MAX_TOKEN
    {
      ok := Scan(h, raw, i, raw[i]);
      if !ok {
        return;
      }
      var line := DropCR(raw[i]);
      size := size + |line| + 1;
      acc.AccumulateLine(line);
      assert DropCRs(raw)[..i + 1] == DropCRs(raw)[..i] + [line];
      SizeOfSnoc(DropCRs(raw)[..i], line);
    }
    assert DropCRs(raw)[..|raw|] == DropCRs(raw);
    ok := true;
  }

  /** Hands every line of one file to the accumulator. Succeeds only at the end of the file:
      a failed read or a line too long for the scanner ends the run. */
  method StreamFile(h: NasHost, fileName: Name, acc: FlowAccumulator) returns (ok: bool, size: nat)
    requires h.Valid() && h.s.worker.Busy? && h.Pc().Read? && acc.Valid()
    requires h.Pc().todo != [] && h.Pc().todo[0] == fileName && fileName !in h.s.worker.committed && fileName in h.s.tmp
    requires {h, h.db} !! {acc} + acc.Inner()
    modifies h, h.db, acc, acc.Inner()
    ensures h.Valid() && h.Continues() && acc.Valid() && fresh(acc.Inner() - old(acc.Inner()))
    ensures ok ==> acc.lines == old(acc.lines) + Lines(old(h.s.tmp)[fileName].content)
    ensures ok ==> size == SizeOf(Lines(old(h.s.tmp)[fileName].content))
    ensures h.s.worker == if ok then old(h.s.worker).(pc := NextPc(old(h.Pc()), old(h.s.tmp))) else Idle
    ensures ok ==> h.s.tmp == old(h.s.tmp)
  {
    hide NasHost.Valid, FlowAccumulator.Valid, RawLines, SizeOf, Fit, DropCRs, FaultSince;
    size := 0;
    var content;
    h.Interfere();
    ok, content := h.OpenFile(fileName);
    if ok {
      ok, size := StreamLines(h, RawLines(content), acc);
    }
    if ok {
      h.Interfere();
      ok := h.ReadMore();
    }
    if ok {
      h.FinishFile();
    }
  }

  lemma NoSize()
    ensures SizeOf([]) == 0
  {
  }

  /** Where reading the head of the list leads. */
  function NextPc(pc: Pc, tmp: Folder): Pc
    requires pc.Read? && pc.todo != [] && pc.todo[0] in tmp
  {
    Read(pc.names + [pc.todo[0]], pc.todo[1..], pc.files + [tmp[pc.todo[0]]])
  }

  lemma {:induction false} FlowNamesPrefix(names: seq<Name>, i: nat)
    requires i <= |names|
    ensures FlowNames(names[..i]) <= FlowNames(names)
  {
    hide IsFlowName;
    if i < |names| {
      var k := |names| - 1;
      FlowNamesPrefix(names[..k], i);
      assert names[..k][..i] == names[..i];
    } else {
      assert names[..i] == names;
    }
  }

  lemma {:induction false} FileNamesPrefix(entries: seq<DirEntry>, i: nat)
    requires i <= |entries|
    ensures FileNames(entries[..i]) <= FileNames(entries)
  {
    if i < |entries| {
      var k := |entries| - 1;
      FileNamesPrefix(entries[..k], i);
      assert entries[..k][..i] == entries[..i];
    } else {
      assert entries[..i] == entries;
    }
  }

  /** The flow names among the first entries. */
  function FlowEntriesUpTo(entries: seq<DirEntry>, i: nat): seq<Name>
    requires i <= |entries|
  {
    FlowNames(FileNames(entries[..i]))
  }

  lemma FlowEntriesGrow(entries: seq<DirEntry>, i: nat)
    requires i < |entries|
    ensures FlowEntriesUpTo(entries, i + 1) == FlowEntriesUpTo(entries, i) +
            if !entries[i].isDir && IsFlowName(entries[i].name) then [entries[i].name] else []
  {
    hide IsFlowName, FlowNames, FileNames;
    var before, e := entries[..i], entries[i];
    assert entries[..i + 1] == before + [e];
    FileNamesSnoc(before, e);
    FlowNamesSnoc(FileNames(before), e.name);
    if e.isDir {
      assert FlowNames(FileNames(before)) + [] == FlowNames(FileNames(before));
    }
  }

  /** The flow names that are left after the first i entries. */
  function FlowEntriesFrom(entries: seq<DirEntry>, i: nat): seq<Name>
    requires i <= |entries|
  {
    FlowEntriesPrefix(entries, i);
    FlowNames(FileNames(entries))[|FlowEntriesUpTo(entries, i)|..]
  }

  /** A flow entry is the head of what is left; any other entry changes nothing. */
  lemma FlowEntriesStep(entries: seq<DirEntry>, i: nat)
    requires i < |entries|
    ensures var before, left := FlowEntriesUpTo(entries, i), FlowEntriesFrom(entries, i);
      if !entries[i].isDir && IsFlowName(entries[i].name)
      then left != [] && left[0] == entries[i].name && left[1..] == FlowEntriesFrom(entries, i + 1)
           && FlowEntriesUpTo(entries, i + 1) == before + [entries[i].name]
      else FlowEntriesUpTo(entries, i + 1) == before && FlowEntriesFrom(entries, i + 1) == left
  {
    hide FlowEntriesUpTo, FlowNames, FileNames, IsFlowName;
    var before := FlowEntriesUpTo(entries, i);
    FlowEntriesGrow(entries, i);
    FlowEntriesPrefix(entries, i + 1);
    assert before + [] == before;
  }

  lemma FlowEntriesPrefix(entries: seq<DirEntry>, i: nat)
    requires i <= |entries|
    ensures FlowEntriesUpTo(entries, i) <= FlowNames(FileNames(entries))
  {
    hide IsFlowName, FlowNames, FileNames;
    FileNamesPrefix(entries, i);
    var names, all := FileNames(entries[..i]), FileNames(entries);
    assert names == all[..|names|];
    FlowNamesPrefix(all, |names|);
  }

  lemma FlowNamesStep(names: seq<Name>, i: nat)
    requires i < |names|
    ensures FlowNames(names[..i + 1]) == FlowNames(names[..i]) + if IsFlowName(names[i]) then [names[i]] else []
  {
    hide *;
    assert names[..i + 1] == names[..i] + [names[i]];
    FlowNamesSnoc(names[..i], names[i]);
  }

  lemma FlowNamesSnoc(names: seq<Name>, n: Name)
    ensures FlowNames(names + [n]) == FlowNames(names) + if IsFlowName(n) then [n] else []
    ensures FlowNames(names + []) == FlowNames(names)
  {
    hide IsFlowName;
    var all := names + [n];
    assert all[..|all| - 1] == names;
    assert names + [] == names;
  }

  lemma FlowEntriesEnds(entries: seq<DirEntry>)
    ensures FlowEntriesUpTo(entries, 0) == [] && FlowEntriesFrom(entries, 0) == FlowNames(FileNames(entries))
    ensures FlowEntriesUpTo(entries, |entries|) == FlowNames(FileNames(entries))
    ensures FlowEntriesFrom(entries, |entries|) == []
  {
    assert entries[..|entries|] == entries;
  }

  lemma AllLinesSnoc(files: seq<File>, file: File)
    ensures AllLines(files + [file]) == AllLines(files) + Lines(file.content)
  {
    var all := files + [file];
    assert all[..|all| - 1] == files;
  }

  /** One flow file of tmp: skipped if it is committed, else its lines go to the accumulator. */
  method StreamOne(h: NasHost, fileName: Name, skipFileNames: set<Name>, acc: FlowAccumulator)
    returns (ok: bool, size: nat, ghost files: seq<File>)
    requires h.Valid() && h.s.worker.Busy? && h.Pc().Read? && h.Pc().todo != [] && h.Pc().todo[0] == fileName
    requires skipFileNames == h.s.worker.committed && acc.Valid() && acc.lines == AllLines(h.Pc().files)
    requires {h, h.db} !! {acc} + acc.Inner()
    modifies h, h.db, acc, acc.Inner()
    ensures h.Valid() && h.Continues() && acc.Valid() && fresh(acc.Inner() - old(acc.Inner()))
    ensures h.s.worker ==
            if ok then old(h.s.worker).(pc := Read(old(h.Pc()).names + [fileName], old(h.Pc()).todo[1..], files))
            else Idle
    ensures ok ==> acc.lines == AllLines(files) && SizeOf(acc.lines) == SizeOf(old(acc.lines)) + size
  {
    hide NasHost.Recorded, NasHost.Coupled, NasHost.OthersKept, NasHost.Blameless, FlowAccumulator.Holds, AllLines,
         IsFlowName, FlowNames, Lines, SizeOf;
    h.HeadInTmp();
    ghost var file := h.s.tmp[fileName];
    files := h.Pc().files;
    if fileName in skipFileNames {
      h.SkipFile();
      return true, 0, files;
    }
    ok, size := StreamFile(h, fileName, acc);
    SizeOfConcat(AllLines(files), Lines(file.content));
    AllLinesSnoc(files, file);
    files := files + [file];
  }

  /** One entry of tmp: directories and service files are passed over. */
  method StreamEntry(h: NasHost, entries: seq<DirEntry>, i: nat, skipFileNames: set<Name>, acc: FlowAccumulator)
    returns (ok: bool, taken: seq<Name>, size: nat, ghost files: seq<File>)
    requires i < |entries| && h.Valid() && h.s.worker.Busy? && h.Pc().Read?
    requires h.Pc() == Read(FlowEntriesUpTo(entries, i), FlowEntriesFrom(entries, i), h.Pc().files)
    requires skipFileNames == h.s.worker.committed && acc.Valid() && acc.lines == AllLines(h.Pc().files)
    requires {h, h.db} !! {acc} + acc.Inner()
    modifies h, h.db, acc, acc.Inner()
    ensures h.Valid() && h.Continues() && acc.Valid() && fresh(acc.Inner() - old(acc.Inner()))
    ensures h.s.worker == if ok then old(h.s.worker).(pc := ReadingAt(entries, i + 1, files)) else Idle
    ensures ok ==> FlowEntriesUpTo(entries, i + 1) == FlowEntriesUpTo(entries, i) + taken
    ensures ok ==> acc.lines == AllLines(files) && SizeOf(acc.lines) == SizeOf(old(acc.lines)) + size
  {
    hide NasHost.Valid, FlowAccumulator.Valid, SizeOf, IsFlowName, FlowEntriesUpTo, FlowEntriesFrom, FlowNames,
         FileNames, AllLines;
    FlowEntriesStep(entries, i);
    var name := entries[i].name;
    files := h.Pc().files;
    if entries[i].isDir || !IsFlowName(name) {
      return true, [], 0, files;
    }
    taken := [name];
    ok, size, files := StreamOne(h, name, skipFileNames, acc);
  }

  /** Having gone through the first i entries. */
  function ReadingAt(entries: seq<DirEntry>, i: nat, files: seq<File>): Pc
    requires i <= |entries|
  {
    Read(FlowEntriesUpTo(entries, i), FlowEntriesFrom(entries, i), files)
  }

  /** Goes through the entries of tmp in order. */
  method StreamEntries(h: NasHost, entries: seq<DirEntry>, skipFileNames: set<Name>, acc: FlowAccumulator)
    returns (ok: bool, fileNameList: seq<Name>, flowSize: nat, ghost files: seq<File>)
    requires h.Valid() && h.s.worker.Busy? && h.Pc() == Read([], FlowNames(FileNames(entries)), [])
    requires skipFileNames == h.s.worker.committed && acc.Valid() && acc.lines == []
    requires {h, h.db} !! {acc} + acc.Inner()
    modifies h, h.db, acc, acc.Inner()
    ensures h.Valid() && h.Continues() && acc.Valid() && fresh(acc.Inner() - old(acc.Inner()))
    ensures h.s.worker == if ok then old(h.s.worker).(pc := Read(FlowNames(FileNames(entries)), [], files)) else Idle
    ensures ok ==> acc.lines == AllLines(files) && fileNameList == FlowNames(FileNames(entries))
    ensures ok ==> flowSize == SizeOf(acc.lines)
  {
    hide NasHost.Valid, FlowAccumulator.Valid, SizeOf, IsFlowName, FlowEntriesUpTo, FlowEntriesFrom, FlowNames,
         FileNames, AllLines;
    NoLinesYet();
    NoSize();
    FlowEntriesEnds(entries);
    fileNameList, flowSize, files := [], 0, [];
    for i := 0 to |entries|
      invariant h.Valid() && h.Continues() && acc.Valid() && fresh(acc.Inner() - old(acc.Inner()))
      invariant fileNameList == FlowEntriesUpTo(entries, i)
      invariant h.s.worker == old(h.s.worker).(pc := ReadingAt(entries, i, files))
      invariant acc.lines == AllLines(files) && flowSize == SizeOf(acc.lines)
    {
      var taken, size;
      ok, taken, size, files := StreamEntry(h, entries, i, skipFileNames, acc);
      fileNameList := fileNameList + taken;
      flowSize := flowSize + size;
      if !ok {
        return;
      }
    }
    ok := true;
  }

  /** Walks tmp: files already committed are skipped, the lines of all others go to the accumulator.
      On success the list holds every flow name in tmp and every uncommitted file was read to its end. */
  method StreamFlow(h: NasHost, skipFileNames: set<Name>, acc: FlowAccumulator)
    returns (ok: bool, fileNameList: seq<Name>, flowSize: nat, ghost files: seq<File>)
    requires h.Valid() && h.s.worker.Busy? && h.Pc().Move? && h.Pc().todo == [] && acc.Valid()
    requires skipFileNames == h.s.worker.committed && acc.lines == []
    requires {h, h.db} !! {acc} + acc.Inner()
    modifies h, h.db, acc, acc.Inner()
    ensures h.Valid() && h.Continues() && acc.Valid() && fresh(acc.Inner() - old(acc.Inner()))
    ensures h.s.worker == if ok then old(h.s.worker).(pc := Read(fileNameList, [], files)) else Idle
    ensures ok ==> acc.lines == AllLines(files) && flowSize == SizeOf(acc.lines)
  {
    hide NasHost.Valid, FlowAccumulator.Valid, IsFlowName, FlowNames, FileNames, AllLines, SizeOf;
    fileNameList, flowSize, files := [], 0, [];
    var entries;
    h.Interfere();
    ok, entries := h.ReadTmpDir();
    if ok {
      ok, fileNameList, flowSize, files := StreamEntries(h, entries, skipFileNames, acc);
    }
  }

  lemma NoLinesYet()
    ensures AllLines([]) == []
  {
  }

  /** Deletes tmp with everything in it, then makes it anew with its keep file. */
  method RemoveOld(h: NasHost) returns (ok: bool)
    requires h.Valid() && h.s.worker.Busy? && h.Pc().Unlink?
    modifies h, h.db
    ensures h.Valid() && h.Continues()
    ensures h.s.worker == if ok then old(h.s.worker).(pc := Billing.ClearCheckpoint) else Idle
    ensures ok ==> h.keep
  {
    hide NasHost.Valid, FaultSince;
    ok := h.RemoveAll();
    if ok {
      h.Interfere();
      ok := h.RemakeTmp();
    }
    if ok {
      h.Interfere();
      ok := h.WriteKeepFile();
    }
  }
}
