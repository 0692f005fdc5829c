/**
 * The older Python ingester's models (src/ss13_codedb/git_models.py): the
 * ledger rows built from one commit, and the get-or-create lookups of type,
 * proc and var declarations through a SQLAlchemy session.
 *
 * The session is a store the lookups query and add rows to. SQLAlchemy
 * flushes pending rows before every query, so a row added is seen by the
 * next query, and ids are handed out in insert order. The association tables
 * have no primary key, so their rows are kept as sequences and may repeat.
 */
module PyModels {
  import opened Wrappers
  import opened Text
  import opened Models
  import opened Ledger
  import DeclCache

  /** What stops the Python walker: the exceptions its steps can raise. */
  datatype PyError =
    | IndexError(msg: string)
    | ValueError(msg: string)
    | TypeError(msg: string)
    | MultipleResultsFound
    | ParseError(msg: string)
    | DbError(msg: string)

  /** A snapshot row; unlike the Rust schema it points at its ledger entry. */
  datatype PySnapshot = PySnapshot(id: int, gitLogEntryId: int)

  datatype PyTables = PyTables(
    logEntries: seq<GitLogEntry>,
    numstats: seq<GitCommitLogNumstatEntry>,
    snapshots: seq<PySnapshot>,
    typeDecls: seq<TypeDecl>,
    procDecls: seq<ProcDecl>,
    varDecls: seq<VarDecl>,
    typeLinks: seq<TypeDeclSnapshot>,
    procLinks: seq<ProcDeclSnapshot>,
    varLinks: seq<VarDeclSnapshot>)

  const EmptyPyTables: PyTables := PyTables([], [], [], [], [], [], [], [], [])

  /** Every row's id is its position plus one. */
  ghost predicate PyIdsArePositions(t: PyTables)
  {
    && (forall i :: 0 <= i < |t.logEntries| ==> t.logEntries[i].id == i + 1)
    && (forall i :: 0 <= i < |t.numstats| ==> t.numstats[i].id == i + 1)
    && (forall i :: 0 <= i < |t.snapshots| ==> t.snapshots[i].id == i + 1)
    && (forall i :: 0 <= i < |t.typeDecls| ==> t.typeDecls[i].id == i + 1)
    && (forall i :: 0 <= i < |t.procDecls| ==> t.procDecls[i].id == i + 1)
    && (forall i :: 0 <= i < |t.varDecls| ==> t.varDecls[i].id == i + 1)
  }

  /**
   * `.scalar()`: no matching row gives None, exactly one gives that row (as
   * its index), and more than one raise MultipleResultsFound.
   */
  function Scalar<R>(rows: seq<R>, pick: R -> bool): (r: Result<Option<nat>, PyError>)
    ensures r == Ok(None) <==> forall j :: 0 <= j < |rows| ==> !pick(rows[j])
    ensures r.Ok? && r.value.Some? ==>
      && r.value.value < |rows| && pick(rows[r.value.value])
      && forall j :: 0 <= j < |rows| && j != r.value.value ==> !pick(rows[j])
    ensures r.Err? <==> exists i, j :: 0 <= i < j < |rows| && pick(rows[i]) && pick(rows[j])
    ensures r.Err? ==> r.error == MultipleResultsFound
  {
    match DeclCache.FirstMatch(rows, pick)
    case None => Ok(None)
    case Some(i) =>
      var later := DeclCache.FirstMatch(rows[i + 1..], pick);
      if later.Some? then
        assert rows[i + 1..][later.value] == rows[i + 1 + later.value];
        Err(MultipleResultsFound)
      else
        assert forall j :: i < j < |rows| ==> rows[j] == rows[i + 1..][j - i - 1];
        Ok(Some(i))
  }

  // The ledger part of `GitLogEntry.from_commit`.

  /** A count as `from_commit` assigns it: the int -1 for `-`, otherwise the word itself, a string. */
  datatype PyCount = Minus1 | Word(text: string)

  function CountOf(word: string): (r: PyCount)
    ensures r == Minus1 <==> word == "-"
  {
    if word == "-" then Minus1 else Word(word)
  }

  /**
   * What the INTEGER column makes of an assigned count: -1 stays -1, a word
   * of decimal digits is its number, and anything else is refused (None).
   */
  function ColumnValue(c: PyCount): (r: Option<int>)
    ensures c == Minus1 ==> r == Some(-1)
    ensures c.Word? ==> (r.Some? <==> |c.text| > 0 && AllDigits(c.text))
    ensures c.Word? && r.Some? ==> r.value >= 0
  {
    match c
    case Minus1 => Some(-1)
    case Word(w) => if |w| > 0 && AllDigits(w) then Some(DecimalValue(w)) else None
  }

  /** The fields `from_commit` sets on one numstat entry. */
  datatype PyFields = PyFields(add: PyCount, sub: PyCount, pathState: string)

  /**
   * One line of the numstat text in the Python loop: the empty line is
   * skipped; any other line must split into three fields with at most two
   * splits on whitespace, or the unpacking raises ValueError.
   */
  function PyLineFields(line: string): Result<Option<PyFields>, PyError>
  {
    if line == "" then Ok(None)
    else
      var w := SplitMax(line, 2, IsPythonWhitespace);
      if |w| != 3 then Err(ValueError("not enough values to unpack (expected 3)"))
      else Ok(Some(PyFields(CountOf(w[0]), CountOf(w[1]), w[2])))
  }

  /** Only the empty line is skipped; a line with fewer than three fields raises, whitespace-only lines included. */
  lemma PyLineFieldsCases(line: string)
    ensures PyLineFields(line) == Ok(None) <==> line == ""
    ensures line != "" ==> (PyLineFields(line).Ok? <==> |SplitMax(line, 2, IsPythonWhitespace)| == 3)
    ensures IsBlank(line, IsPythonWhitespace) && line != "" ==> PyLineFields(line).Err?
  {
    if IsBlank(line, IsPythonWhitespace) && line != "" {
      BlankSplitsToNothing(line, 2, IsPythonWhitespace);
    }
  }

  /** The numstat entries of the lines, in line order; the first failing line fails them all. */
  function PyNumstatFields(lines: seq<string>): Result<seq<PyFields>, PyError>
    decreases |lines|
  {
    if |lines| == 0 then Ok([])
    else match PyLineFields(lines[0])
      case Err(e) => Err(e)
      case Ok(None) => PyNumstatFields(lines[1..])
      case Ok(Some(f)) => PrependAll([f], PyNumstatFields(lines[1..]))
  }

  /** The lines that are not empty, in order. */
  function NonEmptyLines(lines: seq<string>): (r: seq<string>)
    ensures |r| <= |lines|
  {
    if |lines| == 0 then []
    else if lines[0] == "" then NonEmptyLines(lines[1..])
    else [lines[0]] + NonEmptyLines(lines[1..])
  }

  /**
   * Parsing succeeds exactly when every line does, and then yields one entry
   * per non-empty line, in line order, carrying that line's fields.
   */
  lemma {:induction false} PyNumstatPerLine(lines: seq<string>)
    ensures PyNumstatFields(lines).Ok? <==> forall k :: 0 <= k < |lines| ==> PyLineFields(lines[k]).Ok?
    ensures PyNumstatFields(lines).Ok? ==>
      var fs := PyNumstatFields(lines).value;
      && |fs| == |NonEmptyLines(lines)|
      && forall k :: 0 <= k < |fs| ==> PyLineFields(NonEmptyLines(lines)[k]) == Ok(Some(fs[k]))
    decreases |lines|
  {
    PyNumstatOkExactly(lines);
    if PyNumstatFields(lines).Ok? {
      PyNumstatEntries(lines);
    }
  }

  /** Parsing succeeds exactly when every line does. */
  lemma {:induction false} PyNumstatOkExactly(lines: seq<string>)
    ensures PyNumstatFields(lines).Ok? <==> forall k :: 0 <= k < |lines| ==> PyLineFields(lines[k]).Ok?
    decreases |lines|
  {
    if |lines| > 0 {
      PyNumstatOkExactly(lines[1..]);
      assert PyNumstatFields(lines).Ok? <==> PyLineFields(lines[0]).Ok? && PyNumstatFields(lines[1..]).Ok?;
      assert forall k :: 1 <= k < |lines| ==> lines[1..][k - 1] == lines[k];
    }
  }

  /** A successful parse has one entry per non-empty line, in order, with that line's fields. */
  lemma {:induction false} PyNumstatEntries(lines: seq<string>)
    requires PyNumstatFields(lines).Ok?
    ensures var fs := PyNumstatFields(lines).value;
      && |fs| == |NonEmptyLines(lines)|
      && forall k :: 0 <= k < |fs| ==> PyLineFields(NonEmptyLines(lines)[k]) == Ok(Some(fs[k]))
    decreases |lines|
  {
    if |lines| > 0 {
      var fs := PyNumstatFields(lines).value;
      assert PyNumstatFields(lines[1..]).Ok?;
      var rest := PyNumstatFields(lines[1..]).value;
      var ls := NonEmptyLines(lines[1..]);
      PyNumstatEntries(lines[1..]);
      if lines[0] == "" {
        assert NonEmptyLines(lines) == ls && fs == rest;
      } else {
        var f := PyLineFields(lines[0]).value.value;
        var nl := NonEmptyLines(lines);
        assert nl == [lines[0]] + ls;
        assert fs == [f] + rest;
        EntriesCons(lines[0], ls, f, rest);
      }
    }
  }

  /** A line read into fields, in front of lines read entry by entry, is read entry by entry. */
  lemma EntriesCons(line: string, ls: seq<string>, f: PyFields, rest: seq<PyFields>)
    requires PyLineFields(line) == Ok(Some(f))
    requires |rest| == |ls| && forall k :: 0 <= k < |rest| ==> PyLineFields(ls[k]) == Ok(Some(rest[k]))
    ensures forall k :: 0 <= k < |rest| + 1 ==> PyLineFields(([line] + ls)[k]) == Ok(Some(([f] + rest)[k]))
  {
    ConsShift([line] + ls, line, ls, [f] + rest, f, rest);
  }

  /**
   * Writing a numstat line as two count words and a path state that starts
   * with a non-space, and parsing it, gives the fields back; the path state
   * keeps its inner whitespace.
   */
  lemma PyLineFieldsRoundTrip(a: string, s1: char, b: string, s2: char, pathState: string)
    requires IsWord(a, IsPythonWhitespace) && IsWord(b, IsPythonWhitespace)
    requires IsPythonWhitespace(s1) && IsPythonWhitespace(s2)
    requires |pathState| > 0 && !IsPythonWhitespace(pathState[0])
    ensures PyLineFields(a + [s1] + b + [s2] + pathState) == Ok(Some(PyFields(CountOf(a), CountOf(b), pathState)))
  {
    SplitMaxTwoWords(a, s1, b, s2, pathState, IsPythonWhitespace);
  }

  /** A count written as git writes it is stored as that count. */
  lemma ColumnValueOfText(n: int)
    requires n == -1 || n >= 0
    ensures IsWord(CountText(n), IsPythonWhitespace)
    ensures ColumnValue(CountOf(CountText(n))) == Some(n)
  {
    if n >= 0 {
      var s := NatToDecimal(n);
      assert s != "-" by { assert IsDigit(s[0]); }
      forall j | 0 <= j < |s| ensures !IsPythonWhitespace(s[j]) { assert IsDigit(s[j]); }
    }
  }

  /** A word for Python's `split` is a word for Rust's `split_whitespace`, whose blanks are fewer. */
  lemma PythonWordIsRustWord(w: string)
    requires IsWord(w, IsPythonWhitespace)
    ensures IsWord(w, IsRustWhitespace)
  {
  }

  /**
   * A path state with a space, `x y`: the Rust recorder keeps its first word
   * `x`, the Python one all of it.
   */
  lemma RecordersDisagreeOnSpacedPath(add: nat, sub: nat, x: string, y: string)
    requires add <= I32Max && sub <= I32Max
    requires IsWord(x, IsPythonWhitespace) && IsWord(y, IsPythonWhitespace)
    ensures var line := CountText(add) + " " + CountText(sub) + " " + x + " " + y;
      && LineFields(line) == Ok(Some(NumstatFields(add, sub, x)))
      && PyLineFields(line) == Ok(Some(PyFields(Word(CountText(add)), Word(CountText(sub)), x + " " + y)))
  {
    RustRecorderOnSpacedPath(add, sub, x, y);
    PyRecorderOnSpacedPath(add, sub, x, y);
  }

  /** The Rust recorder keeps only the first word of a path with a space in it. */
  lemma RustRecorderOnSpacedPath(add: nat, sub: nat, x: string, y: string)
    requires add <= I32Max && sub <= I32Max
    requires IsWord(x, IsPythonWhitespace) && IsWord(y, IsPythonWhitespace)
    ensures var line := CountText(add) + " " + CountText(sub) + " " + x + " " + y;
      LineFields(line) == Ok(Some(NumstatFields(add, sub, x)))
  {
    var a, b := CountText(add), CountText(sub);
    var line := a + " " + b + " " + x + " " + y;
    ColumnValueOfText(add);
    ColumnValueOfText(sub);
    CountFieldOfText(add, "bad diffstat add");
    CountFieldOfText(sub, "bad diffstat sub");
    PythonWordIsRustWord(x);
    PythonWordIsRustWord(y);
    RustWordsOfLine(a, b, x, y);
    assert line == a + [' '] + (b + [' '] + (x + [' '] + y));
  }

  /** The Python recorder keeps the whole of a path with a space in it. */
  lemma PyRecorderOnSpacedPath(add: nat, sub: nat, x: string, y: string)
    requires add <= I32Max && sub <= I32Max
    requires IsWord(x, IsPythonWhitespace) && IsWord(y, IsPythonWhitespace)
    ensures var line := CountText(add) + " " + CountText(sub) + " " + x + " " + y;
      PyLineFields(line) == Ok(Some(PyFields(Word(CountText(add)), Word(CountText(sub)), x + " " + y)))
  {
    var a, b := CountText(add), CountText(sub);
    var line := a + " " + b + " " + x + " " + y;
    ColumnValueOfText(add);
    ColumnValueOfText(sub);
    assert a != "-" && b != "-" by {
      assert IsDigit(a[0]) && IsDigit(b[0]);
    }
    assert line == a + [' '] + b + [' '] + (x + " " + y);
    PyLineFieldsRoundTrip(a, ' ', b, ' ', x + " " + y);
  }

  lemma RustWordsOfLine(a: string, b: string, x: string, y: string)
    requires IsWord(a, IsRustWhitespace) && IsWord(b, IsRustWhitespace)
    requires IsWord(x, IsRustWhitespace) && IsWord(y, IsRustWhitespace)
    ensures Words(a + [' '] + (b + [' '] + (x + [' '] + y)), IsRustWhitespace) == [a, b, x, y]
  {
    var ws := IsRustWhitespace;
    assert Words(y, ws) == [y] by {
      WordLenOfWord(y, [], ws);
      assert y + [] == y;
      assert y[..|y|] == y;
    }
    var xy := x + [' '] + y;
    var bxy := b + [' '] + xy;
    assert Words(xy, ws) == [x, y] by {
      WordsAfterWord(x, ' ', y, ws);
    }
    assert Words(bxy, ws) == [b, x, y] by {
      WordsAfterWord(b, ' ', xy, ws);
    }
    assert Words(a + [' '] + bxy, ws) == [a, b, x, y] by {
      WordsAfterWord(a, ' ', bxy, ws);
    }
  }

  /** A line of blanks: the Rust recorder skips it, the Python one raises ValueError. */
  lemma RecordersDisagreeOnBlankLine()
    ensures LineFields(" ") == Ok(None)
    ensures PyLineFields(" ").Err?
  {
    BlankLineHasNoRow(" ");
    PyLineFieldsCases(" ");
  }

  /** What `from_commit` returns: the log entry and its numstat entries, or the exception it raises. */
  function FromCommit(c: Commit): Result<(GitLogEntry, seq<PyFields>), PyError>
  {
    if |c.parentIds| == 0 then Err(IndexError("list index out of range"))
    else match PyNumstatFields(Split(c.numstat, '\n'))
      case Err(e) => Err(e)
      case Ok(fs) => Ok((LogEntryRow(c), fs))
  }

  /**
   * The numstat rows `add_all` hands to the store for the entry, once the
   * session flushes; a count the INTEGER column refuses makes the flush fail.
   */
  function NumstatColumns(fields: seq<PyFields>, entryId: int): (r: Option<seq<GitCommitLogNumstatEntry>>)
    ensures r.Some? <==> forall k :: 0 <= k < |fields| ==> ColumnValue(fields[k].add).Some? && ColumnValue(fields[k].sub).Some?
    ensures r.Some? ==> |r.value| == |fields| && forall k :: 0 <= k < |fields| ==>
      r.value[k] == GitCommitLogNumstatEntry(0, ColumnValue(fields[k].add).value, ColumnValue(fields[k].sub).value, fields[k].pathState, entryId)
    decreases |fields|
  {
    if |fields| == 0 then Some([])
    else
      var f := fields[0];
      var rest := NumstatColumns(fields[1..], entryId);
      assert forall k :: 1 <= k < |fields| ==> fields[k] == fields[1..][k - 1];
      match (ColumnValue(f.add), ColumnValue(f.sub), rest)
      case (Some(add), Some(sub), Some(rows)) => Some([GitCommitLogNumstatEntry(0, add, sub, f.pathState, entryId)] + rows)
      case _ => None
  }

  /** A run of numstat lines that git writes (counts or `-`, a path state) is stored with exactly those counts. */
  lemma NumstatColumnsOfCounts(add: int, sub: int, pathState: string, entryId: int)
    requires (add == -1 || add >= 0) && (sub == -1 || sub >= 0)
    ensures NumstatColumns([PyFields(CountOf(CountText(add)), CountOf(CountText(sub)), pathState)], entryId)
         == Some([GitCommitLogNumstatEntry(0, add, sub, pathState, entryId)])
  {
    ColumnValueOfText(add);
    ColumnValueOfText(sub);
    var fields := [PyFields(CountOf(CountText(add)), CountOf(CountText(sub)), pathState)];
    assert fields[1..] == [];
    assert NumstatColumns(fields[1..], entryId) == Some([]);
    var row := GitCommitLogNumstatEntry(0, add, sub, pathState, entryId);
    assert [row] + [] == [row];
  }

  // Adding rows: the store assigns the next id.

  function PyAddLedger(t: PyTables, entry: GitLogEntry, rows: seq<GitCommitLogNumstatEntry>): PyTables
  {
    t.(logEntries := t.logEntries + [entry.(id := |t.logEntries| + 1)],
       numstats := t.numstats + Numbered(rows, |t.numstats| + 1))
  }

  function PyNewSnapshot(t: PyTables, entryId: int): PySnapshot { PySnapshot(|t.snapshots| + 1, entryId) }

  function PyAddSnapshot(t: PyTables, entryId: int): PyTables
  {
    t.(snapshots := t.snapshots + [PyNewSnapshot(t, entryId)])
  }

  function PyNewTypeDecl(t: PyTables, path: string): TypeDecl { TypeDecl(|t.typeDecls| + 1, path) }

  function PyAddTypeDecl(t: PyTables, path: string): PyTables
  {
    t.(typeDecls := t.typeDecls + [PyNewTypeDecl(t, path)])
  }

  function PyNewProcDecl(t: PyTables, path: string): ProcDecl { ProcDecl(|t.procDecls| + 1, path) }

  function PyAddProcDecl(t: PyTables, path: string): PyTables
  {
    t.(procDecls := t.procDecls + [PyNewProcDecl(t, path)])
  }

  function PyNewVarDecl(t: PyTables, path: string, declaredTypeId: Option<int>, jsonConstVal: string): VarDecl
  {
    VarDecl(|t.varDecls| + 1, path, declaredTypeId, jsonConstVal)
  }

  function PyAddVarDecl(t: PyTables, path: string, declaredTypeId: Option<int>, jsonConstVal: string): PyTables
  {
    t.(varDecls := t.varDecls + [PyNewVarDecl(t, path, declaredTypeId, jsonConstVal)])
  }

  // get_or_create.

  /** Whether a type row has the path: the filter of `TypeDecl.get_or_create`. */
  predicate TypeRowIs(row: TypeDecl, path: string) { row.path == path }

  predicate ProcRowIs(row: ProcDecl, path: string) { row.path == path }

  /**
   * `TypeDecl.get_or_create`: the one row with the path and False, or a new
   * row with that path, added to the session, and True.
   */
  function TypeGetOrCreate(t: PyTables, path: string): (Result<(TypeDecl, bool), PyError>, PyTables)
  {
    match Scalar(t.typeDecls, (row: TypeDecl) => TypeRowIs(row, path))
    case Err(e) => (Err(e), t)
    case Ok(Some(i)) => (Ok((t.typeDecls[i], false)), t)
    case Ok(None) => (Ok((PyNewTypeDecl(t, path), true)), PyAddTypeDecl(t, path))
  }

  /** `ProcDecl.get_or_create`, the same over proc rows. */
  function ProcGetOrCreate(t: PyTables, path: string): (Result<(ProcDecl, bool), PyError>, PyTables)
  {
    match Scalar(t.procDecls, (row: ProcDecl) => ProcRowIs(row, path))
    case Err(e) => (Err(e), t)
    case Ok(Some(i)) => (Ok((t.procDecls[i], false)), t)
    case Ok(None) => (Ok((PyNewProcDecl(t, path), true)), PyAddProcDecl(t, path))
  }

  /**
   * A lookup returns the row with the path and creates one exactly when none
   * exists; it raises only when two rows share the path, which the unique
   * index on the path column rules out.
   */
  lemma TypeGetOrCreateSpec(t: PyTables, path: string)
    ensures var (r, t') := TypeGetOrCreate(t, path);
      && (r.Err? <==> exists i, j :: 0 <= i < j < |t.typeDecls| && t.typeDecls[i].path == path && t.typeDecls[j].path == path)
      && (r.Ok? ==> r.value.0.path == path)
      && (r.Ok? ==> (r.value.1 <==> forall j :: 0 <= j < |t.typeDecls| ==> t.typeDecls[j].path != path))
      && (r.Ok? && !r.value.1 ==> t' == t && exists i :: 0 <= i < |t.typeDecls| && t.typeDecls[i] == r.value.0)
      && (r.Ok? && r.value.1 ==> r.value.0.id == |t.typeDecls| + 1 && t' == t.(typeDecls := t.typeDecls + [r.value.0]))
      && (r.Err? ==> t' == t)
  {
    var pick := (row: TypeDecl) => TypeRowIs(row, path);
    var q := Scalar(t.typeDecls, pick);
    if q.Err? {
      var i, j :| 0 <= i < j < |t.typeDecls| && pick(t.typeDecls[i]) && pick(t.typeDecls[j]);
    }
  }

  lemma ProcGetOrCreateSpec(t: PyTables, path: string)
    ensures var (r, t') := ProcGetOrCreate(t, path);
      && (r.Err? <==> exists i, j :: 0 <= i < j < |t.procDecls| && t.procDecls[i].path == path && t.procDecls[j].path == path)
      && (r.Ok? ==> r.value.0.path == path)
      && (r.Ok? ==> (r.value.1 <==> forall j :: 0 <= j < |t.procDecls| ==> t.procDecls[j].path != path))
      && (r.Ok? && !r.value.1 ==> t' == t && exists i :: 0 <= i < |t.procDecls| && t.procDecls[i] == r.value.0)
      && (r.Ok? && r.value.1 ==> r.value.0.id == |t.procDecls| + 1 && t' == t.(procDecls := t.procDecls + [r.value.0]))
      && (r.Err? ==> t' == t)
  {
    var pick := (row: ProcDecl) => ProcRowIs(row, path);
    var q := Scalar(t.procDecls, pick);
    if q.Err? {
      var i, j :| 0 <= i < j < |t.procDecls| && pick(t.procDecls[i]) && pick(t.procDecls[j]);
    }
  }

  /** With paths unique, as the schema's unique index keeps them, the lookup succeeds and keeps them unique. */
  lemma TypeGetOrCreateKeepsUnique(t: PyTables, path: string)
    requires DeclCache.UniqueTypePaths(t.typeDecls)
    ensures var (r, t') := TypeGetOrCreate(t, path); r.Ok? && DeclCache.UniqueTypePaths(t'.typeDecls)
  {
    TypeGetOrCreateSpec(t, path);
  }

  /** A second lookup of the same path finds the row the first returned, and adds nothing. */
  lemma TypeGetOrCreateRepeats(t: PyTables, path: string)
    requires TypeGetOrCreate(t, path).0.Ok?
    ensures var (r, t') := TypeGetOrCreate(t, path);
      TypeGetOrCreate(t', path) == (Ok((r.value.0, false)), t')
  {
    var (r, t') := TypeGetOrCreate(t, path);
    TypeGetOrCreateSpec(t, path);
    var pick := (row: TypeDecl) => TypeRowIs(row, path);
    var i: nat;
    if r.value.1 {
      i := |t.typeDecls|;
      assert forall j :: 0 <= j < |t'.typeDecls| && j != i ==> !pick(t'.typeDecls[j]);
    } else {
      i :| i < |t.typeDecls| && t.typeDecls[i] == r.value.0;
    }
    assert pick(t'.typeDecls[i]) && t'.typeDecls[i] == r.value.0;
    var q := Scalar(t'.typeDecls, pick);
    assert q.Ok? && q.value.Some?;
  }

  lemma ProcGetOrCreateRepeats(t: PyTables, path: string)
    requires ProcGetOrCreate(t, path).0.Ok?
    ensures var (r, t') := ProcGetOrCreate(t, path);
      ProcGetOrCreate(t', path) == (Ok((r.value.0, false)), t')
  {
    var (r, t') := ProcGetOrCreate(t, path);
    ProcGetOrCreateSpec(t, path);
    var pick := (row: ProcDecl) => ProcRowIs(row, path);
    var i: nat;
    if r.value.1 {
      i := |t.procDecls|;
      assert forall j :: 0 <= j < |t'.procDecls| && j != i ==> !pick(t'.procDecls[j]);
    } else {
      i :| i < |t.procDecls| && t.procDecls[i] == r.value.0;
    }
    assert pick(t'.procDecls[i]) && t'.procDecls[i] == r.value.0;
    var q := Scalar(t'.procDecls, pick);
    assert q.Ok? && q.value.Some?;
  }

  /**
   * A var's constant as the parser hands it over: none, a type path, a list,
   * or another value (a string or a number), given by its `json.dumps` text
   * and whether Python counts it as true.
   */
  datatype PyConstant = NoValue | PathValue(path: string) | ListValue | OtherValue(json: string, truthy: bool)

  /** `json_const_val`: a path's text, a true non-list value's JSON, and "null" for everything else. */
  function JsonConstVal(c: PyConstant): string
  {
    match c
    case PathValue(p) => p
    case OtherValue(json, truthy) => if truthy then json else "null"
    case _ => "null"
  }

  /**
   * The encoding conflates every constant Python counts as false with having
   * none, and a list with both; the Rust encoding writes "" for no constant.
   */
  lemma FalsyConstantsAreNull(json: string)
    ensures JsonConstVal(NoValue) == "null"
    ensures JsonConstVal(ListValue) == "null"
    ensures JsonConstVal(OtherValue(json, false)) == "null"
    ensures DeclCache.EncodeConstant(None) == "" != JsonConstVal(NoValue)
  {
  }

  /** `vd` as `VarDecl.get_or_create` reads it: where the var is, its declared type, its constant, and whether it has a source location. */
  datatype PyVar = PyVar(typePath: string, name: string, declaredType: Option<string>, constant: PyConstant, hasSourceLoc: bool)

  /** `type_path / name`. */
  function VarPath(vd: PyVar): string
  {
    vd.typePath + "/" + vd.name
  }

  /**
   * The declared-type clause of the var filter. A var without a declared
   * type has none. A var with one compares the declared type column with the
   * type row's id as it stands when the clause is built: a type row this
   * very lookup created has no id yet, so the clause then asks for rows
   * without a declared type.
   */
  datatype TypeClause = AnyType | TypeIdIs(id: Option<int>)

  /** The var filter: path and encoding, and the declared-type clause. */
  predicate VarRowIs(row: VarDecl, path: string, json: string, clause: TypeClause)
  {
    row.path == path && row.jsonConstVal == json && (clause.TypeIdIs? ==> row.declaredTypeId == clause.id)
  }

  /** The declared type, resolved with `TypeDecl.get_or_create` when the var has one: the type row and whether it was created. */
  function DeclaredTypeOf(t: PyTables, vd: PyVar): (Result<Option<(TypeDecl, bool)>, PyError>, PyTables)
  {
    match vd.declaredType
    case None => (Ok(None), t)
    case Some(dt) =>
      var (r, t1) := TypeGetOrCreate(t, dt);
      match r
      case Err(e) => (Err(e), t1)
      case Ok(found) => (Ok(Some(found)), t1)
  }

  function ClauseOf(typed: Option<(TypeDecl, bool)>): TypeClause
  {
    match typed
    case None => AnyType
    case Some((decl, created)) => TypeIdIs(if created then None else Some(decl.id))
  }

  /** The declared type column of a row the lookup creates. */
  function TypeIdOf(typed: Option<(TypeDecl, bool)>): Option<int>
  {
    match typed
    case None => None
    case Some((decl, _)) => Some(decl.id)
  }

  /**
   * `VarDecl.get_or_create`: the declared type first, then the one row the
   * filter picks and False, or a new row with the path, the encoding and the
   * declared type when there is one, and True.
   */
  function VarGetOrCreate(t: PyTables, vd: PyVar): (Result<(VarDecl, bool), PyError>, PyTables)
  {
    var path := VarPath(vd);
    var json := JsonConstVal(vd.constant);
    var (typed, t1) := DeclaredTypeOf(t, vd);
    match typed
    case Err(e) => (Err(e), t1)
    case Ok(dt) =>
      match Scalar(t1.varDecls, (row: VarDecl) => VarRowIs(row, path, json, ClauseOf(dt)))
      case Err(e) => (Err(e), t1)
      case Ok(Some(i)) => (Ok((t1.varDecls[i], false)), t1)
      case Ok(None) => (Ok((PyNewVarDecl(t1, path, TypeIdOf(dt), json), true)), PyAddVarDecl(t1, path, TypeIdOf(dt), json))
  }

  /**
   * The declared type resolves to a type row with its path, created exactly
   * when no row had it; var rows are left alone.
   */
  lemma DeclaredTypeOfSpec(t: PyTables, vd: PyVar)
    ensures var (r, t1) := DeclaredTypeOf(t, vd);
      && t1.varDecls == t.varDecls
      && (vd.declaredType.None? ==> r == Ok(None) && t1 == t)
      && (vd.declaredType.Some? && r.Ok? ==>
           && r.value.Some?
           && r.value.value.0.path == vd.declaredType.value && r.value.value.0 in t1.typeDecls
           && (r.value.value.1 <==> forall j :: 0 <= j < |t.typeDecls| ==> t.typeDecls[j].path != vd.declaredType.value))
  {
    if vd.declaredType.Some? {
      TypeGetOrCreateSpec(t, vd.declaredType.value);
      var (r, t1) := TypeGetOrCreate(t, vd.declaredType.value);
      if r.Ok? && r.value.1 {
        assert t1.typeDecls[|t.typeDecls|] == r.value.0;
      }
    }
  }

  /**
   * The row returned has the var's path and encoding; a row found passes
   * the filter, and a row is created exactly when the filter picks none,
   * with the declared type's id; only an ambiguous query raises.
   */
  lemma VarGetOrCreateSpec(t: PyTables, vd: PyVar)
    ensures var (r, t') := VarGetOrCreate(t, vd);
      var (typed, t1) := DeclaredTypeOf(t, vd);
      && (r.Err? ==> r.error == MultipleResultsFound)
      && (r.Ok? ==> typed.Ok?)
      && (r.Ok? ==>
           var d := r.value.0;
           && d.path == VarPath(vd) && d.jsonConstVal == JsonConstVal(vd.constant)
           && (!r.value.1 ==> VarRowIs(d, VarPath(vd), JsonConstVal(vd.constant), ClauseOf(typed.value)))
           && (r.value.1 <==> forall j :: 0 <= j < |t1.varDecls| ==> !VarRowIs(t1.varDecls[j], d.path, d.jsonConstVal, ClauseOf(typed.value)))
           && (r.value.1 ==> d.declaredTypeId == TypeIdOf(typed.value) && t' == PyAddVarDecl(t1, d.path, TypeIdOf(typed.value), d.jsonConstVal))
           && (!r.value.1 ==> t' == t1 && exists i :: 0 <= i < |t1.varDecls| && t1.varDecls[i] == d))
  {
    VarGetOrCreateNames(t, vd);
    VarGetOrCreateFoundOrCreated(t, vd);
  }

  /** Only an ambiguous query raises; a row returned has the var's path and encoding. */
  lemma VarGetOrCreateNames(t: PyTables, vd: PyVar)
    ensures var (r, t') := VarGetOrCreate(t, vd);
      var (typed, t1) := DeclaredTypeOf(t, vd);
      && (r.Err? ==> r.error == MultipleResultsFound)
      && (r.Ok? ==> typed.Ok? && r.value.0.path == VarPath(vd) && r.value.0.jsonConstVal == JsonConstVal(vd.constant))
  {
    if vd.declaredType.Some? {
      TypeGetOrCreateSpec(t, vd.declaredType.value);
    }
  }

  /** A row found passes the filter and adds nothing; a row is created, with the declared type's id, exactly when none passes. */
  lemma VarGetOrCreateFoundOrCreated(t: PyTables, vd: PyVar)
    ensures var (r, t') := VarGetOrCreate(t, vd);
      var (typed, t1) := DeclaredTypeOf(t, vd);
      r.Ok? ==>
        var d := r.value.0;
        && typed.Ok?
        && (!r.value.1 ==> VarRowIs(d, VarPath(vd), JsonConstVal(vd.constant), ClauseOf(typed.value)))
        && (r.value.1 <==> forall j :: 0 <= j < |t1.varDecls| ==> !VarRowIs(t1.varDecls[j], VarPath(vd), JsonConstVal(vd.constant), ClauseOf(typed.value)))
        && (r.value.1 ==> d.declaredTypeId == TypeIdOf(typed.value) && t' == PyAddVarDecl(t1, d.path, TypeIdOf(typed.value), d.jsonConstVal))
        && (!r.value.1 ==> t' == t1 && exists i :: 0 <= i < |t1.varDecls| && t1.varDecls[i] == d)
  {
  }

  /**
   * A second lookup of the same var finds the row the first returned, and
   * adds nothing, when the declared type (if any) already had a row.
   */
  lemma VarGetOrCreateRepeats(t: PyTables, vd: PyVar)
    requires VarGetOrCreate(t, vd).0.Ok?
    requires vd.declaredType.Some? ==> exists j :: 0 <= j < |t.typeDecls| && t.typeDecls[j].path == vd.declaredType.value
    ensures var (r, t') := VarGetOrCreate(t, vd);
      VarGetOrCreate(t', vd) == (Ok((r.value.0, false)), t')
  {
    var (r, t') := VarGetOrCreate(t, vd);
    var (typed, t1) := DeclaredTypeOf(t, vd);
    VarGetOrCreateSpec(t, vd);
    if vd.declaredType.Some? {
      TypeGetOrCreateSpec(t, vd.declaredType.value);
      TypeGetOrCreateRepeats(t, vd.declaredType.value);
      assert t1 == t;
      assert t'.typeDecls == t1.typeDecls;
      assert DeclaredTypeOf(t', vd) == (typed, t');
    } else {
      assert DeclaredTypeOf(t', vd) == (typed, t');
    }
    var path, json := VarPath(vd), JsonConstVal(vd.constant);
    var pick := (row: VarDecl) => VarRowIs(row, path, json, ClauseOf(typed.value));
    var i: nat;
    if r.value.1 {
      i := |t1.varDecls|;
      assert forall j :: 0 <= j < |t'.varDecls| && j != i ==> !pick(t'.varDecls[j]);
    } else {
      i :| i < |t1.varDecls| && t1.varDecls[i] == r.value.0;
    }
    assert pick(t'.varDecls[i]) && t'.varDecls[i] == r.value.0;
    var q := Scalar(t'.varDecls, pick);
    assert q.Ok? && q.value.Some?;
  }

  /**
   * A var whose declared type has no row yet is answered with a row of the
   * same path and value that has no declared type, since the type's id is
   * not known when the filter is built; the lookup after it, with the type
   * now in place, no longer sees that row and creates a typed one.
   */
  lemma NewDeclaredTypeFindsUntypedRow(t: PyTables, vd: PyVar, i: nat)
    requires vd.declaredType.Some?
    requires forall j :: 0 <= j < |t.typeDecls| ==> t.typeDecls[j].path != vd.declaredType.value
    requires i < |t.varDecls| && t.varDecls[i].path == VarPath(vd) && t.varDecls[i].jsonConstVal == JsonConstVal(vd.constant)
    requires t.varDecls[i].declaredTypeId.None?
    requires forall j :: 0 <= j < |t.varDecls| && j != i ==>
      t.varDecls[j].path != VarPath(vd) || t.varDecls[j].jsonConstVal != JsonConstVal(vd.constant)
    ensures var (r, t') := VarGetOrCreate(t, vd);
      && r == Ok((t.varDecls[i], false))
      && t' == PyAddTypeDecl(t, vd.declaredType.value)
      && VarGetOrCreate(t', vd).0 == Ok((PyNewVarDecl(t', VarPath(vd), Some(|t.typeDecls| + 1), JsonConstVal(vd.constant)), true))
  {
    var dt := vd.declaredType.value;
    var path, json := VarPath(vd), JsonConstVal(vd.constant);
    TypeGetOrCreateSpec(t, dt);
    var t1 := PyAddTypeDecl(t, dt);
    var decl := PyNewTypeDecl(t, dt);
    assert DeclaredTypeOf(t, vd) == (Ok(Some((decl, true))), t1);
    var pick := (row: VarDecl) => VarRowIs(row, path, json, TypeIdIs(None));
    assert pick(t1.varDecls[i]);
    assert Scalar(t1.varDecls, pick) == Ok(Some(i));
    TypeGetOrCreateRepeats(t, dt);
    assert DeclaredTypeOf(t1, vd) == (Ok(Some((decl, false))), t1);
    var pick2 := (row: VarDecl) => VarRowIs(row, path, json, TypeIdIs(Some(decl.id)));
    assert forall j :: 0 <= j < |t1.varDecls| ==> !pick2(t1.varDecls[j]);
    assert Scalar(t1.varDecls, pick2) == Ok(None);
  }

  /**
   * Without a declared type the filter ignores the declared type column, so
   * an untyped var is answered with a typed row of the same path and value;
   * the Rust lookup never finds a row for an untyped var.
   */
  lemma UntypedVarFindsTypedRow(t: PyTables, vd: PyVar, i: nat)
    requires vd.declaredType.None?
    requires i < |t.varDecls| && t.varDecls[i].path == VarPath(vd) && t.varDecls[i].jsonConstVal == JsonConstVal(vd.constant)
    requires t.varDecls[i].declaredTypeId.Some?
    requires forall j :: 0 <= j < |t.varDecls| && j != i ==>
      t.varDecls[j].path != VarPath(vd) || t.varDecls[j].jsonConstVal != JsonConstVal(vd.constant)
    ensures VarGetOrCreate(t, vd) == (Ok((t.varDecls[i], false)), t)
  {
    var pick := (row: VarDecl) => VarRowIs(row, VarPath(vd), JsonConstVal(vd.constant), AnyType);
    assert pick(t.varDecls[i]);
    var q := Scalar(t.varDecls, pick);
    assert q == Ok(Some(i));
  }

  /** Two rows of the same path and value, under different declared types, make every untyped lookup of that var raise. */
  lemma UntypedVarAmbiguous(t: PyTables, vd: PyVar, i: nat, j: nat)
    requires vd.declaredType.None?
    requires i < j < |t.varDecls|
    requires t.varDecls[i].path == VarPath(vd) && t.varDecls[i].jsonConstVal == JsonConstVal(vd.constant)
    requires t.varDecls[j].path == VarPath(vd) && t.varDecls[j].jsonConstVal == JsonConstVal(vd.constant)
    ensures VarGetOrCreate(t, vd) == (Err(MultipleResultsFound), t)
  {
    var pick := (row: VarDecl) => VarRowIs(row, VarPath(vd), JsonConstVal(vd.constant), AnyType);
    assert pick(t.varDecls[i]) && pick(t.varDecls[j]);
  }

  /** The database: what every committed session has written. */
  class PyDatabase {
    var tables: PyTables

    constructor (initial: PyTables)
      ensures tables == initial
    {
      tables := initial;
    }
  }

  /**
   * The session: it starts from the database, sees its own additions (every
   * query flushes them first) and publishes them on `Commit`; closing it
   * without a commit, as an exception leaving the `with` block does, leaves
   * the database as it was.
   */
  class Session {
    var tables: PyTables

    constructor Open(db: PyDatabase)
      ensures tables == db.tables
    {
      tables := db.tables;
    }

    method Commit(db: PyDatabase)
      modifies db
      ensures db.tables == tables
    {
      db.tables := tables;
    }

    method AddLedger(entry: GitLogEntry, rows: seq<GitCommitLogNumstatEntry>)
      modifies this
      ensures tables == PyAddLedger(old(tables), entry, rows)
    {
      tables := PyAddLedger(tables, entry, rows);
    }

    method AddSnapshot(entryId: int) returns (row: PySnapshot)
      modifies this
      ensures row == PyNewSnapshot(old(tables), entryId) && tables == PyAddSnapshot(old(tables), entryId)
    {
      row := PyNewSnapshot(tables, entryId);
      tables := PyAddSnapshot(tables, entryId);
    }

    method AddTypeDecl(path: string) returns (row: TypeDecl)
      modifies this
      ensures row == PyNewTypeDecl(old(tables), path) && tables == PyAddTypeDecl(old(tables), path)
    {
      row := PyNewTypeDecl(tables, path);
      tables := PyAddTypeDecl(tables, path);
    }

    method AddProcDecl(path: string) returns (row: ProcDecl)
      modifies this
      ensures row == PyNewProcDecl(old(tables), path) && tables == PyAddProcDecl(old(tables), path)
    {
      row := PyNewProcDecl(tables, path);
      tables := PyAddProcDecl(tables, path);
    }

    method AddVarDecl(path: string, declaredTypeId: Option<int>, jsonConstVal: string) returns (row: VarDecl)
      modifies this
      ensures row == PyNewVarDecl(old(tables), path, declaredTypeId, jsonConstVal)
      ensures tables == PyAddVarDecl(old(tables), path, declaredTypeId, jsonConstVal)
    {
      row := PyNewVarDecl(tables, path, declaredTypeId, jsonConstVal);
      tables := PyAddVarDecl(tables, path, declaredTypeId, jsonConstVal);
    }

    /** Appending to `snapshot.type_decls`: one more association row. */
    method AppendTypeLink(link: TypeDeclSnapshot)
      modifies this
      ensures tables == old(tables).(typeLinks := old(tables).typeLinks + [link])
    {
      tables := tables.(typeLinks := tables.typeLinks + [link]);
    }

    method AppendProcLink(link: ProcDeclSnapshot)
      modifies this
      ensures tables == old(tables).(procLinks := old(tables).procLinks + [link])
    {
      tables := tables.(procLinks := tables.procLinks + [link]);
    }

    method AppendVarLink(link: VarDeclSnapshot)
      modifies this
      ensures tables == old(tables).(varLinks := old(tables).varLinks + [link])
    {
      tables := tables.(varLinks := tables.varLinks + [link]);
    }
  }

  method GetOrCreateType(session: Session, path: string) returns (r: Result<(TypeDecl, bool), PyError>)
    modifies session
    ensures (r, session.tables) == TypeGetOrCreate(old(session.tables), path)
  {
    var found := Scalar(session.tables.typeDecls, (row: TypeDecl) => TypeRowIs(row, path));
    if found.Err? {
      return Err(found.error);
    }
    if found.value.Some? {
      return Ok((session.tables.typeDecls[found.value.value], false));
    }
    var td := session.AddTypeDecl(path);
    r := Ok((td, true));
  }

  method GetOrCreateProc(session: Session, path: string) returns (r: Result<(ProcDecl, bool), PyError>)
    modifies session
    ensures (r, session.tables) == ProcGetOrCreate(old(session.tables), path)
  {
    var found := Scalar(session.tables.procDecls, (row: ProcDecl) => ProcRowIs(row, path));
    if found.Err? {
      return Err(found.error);
    }
    if found.value.Some? {
      return Ok((session.tables.procDecls[found.value.value], false));
    }
    var td := session.AddProcDecl(path);
    r := Ok((td, true));
  }

  method GetOrCreateVar(session: Session, vd: PyVar) returns (r: Result<(VarDecl, bool), PyError>)
    modifies session
    ensures (r, session.tables) == VarGetOrCreate(old(session.tables), vd)
  {
    var path := VarPath(vd);
    var json := JsonConstVal(vd.constant);
    var typed: Option<(TypeDecl, bool)> := None;
    var clause := AnyType;
    if vd.declaredType.Some? {
      var found := GetOrCreateType(session, vd.declaredType.value);
      if found.Err? {
        return Err(found.error);
      }
      typed := Some(found.value);
      // a row created just now has no id when the clause is built
      clause := TypeIdIs(if found.value.1 then None else Some(found.value.0.id));
    }
    assert (Ok(typed), session.tables) == DeclaredTypeOf(old(session.tables), vd);
    assert clause == ClauseOf(typed);
    var found := Scalar(session.tables.varDecls, (row: VarDecl) => VarRowIs(row, path, json, clause));
    if found.Err? {
      return Err(found.error);
    }
    if found.value.Some? {
      return Ok((session.tables.varDecls[found.value.value], false));
    }
    var nvd := session.AddVarDecl(path, TypeIdOf(typed), json);
    r := Ok((nvd, true));
  }

  /** `GitLogEntry.from_commit`: the entry, then one numstat entry per non-empty line, collected in a loop. */
  method GitLogEntryFromCommit(c: Commit) returns (r: Result<(GitLogEntry, seq<PyFields>), PyError>)
    ensures r == FromCommit(c)
  {
    var logEntry := LogEntryRow(c);
    if |c.parentIds| == 0 {
      return Err(IndexError("list index out of range"));
    }
    var lines := Split(c.numstat, '\n');
    var results: seq<PyFields> := [];
    var i := 0;
    assert lines[0..] == lines;
    PrependNothing(PyNumstatFields(lines));
    while i < |lines|
      invariant 0 <= i <= |lines|
      invariant PyNumstatFields(lines) == PrependAll(results, PyNumstatFields(lines[i..]))
    {
      PyNumstatFieldsStep(lines, i, results);
      var line := lines[i];
      if line != "" {
        var w := SplitMax(line, 2, IsPythonWhitespace);
        if |w| != 3 {
          return Err(ValueError("not enough values to unpack (expected 3)"));
        }
        results := results + [PyFields(CountOf(w[0]), CountOf(w[1]), w[2])];
      }
      i := i + 1;
    }
    assert PyNumstatFields(lines[i..]) == Ok([]);
    assert results + [] == results;
    r := Ok((logEntry, results));
  }

  /** One turn of the loop in `GitLogEntryFromCommit`. */
  lemma PyNumstatFieldsStep(lines: seq<string>, i: nat, acc: seq<PyFields>)
    requires i < |lines|
    ensures PyLineFields(lines[i]).Err? ==> PrependAll(acc, PyNumstatFields(lines[i..])) == Err(PyLineFields(lines[i]).error)
    ensures PyLineFields(lines[i]) == Ok(None) ==> PrependAll(acc, PyNumstatFields(lines[i..])) == PrependAll(acc, PyNumstatFields(lines[i + 1..]))
    ensures PyLineFields(lines[i]).Ok? && PyLineFields(lines[i]).value.Some? ==>
      PrependAll(acc, PyNumstatFields(lines[i..])) == PrependAll(acc + [PyLineFields(lines[i]).value.value], PyNumstatFields(lines[i + 1..]))
  {
    assert lines[i..] == [lines[i]] + lines[i + 1..];
    PyNumstatFieldsCons(lines[i], lines[i + 1..], acc);
  }

  lemma PyNumstatFieldsCons(line: string, tail: seq<string>, acc: seq<PyFields>)
    ensures PyLineFields(line).Err? ==> PrependAll(acc, PyNumstatFields([line] + tail)) == Err(PyLineFields(line).error)
    ensures PyLineFields(line) == Ok(None) ==> PrependAll(acc, PyNumstatFields([line] + tail)) == PrependAll(acc, PyNumstatFields(tail))
    ensures PyLineFields(line).Ok? && PyLineFields(line).value.Some? ==>
      PrependAll(acc, PyNumstatFields([line] + tail)) == PrependAll(acc + [PyLineFields(line).value.value], PyNumstatFields(tail))
  {
    var ls := [line] + tail;
    assert ls[0] == line && ls[1..] == tail;
    var rest := PyNumstatFields(tail);
    match PyLineFields(line)
    case Err(e) =>
    case Ok(None) =>
    case Ok(Some(f)) =>
      assert PyNumstatFields(ls) == PrependAll([f], rest);
      if rest.Ok? {
        assert acc + ([f] + rest.value) == acc + [f] + rest.value;
      }
  }
}
