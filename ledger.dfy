/**
 * The commit ledger recorder, `log_entry_from_commit` in src/models.rs: it
 * writes one GitLogEntry row for a commit and then one numstat row per
 * changed path, all inside the caller's transaction.
 */
module Ledger {
  import opened Wrappers
  import opened Text
  import opened Models

  /** An author or committer as git2 reports it: name and email are absent when they are not valid UTF-8. */
  datatype Signature = Signature(name: Option<string>, email: Option<string>, time: int)

  /**
   * The commit as the recorder reads it. `numstat` is the text of the diff
   * statistics in NUMBER format between the commit's tree and its first
   * parent's tree, which the version-control layer computes.
   */
  datatype Commit = Commit(
    hash: string,
    treeHash: string,
    parentIds: seq<string>,
    author: Signature,
    committer: Signature,
    message: string,
    numstat: string)

  /** Subject and body: the message cut at its first line break; a one-line message has an empty body. */
  function SubjectBody(message: string): (r: (string, string))
    ensures '\n' !in r.0
    ensures '\n' in message ==> r.0 + "\n" + r.1 == message
    ensures '\n' !in message ==> r == (message, "")
  {
    if '\n' in message then SplitOnce(message, '\n').value else (message, "")
  }

  /** The parent ids, in order, joined with commas. */
  function ParentHashes(parentIds: seq<string>): string
  {
    Join(parentIds, ',')
  }

  /** The parent ids can be read back from the stored column when none contains a comma. */
  lemma ParentHashesRoundTrip(parentIds: seq<string>)
    requires |parentIds| >= 1
    requires forall k :: 0 <= k < |parentIds| ==> ',' !in parentIds[k]
    ensures Split(ParentHashes(parentIds), ',') == parentIds
  {
    SplitJoin(parentIds, ',');
  }

  function OrEmpty(s: Option<string>): string
  {
    match s
    case Some(v) => v
    case None => ""
  }

  /** The GitLogEntry of a commit, before the store gives it an id. */
  function LogEntryRow(c: Commit): GitLogEntry
  {
    var (subject, body) := SubjectBody(c.message);
    GitLogEntry(
      0, c.hash, c.treeHash, ParentHashes(c.parentIds),
      OrEmpty(c.author.name), OrEmpty(c.author.email), c.author.time,
      OrEmpty(c.committer.name), OrEmpty(c.committer.email), c.committer.time,
      subject, body)
  }

  /** What the stored GitLogEntry says about its commit. */
  lemma LogEntryRowDescribesCommit(c: Commit)
    ensures var row := LogEntryRow(c);
      && row.commitHash == c.hash && row.treeHash == c.treeHash
      && (c.author.name.None? ==> row.authorName == "")
      && (c.author.email.None? ==> row.authorEmail == "")
      && (c.committer.name.None? ==> row.committerName == "")
      && (c.committer.email.None? ==> row.committerEmail == "")
      && (c.author.name.Some? ==> row.authorName == c.author.name.value)
      && (c.committer.name.Some? ==> row.committerName == c.committer.name.value)
      && (c.author.email.Some? ==> row.authorEmail == c.author.email.value)
      && (c.committer.email.Some? ==> row.committerEmail == c.committer.email.value)
      && row.authorDate == c.author.time && row.committerDate == c.committer.time
      && '\n' !in row.subject
      && ('\n' in c.message ==> row.subject + "\n" + row.body == c.message)
      && ('\n' !in c.message ==> row.subject == c.message && row.body == "")
      && (|c.parentIds| == 0 ==> row.parentHashes == "")
  {
  }

  /** One count of a numstat line: `-` is the sentinel -1; any other word must parse as an `i32`, or the recorder panics. */
  function CountField(word: string, panicMessage: string): (r: Result<int, IngestError>)
    ensures word == "-" ==> r == Ok(-1)
    ensures word != "-" ==> (r.Ok? <==> ParseI32(word).Some?)
    ensures word != "-" && r.Ok? ==> r.value == ParseI32(word).value
  {
    if word == "-" then Ok(-1)
    else match ParseI32(word)
      case Some(n) => Ok(n)
      case None => Err(Panic(panicMessage))
  }

  datatype NumstatFields = NumstatFields(add: int, sub: int, pathState: string)

  /**
   * One line of the numstat text, as the loop at src/models.rs:248-271 treats
   * it: a line without words is skipped; otherwise the first word gives `add`,
   * the second `sub`, the third the path state, and later words are ignored.
   * A bad count panics, and so does indexing a word the line does not have.
   */
  function LineFields(line: string): Result<Option<NumstatFields>, IngestError>
  {
    var splits := Words(line, IsRustWhitespace);
    if |splits| == 0 then Ok(None)
    else match CountField(splits[0], "bad diffstat add")
      case Err(e) => Err(e)
      case Ok(add) =>
        if |splits| < 2 then Err(Panic("index out of bounds"))
        else match CountField(splits[1], "bad diffstat sub")
          case Err(e) => Err(e)
          case Ok(sub) =>
            if |splits| < 3 then Err(Panic("index out of bounds"))
            else Ok(Some(NumstatFields(add, sub, splits[2])))
  }

  /** An empty or all-whitespace line produces no row, and only such a line. */
  lemma BlankLineHasNoRow(line: string)
    ensures LineFields(line) == Ok(None) <==> IsBlank(line, IsRustWhitespace)
  {
    WordsEmptyIffBlank(line, IsRustWhitespace);
  }

  /** How a count is written in the numstat text: `-` for the sentinel, decimal otherwise. */
  function CountText(n: int): string
    requires n == -1 || n >= 0
  {
    if n == -1 then "-" else NatToDecimal(n)
  }

  lemma CountFieldOfText(n: int, msg: string)
    requires n == -1 || 0 <= n <= I32Max
    ensures IsWord(CountText(n), IsRustWhitespace)
    ensures CountField(CountText(n), msg) == Ok(n)
  {
    if n >= 0 {
      ParseI32OfDecimal(n);
      var s := NatToDecimal(n);
      assert s != "-" by { assert IsDigit(s[0]); }
      forall j | 0 <= j < |s| ensures !IsRustWhitespace(s[j]) { assert IsDigit(s[j]); }
    }
  }

  /**
   * Writing a row's counts and path state as a numstat line, any whitespace
   * between them, and parsing the line gives the row back.
   */
  lemma ThreeWords(a: string, s1: char, b: string, s2: char, c: string)
    requires IsWord(a, IsRustWhitespace) && IsWord(b, IsRustWhitespace) && IsWord(c, IsRustWhitespace)
    requires IsRustWhitespace(s1) && IsRustWhitespace(s2)
    ensures Words(a + [s1] + b + [s2] + c, IsRustWhitespace) == [a, b, c]
  {
    assert a + [s1] + b + [s2] + c == a + [s1] + (b + [s2] + c);
    WordsAfterWord(a, s1, b + [s2] + c, IsRustWhitespace);
    WordsAfterWord(b, s2, c, IsRustWhitespace);
    WordLenOfWord(c, [], IsRustWhitespace);
    assert c + [] == c;
    assert c[..|c|] == c;
  }

  /**
   * Writing a row's counts and path state as a numstat line, any whitespace
   * between them, and parsing the line gives the row back.
   */
  lemma LineFieldsRoundTrip(f: NumstatFields, s1: char, s2: char)
    requires f.add == -1 || 0 <= f.add <= I32Max
    requires f.sub == -1 || 0 <= f.sub <= I32Max
    requires IsWord(f.pathState, IsRustWhitespace)
    requires IsRustWhitespace(s1) && IsRustWhitespace(s2)
    ensures LineFields(CountText(f.add) + [s1] + CountText(f.sub) + [s2] + f.pathState) == Ok(Some(f))
  {
    var a, b := CountText(f.add), CountText(f.sub);
    CountFieldOfText(f.add, "bad diffstat add");
    CountFieldOfText(f.sub, "bad diffstat sub");
    ThreeWords(a, s1, b, s2, f.pathState);
  }

  /** A numstat line for a binary file: its `-` counts are the sentinel -1. */
  lemma BinaryLineExample()
    ensures LineFields("- - icons/mob.dmi") == Ok(Some(NumstatFields(-1, -1, "icons/mob.dmi")))
  {
    var p := "icons/mob.dmi";
    forall j | 0 <= j < |p| ensures !IsRustWhitespace(p[j]) { }
    assert IsWord(p, IsRustWhitespace);
    assert "- - icons/mob.dmi" == CountText(-1) + [' '] + CountText(-1) + [' '] + p;
    LineFieldsRoundTrip(NumstatFields(-1, -1, p), ' ', ' ');
  }

  /** A numstat line for a text file: its decimal counts are read as numbers. */
  lemma CountedLineExample()
    ensures LineFields("3 1 file.dm") == Ok(Some(NumstatFields(3, 1, "file.dm")))
  {
    var p := "file.dm";
    forall j | 0 <= j < |p| ensures !IsRustWhitespace(p[j]) { }
    assert IsWord(p, IsRustWhitespace);
    assert CountText(3) == "3" && CountText(1) == "1";
    assert "3 1 file.dm" == CountText(3) + [' '] + CountText(1) + [' '] + p;
    LineFieldsRoundTrip(NumstatFields(3, 1, p), ' ', ' ');
  }

  function PrependAll<T, E>(xs: seq<T>, r: Result<seq<T>, E>): Result<seq<T>, E>
  {
    match r
    case Ok(ys) => Ok(xs + ys)
    case Err(e) => Err(e)
  }

  lemma PrependNothing<T, E>(r: Result<seq<T>, E>)
    ensures PrependAll([], r) == r
  {
    if r.Ok? {
      assert [] + r.value == r.value;
    }
  }

  /** The numstat rows of the lines, in line order, each pointing at log entry `entryId`; the first failing line fails them all. */
  function NumstatRows(lines: seq<string>, entryId: int): Result<seq<GitCommitLogNumstatEntry>, IngestError>
    decreases |lines|
  {
    if |lines| == 0 then Ok([])
    else match LineFields(lines[0])
      case Err(e) => Err(e)
      case Ok(None) => NumstatRows(lines[1..], entryId)
      case Ok(Some(f)) =>
        PrependAll([GitCommitLogNumstatEntry(0, f.add, f.sub, f.pathState, entryId)], NumstatRows(lines[1..], entryId))
  }

  /** The lines that have at least one word, in order. */
  function WordedLines(lines: seq<string>): seq<string>
  {
    if |lines| == 0 then []
    else if LineFields(lines[0]) == Ok(None) then WordedLines(lines[1..])
    else [lines[0]] + WordedLines(lines[1..])
  }

  /**
   * Parsing succeeds exactly when every line does, and it then yields one row
   * per line with words, in line order, each carrying that line's fields and
   * the log entry's id.
   */
  lemma {:induction false} NumstatRowsPerLine(lines: seq<string>, entryId: int)
    ensures NumstatRows(lines, entryId).Ok? <==> forall k :: 0 <= k < |lines| ==> LineFields(lines[k]).Ok?
    ensures NumstatRows(lines, entryId).Ok? ==>
      var rows := NumstatRows(lines, entryId).value;
      && |rows| == |WordedLines(lines)|
      && forall k :: 0 <= k < |rows| ==>
           && LineFields(WordedLines(lines)[k]) == Ok(Some(NumstatFields(rows[k].add, rows[k].sub, rows[k].pathState)))
           && rows[k].gitLogEntryId == entryId
    decreases |lines|
  {
    NumstatRowsOkExactly(lines, entryId);
    if NumstatRows(lines, entryId).Ok? {
      NumstatRowsEntries(lines, entryId);
    }
  }

  /** Parsing succeeds exactly when every line does. */
  lemma {:induction false} NumstatRowsOkExactly(lines: seq<string>, entryId: int)
    ensures NumstatRows(lines, entryId).Ok? <==> forall k :: 0 <= k < |lines| ==> LineFields(lines[k]).Ok?
    decreases |lines|
  {
    if |lines| > 0 {
      NumstatRowsOkExactly(lines[1..], entryId);
      assert NumstatRows(lines, entryId).Ok? <==> LineFields(lines[0]).Ok? && NumstatRows(lines[1..], entryId).Ok?;
      assert forall k :: 1 <= k < |lines| ==> lines[1..][k - 1] == lines[k];
    }
  }

  /** A successful parse has one row per line with words, in order, with that line's fields and the entry's id. */
  lemma {:induction false} NumstatRowsEntries(lines: seq<string>, entryId: int)
    requires NumstatRows(lines, entryId).Ok?
    ensures var rows := NumstatRows(lines, entryId).value;
      && |rows| == |WordedLines(lines)|
      && forall k :: 0 <= k < |rows| ==>
           && LineFields(WordedLines(lines)[k]) == Ok(Some(NumstatFields(rows[k].add, rows[k].sub, rows[k].pathState)))
           && rows[k].gitLogEntryId == entryId
    decreases |lines|
  {
    if |lines| > 0 {
      var rows := NumstatRows(lines, entryId).value;
      assert NumstatRows(lines[1..], entryId).Ok?;
      var rest := NumstatRows(lines[1..], entryId).value;
      var ls := WordedLines(lines[1..]);
      NumstatRowsEntries(lines[1..], entryId);
      if LineFields(lines[0]) == Ok(None) {
        assert WordedLines(lines) == ls && rows == rest;
      } else {
        var f := LineFields(lines[0]).value.value;
        var row := GitCommitLogNumstatEntry(0, f.add, f.sub, f.pathState, entryId);
        assert WordedLines(lines) == [lines[0]] + ls;
        assert rows == [row] + rest;
        RowsCons(lines[0], ls, row, rest, entryId);
      }
    }
  }

  /** A line read into a row, in front of lines read row by row, is read row by row. */
  lemma RowsCons(line: string, ls: seq<string>, row: GitCommitLogNumstatEntry, rest: seq<GitCommitLogNumstatEntry>, entryId: int)
    requires LineFields(line) == Ok(Some(NumstatFields(row.add, row.sub, row.pathState))) && row.gitLogEntryId == entryId
    requires |rest| == |ls|
    requires forall k :: 0 <= k < |rest| ==>
      && LineFields(ls[k]) == Ok(Some(NumstatFields(rest[k].add, rest[k].sub, rest[k].pathState)))
      && rest[k].gitLogEntryId == entryId
    ensures forall k :: 0 <= k < |rest| + 1 ==>
      && LineFields(([line] + ls)[k]) == Ok(Some(NumstatFields(([row] + rest)[k].add, ([row] + rest)[k].sub, ([row] + rest)[k].pathState)))
      && ([row] + rest)[k].gitLogEntryId == entryId
  {
    ConsShift([line] + ls, line, ls, [row] + rest, row, rest);
  }

  /** Past the head, two sequences built by the same prepend are their tails shifted by one. */
  lemma ConsShift<A, B>(xs: seq<A>, x: A, xt: seq<A>, ys: seq<B>, y: B, yt: seq<B>)
    requires xs == [x] + xt && ys == [y] + yt
    ensures forall k :: 1 <= k < |xs| ==> xs[k] == xt[k - 1]
    ensures forall k :: 1 <= k < |ys| ==> ys[k] == yt[k - 1]
  {
  }

  /** What `log_entry_from_commit` writes into the transaction, and whether it returns normally. */
  function LedgerOutcome(t: Tables, c: Commit): (Result<(), IngestError>, Tables)
  {
    var entryId := NewLogEntryId(t);
    var t1 := AddLogEntry(t, LogEntryRow(c));
    if |c.parentIds| == 0 then (Err(Panic("commit has no first parent")), t1)
    else match NumstatRows(Split(c.numstat, '\n'), entryId)
      case Err(e) => (Err(e), t1)
      case Ok(rows) => (Ok(()), AddNumstats(t1, rows))
  }

  /**
   * On success the ledger entry is inserted first, with the next id, then the
   * numstat rows with consecutive ids, each pointing at that entry; no other
   * table changes. A commit without a parent stops the recorder.
   */
  lemma LedgerWritesEntryThenRows(t: Tables, c: Commit)
    requires IdsArePositions(t)
    ensures |c.parentIds| == 0 ==> LedgerOutcome(t, c).0 == Err(Panic("commit has no first parent"))
    ensures var (r, t') := LedgerOutcome(t, c);
      r.Ok? ==>
        && IdsArePositions(t')
        && t'.logEntries == t.logEntries + [LogEntryRow(c).(id := |t.logEntries| + 1)]
        && |t'.numstats| >= |t.numstats| && t'.numstats[..|t.numstats|] == t.numstats
        && (forall k :: |t.numstats| <= k < |t'.numstats| ==> t'.numstats[k].gitLogEntryId == |t.logEntries| + 1)
        && t'.snapshots == t.snapshots && t'.typeDecls == t.typeDecls && t'.procDecls == t.procDecls
        && t'.varDecls == t.varDecls && t'.typeLinks == t.typeLinks && t'.procLinks == t.procLinks
        && t'.varLinks == t.varLinks
  {
    var (r, t') := LedgerOutcome(t, c);
    if r.Ok? {
      var lines := Split(c.numstat, '\n');
      var rows := NumstatRows(lines, NewLogEntryId(t)).value;
      assert LedgerOutcome(t, c) == (Ok(()), AddNumstats(AddLogEntry(t, LogEntryRow(c)), rows));
      assert forall k :: 0 <= k < |rows| ==> rows[k].gitLogEntryId == |t.logEntries| + 1 by {
        NumstatRowsPerLine(lines, NewLogEntryId(t));
      }
      EntryThenRows(t, LogEntryRow(c), rows);
    }
  }

  /** The entry, then rows pointing at it: ids stay positions and every new row points at the new entry. */
  lemma EntryThenRows(t: Tables, entry: GitLogEntry, rows: seq<GitCommitLogNumstatEntry>)
    requires IdsArePositions(t)
    requires forall k :: 0 <= k < |rows| ==> rows[k].gitLogEntryId == |t.logEntries| + 1
    ensures var t' := AddNumstats(AddLogEntry(t, entry), rows);
      && IdsArePositions(t')
      && t'.logEntries == t.logEntries + [entry.(id := |t.logEntries| + 1)]
      && |t'.numstats| >= |t.numstats| && t'.numstats[..|t.numstats|] == t.numstats
      && (forall k :: |t.numstats| <= k < |t'.numstats| ==> t'.numstats[k].gitLogEntryId == |t.logEntries| + 1)
      && t'.snapshots == t.snapshots && t'.typeDecls == t.typeDecls && t'.procDecls == t.procDecls
      && t'.varDecls == t.varDecls && t'.typeLinks == t.typeLinks && t'.procLinks == t.procLinks
      && t'.varLinks == t.varLinks
  {
    var t' := AddNumstats(AddLogEntry(t, entry), rows);
    assert t'.numstats == t.numstats + Numbered(rows, |t.numstats| + 1);
    NumberedAfterRows(t.numstats, rows, |t.logEntries| + 1);
  }

  /** Rows numbered on from the ids already taken keep ids positions, and keep what they point at. */
  lemma NumberedAfterRows(before: seq<GitCommitLogNumstatEntry>, rows: seq<GitCommitLogNumstatEntry>, entryId: int)
    requires forall i :: 0 <= i < |before| ==> before[i].id == i + 1
    requires forall k :: 0 <= k < |rows| ==> rows[k].gitLogEntryId == entryId
    ensures var all := before + Numbered(rows, |before| + 1);
      && (forall i :: 0 <= i < |all| ==> all[i].id == i + 1)
      && (forall k :: |before| <= k < |all| ==> all[k].gitLogEntryId == entryId)
      && all[..|before|] == before
  {
    var numbered := Numbered(rows, |before| + 1);
    var all := before + numbered;
    forall i | 0 <= i < |all|
      ensures all[i].id == i + 1
      ensures |before| <= i ==> all[i].gitLogEntryId == entryId
    {
      if i >= |before| {
        assert all[i] == numbered[i - |before|];
      }
    }
    assert all[..|before|] == before;
  }

  /** One step of the loop over numstat lines: the rows so far, then the rest of the lines. */
  lemma NumstatRowsStep(lines: seq<string>, i: nat, entryId: int, acc: seq<GitCommitLogNumstatEntry>)
    requires i < |lines|
    ensures LineFields(lines[i]).Err? ==>
      PrependAll(acc, NumstatRows(lines[i..], entryId)) == Err(LineFields(lines[i]).error)
    ensures LineFields(lines[i]) == Ok(None) ==>
      PrependAll(acc, NumstatRows(lines[i..], entryId)) == PrependAll(acc, NumstatRows(lines[i + 1..], entryId))
    ensures LineFields(lines[i]).Ok? && LineFields(lines[i]).value.Some? ==>
      var f := LineFields(lines[i]).value.value;
      PrependAll(acc, NumstatRows(lines[i..], entryId))
        == PrependAll(acc + [GitCommitLogNumstatEntry(0, f.add, f.sub, f.pathState, entryId)], NumstatRows(lines[i + 1..], entryId))
  {
    assert lines[i..][1..] == lines[i + 1..];
    var rest := NumstatRows(lines[i + 1..], entryId);
    if rest.Ok? && LineFields(lines[i]).Ok? && LineFields(lines[i]).value.Some? {
      var f := LineFields(lines[i]).value.value;
      assert acc + ([GitCommitLogNumstatEntry(0, f.add, f.sub, f.pathState, entryId)] + rest.value)
        == acc + [GitCommitLogNumstatEntry(0, f.add, f.sub, f.pathState, entryId)] + rest.value;
    }
  }

  /** The body of the loop over numstat lines, for one line. */
  method ParseNumstatLine(line: string) returns (r: Result<Option<NumstatFields>, IngestError>)
    ensures r == LineFields(line)
  {
    var splits := Words(line, IsRustWhitespace);
    if |splits| == 0 {
      return Ok(None);
    }
    var add := -1;
    var sub := -1;
    if splits[0] != "-" {
      var n := ParseI32(splits[0]);
      if n.None? {
        return Err(Panic("bad diffstat add"));
      }
      add := n.value;
    }
    if |splits| < 2 {
      return Err(Panic("index out of bounds"));
    }
    if splits[1] != "-" {
      var n := ParseI32(splits[1]);
      if n.None? {
        return Err(Panic("bad diffstat sub"));
      }
      sub := n.value;
    }
    if |splits| < 3 {
      return Err(Panic("index out of bounds"));
    }
    r := Ok(Some(NumstatFields(add, sub, splits[2])));
  }

  /** `log_entry_from_commit`: the entry, then the numstat rows built line by line, then one batch insert. */
  method LogEntryFromCommit(txn: Transaction, c: Commit) returns (r: Result<(), IngestError>)
    modifies txn
    ensures (r, txn.tables) == LedgerOutcome(old(txn.tables), c)
  {
    var entryId := txn.InsertLogEntry(LogEntryRow(c));
    if |c.parentIds| == 0 {
      return Err(Panic("commit has no first parent"));
    }
    var lines := Split(c.numstat, '\n');
    var numstatEntries: seq<GitCommitLogNumstatEntry> := [];
    var i := 0;
    assert lines[0..] == lines;
    PrependNothing(NumstatRows(lines, entryId));
    while i < |lines|
      invariant 0 <= i <= |lines|
      invariant txn.tables == AddLogEntry(old(txn.tables), LogEntryRow(c))
      invariant NumstatRows(lines, entryId) == PrependAll(numstatEntries, NumstatRows(lines[i..], entryId))
    {
      NumstatRowsStep(lines, i, entryId, numstatEntries);
      var fields := ParseNumstatLine(lines[i]);
      if fields.Err? {
        return Err(fields.error);
      }
      if fields.value.Some? {
        var f := fields.value.value;
        numstatEntries := numstatEntries + [GitCommitLogNumstatEntry(0, f.add, f.sub, f.pathState, entryId)];
      }
      i := i + 1;
    }
    assert NumstatRows(lines[i..], entryId) == Ok([]);
    assert numstatEntries + [] == numstatEntries;
    txn.InsertNumstats(numstatEntries);
    r := Ok(());
  }
}
