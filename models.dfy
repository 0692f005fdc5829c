/**
 * The rows the ingester writes (the entity models of src/models.rs) and the
 * durable store that holds them.
 *
 * The store is abstract: one sequence per table with an auto-increment key,
 * where the row at position i has id i + 1 (ids are handed out in insert
 * order and nothing is ever updated or deleted), and one set per link table,
 * whose composite primary key is the whole row. A transaction works on its
 * own copy of the tables and publishes all of it on commit, or nothing.
 */
module Models {
  import opened Wrappers

  /** What stops an ingestion run: the variants of `IngesterError`, plus a panic. */
  datatype IngestError =
    | Parser(msg: string)
    | Cache(msg: string)
    | Db(msg: string)
    | Panic(msg: string)

  /** One ingested commit. Dates are seconds since the epoch. */
  datatype GitLogEntry = GitLogEntry(
    id: int,
    commitHash: string,
    treeHash: string,
    parentHashes: string,
    authorName: string,
    authorEmail: string,
    authorDate: int,
    committerName: string,
    committerEmail: string,
    committerDate: int,
    subject: string,
    body: string)

  /** One changed path of one commit; `add` and `sub` are -1 when the diff could not count lines. */
  datatype GitCommitLogNumstatEntry = GitCommitLogNumstatEntry(
    id: int, add: int, sub: int, pathState: string, gitLogEntryId: int)

  datatype Snapshot = Snapshot(id: int)

  datatype TypeDecl = TypeDecl(id: int, path: string)

  datatype ProcDecl = ProcDecl(id: int, path: string)

  /** A `declaredTypeId` of None is a NULL column. */
  datatype VarDecl = VarDecl(id: int, path: string, declaredTypeId: Option<int>, jsonConstVal: string)

  datatype TypeDeclSnapshot = TypeDeclSnapshot(snapshotId: int, typeDeclId: int)

  datatype ProcDeclSnapshot = ProcDeclSnapshot(snapshotId: int, procDeclId: int)

  datatype VarDeclSnapshot = VarDeclSnapshot(snapshotId: int, varDeclId: int)

  datatype Tables = Tables(
    logEntries: seq<GitLogEntry>,
    numstats: seq<GitCommitLogNumstatEntry>,
    snapshots: seq<Snapshot>,
    typeDecls: seq<TypeDecl>,
    procDecls: seq<ProcDecl>,
    varDecls: seq<VarDecl>,
    typeLinks: set<TypeDeclSnapshot>,
    procLinks: set<ProcDeclSnapshot>,
    varLinks: set<VarDeclSnapshot>)

  const EmptyTables: Tables := Tables([], [], [], [], [], [], {}, {}, {})

  /** Every row's id is its position plus one, so an id names exactly one row. */
  ghost predicate IdsArePositions(t: Tables)
  {
    && (forall i :: 0 <= i < |t.logEntries| ==> t.logEntries[i].id == i + 1)
    && (forall i :: 0 <= i < |t.numstats| ==> t.numstats[i].id == i + 1)
    && (forall i :: 0 <= i < |t.snapshots| ==> t.snapshots[i].id == i + 1)
    && (forall i :: 0 <= i < |t.typeDecls| ==> t.typeDecls[i].id == i + 1)
    && (forall i :: 0 <= i < |t.procDecls| ==> t.procDecls[i].id == i + 1)
    && (forall i :: 0 <= i < |t.varDecls| ==> t.varDecls[i].id == i + 1)
  }

  // Inserting a row: the store assigns the next id.

  function NewLogEntryId(t: Tables): int { |t.logEntries| + 1 }

  /** The row as given, with the id the store assigns to it. */
  function AddLogEntry(t: Tables, row: GitLogEntry): Tables
  {
    t.(logEntries := t.logEntries + [row.(id := NewLogEntryId(t))])
  }

  /** The rows as given, renumbered from `first` on. */
  function Numbered(rows: seq<GitCommitLogNumstatEntry>, first: int): (r: seq<GitCommitLogNumstatEntry>)
    ensures |r| == |rows|
    ensures forall k :: 0 <= k < |r| ==> r[k] == rows[k].(id := first + k)
  {
    seq(|rows|, k requires 0 <= k < |rows| => rows[k].(id := first + k))
  }

  /** `insert_many`: the rows get consecutive ids in the order given. */
  function AddNumstats(t: Tables, rows: seq<GitCommitLogNumstatEntry>): Tables
  {
    t.(numstats := t.numstats + Numbered(rows, |t.numstats| + 1))
  }

  function NewSnapshot(t: Tables): Snapshot { Snapshot(|t.snapshots| + 1) }

  function AddSnapshot(t: Tables): Tables
  {
    t.(snapshots := t.snapshots + [NewSnapshot(t)])
  }

  function NewTypeDecl(t: Tables, path: string): TypeDecl { TypeDecl(|t.typeDecls| + 1, path) }

  function AddTypeDecl(t: Tables, path: string): Tables
  {
    t.(typeDecls := t.typeDecls + [NewTypeDecl(t, path)])
  }

  function NewProcDecl(t: Tables, path: string): ProcDecl { ProcDecl(|t.procDecls| + 1, path) }

  function AddProcDecl(t: Tables, path: string): Tables
  {
    t.(procDecls := t.procDecls + [NewProcDecl(t, path)])
  }

  function NewVarDecl(t: Tables, path: string, declaredTypeId: Option<int>, jsonConstVal: string): VarDecl
  {
    VarDecl(|t.varDecls| + 1, path, declaredTypeId, jsonConstVal)
  }

  function AddVarDecl(t: Tables, path: string, declaredTypeId: Option<int>, jsonConstVal: string): Tables
  {
    t.(varDecls := t.varDecls + [NewVarDecl(t, path, declaredTypeId, jsonConstVal)])
  }

  /** A plain insert into a link table fails on a primary-key conflict. */
  function WithTypeLink(t: Tables, link: TypeDeclSnapshot): (r: Result<Tables, IngestError>)
    ensures r.Err? <==> link in t.typeLinks
    ensures r.Ok? ==> r.value == t.(typeLinks := t.typeLinks + {link}) && |r.value.typeLinks| == |t.typeLinks| + 1
  {
    if link in t.typeLinks then Err(Db("duplicate key value violates unique constraint"))
    else Ok(t.(typeLinks := t.typeLinks + {link}))
  }

  function WithVarLink(t: Tables, link: VarDeclSnapshot): (r: Result<Tables, IngestError>)
    ensures r.Err? <==> link in t.varLinks
    ensures r.Ok? ==> r.value == t.(varLinks := t.varLinks + {link}) && |r.value.varLinks| == |t.varLinks| + 1
  {
    if link in t.varLinks then Err(Db("duplicate key value violates unique constraint"))
    else Ok(t.(varLinks := t.varLinks + {link}))
  }

  /** `insert(..).on_conflict_do_nothing()`: a link already present is left as it is. */
  function WithProcLinkOrIgnore(t: Tables, link: ProcDeclSnapshot): (r: Tables)
    ensures link in r.procLinks
    ensures r.procLinks - {link} == t.procLinks - {link}
    ensures link in t.procLinks ==> r == t
  {
    t.(procLinks := t.procLinks + {link})
  }

  /** The durable store: what every committed transaction has written. */
  class Database {
    var tables: Tables

    constructor (initial: Tables)
      ensures tables == initial
    {
      tables := initial;
    }
  }

  /**
   * An open transaction. It starts from the durable tables, sees its own
   * writes, and publishes all of them at once on `Commit`; a transaction that
   * is dropped without `Commit` leaves the store as it was.
   */
  class Transaction {
    var tables: Tables

    constructor Begin(db: Database)
      ensures tables == db.tables
    {
      tables := db.tables;
    }

    method Commit(db: Database)
      modifies db
      ensures db.tables == tables
    {
      db.tables := tables;
    }

    method InsertLogEntry(row: GitLogEntry) returns (id: int)
      modifies this
      ensures id == NewLogEntryId(old(tables)) && tables == AddLogEntry(old(tables), row)
    {
      id := NewLogEntryId(tables);
      tables := AddLogEntry(tables, row);
    }

    method InsertNumstats(rows: seq<GitCommitLogNumstatEntry>)
      modifies this
      ensures tables == AddNumstats(old(tables), rows)
    {
      tables := AddNumstats(tables, rows);
    }

    method InsertSnapshot() returns (id: int)
      modifies this
      ensures id == NewSnapshot(old(tables)).id && tables == AddSnapshot(old(tables))
    {
      id := NewSnapshot(tables).id;
      tables := AddSnapshot(tables);
    }

    method SaveTypeDecl(path: string) returns (row: TypeDecl)
      modifies this
      ensures row == NewTypeDecl(old(tables), path) && tables == AddTypeDecl(old(tables), path)
    {
      row := NewTypeDecl(tables, path);
      tables := AddTypeDecl(tables, path);
    }

    method SaveProcDecl(path: string) returns (row: ProcDecl)
      modifies this
      ensures row == NewProcDecl(old(tables), path) && tables == AddProcDecl(old(tables), path)
    {
      row := NewProcDecl(tables, path);
      tables := AddProcDecl(tables, path);
    }

    method SaveVarDecl(path: string, declaredTypeId: Option<int>, jsonConstVal: string) returns (row: VarDecl)
      modifies this
      ensures row == NewVarDecl(old(tables), path, declaredTypeId, jsonConstVal)
      ensures tables == AddVarDecl(old(tables), path, declaredTypeId, jsonConstVal)
    {
      row := NewVarDecl(tables, path, declaredTypeId, jsonConstVal);
      tables := AddVarDecl(tables, path, declaredTypeId, jsonConstVal);
    }

    method InsertTypeLink(link: TypeDeclSnapshot) returns (r: Result<(), IngestError>)
      modifies this
      ensures r.Ok? <==> WithTypeLink(old(tables), link).Ok?
      ensures r.Ok? ==> tables == WithTypeLink(old(tables), link).value
      ensures r.Err? ==> r.error == WithTypeLink(old(tables), link).error && tables == old(tables)
    {
      var res := WithTypeLink(tables, link);
      if res.Ok? {
        tables := res.value;
        r := Ok(());
      } else {
        r := Err(res.error);
      }
    }

    method InsertVarLink(link: VarDeclSnapshot) returns (r: Result<(), IngestError>)
      modifies this
      ensures r.Ok? <==> WithVarLink(old(tables), link).Ok?
      ensures r.Ok? ==> tables == WithVarLink(old(tables), link).value
      ensures r.Err? ==> r.error == WithVarLink(old(tables), link).error && tables == old(tables)
    {
      var res := WithVarLink(tables, link);
      if res.Ok? {
        tables := res.value;
        r := Ok(());
      } else {
        r := Err(res.error);
      }
    }

    method InsertProcLinkOrIgnore(link: ProcDeclSnapshot)
      modifies this
      ensures tables == WithProcLinkOrIgnore(old(tables), link)
    {
      tables := WithProcLinkOrIgnore(tables, link);
    }
  }
}
