/**
 * The older Python walker (src/ss13_codedb/tools/generate_parsed_git.py):
 * for every commit, in the order the walk yields them, the ledger entry is
 * reused or created, the tree is parsed, the entry's snapshot is reused or
 * created, and every type, var with a source location and proc of the tree
 * is resolved through the run's seen-maps and appended to the snapshot; then
 * the session commits. There is no skip: a commit walked again is processed
 * again, against the rows it left behind.
 */
module PyIngest {
  import opened Wrappers
  import opened Models
  import opened Ledger
  import opened PyModels

  /** One type of the parsed tree as the walk visits it: its path, its vars in `var_names` order, its proc names. */
  datatype PyType = PyType(path: string, vars: seq<PyVar>, procs: seq<string>)

  datatype PyTree = PyTree(types: seq<PyType>)

  /**
   * One commit of the walk: the commit, the `.dme` files the glob finds in
   * the checked-out tree, and what parsing the first of them yields, a tree
   * or the parser's message.
   */
  datatype PyRevision = PyRevision(commit: Commit, dmeFiles: seq<string>, tree: Result<PyTree, string>)

  /** The key of `seen_vars`: the var's raw values, not their encoding. */
  type SeenVarKey = (string, string, Option<string>, PyConstant)

  /** `CodeTree`: the seen-maps of one run. */
  datatype SeenMaps = SeenMaps(
    types: map<string, TypeDecl>,
    vars: map<SeenVarKey, VarDecl>,
    procs: map<string, ProcDecl>)

  const NothingSeen: SeenMaps := SeenMaps(map[], map[], map[])

  /** The seen-maps together with the session's tables. */
  datatype Walk = Walk(seen: SeenMaps, tables: PyTables)

  /** Where one commit leaves the run: its result, the seen-maps, and the committed tables. */
  datatype PyOutcome = PyOutcome(result: Result<(), PyError>, seen: SeenMaps, tables: PyTables)

  function SeenKey(vd: PyVar): SeenVarKey
  {
    (vd.typePath, vd.name, vd.declaredType, vd.constant)
  }

  /** `pth / proc_name`. */
  function ProcPath(typePath: string, name: string): string
  {
    typePath + "/" + name
  }

  /** A type path: answered from `seen_types`, or resolved with `TypeDecl.get_or_create` and remembered. */
  function SeenType(w: Walk, path: string): Result<(TypeDecl, Walk), PyError>
  {
    if path in w.seen.types then Ok((w.seen.types[path], w))
    else
      var (r, t) := TypeGetOrCreate(w.tables, path);
      match r
      case Err(e) => Err(e)
      case Ok((decl, _)) => Ok((decl, Walk(w.seen.(types := w.seen.types[path := decl]), t)))
  }

  /** A var: answered from `seen_vars`, or resolved with `VarDecl.get_or_create(session, vd)` and remembered. */
  function SeenVar(w: Walk, vd: PyVar): Result<(VarDecl, Walk), PyError>
  {
    var key := SeenKey(vd);
    if key in w.seen.vars then Ok((w.seen.vars[key], w))
    else
      var (r, t) := VarGetOrCreate(w.tables, vd);
      match r
      case Err(e) => Err(e)
      case Ok((decl, _)) => Ok((decl, Walk(w.seen.(vars := w.seen.vars[key := decl]), t)))
  }

  /** A proc path: answered from `seen_procs`, or resolved with `ProcDecl.get_or_create` and remembered. */
  function SeenProc(w: Walk, path: string): Result<(ProcDecl, Walk), PyError>
  {
    if path in w.seen.procs then Ok((w.seen.procs[path], w))
    else
      var (r, t) := ProcGetOrCreate(w.tables, path);
      match r
      case Err(e) => Err(e)
      case Ok((decl, _)) => Ok((decl, Walk(w.seen.(procs := w.seen.procs[path := decl]), t)))
  }

  function WithTypeLink(w: Walk, link: TypeDeclSnapshot): Walk
  {
    w.(tables := w.tables.(typeLinks := w.tables.typeLinks + [link]))
  }

  function WithVarLink(w: Walk, link: VarDeclSnapshot): Walk
  {
    w.(tables := w.tables.(varLinks := w.tables.varLinks + [link]))
  }

  function WithProcLink(w: Walk, link: ProcDeclSnapshot): Walk
  {
    w.(tables := w.tables.(procLinks := w.tables.procLinks + [link]))
  }

  /** The vars of one type: a var without a source location is skipped; every other one is resolved and appended. */
  function VarLinks(w: Walk, snapshotId: int, vars: seq<PyVar>): Result<Walk, PyError>
    decreases |vars|
  {
    if |vars| == 0 then Ok(w)
    else if !vars[0].hasSourceLoc then VarLinks(w, snapshotId, vars[1..])
    else match SeenVar(w, vars[0])
      case Err(e) => Err(e)
      case Ok((decl, w1)) => VarLinks(WithVarLink(w1, VarDeclSnapshot(snapshotId, decl.id)), snapshotId, vars[1..])
  }

  /** The procs of one type, each resolved and appended. */
  function ProcLinks(w: Walk, snapshotId: int, typePath: string, procs: seq<string>): Result<Walk, PyError>
    decreases |procs|
  {
    if |procs| == 0 then Ok(w)
    else match SeenProc(w, ProcPath(typePath, procs[0]))
      case Err(e) => Err(e)
      case Ok((decl, w1)) => ProcLinks(WithProcLink(w1, ProcDeclSnapshot(snapshotId, decl.id)), snapshotId, typePath, procs[1..])
  }

  /** One type: the type is resolved and appended, then its vars, then its procs. */
  function TypeLinks(w: Walk, snapshotId: int, tt: PyType): Result<Walk, PyError>
  {
    match SeenType(w, tt.path)
    case Err(e) => Err(e)
    case Ok((decl, w1)) =>
      match VarLinks(WithTypeLink(w1, TypeDeclSnapshot(snapshotId, decl.id)), snapshotId, tt.vars)
      case Err(e) => Err(e)
      case Ok(w2) => ProcLinks(w2, snapshotId, tt.path, tt.procs)
  }

  /** The types of `typesof("/")`, in order; the first exception stops the commit. */
  function TreeLinks(w: Walk, snapshotId: int, types: seq<PyType>): Result<Walk, PyError>
    decreases |types|
  {
    if |types| == 0 then Ok(w)
    else match TypeLinks(w, snapshotId, types[0])
      case Err(e) => Err(e)
      case Ok(w1) => TreeLinks(w1, snapshotId, types[1..])
  }

  /** Some numstat row of the list points at the entry. */
  predicate HasNumstats(rows: seq<GitCommitLogNumstatEntry>, entryId: int)
    decreases |rows|
  {
    |rows| > 0 && (rows[0].gitLogEntryId == entryId || HasNumstats(rows[1..], entryId))
  }

  /**
   * A row the hash query returns: an entry with the hash. The query loads the
   * entry's numstat rows eagerly through an inner join, so an entry without
   * any numstat row is not returned.
   */
  predicate LedgerMatch(t: PyTables, e: GitLogEntry, hash: string)
  {
    e.commitHash == hash && HasNumstats(t.numstats, e.id)
  }

  predicate SnapshotOf(s: PySnapshot, entryId: int) { s.gitLogEntryId == entryId }

  /** What the ledger query decides: reuse the one entry it returns, or create what `from_commit` builds. */
  datatype LedgerChoice =
    | Reuse(entryId: int)
    | Create(entry: GitLogEntry, fields: seq<PyFields>)

  function LedgerStep(t: PyTables, c: Commit): Result<LedgerChoice, PyError>
  {
    match Scalar(t.logEntries, (e: GitLogEntry) => LedgerMatch(t, e, c.hash))
    case Err(e) => Err(e)
    case Ok(Some(i)) => Ok(Reuse(t.logEntries[i].id))
    case Ok(None) =>
      match FromCommit(c)
      case Err(e) => Err(e)
      case Ok((entry, fields)) => Ok(Create(entry, fields))
  }

  /**
   * The snapshot step, at the query that flushes the pending ledger rows. A
   * created entry gets its rows written (or the flush fails on a count the
   * column refuses) and a new snapshot: the filter is built before the entry
   * has an id, so it looks for a snapshot without an entry, and there is
   * none. A reused entry reuses its one snapshot, or gets a new one. Gives
   * the tables and the snapshot's id.
   */
  function SnapshotStep(t: PyTables, choice: LedgerChoice): Result<(PyTables, int), PyError>
  {
    match choice
    case Create(entry, fields) =>
      (var entryId := |t.logEntries| + 1;
       match NumstatColumns(fields, entryId)
       case None => Err(DbError("incorrect integer value"))
       case Some(rows) =>
         var t1 := PyAddLedger(t, entry, rows);
         Ok((PyAddSnapshot(t1, entryId), PyNewSnapshot(t1, entryId).id)))
    case Reuse(entryId) =>
      match Scalar(t.snapshots, (s: PySnapshot) => SnapshotOf(s, entryId))
      case Err(e) => Err(e)
      case Ok(Some(j)) => Ok((t, t.snapshots[j].id))
      case Ok(None) => Ok((PyAddSnapshot(t, entryId), PyNewSnapshot(t, entryId).id))
  }

  /**
   * One commit of the walk, as one unit of the session: the ledger step, the
   * `.dme` glob (an empty glob raises IndexError), the parse, the snapshot
   * step and the tree; the session commits only when every step succeeds,
   * and an exception leaves the committed tables as they were.
   */
  function CommitOutcome(seen: SeenMaps, db: PyTables, rev: PyRevision): PyOutcome
  {
    match LedgerStep(db, rev.commit)
    case Err(e) => PyOutcome(Err(e), seen, db)
    case Ok(choice) =>
      if |rev.dmeFiles| == 0 then PyOutcome(Err(IndexError("list index out of range")), seen, db)
      else match rev.tree
        case Err(message) => PyOutcome(Err(ParseError(message)), seen, db)
        case Ok(tree) =>
          match SnapshotStep(db, choice)
          case Err(e) => PyOutcome(Err(e), seen, db)
          case Ok((t1, snapshotId)) =>
            match TreeLinks(Walk(seen, t1), snapshotId, tree.types)
            case Err(e) => PyOutcome(Err(e), seen, db)
            case Ok(w) => PyOutcome(Ok(()), w.seen, w.tables)
  }

  /** The walk: commits in order, stopping at the first exception. */
  function RunOutcome(seen: SeenMaps, db: PyTables, revs: seq<PyRevision>): PyOutcome
    decreases |revs|
  {
    if |revs| == 0 then PyOutcome(Ok(()), seen, db)
    else
      var o := CommitOutcome(seen, db, revs[0]);
      if o.result.Err? then o else RunOutcome(o.seen, o.tables, revs[1..])
  }

  // What the walk writes, stated over the whole tree.

  /** The keys of the vars the walk links: those with a source location, in order. */
  function SourcedKeys(vars: seq<PyVar>): (r: seq<SeenVarKey>)
    ensures |r| <= |vars|
    decreases |vars|
  {
    if |vars| == 0 then []
    else if vars[0].hasSourceLoc then [SeenKey(vars[0])] + SourcedKeys(vars[1..])
    else SourcedKeys(vars[1..])
  }

  function ProcPaths(typePath: string, procs: seq<string>): (r: seq<string>)
    ensures |r| == |procs| && forall k :: 0 <= k < |procs| ==> r[k] == ProcPath(typePath, procs[k])
    decreases |procs|
  {
    if |procs| == 0 then [] else [ProcPath(typePath, procs[0])] + ProcPaths(typePath, procs[1..])
  }

  /** The tree in walk order: its type paths, the keys of its sourced vars, its proc paths. */
  function TreeTypePaths(types: seq<PyType>): (r: seq<string>)
    ensures |r| == |types| && forall k :: 0 <= k < |types| ==> r[k] == types[k].path
    decreases |types|
  {
    if |types| == 0 then [] else [types[0].path] + TreeTypePaths(types[1..])
  }

  function TreeVarKeys(types: seq<PyType>): seq<SeenVarKey>
    decreases |types|
  {
    if |types| == 0 then [] else SourcedKeys(types[0].vars) + TreeVarKeys(types[1..])
  }

  function TreeProcPaths(types: seq<PyType>): seq<string>
    decreases |types|
  {
    if |types| == 0 then [] else ProcPaths(types[0].path, types[0].procs) + TreeProcPaths(types[1..])
  }

  /** A type row with that id and path. */
  ghost predicate TypeNamed(rows: seq<TypeDecl>, id: int, path: string)
  {
    exists row :: row in rows && row.id == id && row.path == path
  }

  ghost predicate ProcNamed(rows: seq<ProcDecl>, id: int, path: string)
  {
    exists row :: row in rows && row.id == id && row.path == path
  }

  /**
   * A var row fits a seen key: the key's path and encoded value and, when
   * the key has a declared type and the row has one, the id of a type row
   * with that path. (A row found while the declared type was being created
   * has none.)
   */
  ghost predicate VarRowFits(t: PyTables, row: VarDecl, key: SeenVarKey)
  {
    && row.path == key.0 + "/" + key.1
    && row.jsonConstVal == JsonConstVal(key.3)
    && (key.2.Some? && row.declaredTypeId.Some? ==> TypeNamed(t.typeDecls, row.declaredTypeId.value, key.2.value))
  }

  ghost predicate VarNamed(t: PyTables, id: int, key: SeenVarKey)
  {
    exists row :: row in t.varDecls && row.id == id && VarRowFits(t, row, key)
  }

  /** Every seen-map entry is a row of the tables that fits its key. */
  ghost predicate SeenConsistent(w: Walk)
  {
    && (forall p :: p in w.seen.types ==> w.seen.types[p] in w.tables.typeDecls && w.seen.types[p].path == p)
    && (forall p :: p in w.seen.procs ==> w.seen.procs[p] in w.tables.procDecls && w.seen.procs[p].path == p)
    && (forall key :: key in w.seen.vars ==> w.seen.vars[key] in w.tables.varDecls && VarRowFits(w.tables, w.seen.vars[key], key))
  }

  /** Existing decl rows stay as they are; the ledger and snapshots do not change in between. */
  ghost predicate DeclsGrow(t: PyTables, t': PyTables)
  {
    && t.typeDecls <= t'.typeDecls && t.procDecls <= t'.procDecls && t.varDecls <= t'.varDecls
  }

  ghost predicate LedgerSame(t: PyTables, t': PyTables)
  {
    t'.logEntries == t.logEntries && t'.numstats == t.numstats && t'.snapshots == t.snapshots
  }

  /** `t'` has the type links of `t` and then one per path, each in the snapshot and naming a row with that path. */
  ghost predicate AppendsTypeLinks(t: PyTables, t': PyTables, snapshotId: int, paths: seq<string>)
  {
    && t.typeLinks <= t'.typeLinks && |t'.typeLinks| == |t.typeLinks| + |paths|
    && forall i :: |t.typeLinks| <= i < |t'.typeLinks| ==>
      t'.typeLinks[i].snapshotId == snapshotId && TypeNamed(t'.typeDecls, t'.typeLinks[i].typeDeclId, paths[i - |t.typeLinks|])
  }

  ghost predicate AppendsProcLinks(t: PyTables, t': PyTables, snapshotId: int, paths: seq<string>)
  {
    && t.procLinks <= t'.procLinks && |t'.procLinks| == |t.procLinks| + |paths|
    && forall i :: |t.procLinks| <= i < |t'.procLinks| ==>
      t'.procLinks[i].snapshotId == snapshotId && ProcNamed(t'.procDecls, t'.procLinks[i].procDeclId, paths[i - |t.procLinks|])
  }

  ghost predicate AppendsVarLinks(t: PyTables, t': PyTables, snapshotId: int, keys: seq<SeenVarKey>)
  {
    && t.varLinks <= t'.varLinks && |t'.varLinks| == |t.varLinks| + |keys|
    && forall i :: |t.varLinks| <= i < |t'.varLinks| ==>
      t'.varLinks[i].snapshotId == snapshotId && VarNamed(t', t'.varLinks[i].varDeclId, keys[i - |t.varLinks|])
  }

  /** What a successful step over types, vars or procs does to the tables. */
  ghost predicate LinkStep(t: PyTables, t': PyTables, snapshotId: int, typePaths: seq<string>, keys: seq<SeenVarKey>, procPaths: seq<string>)
  {
    && LedgerSame(t, t') && DeclsGrow(t, t')
    && AppendsTypeLinks(t, t', snapshotId, typePaths)
    && AppendsVarLinks(t, t', snapshotId, keys)
    && AppendsProcLinks(t, t', snapshotId, procPaths)
  }

  lemma InPrefix<T>(a: seq<T>, b: seq<T>, x: T)
    requires a <= b && x in a
    ensures x in b
  {
    var i :| 0 <= i < |a| && a[i] == x;
    assert b[i] == x;
  }

  lemma TypeNamedGrows(a: seq<TypeDecl>, b: seq<TypeDecl>, id: int, path: string)
    requires a <= b && TypeNamed(a, id, path)
    ensures TypeNamed(b, id, path)
  {
    var row :| row in a && row.id == id && row.path == path;
    InPrefix(a, b, row);
  }

  lemma ProcNamedGrows(a: seq<ProcDecl>, b: seq<ProcDecl>, id: int, path: string)
    requires a <= b && ProcNamed(a, id, path)
    ensures ProcNamed(b, id, path)
  {
    var row :| row in a && row.id == id && row.path == path;
    InPrefix(a, b, row);
  }

  lemma VarRowFitsGrows(t: PyTables, t': PyTables, row: VarDecl, key: SeenVarKey)
    requires DeclsGrow(t, t') && VarRowFits(t, row, key)
    ensures VarRowFits(t', row, key)
  {
    if key.2.Some? && row.declaredTypeId.Some? {
      TypeNamedGrows(t.typeDecls, t'.typeDecls, row.declaredTypeId.value, key.2.value);
    }
  }

  lemma VarNamedGrows(t: PyTables, t': PyTables, id: int, key: SeenVarKey)
    requires DeclsGrow(t, t') && VarNamed(t, id, key)
    ensures VarNamed(t', id, key)
  {
    var row :| row in t.varDecls && row.id == id && VarRowFits(t, row, key);
    InPrefix(t.varDecls, t'.varDecls, row);
    VarRowFitsGrows(t, t', row, key);
  }

  lemma SeenConsistentGrows(seen: SeenMaps, t: PyTables, t': PyTables)
    requires SeenConsistent(Walk(seen, t)) && DeclsGrow(t, t')
    ensures SeenConsistent(Walk(seen, t'))
  {
    forall p | p in seen.types ensures seen.types[p] in t'.typeDecls {
      InPrefix(t.typeDecls, t'.typeDecls, seen.types[p]);
    }
    forall p | p in seen.procs ensures seen.procs[p] in t'.procDecls {
      InPrefix(t.procDecls, t'.procDecls, seen.procs[p]);
    }
    forall key | key in seen.vars ensures seen.vars[key] in t'.varDecls && VarRowFits(t', seen.vars[key], key) {
      InPrefix(t.varDecls, t'.varDecls, seen.vars[key]);
      VarRowFitsGrows(t, t', seen.vars[key], key);
    }
  }

  lemma TypeLinksThen(t1: PyTables, t2: PyTables, t3: PyTables, snapshotId: int, paths1: seq<string>, paths2: seq<string>)
    requires AppendsTypeLinks(t1, t2, snapshotId, paths1) && AppendsTypeLinks(t2, t3, snapshotId, paths2)
    requires t2.typeDecls <= t3.typeDecls
    ensures AppendsTypeLinks(t1, t3, snapshotId, paths1 + paths2)
  {
    var paths := paths1 + paths2;
    forall i | |t1.typeLinks| <= i < |t3.typeLinks|
      ensures t3.typeLinks[i].snapshotId == snapshotId && TypeNamed(t3.typeDecls, t3.typeLinks[i].typeDeclId, paths[i - |t1.typeLinks|])
    {
      if i < |t2.typeLinks| {
        assert t3.typeLinks[i] == t2.typeLinks[i];
        TypeNamedGrows(t2.typeDecls, t3.typeDecls, t2.typeLinks[i].typeDeclId, paths1[i - |t1.typeLinks|]);
      } else {
        assert paths[i - |t1.typeLinks|] == paths2[i - |t2.typeLinks|];
      }
    }
  }

  lemma ProcLinksThen(t1: PyTables, t2: PyTables, t3: PyTables, snapshotId: int, paths1: seq<string>, paths2: seq<string>)
    requires AppendsProcLinks(t1, t2, snapshotId, paths1) && AppendsProcLinks(t2, t3, snapshotId, paths2)
    requires t2.procDecls <= t3.procDecls
    ensures AppendsProcLinks(t1, t3, snapshotId, paths1 + paths2)
  {
    var paths := paths1 + paths2;
    forall i | |t1.procLinks| <= i < |t3.procLinks|
      ensures t3.procLinks[i].snapshotId == snapshotId && ProcNamed(t3.procDecls, t3.procLinks[i].procDeclId, paths[i - |t1.procLinks|])
    {
      if i < |t2.procLinks| {
        assert t3.procLinks[i] == t2.procLinks[i];
        ProcNamedGrows(t2.procDecls, t3.procDecls, t2.procLinks[i].procDeclId, paths1[i - |t1.procLinks|]);
      } else {
        assert paths[i - |t1.procLinks|] == paths2[i - |t2.procLinks|];
      }
    }
  }

  lemma VarLinksThen(t1: PyTables, t2: PyTables, t3: PyTables, snapshotId: int, keys1: seq<SeenVarKey>, keys2: seq<SeenVarKey>)
    requires AppendsVarLinks(t1, t2, snapshotId, keys1) && AppendsVarLinks(t2, t3, snapshotId, keys2)
    requires DeclsGrow(t2, t3)
    ensures AppendsVarLinks(t1, t3, snapshotId, keys1 + keys2)
  {
    var keys := keys1 + keys2;
    forall i | |t1.varLinks| <= i < |t3.varLinks|
      ensures t3.varLinks[i].snapshotId == snapshotId && VarNamed(t3, t3.varLinks[i].varDeclId, keys[i - |t1.varLinks|])
    {
      if i < |t2.varLinks| {
        assert t3.varLinks[i] == t2.varLinks[i];
        VarNamedGrows(t2, t3, t2.varLinks[i].varDeclId, keys1[i - |t1.varLinks|]);
      } else {
        assert keys[i - |t1.varLinks|] == keys2[i - |t2.varLinks|];
      }
    }
  }

  /** Two steps in a row are one step over the paths and keys of both. */
  lemma LinkStepThen(t1: PyTables, t2: PyTables, t3: PyTables, snapshotId: int,
                     types1: seq<string>, keys1: seq<SeenVarKey>, procs1: seq<string>,
                     types2: seq<string>, keys2: seq<SeenVarKey>, procs2: seq<string>)
    requires LinkStep(t1, t2, snapshotId, types1, keys1, procs1)
    requires LinkStep(t2, t3, snapshotId, types2, keys2, procs2)
    ensures LinkStep(t1, t3, snapshotId, types1 + types2, keys1 + keys2, procs1 + procs2)
  {
    TypeLinksThen(t1, t2, t3, snapshotId, types1, types2);
    VarLinksThen(t1, t2, t3, snapshotId, keys1, keys2);
    ProcLinksThen(t1, t2, t3, snapshotId, procs1, procs2);
  }

  /** Only decl rows were added: the ledger, snapshots and links are as they were. */
  ghost predicate DeclsOnly(t: PyTables, t': PyTables)
  {
    && LedgerSame(t, t') && DeclsGrow(t, t')
    && t'.typeLinks == t.typeLinks && t'.procLinks == t.procLinks && t'.varLinks == t.varLinks
  }

  lemma DeclsOnlyIsLinkStep(t: PyTables, t': PyTables, snapshotId: int)
    requires DeclsOnly(t, t')
    ensures LinkStep(t, t', snapshotId, [], [], [])
  {
  }

  /**
   * `seen_types`: a path already seen is answered from the map with nothing
   * written; otherwise the lookup's row, which has the path, is remembered.
   * Only an ambiguous lookup raises.
   */
  lemma SeenTypeSpec(w: Walk, path: string)
    requires SeenConsistent(w)
    ensures var r := SeenType(w, path);
      && (path in w.seen.types ==> r == Ok((w.seen.types[path], w)))
      && (r.Err? ==> r.error == MultipleResultsFound)
      && (r.Ok? ==>
           && r.value.0.path == path && r.value.0 in r.value.1.tables.typeDecls
           && path in r.value.1.seen.types
           && SeenConsistent(r.value.1) && DeclsOnly(w.tables, r.value.1.tables))
  {
    if path !in w.seen.types {
      TypeGetOrCreateSpec(w.tables, path);
      var (r, t) := TypeGetOrCreate(w.tables, path);
      if r.Ok? {
        var d := r.value.0;
        if r.value.1 {
          assert t.typeDecls[|w.tables.typeDecls|] == d;
        }
        assert d in t.typeDecls;
        SeenConsistentGrows(w.seen, w.tables, t);
      }
    }
  }

  lemma SeenProcSpec(w: Walk, path: string)
    requires SeenConsistent(w)
    ensures var r := SeenProc(w, path);
      && (path in w.seen.procs ==> r == Ok((w.seen.procs[path], w)))
      && (r.Err? ==> r.error == MultipleResultsFound)
      && (r.Ok? ==>
           && r.value.0.path == path && r.value.0 in r.value.1.tables.procDecls
           && path in r.value.1.seen.procs
           && SeenConsistent(r.value.1) && DeclsOnly(w.tables, r.value.1.tables))
  {
    if path !in w.seen.procs {
      ProcGetOrCreateSpec(w.tables, path);
      var (r, t) := ProcGetOrCreate(w.tables, path);
      if r.Ok? {
        var d := r.value.0;
        if r.value.1 {
          assert t.procDecls[|w.tables.procDecls|] == d;
        }
        assert d in t.procDecls;
        SeenConsistentGrows(w.seen, w.tables, t);
      }
    }
  }

  /** The lookup leaves the ledger and links alone and only adds decl rows. */
  lemma DeclaredTypeOfDeclsOnly(t: PyTables, vd: PyVar)
    ensures DeclsOnly(t, DeclaredTypeOf(t, vd).1)
  {
    if vd.declaredType.Some? {
      TypeGetOrCreateSpec(t, vd.declaredType.value);
    }
  }

  lemma SeenVarSpec(w: Walk, vd: PyVar)
    requires SeenConsistent(w)
    ensures var r := SeenVar(w, vd);
      && (SeenKey(vd) in w.seen.vars ==> r == Ok((w.seen.vars[SeenKey(vd)], w)))
      && (r.Err? ==> r.error == MultipleResultsFound)
      && (r.Ok? ==>
           && r.value.0 in r.value.1.tables.varDecls && VarRowFits(r.value.1.tables, r.value.0, SeenKey(vd))
           && SeenKey(vd) in r.value.1.seen.vars
           && SeenConsistent(r.value.1) && DeclsOnly(w.tables, r.value.1.tables))
  {
    var key := SeenKey(vd);
    if key !in w.seen.vars {
      var (r, t) := VarGetOrCreate(w.tables, vd);
      if r.Ok? {
        assert r.value.0 in t.varDecls && VarRowFits(t, r.value.0, key)
          && DeclsOnly(w.tables, t) && SeenConsistent(Walk(w.seen, t)) by {
          GotVarFits(w, vd);
        }
        assert SeenVar(w, vd) == Ok((r.value.0, Walk(w.seen.(vars := w.seen.vars[key := r.value.0]), t)));
      }
    }
  }

  /** The row `get_or_create` returns for a var not yet seen is stored, fits the var's key, and only decl rows were added. */
  lemma GotVarFits(w: Walk, vd: PyVar)
    requires SeenConsistent(w)
    ensures var (r, t) := VarGetOrCreate(w.tables, vd);
      r.Ok? ==>
        && r.value.0 in t.varDecls && VarRowFits(t, r.value.0, SeenKey(vd))
        && DeclsOnly(w.tables, t) && SeenConsistent(Walk(w.seen, t))
  {
    VarGetOrCreateSpec(w.tables, vd);
    DeclaredTypeOfSpec(w.tables, vd);
    DeclaredTypeOfDeclsOnly(w.tables, vd);
    var key := SeenKey(vd);
    var (typed, t1) := DeclaredTypeOf(w.tables, vd);
    var (r, t) := VarGetOrCreate(w.tables, vd);
    if r.Ok? {
      var d := r.value.0;
      if r.value.1 {
        assert t.varDecls[|t1.varDecls|] == d;
      }
      assert d in t.varDecls;
      assert DeclsOnly(w.tables, t);
      if vd.declaredType.Some? && d.declaredTypeId.Some? {
        var decl := typed.value.value.0;
        assert d.declaredTypeId.value == decl.id;
        assert t.typeDecls == t1.typeDecls;
        assert TypeNamed(t.typeDecls, d.declaredTypeId.value, vd.declaredType.value);
      }
      assert VarRowFits(t, d, key);
      SeenConsistentGrows(w.seen, w.tables, t);
    }
  }

  /** Seen maps stay consistent with tables whose decl rows are the same. */
  lemma SameDeclsSameSeen(w: Walk, w': Walk)
    requires SeenConsistent(w) && w'.seen == w.seen
    requires w'.tables.typeDecls == w.tables.typeDecls && w'.tables.procDecls == w.tables.procDecls
    requires w'.tables.varDecls == w.tables.varDecls
    ensures SeenConsistent(w')
  {
    forall key | key in w'.seen.vars
      ensures w'.seen.vars[key] in w'.tables.varDecls && VarRowFits(w'.tables, w'.seen.vars[key], key)
    {
      assert VarRowFits(w.tables, w.seen.vars[key], key);
    }
  }

  lemma OneVarLink(w: Walk, w1: Walk, d: VarDecl, key: SeenVarKey, snapshotId: int)
    requires DeclsOnly(w.tables, w1.tables) && d in w1.tables.varDecls && VarRowFits(w1.tables, d, key)
    ensures LinkStep(w.tables, WithVarLink(w1, VarDeclSnapshot(snapshotId, d.id)).tables, snapshotId, [], [key], [])
  {
    var t' := WithVarLink(w1, VarDeclSnapshot(snapshotId, d.id)).tables;
    assert VarRowFits(t', d, key);
    assert t'.varLinks[|w.tables.varLinks|] == VarDeclSnapshot(snapshotId, d.id);
  }

  /**
   * The vars of a type: every var with a source location gets one link, in
   * order, in the snapshot, naming a row with its path and value (and its
   * declared type, when it has one); only decl rows and var links are added.
   */
  lemma {:induction false} VarLinksSpec(w: Walk, snapshotId: int, vars: seq<PyVar>)
    requires SeenConsistent(w)
    ensures var r := VarLinks(w, snapshotId, vars);
      && (r.Err? ==> r.error == MultipleResultsFound)
      && (r.Ok? ==> SeenConsistent(r.value) && LinkStep(w.tables, r.value.tables, snapshotId, [], SourcedKeys(vars), []))
    decreases |vars|
  {
    if |vars| == 0 {
      DeclsOnlyIsLinkStep(w.tables, w.tables, snapshotId);
    } else if !vars[0].hasSourceLoc {
      VarLinksSpec(w, snapshotId, vars[1..]);
    } else {
      var s := SeenVar(w, vars[0]);
      assert && (s.Err? ==> s.error == MultipleResultsFound)
             && (s.Ok? ==> && s.value.0 in s.value.1.tables.varDecls && VarRowFits(s.value.1.tables, s.value.0, SeenKey(vars[0]))
                           && SeenConsistent(s.value.1) && DeclsOnly(w.tables, s.value.1.tables)) by {
        SeenVarSpec(w, vars[0]);
      }
      if s.Ok? {
        var (d, w1) := s.value;
        var w2 := WithVarLink(w1, VarDeclSnapshot(snapshotId, d.id));
        OneVarLink(w, w1, d, SeenKey(vars[0]), snapshotId);
        SameDeclsSameSeen(w1, w2);
        VarLinksSpec(w2, snapshotId, vars[1..]);
        var r := VarLinks(w2, snapshotId, vars[1..]);
        if r.Ok? {
          LinkStepThen(w.tables, w2.tables, r.value.tables, snapshotId, [], [SeenKey(vars[0])], [], [], SourcedKeys(vars[1..]), []);
        }
      }
    }
  }

  lemma OneProcLink(w: Walk, w1: Walk, d: ProcDecl, path: string, snapshotId: int)
    requires DeclsOnly(w.tables, w1.tables) && d in w1.tables.procDecls && d.path == path
    ensures LinkStep(w.tables, WithProcLink(w1, ProcDeclSnapshot(snapshotId, d.id)).tables, snapshotId, [], [], [path])
  {
    var t' := WithProcLink(w1, ProcDeclSnapshot(snapshotId, d.id)).tables;
    assert t'.procLinks[|w.tables.procLinks|] == ProcDeclSnapshot(snapshotId, d.id);
  }

  /** The procs of a type: one link each, in order, in the snapshot, naming a row with the path `type/proc`. */
  lemma {:induction false} ProcLinksSpec(w: Walk, snapshotId: int, typePath: string, procs: seq<string>)
    requires SeenConsistent(w)
    ensures var r := ProcLinks(w, snapshotId, typePath, procs);
      && (r.Err? ==> r.error == MultipleResultsFound)
      && (r.Ok? ==> SeenConsistent(r.value) && LinkStep(w.tables, r.value.tables, snapshotId, [], [], ProcPaths(typePath, procs)))
    decreases |procs|
  {
    if |procs| == 0 {
      DeclsOnlyIsLinkStep(w.tables, w.tables, snapshotId);
    } else {
      var path := ProcPath(typePath, procs[0]);
      SeenProcSpec(w, path);
      var s := SeenProc(w, path);
      if s.Ok? {
        var (d, w1) := s.value;
        var w2 := WithProcLink(w1, ProcDeclSnapshot(snapshotId, d.id));
        OneProcLink(w, w1, d, path, snapshotId);
        ProcLinksSpec(w2, snapshotId, typePath, procs[1..]);
        var r := ProcLinks(w2, snapshotId, typePath, procs[1..]);
        if r.Ok? {
          LinkStepThen(w.tables, w2.tables, r.value.tables, snapshotId, [], [], [path], [], [], ProcPaths(typePath, procs[1..]));
        }
      }
    }
  }

  lemma OneTypeLink(w: Walk, w1: Walk, d: TypeDecl, path: string, snapshotId: int)
    requires DeclsOnly(w.tables, w1.tables) && d in w1.tables.typeDecls && d.path == path
    ensures LinkStep(w.tables, WithTypeLink(w1, TypeDeclSnapshot(snapshotId, d.id)).tables, snapshotId, [path], [], [])
  {
    var t' := WithTypeLink(w1, TypeDeclSnapshot(snapshotId, d.id)).tables;
    assert t'.typeLinks[|w.tables.typeLinks|] == TypeDeclSnapshot(snapshotId, d.id);
  }

  /** One type: its link, then its vars' links, then its procs' links. */
  lemma TypeLinksSpec(w: Walk, snapshotId: int, tt: PyType)
    requires SeenConsistent(w)
    ensures var r := TypeLinks(w, snapshotId, tt);
      && (r.Err? ==> r.error == MultipleResultsFound)
      && (r.Ok? ==> SeenConsistent(r.value) && LinkStep(w.tables, r.value.tables, snapshotId, [tt.path], SourcedKeys(tt.vars), ProcPaths(tt.path, tt.procs)))
  {
    var s := SeenType(w, tt.path);
    assert && (s.Err? ==> s.error == MultipleResultsFound)
           && (s.Ok? ==> && s.value.0.path == tt.path && s.value.0 in s.value.1.tables.typeDecls
                         && SeenConsistent(s.value.1) && DeclsOnly(w.tables, s.value.1.tables)) by {
      SeenTypeSpec(w, tt.path);
    }
    if s.Ok? {
      var (d, w1) := s.value;
      var w2 := WithTypeLink(w1, TypeDeclSnapshot(snapshotId, d.id));
      OneTypeLink(w, w1, d, tt.path, snapshotId);
      VarsThenProcsSpec(w.tables, w2, snapshotId, tt);
    }
  }

  /** A type's vars' links, then its procs' links, after its own link. */
  lemma VarsThenProcsSpec(t0: PyTables, w2: Walk, snapshotId: int, tt: PyType)
    requires SeenConsistent(w2) && LinkStep(t0, w2.tables, snapshotId, [tt.path], [], [])
    ensures var v := VarLinks(w2, snapshotId, tt.vars);
      && (v.Err? ==> v.error == MultipleResultsFound)
      && (v.Ok? ==>
            var r := ProcLinks(v.value, snapshotId, tt.path, tt.procs);
            && (r.Err? ==> r.error == MultipleResultsFound)
            && (r.Ok? ==>
                  && SeenConsistent(r.value)
                  && LinkStep(t0, r.value.tables, snapshotId, [tt.path], SourcedKeys(tt.vars), ProcPaths(tt.path, tt.procs))))
  {
    VarLinksSpec(w2, snapshotId, tt.vars);
    var v := VarLinks(w2, snapshotId, tt.vars);
    if v.Ok? {
      LinkStepThen(t0, w2.tables, v.value.tables, snapshotId, [tt.path], [], [], [], SourcedKeys(tt.vars), []);
      ProcLinksSpec(v.value, snapshotId, tt.path, tt.procs);
      var r := ProcLinks(v.value, snapshotId, tt.path, tt.procs);
      if r.Ok? {
        assert [tt.path] + [] == [tt.path];
        assert [] + SourcedKeys(tt.vars) == SourcedKeys(tt.vars);
        LinkStepThen(t0, v.value.tables, r.value.tables, snapshotId, [tt.path], SourcedKeys(tt.vars), [], [], [], ProcPaths(tt.path, tt.procs));
        assert SourcedKeys(tt.vars) + [] == SourcedKeys(tt.vars);
        assert [] + ProcPaths(tt.path, tt.procs) == ProcPaths(tt.path, tt.procs);
      }
    }
  }

  /**
   * The tree: only an ambiguous lookup raises; otherwise the links of the
   * snapshot grow by one per type, per var with a source location and per
   * proc, in walk order, each naming a row with the walked path (and value),
   * while the ledger and snapshots stay as they were.
   */
  lemma {:induction false} TreeLinksSpec(w: Walk, snapshotId: int, types: seq<PyType>)
    requires SeenConsistent(w)
    ensures var r := TreeLinks(w, snapshotId, types);
      && (r.Err? ==> r.error == MultipleResultsFound)
      && (r.Ok? ==> SeenConsistent(r.value))
      && (r.Ok? ==> LinkStep(w.tables, r.value.tables, snapshotId, TreeTypePaths(types), TreeVarKeys(types), TreeProcPaths(types)))
    decreases |types|
  {
    if |types| == 0 {
      DeclsOnlyIsLinkStep(w.tables, w.tables, snapshotId);
    } else {
      TypeLinksSpec(w, snapshotId, types[0]);
      var s := TypeLinks(w, snapshotId, types[0]);
      if s.Ok? {
        TreeLinksSpec(s.value, snapshotId, types[1..]);
        var r := TreeLinks(s.value, snapshotId, types[1..]);
        if r.Ok? {
          LinkStepThen(w.tables, s.value.tables, r.value.tables, snapshotId,
            [types[0].path], SourcedKeys(types[0].vars), ProcPaths(types[0].path, types[0].procs),
            TreeTypePaths(types[1..]), TreeVarKeys(types[1..]), TreeProcPaths(types[1..]));
        }
      }
    }
  }

  // One commit.

  ghost predicate NoEntry(t: PyTables, hash: string)
  {
    forall i :: 0 <= i < |t.logEntries| ==> t.logEntries[i].commitHash != hash
  }

  /** The hash query returns nothing: no entry with the hash has a numstat row. */
  ghost predicate NoMatch(t: PyTables, hash: string)
  {
    forall i :: 0 <= i < |t.logEntries| ==> !LedgerMatch(t, t.logEntries[i], hash)
  }

  /** Entry `i` is the only one with the hash. */
  ghost predicate OnlyEntry(t: PyTables, hash: string, i: int)
  {
    && 0 <= i < |t.logEntries| && t.logEntries[i].commitHash == hash
    && forall j :: 0 <= j < |t.logEntries| && j != i ==> t.logEntries[j].commitHash != hash
  }

  /** Entry `i` is the only row the hash query returns. */
  ghost predicate OnlyMatch(t: PyTables, hash: string, i: int)
  {
    && 0 <= i < |t.logEntries| && LedgerMatch(t, t.logEntries[i], hash)
    && forall j :: 0 <= j < |t.logEntries| && j != i ==> !LedgerMatch(t, t.logEntries[j], hash)
  }

  /** Snapshot `j` is the only one of the entry. */
  ghost predicate OnlySnapshot(t: PyTables, entryId: int, j: int)
  {
    && 0 <= j < |t.snapshots| && t.snapshots[j].gitLogEntryId == entryId
    && forall k :: 0 <= k < |t.snapshots| && k != j ==> t.snapshots[k].gitLogEntryId != entryId
  }

  ghost predicate HashRecorded(t: PyTables, hash: string)
  {
    exists i :: 0 <= i < |t.logEntries| && t.logEntries[i].commitHash == hash
  }

  /** The tree's links, appended after the rows of `t`, for the snapshot. */
  ghost predicate TreeWritten(t: PyTables, t': PyTables, snapshotId: int, types: seq<PyType>)
  {
    && DeclsGrow(t, t')
    && AppendsTypeLinks(t, t', snapshotId, TreeTypePaths(types))
    && AppendsVarLinks(t, t', snapshotId, TreeVarKeys(types))
    && AppendsProcLinks(t, t', snapshotId, TreeProcPaths(types))
  }

  /** Before the tree, the snapshot step touches neither decls nor links. */
  lemma SnapshotStepKeepsDecls(t: PyTables, choice: LedgerChoice)
    requires SnapshotStep(t, choice).Ok?
    ensures var t1 := SnapshotStep(t, choice).value.0;
      && t1.typeDecls == t.typeDecls && t1.procDecls == t.procDecls && t1.varDecls == t.varDecls
      && t1.typeLinks == t.typeLinks && t1.procLinks == t.procLinks && t1.varLinks == t.varLinks
  {
  }

  /** Links written over tables whose decls and links are those of `t` are written over `t`. */
  lemma TreeWrittenOver(t: PyTables, t1: PyTables, t': PyTables, snapshotId: int, types: seq<PyType>)
    requires t1.typeDecls == t.typeDecls && t1.procDecls == t.procDecls && t1.varDecls == t.varDecls
    requires t1.typeLinks == t.typeLinks && t1.procLinks == t.procLinks && t1.varLinks == t.varLinks
    requires LinkStep(t1, t', snapshotId, TreeTypePaths(types), TreeVarKeys(types), TreeProcPaths(types))
    ensures TreeWritten(t, t', snapshotId, types)
  {
  }

  /**
   * One commit: an exception leaves the committed tables (and the run's
   * seen-maps) as they were; a success needs a `.dme` file and a parsed
   * tree, records the hash in the ledger and keeps the seen-maps true to
   * the tables.
   */
  lemma CommitOutcomeSpec(seen: SeenMaps, db: PyTables, rev: PyRevision)
    requires SeenConsistent(Walk(seen, db))
    ensures var o := CommitOutcome(seen, db, rev);
      && (o.result.Err? ==> o.seen == seen && o.tables == db)
      && (o.result.Ok? ==> |rev.dmeFiles| > 0 && rev.tree.Ok?)
      && (o.result.Ok? ==> SeenConsistent(Walk(o.seen, o.tables)) && HashRecorded(o.tables, rev.commit.hash))
      && (o.result.Ok? ==> db.logEntries <= o.tables.logEntries && db.numstats <= o.tables.numstats && db.snapshots <= o.tables.snapshots)
  {
    var o := CommitOutcome(seen, db, rev);
    if o.result.Ok? {
      var choice := LedgerStep(db, rev.commit).value;
      var (t1, sid) := SnapshotStep(db, choice).value;
      var w := TreeLinks(Walk(seen, t1), sid, rev.tree.value.types).value;
      assert o == PyOutcome(Ok(()), w.seen, w.tables);
      CommittedWalkSpec(seen, db, rev.commit, choice, t1, sid, rev.tree.value.types);
    }
  }

  /** A commit whose ledger step, snapshot step and tree walk all succeed records its hash and keeps the seen maps consistent. */
  lemma CommittedWalkSpec(seen: SeenMaps, db: PyTables, c: Commit, choice: LedgerChoice, t1: PyTables, sid: int, types: seq<PyType>)
    requires SeenConsistent(Walk(seen, db))
    requires LedgerStep(db, c) == Ok(choice) && SnapshotStep(db, choice) == Ok((t1, sid))
    requires TreeLinks(Walk(seen, t1), sid, types).Ok?
    ensures var w := TreeLinks(Walk(seen, t1), sid, types).value;
      && SeenConsistent(Walk(w.seen, w.tables)) && HashRecorded(w.tables, c.hash)
      && db.logEntries <= w.tables.logEntries && db.numstats <= w.tables.numstats && db.snapshots <= w.tables.snapshots
  {
    assert && t1.typeDecls == db.typeDecls && t1.procDecls == db.procDecls && t1.varDecls == db.varDecls
           && HashRecorded(t1, c.hash)
           && db.logEntries <= t1.logEntries && db.numstats <= t1.numstats && db.snapshots <= t1.snapshots by {
      SnapshotStepKeepsDecls(db, choice);
      LedgerThenSnapshotRecords(db, c, choice, t1, sid);
    }
    SeenConsistentGrows(seen, db, t1);
    var w := TreeLinks(Walk(seen, t1), sid, types).value;
    assert SeenConsistent(w) && LedgerSame(t1, w.tables) by {
      TreeLinksSpec(Walk(seen, t1), sid, types);
    }
  }

  /** The ledger step and then the snapshot step record the commit's hash and only append to the ledger. */
  lemma LedgerThenSnapshotRecords(db: PyTables, c: Commit, choice: LedgerChoice, t1: PyTables, sid: int)
    requires LedgerStep(db, c) == Ok(choice) && SnapshotStep(db, choice) == Ok((t1, sid))
    ensures HashRecorded(t1, c.hash)
    ensures db.logEntries <= t1.logEntries && db.numstats <= t1.numstats && db.snapshots <= t1.snapshots
  {
    var pick := (e: GitLogEntry) => LedgerMatch(db, e, c.hash);
    var q := Scalar(db.logEntries, pick);
    if choice.Create? {
      assert t1.logEntries[|db.logEntries|].commitHash == c.hash;
    } else {
      assert q.value.Some?;
      assert pick(t1.logEntries[q.value.value]);
    }
  }

  /** Without an entry for the hash, the ledger step creates what `from_commit` builds. */
  lemma NoEntryCreates(t: PyTables, c: Commit)
    requires NoMatch(t, c.hash)
    ensures |c.parentIds| == 0 ==> LedgerStep(t, c) == Err(IndexError("list index out of range"))
    ensures LedgerStep(t, c).Ok? ==> FromCommit(c).Ok? && LedgerStep(t, c) == Ok(Create(LogEntryRow(c), FromCommit(c).value.1))
  {
    assert Scalar(t.logEntries, (e: GitLogEntry) => LedgerMatch(t, e, c.hash)) == Ok(None);
  }

  lemma CreateWritesLedger(t: PyTables, entry: GitLogEntry, fields: seq<PyFields>)
    requires SnapshotStep(t, Create(entry, fields)).Ok?
    ensures var (t1, sid) := SnapshotStep(t, Create(entry, fields)).value;
      && sid == |t.snapshots| + 1
      && t1.logEntries == t.logEntries + [entry.(id := |t.logEntries| + 1)]
      && |t1.numstats| == |t.numstats| + |fields|
      && t1.snapshots == t.snapshots + [PySnapshot(|t.snapshots| + 1, |t.logEntries| + 1)]
  {
    var rows := NumstatColumns(fields, |t.logEntries| + 1).value;
    assert |Numbered(rows, |t.numstats| + 1)| == |rows|;
  }

  /**
   * A commit the ledger does not have: a root commit raises IndexError; a
   * success appends its entry (the next id) with one numstat row per
   * numstat line and one new snapshot for it, and writes the tree's links
   * into that snapshot.
   */
  lemma NewCommitSpec(seen: SeenMaps, db: PyTables, rev: PyRevision)
    requires SeenConsistent(Walk(seen, db)) && NoMatch(db, rev.commit.hash)
    ensures var o := CommitOutcome(seen, db, rev);
      && (|rev.commit.parentIds| == 0 ==> o.result == Err(IndexError("list index out of range")))
      && (o.result.Ok? ==>
           && o.tables.logEntries == db.logEntries + [LogEntryRow(rev.commit).(id := |db.logEntries| + 1)]
           && FromCommit(rev.commit).Ok?
           && |o.tables.numstats| == |db.numstats| + |FromCommit(rev.commit).value.1|
           && o.tables.snapshots == db.snapshots + [PySnapshot(|db.snapshots| + 1, |db.logEntries| + 1)]
           && TreeWritten(db, o.tables, |db.snapshots| + 1, rev.tree.value.types))
  {
    var o := CommitOutcome(seen, db, rev);
    NoEntryCreates(db, rev.commit);
    if o.result.Ok? {
      var choice := LedgerStep(db, rev.commit).value;
      var (t1, sid) := SnapshotStep(db, choice).value;
      CreateWritesLedger(db, choice.entry, choice.fields);
      SnapshotStepKeepsDecls(db, choice);
      SeenConsistentGrows(seen, db, t1);
      TreeLinksSpec(Walk(seen, t1), sid, rev.tree.value.types);
      var w := TreeLinks(Walk(seen, t1), sid, rev.tree.value.types).value;
      assert o.tables == w.tables;
      TreeWrittenOver(db, t1, w.tables, sid, rev.tree.value.types);
    }
  }

  /**
   * A commit walked again, whose entry and snapshot are each the only one:
   * there is no skip, so nothing new goes into the ledger or the snapshots
   * but every link of the tree is appended to that snapshot once more; a
   * parsed tree with a `.dme` file fails only on an ambiguous lookup.
   */
  lemma WalkedAgainSpec(seen: SeenMaps, db: PyTables, rev: PyRevision, i: int, j: int)
    requires SeenConsistent(Walk(seen, db))
    requires OnlyMatch(db, rev.commit.hash, i) && OnlySnapshot(db, db.logEntries[i].id, j)
    ensures var o := CommitOutcome(seen, db, rev);
      && (o.result.Ok? ==> LedgerSame(db, o.tables) && TreeWritten(db, o.tables, db.snapshots[j].id, rev.tree.value.types))
      && (|rev.dmeFiles| > 0 && rev.tree.Ok? && o.result.Err? ==> o.result.error == MultipleResultsFound)
  {
    var o := CommitOutcome(seen, db, rev);
    var q := Scalar(db.logEntries, (e: GitLogEntry) => LedgerMatch(db, e, rev.commit.hash));
    assert q == Ok(Some(i));
    var entryId := db.logEntries[i].id;
    var qs := Scalar(db.snapshots, (s: PySnapshot) => SnapshotOf(s, entryId));
    assert qs == Ok(Some(j));
    if |rev.dmeFiles| > 0 && rev.tree.Ok? {
      SeenConsistentGrows(seen, db, db);
      TreeLinksSpec(Walk(seen, db), db.snapshots[j].id, rev.tree.value.types);
    }
  }

  /**
   * A commit walked again whose entry has no numstat row (an empty diff
   * against its first parent): the hash query does not return that entry, so
   * a success appends a second entry with the same hash and a new snapshot
   * for it.
   */
  lemma EntryWithoutNumstatsDuplicated(seen: SeenMaps, db: PyTables, rev: PyRevision, i: int)
    requires SeenConsistent(Walk(seen, db))
    requires OnlyEntry(db, rev.commit.hash, i) && !HasNumstats(db.numstats, db.logEntries[i].id)
    ensures var o := CommitOutcome(seen, db, rev);
      o.result.Ok? ==>
        && |o.tables.logEntries| == |db.logEntries| + 1
        && o.tables.logEntries[i].commitHash == rev.commit.hash
        && o.tables.logEntries[|db.logEntries|].commitHash == rev.commit.hash
        && o.tables.snapshots == db.snapshots + [PySnapshot(|db.snapshots| + 1, |db.logEntries| + 1)]
  {
    assert NoMatch(db, rev.commit.hash);
    NewCommitSpec(seen, db, rev);
  }

  // The walk.

  /** The number of commits the walk gets through before an exception; all of them when none is raised. */
  function Completed(seen: SeenMaps, db: PyTables, revs: seq<PyRevision>): (k: nat)
    ensures k <= |revs|
    decreases |revs|
  {
    if |revs| == 0 then 0
    else
      var o := CommitOutcome(seen, db, revs[0]);
      if o.result.Err? then 0 else 1 + Completed(o.seen, o.tables, revs[1..])
  }

  /** After a first revision that commits, the walk and its count of completed revisions go on from that revision's outcome. */
  lemma RunAfterFirstCommit(seen: SeenMaps, db: PyTables, revs: seq<PyRevision>, o0: PyOutcome, k: nat)
    requires |revs| > 0 && o0 == CommitOutcome(seen, db, revs[0]) && o0.result.Ok?
    requires k == Completed(seen, db, revs)
    ensures 1 <= k
    ensures RunOutcome(seen, db, revs) == RunOutcome(o0.seen, o0.tables, revs[1..])
    ensures k - 1 == Completed(o0.seen, o0.tables, revs[1..])
  {
  }

  /** After a first revision that commits, a prefix of the walk goes on from that revision's outcome. */
  lemma PrefixAfterFirstCommit(seen: SeenMaps, db: PyTables, revs: seq<PyRevision>, o0: PyOutcome, k: nat)
    requires 1 <= k <= |revs| && o0 == CommitOutcome(seen, db, revs[0]) && o0.result.Ok?
    ensures RunOutcome(seen, db, revs[..k]) == RunOutcome(o0.seen, o0.tables, revs[1..][..k - 1])
  {
    assert revs[..k][0] == revs[0];
    assert revs[..k][1..] == revs[1..][..k - 1];
  }

  /**
   * The first exception ends the run: what is committed is exactly what the
   * commits before it committed, and the run reports that commit's
   * exception.
   */
  lemma {:induction false} RunStopsAtFirstFailure(seen: SeenMaps, db: PyTables, revs: seq<PyRevision>)
    ensures StopsAtFirstFailure(seen, db, revs)
    decreases |revs|
  {
    if |revs| == 0 {
      assert revs[..0] == revs;
    } else if CommitOutcome(seen, db, revs[0]).result.Err? {
      assert revs[..0] == [];
    } else {
      var o0 := CommitOutcome(seen, db, revs[0]);
      RunStopsAtFirstFailure(o0.seen, o0.tables, revs[1..]);
      StopsPastFirstCommit(seen, db, revs, o0);
    }
  }

  /**
   * What `RunStopsAtFirstFailure` states of a walk: the revisions it gets
   * through commit, and the first exception after them is the walk's result,
   * with the tables they left.
   */
  ghost predicate StopsAtFirstFailure(seen: SeenMaps, db: PyTables, revs: seq<PyRevision>)
  {
    var k := Completed(seen, db, revs);
    var o := RunOutcome(seen, db, revs);
    var p := RunOutcome(seen, db, revs[..k]);
    && p.result.Ok?
    && (k == |revs| ==> o == p)
    && (k < |revs| ==> o.result.Err? && o.tables == p.tables && o.result == CommitOutcome(p.seen, p.tables, revs[k]).result)
  }

  /** A walk whose first commit succeeds stops where the rest of the walk stops. */
  lemma StopsPastFirstCommit(seen: SeenMaps, db: PyTables, revs: seq<PyRevision>, o0: PyOutcome)
    requires |revs| > 0 && o0 == CommitOutcome(seen, db, revs[0]) && o0.result.Ok?
    requires StopsAtFirstFailure(o0.seen, o0.tables, revs[1..])
    ensures StopsAtFirstFailure(seen, db, revs)
  {
    var k := Completed(seen, db, revs);
    var o := RunOutcome(seen, db, revs);
    var p := RunOutcome(seen, db, revs[..k]);
    var o1 := RunOutcome(o0.seen, o0.tables, revs[1..]);
    var p1 := RunOutcome(o0.seen, o0.tables, revs[1..][..k - 1]);
    assert 1 <= k && k - 1 == Completed(o0.seen, o0.tables, revs[1..]) && o == o1 by {
      RunAfterFirstCommit(seen, db, revs, o0, k);
    }
    assert p == p1 by {
      PrefixAfterFirstCommit(seen, db, revs, o0, k);
    }
    if k < |revs| {
      assert CommitOutcome(p.seen, p.tables, revs[k]) == CommitOutcome(p1.seen, p1.tables, revs[1..][k - 1]) by {
        assert revs[k] == revs[1..][k - 1];
      }
    }
  }

  lemma HashRecordedGrows(t: PyTables, t': PyTables, hash: string)
    requires HashRecorded(t, hash) && t.logEntries <= t'.logEntries
    ensures HashRecorded(t', hash)
  {
    var i :| 0 <= i < |t.logEntries| && t.logEntries[i].commitHash == hash;
    assert t'.logEntries[i] == t.logEntries[i];
  }

  /**
   * Over a run: the committed ledger, numstats and snapshots only grow, the
   * seen-maps stay true to the tables whatever happens, and a run without
   * an exception leaves every walked commit in the ledger.
   */
  lemma {:induction false} RunOutcomeSpec(seen: SeenMaps, db: PyTables, revs: seq<PyRevision>)
    requires SeenConsistent(Walk(seen, db))
    ensures var o := RunOutcome(seen, db, revs);
      && SeenConsistent(Walk(o.seen, o.tables))
      && db.logEntries <= o.tables.logEntries && db.numstats <= o.tables.numstats && db.snapshots <= o.tables.snapshots
      && (o.result.Ok? ==> forall k :: 0 <= k < |revs| ==> HashRecorded(o.tables, revs[k].commit.hash))
    decreases |revs|
  {
    if |revs| > 0 {
      CommitOutcomeSpec(seen, db, revs[0]);
      var o0 := CommitOutcome(seen, db, revs[0]);
      if o0.result.Ok? {
        RunOutcomeSpec(o0.seen, o0.tables, revs[1..]);
        var o := RunOutcome(seen, db, revs);
        if o.result.Ok? {
          forall k | 0 <= k < |revs| ensures HashRecorded(o.tables, revs[k].commit.hash) {
            if k == 0 {
              HashRecordedGrows(o0.tables, o.tables, revs[0].commit.hash);
            } else {
              assert revs[k] == revs[1..][k - 1];
            }
          }
        }
      }
    }
  }

  // The var lookup as the walker writes it.

  /**
   * The walker passes the CodeTree as a third argument to a lookup that
   * takes two, so Python raises before the lookup runs.
   */
  const ArityError: PyError := TypeError("VarDecl.get_or_create() takes 3 positional arguments but 4 were given")

  /** `seen_vars` with the three-argument call: only a var already in the map gets through. */
  function SeenVarAsWritten(w: Walk, vd: PyVar): Result<(VarDecl, Walk), PyError>
  {
    var key := SeenKey(vd);
    if key in w.seen.vars then Ok((w.seen.vars[key], w)) else Err(ArityError)
  }

  /** The vars of one type, with the three-argument call. */
  function VarLinksAsWritten(w: Walk, snapshotId: int, vars: seq<PyVar>): Result<Walk, PyError>
    decreases |vars|
  {
    if |vars| == 0 then Ok(w)
    else if !vars[0].hasSourceLoc then VarLinksAsWritten(w, snapshotId, vars[1..])
    else match SeenVarAsWritten(w, vars[0])
      case Err(e) => Err(e)
      case Ok((decl, w1)) => VarLinksAsWritten(WithVarLink(w1, VarDeclSnapshot(snapshotId, decl.id)), snapshotId, vars[1..])
  }

  /**
   * With the three-argument call a type's vars go through exactly when every
   * var with a source location is already in `seen_vars`, which nothing
   * fills any more; otherwise the walk raises the TypeError. The map never
   * grows and no var row is ever written.
   */
  lemma {:induction false} VarLinksAsWrittenRaises(w: Walk, snapshotId: int, vars: seq<PyVar>)
    ensures var r := VarLinksAsWritten(w, snapshotId, vars);
      && (r.Ok? <==> forall k :: 0 <= k < |vars| && vars[k].hasSourceLoc ==> SeenKey(vars[k]) in w.seen.vars)
      && (r.Err? ==> r.error == ArityError)
      && (r.Ok? ==> r.value.seen == w.seen && r.value.tables.varDecls == w.tables.varDecls)
    decreases |vars|
  {
    if |vars| > 0 {
      var rest := vars[1..];
      assert forall k :: 1 <= k < |vars| ==> vars[k] == rest[k - 1];
      if !vars[0].hasSourceLoc {
        VarLinksAsWrittenRaises(w, snapshotId, rest);
      } else if SeenKey(vars[0]) in w.seen.vars {
        var w1 := WithVarLink(w, VarDeclSnapshot(snapshotId, w.seen.vars[SeenKey(vars[0])].id));
        VarLinksAsWrittenRaises(w1, snapshotId, rest);
      }
    }
  }

  /** At the start of a run no var is seen: the first var with a source location raises. */
  lemma AsWrittenRaisesOnFirstSourcedVar(w: Walk, snapshotId: int, vars: seq<PyVar>)
    requires w.seen.vars == map[]
    ensures VarLinksAsWritten(w, snapshotId, vars) ==
      if exists k :: 0 <= k < |vars| && vars[k].hasSourceLoc then Err(ArityError) else Ok(w)
  {
    VarLinksAsWrittenRaises(w, snapshotId, vars);
    if !exists k :: 0 <= k < |vars| && vars[k].hasSourceLoc {
      AsWrittenWithoutSourcedVars(w, snapshotId, vars);
    }
  }

  lemma {:induction false} AsWrittenWithoutSourcedVars(w: Walk, snapshotId: int, vars: seq<PyVar>)
    requires forall k :: 0 <= k < |vars| ==> !vars[k].hasSourceLoc
    ensures VarLinksAsWritten(w, snapshotId, vars) == Ok(w)
    decreases |vars|
  {
    if |vars| > 0 {
      assert !vars[0].hasSourceLoc;
      assert forall k :: 0 <= k < |vars[1..]| ==> vars[1..][k] == vars[k + 1];
      AsWrittenWithoutSourcedVars(w, snapshotId, vars[1..]);
    }
  }

  // The walker, step by step.

  /** `CodeTree`: the seen-maps, filled as the run goes and kept across commits. */
  class CodeTree {
    var seenTypes: map<string, TypeDecl>
    var seenVars: map<SeenVarKey, VarDecl>
    var seenProcs: map<string, ProcDecl>

    function Maps(): SeenMaps
      reads this
    {
      SeenMaps(seenTypes, seenVars, seenProcs)
    }

    constructor ()
      ensures Maps() == NothingSeen
    {
      seenTypes := map[];
      seenVars := map[];
      seenProcs := map[];
    }
  }

  /** src/ss13_codedb/tools/generate_parsed_git.py:78-82. */
  method LookupType(code: CodeTree, session: Session, path: string) returns (r: Result<TypeDecl, PyError>)
    modifies code`seenTypes, session
    ensures var out := SeenType(Walk(old(code.Maps()), old(session.tables)), path);
      && (r.Ok? <==> out.Ok?)
      && (out.Ok? ==> r.value == out.value.0 && Walk(code.Maps(), session.tables) == out.value.1)
      && (out.Err? ==> r.error == out.error)
  {
    if path in code.seenTypes {
      return Ok(code.seenTypes[path]);
    }
    var found := GetOrCreateType(session, path);
    if found.Err? {
      return Err(found.error);
    }
    code.seenTypes := code.seenTypes[path := found.value.0];
    r := Ok(found.value.0);
  }

  /** src/ss13_codedb/tools/generate_parsed_git.py:93-98, with the lookup called as it is declared. */
  method LookupVar(code: CodeTree, session: Session, vd: PyVar) returns (r: Result<VarDecl, PyError>)
    modifies code`seenVars, session
    ensures var out := SeenVar(Walk(old(code.Maps()), old(session.tables)), vd);
      && (r.Ok? <==> out.Ok?)
      && (out.Ok? ==> r.value == out.value.0 && Walk(code.Maps(), session.tables) == out.value.1)
      && (out.Err? ==> r.error == out.error)
  {
    var key := SeenKey(vd);
    if key in code.seenVars {
      return Ok(code.seenVars[key]);
    }
    var found := GetOrCreateVar(session, vd);
    if found.Err? {
      return Err(found.error);
    }
    code.seenVars := code.seenVars[key := found.value.0];
    r := Ok(found.value.0);
  }

  /** src/ss13_codedb/tools/generate_parsed_git.py:103-108. */
  method LookupProc(code: CodeTree, session: Session, path: string) returns (r: Result<ProcDecl, PyError>)
    modifies code`seenProcs, session
    ensures var out := SeenProc(Walk(old(code.Maps()), old(session.tables)), path);
      && (r.Ok? <==> out.Ok?)
      && (out.Ok? ==> r.value == out.value.0 && Walk(code.Maps(), session.tables) == out.value.1)
      && (out.Err? ==> r.error == out.error)
  {
    if path in code.seenProcs {
      return Ok(code.seenProcs[path]);
    }
    var found := GetOrCreateProc(session, path);
    if found.Err? {
      return Err(found.error);
    }
    code.seenProcs := code.seenProcs[path := found.value.0];
    r := Ok(found.value.0);
  }

  /** The loop over a type's vars, src/ss13_codedb/tools/generate_parsed_git.py:86-99. */
  method LinkVars(code: CodeTree, session: Session, snapshotId: int, vars: seq<PyVar>) returns (r: Result<(), PyError>)
    modifies code`seenVars, session
    ensures var out := VarLinks(Walk(old(code.Maps()), old(session.tables)), snapshotId, vars);
      && (r.Ok? <==> out.Ok?)
      && (out.Ok? ==> Walk(code.Maps(), session.tables) == out.value)
      && (out.Err? ==> r.error == out.error)
  {
    assert vars[0..] == vars;
    for i := 0 to |vars|
      invariant VarLinks(Walk(old(code.Maps()), old(session.tables)), snapshotId, vars)
             == VarLinks(Walk(code.Maps(), session.tables), snapshotId, vars[i..])
    {
      assert vars[i..][1..] == vars[i + 1..];
      if vars[i].hasSourceLoc {
        var nvd := LookupVar(code, session, vars[i]);
        if nvd.Err? {
          return Err(nvd.error);
        }
        session.AppendVarLink(VarDeclSnapshot(snapshotId, nvd.value.id));
      }
    }
    r := Ok(());
  }

  /** The loop over a type's procs, src/ss13_codedb/tools/generate_parsed_git.py:101-109. */
  method LinkProcs(code: CodeTree, session: Session, snapshotId: int, typePath: string, procs: seq<string>) returns (r: Result<(), PyError>)
    modifies code`seenProcs, session
    ensures var out := ProcLinks(Walk(old(code.Maps()), old(session.tables)), snapshotId, typePath, procs);
      && (r.Ok? <==> out.Ok?)
      && (out.Ok? ==> Walk(code.Maps(), session.tables) == out.value)
      && (out.Err? ==> r.error == out.error)
  {
    assert procs[0..] == procs;
    for i := 0 to |procs|
      invariant ProcLinks(Walk(old(code.Maps()), old(session.tables)), snapshotId, typePath, procs)
             == ProcLinks(Walk(code.Maps(), session.tables), snapshotId, typePath, procs[i..])
    {
      assert procs[i..][1..] == procs[i + 1..];
      var pd := LookupProc(code, session, ProcPath(typePath, procs[i]));
      if pd.Err? {
        return Err(pd.error);
      }
      session.AppendProcLink(ProcDeclSnapshot(snapshotId, pd.value.id));
    }
    r := Ok(());
  }

  /** One type of the tree, src/ss13_codedb/tools/generate_parsed_git.py:75-109. */
  method LinkType(code: CodeTree, session: Session, snapshotId: int, tt: PyType) returns (r: Result<(), PyError>)
    modifies code, session
    ensures var out := TypeLinks(Walk(old(code.Maps()), old(session.tables)), snapshotId, tt);
      && (r.Ok? <==> out.Ok?)
      && (out.Ok? ==> Walk(code.Maps(), session.tables) == out.value)
      && (out.Err? ==> r.error == out.error)
  {
    var td := LookupType(code, session, tt.path);
    if td.Err? {
      return Err(td.error);
    }
    session.AppendTypeLink(TypeDeclSnapshot(snapshotId, td.value.id));
    var vars := LinkVars(code, session, snapshotId, tt.vars);
    if vars.Err? {
      return vars;
    }
    r := LinkProcs(code, session, snapshotId, tt.path, tt.procs);
  }

  /**
   * The body of the walk for one commit,
   * src/ss13_codedb/tools/generate_parsed_git.py:46-115: the session
   * commits only at the end, so an exception leaves the database as it was.
   */
  method IngestCommit(rev: PyRevision, code: CodeTree, session: Session, db: PyDatabase) returns (r: Result<(), PyError>)
    requires session.tables == db.tables
    modifies code, session, db
    ensures var o := CommitOutcome(old(code.Maps()), old(db.tables), rev);
      && r == o.result && db.tables == o.tables
      && (r.Ok? ==> code.Maps() == o.seen && session.tables == db.tables)
  {
    var tables := session.tables;
    var found := Scalar(tables.logEntries, (e: GitLogEntry) => LedgerMatch(tables, e, rev.commit.hash));
    if found.Err? {
      return Err(found.error);
    }
    var choice: LedgerChoice;
    if found.value.Some? {
      choice := Reuse(session.tables.logEntries[found.value.value].id);
    } else {
      var built := GitLogEntryFromCommit(rev.commit);
      if built.Err? {
        return Err(built.error);
      }
      choice := Create(built.value.0, built.value.1);
    }
    assert LedgerStep(old(db.tables), rev.commit) == Ok(choice);
    if |rev.dmeFiles| == 0 {
      return Err(IndexError("list index out of range"));
    }
    if rev.tree.Err? {
      return Err(ParseError(rev.tree.error));
    }
    var types := rev.tree.value.types;
    var snapshotId: int;
    if choice.Create? {
      var entryId := |session.tables.logEntries| + 1;
      var rows := NumstatColumns(choice.fields, entryId);
      if rows.None? {
        return Err(DbError("incorrect integer value"));
      }
      session.AddLedger(choice.entry, rows.value);
      var snapshot := session.AddSnapshot(entryId);
      snapshotId := snapshot.id;
    } else {
      var existing := Scalar(session.tables.snapshots, (s: PySnapshot) => SnapshotOf(s, choice.entryId));
      if existing.Err? {
        return Err(existing.error);
      }
      if existing.value.Some? {
        snapshotId := session.tables.snapshots[existing.value.value].id;
      } else {
        var snapshot := session.AddSnapshot(choice.entryId);
        snapshotId := snapshot.id;
      }
    }
    assert SnapshotStep(old(db.tables), choice) == Ok((session.tables, snapshotId));
    ghost var start := Walk(code.Maps(), session.tables);
    assert types[0..] == types;
    for i := 0 to |types|
      invariant TreeLinks(start, snapshotId, types) == TreeLinks(Walk(code.Maps(), session.tables), snapshotId, types[i..])
      invariant db.tables == old(db.tables)
    {
      assert types[i..][1..] == types[i + 1..];
      var step := LinkType(code, session, snapshotId, types[i]);
      if step.Err? {
        return step;
      }
    }
    session.Commit(db);
    r := Ok(());
  }

  /** The walk, src/ss13_codedb/tools/generate_parsed_git.py:40-115: one session, one commit per walked commit. */
  method Run(revs: seq<PyRevision>, code: CodeTree, db: PyDatabase) returns (r: Result<(), PyError>)
    modifies code, db
    ensures var o := RunOutcome(old(code.Maps()), old(db.tables), revs);
      r == o.result && db.tables == o.tables && (r.Ok? ==> code.Maps() == o.seen)
  {
    var session := new Session.Open(db);
    assert revs[0..] == revs;
    for i := 0 to |revs|
      invariant RunOutcome(old(code.Maps()), old(db.tables), revs) == RunOutcome(code.Maps(), db.tables, revs[i..])
      invariant session.tables == db.tables
    {
      assert revs[i..][1..] == revs[i + 1..];
      var step := IngestCommit(revs[i], code, session, db);
      if step.Err? {
        return step;
      }
    }
    r := Ok(());
  }
}
