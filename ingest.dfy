/**
 * The revision walk of src/main.rs: for every revision that has an entry
 * point and is not yet in the ledger, one transaction records the commit,
 * parses its tree, creates a snapshot and links every type, proc and var of
 * the tree to it, then commits. Any error stops the whole run.
 */
module Ingest {
  import opened Wrappers
  import Text
  import opened Models
  import opened Ledger
  import opened DeclCache

  /** One type of a parsed object tree: its path as the tree spells it, its proc names and its named vars, in iteration order. */
  datatype TreeType = TreeType(path: string, procs: seq<string>, vars: seq<(string, TypeVar)>)

  datatype ObjectTree = ObjectTree(types: seq<TreeType>)

  /**
   * One revision of the walk: the commit; the entry point the environment
   * detection finds in the checked-out tree (None when there is none or the
   * detection fails); and what parsing the entry point yields, a tree or the
   * parser's message.
   */
  datatype Revision = Revision(commit: Commit, entryPoint: Option<string>, tree: Result<ObjectTree, string>)

  /** Where a step leaves the run: its result, the cache, and the durable tables. */
  datatype Outcome = Outcome(result: Result<(), IngestError>, cache: CacheMaps, tables: Tables)

  /** The path of a proc or var: the type's path as the tree spells it, `/`, the member's name. */
  function MemberPath(typePath: string, name: string): string
  {
    typePath + "/" + name
  }

  /** The procs of one type: each resolved through the cache and linked, a link already present being ignored. */
  function ProcLinks(ctx: Ctx, snapshotId: int, typePath: string, procs: seq<string>): Ctx
    decreases |procs|
  {
    if |procs| == 0 then ctx
    else
      var (decl, ctx1) := ProcLookup(ctx, MemberPath(typePath, procs[0]));
      var tables := WithProcLinkOrIgnore(ctx1.tables, ProcDeclSnapshot(snapshotId, decl.id));
      ProcLinks(ctx1.(tables := tables), snapshotId, typePath, procs[1..])
  }

  /** The vars of one type: each resolved through the cache and linked; a link already present is an error. */
  function VarLinks(ctx: Ctx, snapshotId: int, typePath: string, vars: seq<(string, TypeVar)>): Result<Ctx, IngestError>
    decreases |vars|
  {
    if |vars| == 0 then Ok(ctx)
    else
      var (decl, ctx1) := VarLookup(ctx, MemberPath(typePath, vars[0].0), vars[0].1);
      match WithVarLink(ctx1.tables, VarDeclSnapshot(snapshotId, decl.id))
      case Err(e) => Err(e)
      case Ok(tables) => VarLinks(ctx1.(tables := tables), snapshotId, typePath, vars[1..])
  }

  /** One type of the tree: the type is resolved and linked (a link already present is an error), then its procs, then its vars. */
  function TypeLinks(ctx: Ctx, snapshotId: int, tt: TreeType): Result<Ctx, IngestError>
  {
    var (decl, ctx1) := TypeLookup(ctx, tt.path);
    match WithTypeLink(ctx1.tables, TypeDeclSnapshot(snapshotId, decl.id))
    case Err(e) => Err(e)
    case Ok(tables) => VarLinks(ProcLinks(ctx1.(tables := tables), snapshotId, tt.path, tt.procs), snapshotId, tt.path, tt.vars)
  }

  /** All types of the tree, in order; the first error stops the build. */
  function TreeLinks(ctx: Ctx, snapshotId: int, types: seq<TreeType>): Result<Ctx, IngestError>
    decreases |types|
  {
    if |types| == 0 then Ok(ctx)
    else match TypeLinks(ctx, snapshotId, types[0])
      case Err(e) => Err(e)
      case Ok(ctx1) => TreeLinks(ctx1, snapshotId, types[1..])
  }

  /** The skip check: the ledger already has an entry with this hash. */
  predicate AlreadyIngested(t: Tables, hash: string)
  {
    exists i :: 0 <= i < |t.logEntries| && t.logEntries[i].commitHash == hash
  }

  /**
   * One revision: skipped without an entry point or when already in the
   * ledger; otherwise ledger, parse, snapshot and links in one transaction,
   * which is committed only when every step succeeds. On an error the durable
   * tables are those before the revision; the cache is then of no further use,
   * since the run stops, and is given back as it was.
   */
  function CommitOutcome(cache: CacheMaps, db: Tables, rev: Revision): Outcome
  {
    if rev.entryPoint.None? || AlreadyIngested(db, rev.commit.hash) then Outcome(Ok(()), cache, db)
    else
      var (ledger, t1) := LedgerOutcome(db, rev.commit);
      if ledger.Err? then Outcome(ledger, cache, db)
      else match rev.tree
        case Err(message) => Outcome(Err(Parser(message)), cache, db)
        case Ok(tree) => TreeOutcome(cache, db, TreeLinks(Ctx(cache, AddSnapshot(t1)), NewSnapshot(t1).id, tree.types))
  }

  /** The end of the transaction: committed when the snapshot was built, rolled back to `db` with the cache given back otherwise. */
  function TreeOutcome(cache: CacheMaps, db: Tables, built: Result<Ctx, IngestError>): Outcome
  {
    match built
    case Err(e) => Outcome(Err(e), cache, db)
    case Ok(ctx) => Outcome(Ok(()), ctx.cache, ctx.tables)
  }

  /** The walk: revisions in order, stopping at the first error. */
  function RunOutcome(cache: CacheMaps, db: Tables, revs: seq<Revision>): Outcome
    decreases |revs|
  {
    if |revs| == 0 then Outcome(Ok(()), cache, db)
    else
      var o := CommitOutcome(cache, db, revs[0]);
      if o.result.Err? then o else RunOutcome(o.cache, o.tables, revs[1..])
  }

  /** Every link names a stored snapshot and a stored declaration. */
  ghost predicate LinksInRange(t: Tables)
  {
    && (forall l :: l in t.typeLinks ==> 1 <= l.snapshotId <= |t.snapshots| && 1 <= l.typeDeclId <= |t.typeDecls|)
    && (forall l :: l in t.procLinks ==> 1 <= l.snapshotId <= |t.snapshots| && 1 <= l.procDeclId <= |t.procDecls|)
    && (forall l :: l in t.varLinks ==> 1 <= l.snapshotId <= |t.snapshots| && 1 <= l.varDeclId <= |t.varDecls|)
  }

  /** No commit hash is in the ledger twice. */
  ghost predicate UniqueCommits(t: Tables)
  {
    forall i, j :: 0 <= i < j < |t.logEntries| ==> t.logEntries[i].commitHash != t.logEntries[j].commitHash
  }

  /** Every numstat row points at a ledger entry. */
  ghost predicate NumstatsReferEntries(t: Tables)
  {
    forall i :: 0 <= i < |t.numstats| ==> 1 <= t.numstats[i].gitLogEntryId <= |t.logEntries|
  }

  /**
   * What every committed state of the store satisfies: the cache's store
   * rules, links and numstat rows that refer to stored rows, each commit in
   * the ledger once, and one snapshot per ledger entry.
   */
  ghost predicate IngestRules(t: Tables)
  {
    && StoreRules(t)
    && LinksInRange(t)
    && UniqueCommits(t)
    && NumstatsReferEntries(t)
    && |t.snapshots| == |t.logEntries|
  }

  /** A revision is recorded when the walk would skip it: it has no entry point, or the ledger has its hash. */
  ghost predicate Recorded(t: Tables, rev: Revision)
  {
    rev.entryPoint.None? || AlreadyIngested(t, rev.commit.hash)
  }

  /** The ledger of t' starts with that of t. */
  ghost predicate LedgerGrows(t: Tables, t': Tables)
  {
    |t.logEntries| <= |t'.logEntries| && t'.logEntries[..|t.logEntries|] == t.logEntries
  }

  /**
   * What building a snapshot may do to the tables: add declaration rows, add
   * links that carry the snapshot's id and name stored declarations, and
   * nothing else.
   */
  ghost predicate LinkStep(t: Tables, t': Tables, snapshotId: int)
  {
    && DeclsGrow(t, t')
    && t'.logEntries == t.logEntries && t'.numstats == t.numstats && t'.snapshots == t.snapshots
    && t.typeLinks <= t'.typeLinks && t.procLinks <= t'.procLinks && t.varLinks <= t'.varLinks
    && (forall l :: l in t'.typeLinks && l !in t.typeLinks ==> l.snapshotId == snapshotId && 1 <= l.typeDeclId <= |t'.typeDecls|)
    && (forall l :: l in t'.procLinks && l !in t.procLinks ==> l.snapshotId == snapshotId && 1 <= l.procDeclId <= |t'.procDecls|)
    && (forall l :: l in t'.varLinks && l !in t.varLinks ==> l.snapshotId == snapshotId && 1 <= l.varDeclId <= |t'.varDecls|)
  }

  lemma LinkStepTransitive(t1: Tables, t2: Tables, t3: Tables, snapshotId: int)
    requires LinkStep(t1, t2, snapshotId) && LinkStep(t2, t3, snapshotId)
    ensures LinkStep(t1, t3, snapshotId)
  {
    DeclsGrowTransitive(t1, t2, t3);
  }

  /** A cache lookup is a link step that adds no link. */
  lemma LookupIsLinkStep(t: Tables, t': Tables, snapshotId: int)
    requires DeclsGrow(t, t') && SameOutsideDecls(t, t')
    ensures LinkStep(t, t', snapshotId)
  {
    assert t'.typeLinks == t.typeLinks && t'.procLinks == t.procLinks && t'.varLinks == t.varLinks;
  }

  /** Links play no part in the cache's consistency. */
  lemma ConsistentWithMoreLinks(ctx: Ctx, t': Tables)
    requires Consistent(ctx)
    requires t'.(typeLinks := ctx.tables.typeLinks, procLinks := ctx.tables.procLinks, varLinks := ctx.tables.varLinks) == ctx.tables
    ensures Consistent(Ctx(ctx.cache, t'))
  {
  }

  lemma {:induction false} ProcLinksSpec(ctx: Ctx, snapshotId: int, typePath: string, procs: seq<string>)
    requires Consistent(ctx)
    ensures var ctx' := ProcLinks(ctx, snapshotId, typePath, procs);
      Consistent(ctx') && LinkStep(ctx.tables, ctx'.tables, snapshotId)
      && ctx'.cache.types == ctx.cache.types && ctx'.cache.vars == ctx.cache.vars
    decreases |procs|
  {
    if |procs| == 0 {
      assert DeclsGrow(ctx.tables, ctx.tables);
    } else {
      ProcLookupSpec(ctx, MemberPath(typePath, procs[0]));
      var (decl, ctx1) := ProcLookup(ctx, MemberPath(typePath, procs[0]));
      LookupIsLinkStep(ctx.tables, ctx1.tables, snapshotId);
      var t2 := WithProcLinkOrIgnore(ctx1.tables, ProcDeclSnapshot(snapshotId, decl.id));
      ConsistentWithMoreLinks(ctx1, t2);
      assert DeclsGrow(ctx1.tables, t2);
      assert LinkStep(ctx1.tables, t2, snapshotId);
      LinkStepTransitive(ctx.tables, ctx1.tables, t2, snapshotId);
      ProcLinksSpec(ctx1.(tables := t2), snapshotId, typePath, procs[1..]);
      LinkStepTransitive(ctx.tables, t2, ProcLinks(ctx, snapshotId, typePath, procs).tables, snapshotId);
    }
  }

  lemma {:induction false} VarLinksSpec(ctx: Ctx, snapshotId: int, typePath: string, vars: seq<(string, TypeVar)>)
    requires Consistent(ctx)
    ensures var r := VarLinks(ctx, snapshotId, typePath, vars);
      r.Ok? ==> Consistent(r.value) && LinkStep(ctx.tables, r.value.tables, snapshotId) && r.value.cache.procs == ctx.cache.procs
    decreases |vars|
  {
    if |vars| == 0 {
      assert DeclsGrow(ctx.tables, ctx.tables);
    } else {
      var (decl, ctx1) := VarLookup(ctx, MemberPath(typePath, vars[0].0), vars[0].1);
      var linked := WithVarLink(ctx1.tables, VarDeclSnapshot(snapshotId, decl.id));
      OneVarLink(ctx, snapshotId, MemberPath(typePath, vars[0].0), vars[0].1);
      if linked.Ok? {
        var next := ctx1.(tables := linked.value);
        VarLinksSpec(next, snapshotId, typePath, vars[1..]);
        var r := VarLinks(next, snapshotId, typePath, vars[1..]);
        assert VarLinks(ctx, snapshotId, typePath, vars) == r;
        if r.Ok? {
          LinkStepTransitive(ctx.tables, next.tables, r.value.tables, snapshotId);
        }
      }
    }
  }

  /** Looking up one var and linking its row keeps the cache consistent and only adds a link of the snapshot. */
  lemma OneVarLink(ctx: Ctx, snapshotId: int, varPath: string, v: TypeVar)
    requires Consistent(ctx)
    ensures var (decl, ctx1) := VarLookup(ctx, varPath, v);
      var linked := WithVarLink(ctx1.tables, VarDeclSnapshot(snapshotId, decl.id));
      linked.Ok? ==>
        && Consistent(ctx1.(tables := linked.value))
        && LinkStep(ctx.tables, linked.value, snapshotId)
        && ctx1.cache.procs == ctx.cache.procs
  {
    var (decl, ctx1) := VarLookup(ctx, varPath, v);
    assert && Consistent(ctx1) && DeclsGrow(ctx.tables, ctx1.tables) && SameOutsideDecls(ctx.tables, ctx1.tables)
           && 1 <= decl.id <= |ctx1.tables.varDecls| && ctx1.cache.procs == ctx.cache.procs by {
      VarLookupSpec(ctx, varPath, v);
    }
    LookupIsLinkStep(ctx.tables, ctx1.tables, snapshotId);
    VarLinkAfterLookup(ctx.tables, ctx1, decl.id, snapshotId);
  }

  /** Linking a stored var row after a lookup that was a link step is a link step too. */
  lemma VarLinkAfterLookup(t0: Tables, ctx1: Ctx, id: int, snapshotId: int)
    requires Consistent(ctx1) && LinkStep(t0, ctx1.tables, snapshotId) && 1 <= id <= |ctx1.tables.varDecls|
    ensures var linked := WithVarLink(ctx1.tables, VarDeclSnapshot(snapshotId, id));
      linked.Ok? ==> Consistent(ctx1.(tables := linked.value)) && LinkStep(t0, linked.value, snapshotId)
  {
    var linked := WithVarLink(ctx1.tables, VarDeclSnapshot(snapshotId, id));
    if linked.Ok? {
      var t2 := linked.value;
      ConsistentWithMoreLinks(ctx1, t2);
      assert DeclsGrow(ctx1.tables, t2);
      assert LinkStep(ctx1.tables, t2, snapshotId);
      LinkStepTransitive(t0, ctx1.tables, t2, snapshotId);
    }
  }

  lemma TypeLinksSpec(ctx: Ctx, snapshotId: int, tt: TreeType)
    requires Consistent(ctx)
    ensures var r := TypeLinks(ctx, snapshotId, tt);
      r.Ok? ==> Consistent(r.value) && LinkStep(ctx.tables, r.value.tables, snapshotId)
  {
    var (decl, ctx1) := TypeLookup(ctx, tt.path);
    assert && Consistent(ctx1) && 1 <= decl.id <= |ctx1.tables.typeDecls|
           && LinkStep(ctx.tables, ctx1.tables, snapshotId) by {
      TypeLookupSpec(ctx, tt.path);
      LookupIsLinkStep(ctx.tables, ctx1.tables, snapshotId);
    }
    TypeLinkThenMembers(ctx.tables, ctx1, decl.id, snapshotId, tt);
  }

  /** Linking the looked-up type row and then its members keeps the cache consistent and only adds rows of the snapshot. */
  lemma TypeLinkThenMembers(t0: Tables, ctx1: Ctx, id: int, snapshotId: int, tt: TreeType)
    requires Consistent(ctx1) && 1 <= id <= |ctx1.tables.typeDecls| && LinkStep(t0, ctx1.tables, snapshotId)
    ensures var linked := WithTypeLink(ctx1.tables, TypeDeclSnapshot(snapshotId, id));
      linked.Ok? ==>
        var r := VarLinks(ProcLinks(ctx1.(tables := linked.value), snapshotId, tt.path, tt.procs), snapshotId, tt.path, tt.vars);
        r.Ok? ==> Consistent(r.value) && LinkStep(t0, r.value.tables, snapshotId)
  {
    var linked := WithTypeLink(ctx1.tables, TypeDeclSnapshot(snapshotId, id));
    if linked.Ok? {
      var t2 := linked.value;
      assert Consistent(ctx1.(tables := t2)) && LinkStep(t0, t2, snapshotId) by {
        ConsistentWithMoreLinks(ctx1, t2);
        assert DeclsGrow(ctx1.tables, t2);
        assert LinkStep(ctx1.tables, t2, snapshotId);
        LinkStepTransitive(t0, ctx1.tables, t2, snapshotId);
      }
      MembersLinkSpec(t0, ctx1.(tables := t2), snapshotId, tt);
    }
  }

  /** Linking a type's procs and then its vars keeps the cache consistent and only adds rows of the snapshot. */
  lemma MembersLinkSpec(t0: Tables, ctx: Ctx, snapshotId: int, tt: TreeType)
    requires Consistent(ctx) && LinkStep(t0, ctx.tables, snapshotId)
    ensures var r := VarLinks(ProcLinks(ctx, snapshotId, tt.path, tt.procs), snapshotId, tt.path, tt.vars);
      r.Ok? ==> Consistent(r.value) && LinkStep(t0, r.value.tables, snapshotId)
  {
    var ctx2 := ProcLinks(ctx, snapshotId, tt.path, tt.procs);
    assert Consistent(ctx2) && LinkStep(t0, ctx2.tables, snapshotId) by {
      ProcLinksSpec(ctx, snapshotId, tt.path, tt.procs);
      LinkStepTransitive(t0, ctx.tables, ctx2.tables, snapshotId);
    }
    var r := VarLinks(ctx2, snapshotId, tt.path, tt.vars);
    if r.Ok? {
      assert LinkStep(ctx2.tables, r.value.tables, snapshotId) && Consistent(r.value) by {
        VarLinksSpec(ctx2, snapshotId, tt.path, tt.vars);
      }
      LinkStepTransitive(t0, ctx2.tables, r.value.tables, snapshotId);
    }
  }

  /** A successful snapshot build keeps the cache consistent and only adds declarations and links carrying the snapshot's id. */
  lemma {:induction false} TreeLinksSpec(ctx: Ctx, snapshotId: int, types: seq<TreeType>)
    requires Consistent(ctx)
    ensures var r := TreeLinks(ctx, snapshotId, types);
      r.Ok? ==> Consistent(r.value) && LinkStep(ctx.tables, r.value.tables, snapshotId)
    decreases |types|
  {
    if |types| == 0 {
      assert DeclsGrow(ctx.tables, ctx.tables);
    } else {
      TypeLinksSpec(ctx, snapshotId, types[0]);
      var r0 := TypeLinks(ctx, snapshotId, types[0]);
      if r0.Ok? {
        TreeLinksSpec(r0.value, snapshotId, types[1..]);
        var r := TreeLinks(ctx, snapshotId, types);
        if r.Ok? {
          LinkStepTransitive(ctx.tables, r0.value.tables, r.value.tables, snapshotId);
        }
      }
    }
  }

  /** The cache stays consistent over any change that keeps the store rules and the declaration tables. */
  lemma ConsistentSameDecls(cache: CacheMaps, t: Tables, t': Tables)
    requires Consistent(Ctx(cache, t)) && StoreRules(t')
    requires t'.typeDecls == t.typeDecls && t'.procDecls == t.procDecls && t'.varDecls == t.varDecls
    ensures Consistent(Ctx(cache, t'))
  {
  }

  /** The ledger entry and the new snapshot of an ingested revision keep the rules of the store. */
  lemma LedgerAndSnapshotKeepRules(db: Tables, c: Commit)
    requires IngestRules(db) && !AlreadyIngested(db, c.hash) && LedgerOutcome(db, c).0.Ok?
    ensures var t2 := AddSnapshot(LedgerOutcome(db, c).1);
      && IngestRules(t2)
      && t2.typeDecls == db.typeDecls && t2.procDecls == db.procDecls && t2.varDecls == db.varDecls
      && LedgerGrows(db, t2)
      && |t2.logEntries| == |db.logEntries| + 1 && t2.logEntries[|db.logEntries|].commitHash == c.hash
      && |t2.snapshots| == |db.snapshots| + 1 && NewSnapshot(LedgerOutcome(db, c).1).id == |t2.snapshots|
  {
    LedgerWritesEntryThenRows(db, c);
    SnapshotAfterLedger(db, LedgerOutcome(db, c).1, LogEntryRow(c).(id := |db.logEntries| + 1));
  }

  /** The snapshot added after a ledger entry with a new hash and its numstat rows keeps the rules of the store. */
  lemma SnapshotAfterLedger(db: Tables, t1: Tables, entry: GitLogEntry)
    requires IngestRules(db) && !AlreadyIngested(db, entry.commitHash)
    requires IdsArePositions(t1)
    requires t1.logEntries == db.logEntries + [entry]
    requires |t1.numstats| >= |db.numstats| && t1.numstats[..|db.numstats|] == db.numstats
    requires forall k :: |db.numstats| <= k < |t1.numstats| ==> t1.numstats[k].gitLogEntryId == |db.logEntries| + 1
    requires t1.snapshots == db.snapshots && t1.typeDecls == db.typeDecls && t1.procDecls == db.procDecls
    requires t1.varDecls == db.varDecls && t1.typeLinks == db.typeLinks && t1.procLinks == db.procLinks
    requires t1.varLinks == db.varLinks
    ensures var t2 := AddSnapshot(t1);
      && IngestRules(t2)
      && LedgerGrows(db, t2)
      && |t2.snapshots| == |db.snapshots| + 1 && NewSnapshot(t1).id == |t2.snapshots|
  {
    var t2 := AddSnapshot(t1);
    assert t2.logEntries[..|db.logEntries|] == db.logEntries;
    NewHashKeepsUnique(db, t2, entry.commitHash);
    NewRowsKeepReferences(db, t2);
  }

  /** A ledger entry whose hash the ledger does not have keeps each commit in the ledger once. */
  lemma NewHashKeepsUnique(t: Tables, t': Tables, hash: string)
    requires UniqueCommits(t) && !AlreadyIngested(t, hash)
    requires |t'.logEntries| == |t.logEntries| + 1 && t'.logEntries[..|t.logEntries|] == t.logEntries
    requires t'.logEntries[|t.logEntries|].commitHash == hash
    ensures UniqueCommits(t')
  {
    forall i, j | 0 <= i < j < |t'.logEntries| ensures t'.logEntries[i].commitHash != t'.logEntries[j].commitHash {
      assert t'.logEntries[i] == t.logEntries[i] || i == |t.logEntries|;
      if j < |t.logEntries| {
        assert t'.logEntries[j] == t.logEntries[j];
      }
    }
  }

  /** Numstat rows added for the new ledger entry keep every numstat row pointing at an entry. */
  lemma NewRowsKeepReferences(t: Tables, t': Tables)
    requires NumstatsReferEntries(t)
    requires |t'.logEntries| == |t.logEntries| + 1
    requires |t'.numstats| >= |t.numstats| && t'.numstats[..|t.numstats|] == t.numstats
    requires forall k :: |t.numstats| <= k < |t'.numstats| ==> t'.numstats[k].gitLogEntryId == |t.logEntries| + 1
    ensures NumstatsReferEntries(t')
  {
    forall i | 0 <= i < |t'.numstats| ensures 1 <= t'.numstats[i].gitLogEntryId <= |t'.logEntries| {
      if i < |t.numstats| {
        assert t'.numstats[i] == t'.numstats[..|t.numstats|][i];
      }
    }
  }

  /** A snapshot build that is a link step for the newest snapshot keeps the rules of the store. */
  lemma LinkStepKeepsRules(t: Tables, t': Tables, snapshotId: int)
    requires IngestRules(t) && StoreRules(t') && LinkStep(t, t', snapshotId)
    requires 1 <= snapshotId <= |t.snapshots|
    ensures IngestRules(t')
  {
  }

  /**
   * One revision of the walk. A revision without an entry point, or whose
   * hash is in the ledger, is skipped without any write. An ingested revision
   * adds exactly one ledger entry, with its hash, and exactly one snapshot,
   * and every link it adds carries that snapshot's id. A revision that fails
   * leaves the durable tables as they were. Success keeps the rules of the
   * store and the consistency of the cache.
   */
  lemma CommitOutcomeSpec(cache: CacheMaps, db: Tables, rev: Revision)
    requires IngestRules(db) && Consistent(Ctx(cache, db))
    ensures var o := CommitOutcome(cache, db, rev);
      && (Recorded(db, rev) ==> o == Outcome(Ok(()), cache, db))
      && (o.result.Err? ==> o.tables == db)
      && (o.result.Ok? ==> IngestRules(o.tables) && Consistent(Ctx(o.cache, o.tables)) && Recorded(o.tables, rev))
      && LedgerGrows(db, o.tables)
      && (!Recorded(db, rev) && o.result.Ok? ==>
            && |o.tables.logEntries| == |db.logEntries| + 1
            && o.tables.logEntries[|db.logEntries|].commitHash == rev.commit.hash
            && |o.tables.snapshots| == |db.snapshots| + 1
            && LinkStep(AddSnapshot(LedgerOutcome(db, rev.commit).1), o.tables, |o.tables.snapshots|)
            && rev.tree.Ok?
            && TreeLinked(Ctx(o.cache, o.tables), |o.tables.snapshots|, rev.tree.value.types)
            && o.tables.typeLinks == db.typeLinks + TreeTypeLinks(o.cache, |o.tables.snapshots|, rev.tree.value.types)
            && o.tables.procLinks == db.procLinks + TreeProcLinks(o.cache, |o.tables.snapshots|, rev.tree.value.types)
            && o.tables.varLinks == db.varLinks + TreeVarLinks(o.cache, |o.tables.snapshots|, rev.tree.value.types))
  {
    var o := CommitOutcome(cache, db, rev);
    assert db.logEntries[..|db.logEntries|] == db.logEntries;
    if !Recorded(db, rev) && o.result.Ok? {
      LedgerAndSnapshotKeepRules(db, rev.commit);
      var t1 := LedgerOutcome(db, rev.commit).1;
      var t2 := AddSnapshot(t1);
      var snapshotId := NewSnapshot(t1).id;
      ConsistentSameDecls(cache, db, t2);
      TreeLinksSpec(Ctx(cache, t2), snapshotId, rev.tree.value.types);
      LinkStepKeepsRules(t2, o.tables, snapshotId);
      assert o.tables.logEntries[|db.logEntries|].commitHash == rev.commit.hash;
      IngestedLinksTree(cache, db, rev);
    }
  }

  /** An ingested revision links its whole tree to the new snapshot, and adds no other link. */
  lemma IngestedLinksTree(cache: CacheMaps, db: Tables, rev: Revision)
    requires !Recorded(db, rev) && CommitOutcome(cache, db, rev).result.Ok?
    ensures var o := CommitOutcome(cache, db, rev);
      var snapshotId := NewSnapshot(LedgerOutcome(db, rev.commit).1).id;
      && rev.tree.Ok?
      && TreeLinked(Ctx(o.cache, o.tables), snapshotId, rev.tree.value.types)
      && o.tables.typeLinks == db.typeLinks + TreeTypeLinks(o.cache, snapshotId, rev.tree.value.types)
      && o.tables.procLinks == db.procLinks + TreeProcLinks(o.cache, snapshotId, rev.tree.value.types)
      && o.tables.varLinks == db.varLinks + TreeVarLinks(o.cache, snapshotId, rev.tree.value.types)
  {
    var t1 := LedgerOutcome(db, rev.commit).1;
    assert SameLinks(db, AddSnapshot(t1));
    IngestedOutcome(cache, db, rev, t1);
    TreeLinksLinkAll(Ctx(cache, AddSnapshot(t1)), NewSnapshot(t1).id, rev.tree.value.types);
  }

  /** The number of revisions the walk gets through before it stops; all of them when none fails. */
  function Completed(cache: CacheMaps, db: Tables, revs: seq<Revision>): (k: nat)
    ensures k <= |revs|
    decreases |revs|
  {
    if |revs| == 0 then 0
    else
      var o := CommitOutcome(cache, db, revs[0]);
      if o.result.Err? then 0 else 1 + Completed(o.cache, o.tables, revs[1..])
  }

  /** After a first revision that commits, the walk, its prefix and its count of completed revisions go on from that revision's outcome. */
  lemma RunAfterFirstCommit(cache: CacheMaps, db: Tables, revs: seq<Revision>, o0: Outcome, k: nat)
    requires |revs| > 0 && o0 == CommitOutcome(cache, db, revs[0]) && o0.result.Ok?
    requires k == Completed(cache, db, revs)
    ensures 1 <= k
    ensures RunOutcome(cache, db, revs) == RunOutcome(o0.cache, o0.tables, revs[1..])
    ensures RunOutcome(cache, db, revs[..k]) == RunOutcome(o0.cache, o0.tables, revs[1..][..k - 1])
    ensures k - 1 == Completed(o0.cache, o0.tables, revs[1..])
  {
    assert revs[..k][0] == revs[0];
    assert revs[..k][1..] == revs[1..][..k - 1];
  }

  /**
   * The walk stops at the first failing revision: what is durable is exactly
   * what the revisions before it committed, and the run reports that
   * revision's error.
   */
  lemma {:induction false} RunStopsAtFirstFailure(cache: CacheMaps, db: Tables, revs: seq<Revision>)
    ensures var k := Completed(cache, db, revs);
      var o := RunOutcome(cache, db, revs);
      var p := RunOutcome(cache, db, revs[..k]);
      && p.result.Ok?
      && (k == |revs| ==> o == p)
      && (k < |revs| ==> o.result.Err? && o.tables == p.tables && o.result == CommitOutcome(p.cache, p.tables, revs[k]).result)
    decreases |revs|
  {
    if |revs| > 0 {
      var o0 := CommitOutcome(cache, db, revs[0]);
      if o0.result.Err? {
        assert revs[..0] == [];
      } else {
        RunStopsAtFirstFailure(o0.cache, o0.tables, revs[1..]);
        var k := Completed(cache, db, revs);
        RunAfterFirstCommit(cache, db, revs, o0, k);
        if k < |revs| {
          assert revs[k] == revs[1..][k - 1];
        }
      }
    } else {
      assert revs[..0] == revs;
    }
  }

  /**
   * Over a run: the rules of the store and the ledger's prefix are kept
   * whether or not the run fails, and a successful run leaves every revision
   * recorded.
   */
  lemma {:induction false} RunOutcomeSpec(cache: CacheMaps, db: Tables, revs: seq<Revision>)
    requires IngestRules(db) && Consistent(Ctx(cache, db))
    ensures var o := RunOutcome(cache, db, revs);
      && IngestRules(o.tables)
      && LedgerGrows(db, o.tables)
      && (o.result.Ok? ==> Consistent(Ctx(o.cache, o.tables)) && forall k :: 0 <= k < |revs| ==> Recorded(o.tables, revs[k]))
    decreases |revs|
  {
    if |revs| > 0 {
      CommitOutcomeSpec(cache, db, revs[0]);
      var o0 := CommitOutcome(cache, db, revs[0]);
      if o0.result.Ok? {
        RunOutcomeSpec(o0.cache, o0.tables, revs[1..]);
        var o := RunOutcome(cache, db, revs);
        assert o.tables.logEntries[..|o0.tables.logEntries|][..|db.logEntries|] == o.tables.logEntries[..|db.logEntries|];
        if o.result.Ok? {
          forall k | 0 <= k < |revs| ensures Recorded(o.tables, revs[k]) {
            if k == 0 {
              RecordedStaysRecorded(o0.tables, o.tables, revs[0]);
            } else {
              assert revs[k] == revs[1..][k - 1];
            }
          }
        }
      }
    } else {
      assert db.logEntries[..|db.logEntries|] == db.logEntries;
    }
  }

  lemma RecordedStaysRecorded(t: Tables, t': Tables, rev: Revision)
    requires Recorded(t, rev) && LedgerGrows(t, t')
    ensures Recorded(t', rev)
  {
    if rev.entryPoint.Some? {
      var i :| 0 <= i < |t.logEntries| && t.logEntries[i].commitHash == rev.commit.hash;
      assert t'.logEntries[i] == t'.logEntries[..|t.logEntries|][i];
    }
  }

  /** When every revision is recorded, the walk skips them all and writes nothing. */
  lemma {:induction false} AllRecordedWritesNothing(cache: CacheMaps, db: Tables, revs: seq<Revision>)
    requires forall k :: 0 <= k < |revs| ==> Recorded(db, revs[k])
    ensures RunOutcome(cache, db, revs) == Outcome(Ok(()), cache, db)
    decreases |revs|
  {
    if |revs| > 0 {
      assert Recorded(db, revs[0]);
      assert forall k :: 0 <= k < |revs| - 1 ==> revs[1..][k] == revs[k + 1];
      AllRecordedWritesNothing(cache, db, revs[1..]);
    }
  }

  /**
   * Resumability: running the walk again, with a fresh or any other cache,
   * over the same revisions skips every revision the first run got through,
   * without a ledger entry, snapshot or link for any of them; after a
   * successful run that is all of them.
   */
  lemma Resumability(cache: CacheMaps, db: Tables, revs: seq<Revision>, cache2: CacheMaps)
    requires IngestRules(db) && Consistent(Ctx(cache, db))
    ensures var o := RunOutcome(cache, db, revs);
      var k := Completed(cache, db, revs);
      && RunOutcome(cache2, o.tables, revs[..k]) == Outcome(Ok(()), cache2, o.tables)
      && (o.result.Ok? ==> RunOutcome(cache2, o.tables, revs) == Outcome(Ok(()), cache2, o.tables))
  {
    var o := RunOutcome(cache, db, revs);
    var k := Completed(cache, db, revs);
    RunStopsAtFirstFailure(cache, db, revs);
    RunOutcomeSpec(cache, db, revs[..k]);
    var p := RunOutcome(cache, db, revs[..k]);
    assert p.tables == o.tables;
    AllRecordedWritesNothing(cache2, o.tables, revs[..k]);
    if o.result.Ok? {
      assert revs[..k] == revs;
    }
  }

  /** Every proc of the list is in the map and linked to the snapshot. */
  ghost predicate ProcsLinked(ctx: Ctx, snapshotId: int, typePath: string, procs: seq<string>)
  {
    forall k :: 0 <= k < |procs| ==>
      && MemberPath(typePath, procs[k]) in ctx.cache.procs
      && ProcDeclSnapshot(snapshotId, ctx.cache.procs[MemberPath(typePath, procs[k])].id) in ctx.tables.procLinks
  }

  lemma {:induction false} LinkedProcsChangeNothing(ctx: Ctx, snapshotId: int, typePath: string, procs: seq<string>)
    requires ProcsLinked(ctx, snapshotId, typePath, procs)
    ensures ProcLinks(ctx, snapshotId, typePath, procs) == ctx
    decreases |procs|
  {
    if |procs| > 0 {
      assert MemberPath(typePath, procs[0]) in ctx.cache.procs;
      assert ctx.(tables := ctx.tables) == ctx;
      forall k | 0 <= k < |procs| - 1
        ensures MemberPath(typePath, procs[1..][k]) in ctx.cache.procs
        ensures ProcDeclSnapshot(snapshotId, ctx.cache.procs[MemberPath(typePath, procs[1..][k])].id) in ctx.tables.procLinks
      {
        assert procs[1..][k] == procs[k + 1];
      }
      LinkedProcsChangeNothing(ctx, snapshotId, typePath, procs[1..]);
    }
  }

  lemma {:induction false} ProcLinksKeepLinked(ctx: Ctx, snapshotId: int, typePath: string, procs: seq<string>, linked: seq<string>)
    requires ProcsLinked(ctx, snapshotId, typePath, linked)
    ensures ProcsLinked(ProcLinks(ctx, snapshotId, typePath, procs), snapshotId, typePath, linked)
    decreases |procs|
  {
    if |procs| > 0 {
      var (decl, ctx1) := ProcLookup(ctx, MemberPath(typePath, procs[0]));
      var ctx2 := ctx1.(tables := WithProcLinkOrIgnore(ctx1.tables, ProcDeclSnapshot(snapshotId, decl.id)));
      assert ProcsLinked(ctx2, snapshotId, typePath, linked);
      ProcLinksKeepLinked(ctx2, snapshotId, typePath, procs[1..], linked);
    }
  }

  lemma {:induction false} ProcLinksLinkAll(ctx: Ctx, snapshotId: int, typePath: string, procs: seq<string>)
    ensures ProcsLinked(ProcLinks(ctx, snapshotId, typePath, procs), snapshotId, typePath, procs)
    decreases |procs|
  {
    if |procs| > 0 {
      var (decl, ctx1) := ProcLookup(ctx, MemberPath(typePath, procs[0]));
      var ctx2 := ctx1.(tables := WithProcLinkOrIgnore(ctx1.tables, ProcDeclSnapshot(snapshotId, decl.id)));
      assert ProcsLinked(ctx2, snapshotId, typePath, [procs[0]]);
      ProcLinksKeepLinked(ctx2, snapshotId, typePath, procs[1..], [procs[0]]);
      ProcLinksLinkAll(ctx2, snapshotId, typePath, procs[1..]);
      var ctx' := ProcLinks(ctx, snapshotId, typePath, procs);
      forall k | 0 <= k < |procs|
        ensures MemberPath(typePath, procs[k]) in ctx'.cache.procs
        ensures ProcDeclSnapshot(snapshotId, ctx'.cache.procs[MemberPath(typePath, procs[k])].id) in ctx'.tables.procLinks
      {
        if k == 0 {
          assert [procs[0]][0] == procs[0];
        } else {
          assert procs[1..][k - 1] == procs[k];
        }
      }
    }
  }

  lemma {:induction false} ProcLinksAppend(ctx: Ctx, snapshotId: int, typePath: string, procs: seq<string>, more: seq<string>)
    ensures ProcLinks(ctx, snapshotId, typePath, procs + more)
         == ProcLinks(ProcLinks(ctx, snapshotId, typePath, procs), snapshotId, typePath, more)
    decreases |procs|
  {
    if |procs| == 0 {
      assert procs + more == more;
    } else {
      assert (procs + more)[0] == procs[0];
      assert (procs + more)[1..] == procs[1..] + more;
      var (decl, ctx1) := ProcLookup(ctx, MemberPath(typePath, procs[0]));
      var ctx2 := ctx1.(tables := WithProcLinkOrIgnore(ctx1.tables, ProcDeclSnapshot(snapshotId, decl.id)));
      ProcLinksAppend(ctx2, snapshotId, typePath, procs[1..], more);
    }
  }

  /**
   * Proc-link idempotence: linking a type's procs to a snapshot a second
   * time, or a proc list that names procs again, raises no error and changes
   * nothing, since each (snapshot, proc) link is kept once.
   */
  lemma ProcLinksIdempotent(ctx: Ctx, snapshotId: int, typePath: string, procs: seq<string>, again: seq<string>)
    requires forall k :: 0 <= k < |again| ==> again[k] in procs
    ensures var ctx' := ProcLinks(ctx, snapshotId, typePath, procs);
      && ProcLinks(ctx', snapshotId, typePath, again) == ctx'
      && ProcLinks(ctx, snapshotId, typePath, procs + again) == ctx'
  {
    var ctx' := ProcLinks(ctx, snapshotId, typePath, procs);
    ProcLinksLinkAll(ctx, snapshotId, typePath, procs);
    forall k | 0 <= k < |again|
      ensures MemberPath(typePath, again[k]) in ctx'.cache.procs
      ensures ProcDeclSnapshot(snapshotId, ctx'.cache.procs[MemberPath(typePath, again[k])].id) in ctx'.tables.procLinks
    {
      var j :| 0 <= j < |procs| && procs[j] == again[k];
    }
    LinkedProcsChangeNothing(ctx', snapshotId, typePath, again);
    ProcLinksAppend(ctx, snapshotId, typePath, procs, again);
  }

  /** The cache only gains entries: a key keeps the declaration it was first given. */
  ghost predicate CacheGrows(c: CacheMaps, c': CacheMaps)
  {
    && (forall p :: p in c.types ==> p in c'.types && c'.types[p] == c.types[p])
    && (forall p :: p in c.procs ==> p in c'.procs && c'.procs[p] == c.procs[p])
    && (forall k :: k in c.vars ==> k in c'.vars && c'.vars[k] == c.vars[k])
  }

  /** The cache only gains entries and no link is dropped. */
  ghost predicate Grows(ctx: Ctx, ctx': Ctx)
  {
    && CacheGrows(ctx.cache, ctx'.cache)
    && ctx.tables.typeLinks <= ctx'.tables.typeLinks
    && ctx.tables.procLinks <= ctx'.tables.procLinks
    && ctx.tables.varLinks <= ctx'.tables.varLinks
  }

  ghost predicate SameLinks(t: Tables, t': Tables)
  {
    t'.typeLinks == t.typeLinks && t'.procLinks == t.procLinks && t'.varLinks == t.varLinks
  }

  /** A type lookup leaves the path in the cache with the declaration it returns, keeps every other entry, and writes no link. */
  lemma TypeLookupGrows(ctx: Ctx, typePath: string)
    ensures var (decl, ctx') := TypeLookup(ctx, typePath);
      var path := CanonicalTypePath(typePath);
      && CacheGrows(ctx.cache, ctx'.cache) && ctx'.cache.procs == ctx.cache.procs && ctx'.cache.vars == ctx.cache.vars
      && path in ctx'.cache.types && ctx'.cache.types[path] == decl
      && SameLinks(ctx.tables, ctx'.tables)
  {
  }

  /** The same for a proc lookup. */
  lemma ProcLookupGrows(ctx: Ctx, path: string)
    ensures var (decl, ctx') := ProcLookup(ctx, path);
      && CacheGrows(ctx.cache, ctx'.cache) && ctx'.cache.types == ctx.cache.types && ctx'.cache.vars == ctx.cache.vars
      && path in ctx'.cache.procs && ctx'.cache.procs[path] == decl
      && SameLinks(ctx.tables, ctx'.tables)
  {
  }

  /** The same for a var lookup, which may also resolve the var's declared type. */
  lemma VarLookupGrows(ctx: Ctx, varPath: string, v: TypeVar)
    ensures var (decl, ctx') := VarLookup(ctx, varPath, v);
      var key := GetVarKey(varPath, v);
      && CacheGrows(ctx.cache, ctx'.cache) && ctx'.cache.procs == ctx.cache.procs
      && key in ctx'.cache.vars && ctx'.cache.vars[key] == decl
      && SameLinks(ctx.tables, ctx'.tables)
  {
    var key := GetVarKey(varPath, v);
    if key !in ctx.cache.vars && key.1.Some? {
      TypeLookupGrows(ctx, key.1.value);
    }
  }

  /** The type is in the map and linked to the snapshot. */
  ghost predicate TypeLinked(ctx: Ctx, snapshotId: int, typePath: string)
  {
    && CanonicalTypePath(typePath) in ctx.cache.types
    && TypeDeclSnapshot(snapshotId, ctx.cache.types[CanonicalTypePath(typePath)].id) in ctx.tables.typeLinks
  }

  /** Every var of the list is in the map, under its key, and linked to the snapshot. */
  ghost predicate VarsLinked(ctx: Ctx, snapshotId: int, typePath: string, vars: seq<(string, TypeVar)>)
  {
    forall k :: 0 <= k < |vars| ==>
      && GetVarKey(MemberPath(typePath, vars[k].0), vars[k].1) in ctx.cache.vars
      && VarDeclSnapshot(snapshotId, ctx.cache.vars[GetVarKey(MemberPath(typePath, vars[k].0), vars[k].1)].id) in ctx.tables.varLinks
  }

  /** One type of the tree, its procs and its vars are all in the map and linked to the snapshot. */
  ghost predicate TypeTreeLinked(ctx: Ctx, snapshotId: int, tt: TreeType)
  {
    TypeLinked(ctx, snapshotId, tt.path) && ProcsLinked(ctx, snapshotId, tt.path, tt.procs) && VarsLinked(ctx, snapshotId, tt.path, tt.vars)
  }

  /** Every type of the tree, with its procs and vars, is in the map and linked to the snapshot. */
  ghost predicate TreeLinked(ctx: Ctx, snapshotId: int, types: seq<TreeType>)
  {
    forall i :: 0 <= i < |types| ==> TypeTreeLinked(ctx, snapshotId, types[i])
  }

  lemma TypeTreeLinkedGrows(ctx: Ctx, ctx': Ctx, snapshotId: int, tt: TreeType)
    requires TypeTreeLinked(ctx, snapshotId, tt) && Grows(ctx, ctx')
    ensures TypeTreeLinked(ctx', snapshotId, tt)
  {
    forall k | 0 <= k < |tt.procs|
      ensures MemberPath(tt.path, tt.procs[k]) in ctx'.cache.procs
      ensures ProcDeclSnapshot(snapshotId, ctx'.cache.procs[MemberPath(tt.path, tt.procs[k])].id) in ctx'.tables.procLinks
    {
    }
    forall k | 0 <= k < |tt.vars|
      ensures GetVarKey(MemberPath(tt.path, tt.vars[k].0), tt.vars[k].1) in ctx'.cache.vars
      ensures VarDeclSnapshot(snapshotId, ctx'.cache.vars[GetVarKey(MemberPath(tt.path, tt.vars[k].0), tt.vars[k].1)].id) in ctx'.tables.varLinks
    {
    }
  }

  /** The proc links a type's procs name through the cache: one for every proc the cache holds. */
  ghost function ProcLinkSet(cache: CacheMaps, snapshotId: int, typePath: string, procs: seq<string>): set<ProcDeclSnapshot>
    decreases |procs|
  {
    if |procs| == 0 then {}
    else
      var path := MemberPath(typePath, procs[0]);
      (if path in cache.procs then {ProcDeclSnapshot(snapshotId, cache.procs[path].id)} else {})
        + ProcLinkSet(cache, snapshotId, typePath, procs[1..])
  }

  /** The var links a type's vars name through the cache: one for every var the cache holds. */
  ghost function VarLinkSet(cache: CacheMaps, snapshotId: int, typePath: string, vars: seq<(string, TypeVar)>): set<VarDeclSnapshot>
    decreases |vars|
  {
    if |vars| == 0 then {}
    else
      var key := GetVarKey(MemberPath(typePath, vars[0].0), vars[0].1);
      (if key in cache.vars then {VarDeclSnapshot(snapshotId, cache.vars[key].id)} else {})
        + VarLinkSet(cache, snapshotId, typePath, vars[1..])
  }

  /** The type links a tree names through the cache. */
  ghost function TreeTypeLinks(cache: CacheMaps, snapshotId: int, types: seq<TreeType>): set<TypeDeclSnapshot>
    decreases |types|
  {
    if |types| == 0 then {}
    else
      var path := CanonicalTypePath(types[0].path);
      (if path in cache.types then {TypeDeclSnapshot(snapshotId, cache.types[path].id)} else {})
        + TreeTypeLinks(cache, snapshotId, types[1..])
  }

  /** The proc links a tree names through the cache. */
  ghost function TreeProcLinks(cache: CacheMaps, snapshotId: int, types: seq<TreeType>): set<ProcDeclSnapshot>
    decreases |types|
  {
    if |types| == 0 then {}
    else ProcLinkSet(cache, snapshotId, types[0].path, types[0].procs) + TreeProcLinks(cache, snapshotId, types[1..])
  }

  /** The var links a tree names through the cache. */
  ghost function TreeVarLinks(cache: CacheMaps, snapshotId: int, types: seq<TreeType>): set<VarDeclSnapshot>
    decreases |types|
  {
    if |types| == 0 then {}
    else VarLinkSet(cache, snapshotId, types[0].path, types[0].vars) + TreeVarLinks(cache, snapshotId, types[1..])
  }

  /** Once every proc of the list is cached, a growing cache names the same links for it. */
  lemma {:induction false} ProcLinkSetStable(c: CacheMaps, c': CacheMaps, snapshotId: int, typePath: string, procs: seq<string>)
    requires CacheGrows(c, c')
    requires forall k :: 0 <= k < |procs| ==> MemberPath(typePath, procs[k]) in c.procs
    ensures ProcLinkSet(c', snapshotId, typePath, procs) == ProcLinkSet(c, snapshotId, typePath, procs)
    decreases |procs|
  {
    if |procs| > 0 {
      assert MemberPath(typePath, procs[0]) in c.procs;
      forall k | 0 <= k < |procs| - 1 ensures MemberPath(typePath, procs[1..][k]) in c.procs {
        assert procs[1..][k] == procs[k + 1];
      }
      ProcLinkSetStable(c, c', snapshotId, typePath, procs[1..]);
    }
  }

  /** Once every var of the list is cached, a growing cache names the same links for it. */
  lemma {:induction false} VarLinkSetStable(c: CacheMaps, c': CacheMaps, snapshotId: int, typePath: string, vars: seq<(string, TypeVar)>)
    requires CacheGrows(c, c')
    requires forall k :: 0 <= k < |vars| ==> GetVarKey(MemberPath(typePath, vars[k].0), vars[k].1) in c.vars
    ensures VarLinkSet(c', snapshotId, typePath, vars) == VarLinkSet(c, snapshotId, typePath, vars)
    decreases |vars|
  {
    if |vars| > 0 {
      assert GetVarKey(MemberPath(typePath, vars[0].0), vars[0].1) in c.vars;
      forall k | 0 <= k < |vars| - 1 ensures GetVarKey(MemberPath(typePath, vars[1..][k].0), vars[1..][k].1) in c.vars {
        assert vars[1..][k] == vars[k + 1];
      }
      VarLinkSetStable(c, c', snapshotId, typePath, vars[1..]);
    }
  }

  /**
   * The proc links of one type add exactly the links its procs name through
   * the final cache, and no other link.
   */
  lemma {:induction false} ProcLinksExact(ctx: Ctx, snapshotId: int, typePath: string, procs: seq<string>)
    ensures var ctx' := ProcLinks(ctx, snapshotId, typePath, procs);
      && CacheGrows(ctx.cache, ctx'.cache)
      && ctx'.tables.procLinks == ctx.tables.procLinks + ProcLinkSet(ctx'.cache, snapshotId, typePath, procs)
      && ctx'.tables.typeLinks == ctx.tables.typeLinks && ctx'.tables.varLinks == ctx.tables.varLinks
    decreases |procs|
  {
    if |procs| > 0 {
      var path := MemberPath(typePath, procs[0]);
      ProcLookupGrows(ctx, path);
      var (decl, ctx1) := ProcLookup(ctx, path);
      var ctx2 := ctx1.(tables := WithProcLinkOrIgnore(ctx1.tables, ProcDeclSnapshot(snapshotId, decl.id)));
      ProcLinksExact(ctx2, snapshotId, typePath, procs[1..]);
      var ctx' := ProcLinks(ctx, snapshotId, typePath, procs);
      assert ctx' == ProcLinks(ctx2, snapshotId, typePath, procs[1..]);
      assert ctx'.cache.procs[path] == decl;
    }
  }

  /**
   * The vars of one type, on success: every var is cached and linked, the
   * cache only grew, and the var links added are exactly those the vars name
   * through the final cache.
   */
  lemma {:induction false} VarLinksLinkAll(ctx: Ctx, snapshotId: int, typePath: string, vars: seq<(string, TypeVar)>)
    ensures var r := VarLinks(ctx, snapshotId, typePath, vars);
      r.Ok? ==>
        && CacheGrows(ctx.cache, r.value.cache)
        && VarsLinked(r.value, snapshotId, typePath, vars)
        && r.value.tables.varLinks == ctx.tables.varLinks + VarLinkSet(r.value.cache, snapshotId, typePath, vars)
        && r.value.tables.typeLinks == ctx.tables.typeLinks && r.value.tables.procLinks == ctx.tables.procLinks
    decreases |vars|
  {
    var r := VarLinks(ctx, snapshotId, typePath, vars);
    if |vars| > 0 && r.Ok? {
      var key := GetVarKey(MemberPath(typePath, vars[0].0), vars[0].1);
      var (decl, ctx1) := VarLookup(ctx, MemberPath(typePath, vars[0].0), vars[0].1);
      assert CacheGrows(ctx.cache, ctx1.cache) && key in ctx1.cache.vars && ctx1.cache.vars[key] == decl
          && SameLinks(ctx.tables, ctx1.tables) by {
        VarLookupGrows(ctx, MemberPath(typePath, vars[0].0), vars[0].1);
      }
      var next := ctx1.(tables := WithVarLink(ctx1.tables, VarDeclSnapshot(snapshotId, decl.id)).value);
      assert r == VarLinks(next, snapshotId, typePath, vars[1..]);
      VarLinksLinkAll(next, snapshotId, typePath, vars[1..]);
      OneVarThenRest(ctx, next, r.value, snapshotId, typePath, vars);
    }
  }

  /** The first var's link, made before the rest of the list, combined with the rest's. */
  lemma OneVarThenRest(ctx: Ctx, ctx1: Ctx, ctx': Ctx, snapshotId: int, typePath: string, vars: seq<(string, TypeVar)>)
    requires |vars| > 0
    requires var key := GetVarKey(MemberPath(typePath, vars[0].0), vars[0].1);
      && CacheGrows(ctx.cache, ctx1.cache) && key in ctx1.cache.vars
      && ctx1.tables.varLinks == ctx.tables.varLinks + {VarDeclSnapshot(snapshotId, ctx1.cache.vars[key].id)}
    requires ctx1.tables.typeLinks == ctx.tables.typeLinks && ctx1.tables.procLinks == ctx.tables.procLinks
    requires CacheGrows(ctx1.cache, ctx'.cache) && VarsLinked(ctx', snapshotId, typePath, vars[1..])
    requires ctx'.tables.varLinks == ctx1.tables.varLinks + VarLinkSet(ctx'.cache, snapshotId, typePath, vars[1..])
    requires ctx'.tables.typeLinks == ctx1.tables.typeLinks && ctx'.tables.procLinks == ctx1.tables.procLinks
    ensures CacheGrows(ctx.cache, ctx'.cache)
    ensures VarsLinked(ctx', snapshotId, typePath, vars)
    ensures ctx'.tables.varLinks == ctx.tables.varLinks + VarLinkSet(ctx'.cache, snapshotId, typePath, vars)
    ensures ctx'.tables.typeLinks == ctx.tables.typeLinks && ctx'.tables.procLinks == ctx.tables.procLinks
  {
    var key := GetVarKey(MemberPath(typePath, vars[0].0), vars[0].1);
    assert ctx'.cache.vars[key] == ctx1.cache.vars[key];
    forall k | 0 <= k < |vars|
      ensures GetVarKey(MemberPath(typePath, vars[k].0), vars[k].1) in ctx'.cache.vars
      ensures VarDeclSnapshot(snapshotId, ctx'.cache.vars[GetVarKey(MemberPath(typePath, vars[k].0), vars[k].1)].id) in ctx'.tables.varLinks
    {
      if k > 0 {
        assert vars[1..][k - 1] == vars[k];
      }
    }
  }

  /**
   * One type of the tree, on success: the type, its procs and its vars are
   * cached and linked, the cache only grew, and the links added are exactly
   * the type's own link and those its procs and vars name through the final
   * cache.
   */
  lemma TypeLinksLinkAll(ctx: Ctx, snapshotId: int, tt: TreeType)
    ensures var r := TypeLinks(ctx, snapshotId, tt);
      r.Ok? ==>
        && CacheGrows(ctx.cache, r.value.cache)
        && TypeTreeLinked(r.value, snapshotId, tt)
        && r.value.tables.typeLinks == ctx.tables.typeLinks + {TypeDeclSnapshot(snapshotId, r.value.cache.types[CanonicalTypePath(tt.path)].id)}
        && r.value.tables.procLinks == ctx.tables.procLinks + ProcLinkSet(r.value.cache, snapshotId, tt.path, tt.procs)
        && r.value.tables.varLinks == ctx.tables.varLinks + VarLinkSet(r.value.cache, snapshotId, tt.path, tt.vars)
  {
    var r := TypeLinks(ctx, snapshotId, tt);
    if r.Ok? {
      TypeLookupGrows(ctx, tt.path);
      var (decl, ctx1) := TypeLookup(ctx, tt.path);
      var ctx2 := ctx1.(tables := WithTypeLink(ctx1.tables, TypeDeclSnapshot(snapshotId, decl.id)).value);
      var ctx3 := ProcLinks(ctx2, snapshotId, tt.path, tt.procs);
      ProcLinksExact(ctx2, snapshotId, tt.path, tt.procs);
      ProcLinksLinkAll(ctx2, snapshotId, tt.path, tt.procs);
      assert r == VarLinks(ctx3, snapshotId, tt.path, tt.vars);
      VarLinksLinkAll(ctx3, snapshotId, tt.path, tt.vars);
      ProcLinkSetStable(ctx3.cache, r.value.cache, snapshotId, tt.path, tt.procs);
      assert TypeLinked(ctx3, snapshotId, tt.path);
      assert TypeTreeLinked(r.value, snapshotId, tt) by {
        assert TypeLinked(r.value, snapshotId, tt.path);
        forall k | 0 <= k < |tt.procs|
          ensures MemberPath(tt.path, tt.procs[k]) in r.value.cache.procs
          ensures ProcDeclSnapshot(snapshotId, r.value.cache.procs[MemberPath(tt.path, tt.procs[k])].id) in r.value.tables.procLinks
        {
        }
      }
    }
  }

  /**
   * A successful snapshot build links the whole tree: every type, proc and
   * var of it is cached and linked to the snapshot, the cache only grew, and
   * each link table gains exactly the links the tree names through the final
   * cache, and no other link.
   */
  lemma {:induction false} TreeLinksLinkAll(ctx: Ctx, snapshotId: int, types: seq<TreeType>)
    ensures var r := TreeLinks(ctx, snapshotId, types);
      r.Ok? ==>
        && CacheGrows(ctx.cache, r.value.cache)
        && TreeLinked(r.value, snapshotId, types)
        && r.value.tables.typeLinks == ctx.tables.typeLinks + TreeTypeLinks(r.value.cache, snapshotId, types)
        && r.value.tables.procLinks == ctx.tables.procLinks + TreeProcLinks(r.value.cache, snapshotId, types)
        && r.value.tables.varLinks == ctx.tables.varLinks + TreeVarLinks(r.value.cache, snapshotId, types)
    decreases |types|
  {
    var r := TreeLinks(ctx, snapshotId, types);
    if |types| > 0 && r.Ok? {
      var r0 := TypeLinks(ctx, snapshotId, types[0]);
      assert r == TreeLinks(r0.value, snapshotId, types[1..]);
      TypeLinksLinkAll(ctx, snapshotId, types[0]);
      TreeLinksLinkAll(r0.value, snapshotId, types[1..]);
      OneTypeThenRest(ctx, r0.value, r.value, snapshotId, types);
    }
  }

  /** The first type's links, made before the rest of the tree, combined with the rest's. */
  lemma OneTypeThenRest(ctx: Ctx, ctx1: Ctx, ctx': Ctx, snapshotId: int, types: seq<TreeType>)
    requires |types| > 0
    requires CacheGrows(ctx.cache, ctx1.cache) && TypeTreeLinked(ctx1, snapshotId, types[0])
    requires ctx1.tables.typeLinks == ctx.tables.typeLinks + {TypeDeclSnapshot(snapshotId, ctx1.cache.types[CanonicalTypePath(types[0].path)].id)}
    requires ctx1.tables.procLinks == ctx.tables.procLinks + ProcLinkSet(ctx1.cache, snapshotId, types[0].path, types[0].procs)
    requires ctx1.tables.varLinks == ctx.tables.varLinks + VarLinkSet(ctx1.cache, snapshotId, types[0].path, types[0].vars)
    requires CacheGrows(ctx1.cache, ctx'.cache) && TreeLinked(ctx', snapshotId, types[1..])
    requires ctx'.tables.typeLinks == ctx1.tables.typeLinks + TreeTypeLinks(ctx'.cache, snapshotId, types[1..])
    requires ctx'.tables.procLinks == ctx1.tables.procLinks + TreeProcLinks(ctx'.cache, snapshotId, types[1..])
    requires ctx'.tables.varLinks == ctx1.tables.varLinks + TreeVarLinks(ctx'.cache, snapshotId, types[1..])
    ensures CacheGrows(ctx.cache, ctx'.cache)
    ensures TreeLinked(ctx', snapshotId, types)
    ensures ctx'.tables.typeLinks == ctx.tables.typeLinks + TreeTypeLinks(ctx'.cache, snapshotId, types)
    ensures ctx'.tables.procLinks == ctx.tables.procLinks + TreeProcLinks(ctx'.cache, snapshotId, types)
    ensures ctx'.tables.varLinks == ctx.tables.varLinks + TreeVarLinks(ctx'.cache, snapshotId, types)
  {
    var tt := types[0];
    ProcLinkSetStable(ctx1.cache, ctx'.cache, snapshotId, tt.path, tt.procs);
    VarLinkSetStable(ctx1.cache, ctx'.cache, snapshotId, tt.path, tt.vars);
    TypeTreeLinkedGrows(ctx1, ctx', snapshotId, tt);
    forall i | 0 <= i < |types| ensures TypeTreeLinked(ctx', snapshotId, types[i]) {
      if i > 0 {
        assert types[1..][i - 1] == types[i];
      }
    }
  }

  /** A tree with the one type `/mob`, no procs, and one untyped var `health` set to the given number. */
  function HealthTree(display: string): ObjectTree
  {
    ObjectTree([TreeType("/mob", [], [("health", TypeVar(None, Some(Float(display))))])])
  }

  const HealthA: VarDecl := VarDecl(1, "/mob/health", None, "100")
  const HealthB: VarDecl := VarDecl(2, "/mob/health", None, "50")
  const MobCache: CacheMaps := CacheMaps(map["/mob" := TypeDecl(1, "/mob")], map[("/mob/health", None, "100") := HealthA], map[])

  /** The first snapshot of the scenario below: the type and the var are new rows, linked to snapshot 1. */
  lemma HealthFirstLinks(t: Tables)
    requires t.typeDecls == [] && t.varDecls == [] && t.typeLinks == {} && t.varLinks == {}
    ensures TreeLinks(Ctx(EmptyCache, t), 1, HealthTree("100").types) == Ok(Ctx(MobCache,
      t.(typeDecls := [TypeDecl(1, "/mob")], varDecls := [HealthA],
         typeLinks := {TypeDeclSnapshot(1, 1)}, varLinks := {VarDeclSnapshot(1, 1)})))
  {
    var ctx := Ctx(EmptyCache, t);
    var tt := HealthTree("100").types[0];
    var ctx2 := Ctx(CacheMaps(map["/mob" := TypeDecl(1, "/mob")], map[], map[]),
      t.(typeDecls := [TypeDecl(1, "/mob")], typeLinks := {TypeDeclSnapshot(1, 1)}));
    var (ty, ctx1) := TypeLookup(ctx, "/mob");
    assert ty == TypeDecl(1, "/mob");
    assert ctx1.tables == AddTypeDecl(t, "/mob");
    assert ctx1.cache.types == ctx2.cache.types;
    assert ctx1.cache == ctx2.cache;
    assert ctx1.tables.typeDecls == [TypeDecl(1, "/mob")];
    assert ctx1.tables.typeLinks + {TypeDeclSnapshot(1, 1)} == {TypeDeclSnapshot(1, 1)};
    assert WithTypeLink(ctx1.tables, TypeDeclSnapshot(1, 1)) == Ok(ctx2.tables);
    assert ProcLinks(ctx2, 1, "/mob", []) == ctx2;
    HealthVarFirstLinked(ctx2);
    assert TypeLinks(ctx, 1, tt) == VarLinks(ctx2, 1, "/mob", tt.vars);
    SingleTypeTree(ctx, 1, tt);
  }

  /** The var of the first snapshot is a new row, linked to snapshot 1, and remembered. */
  lemma HealthVarFirstLinked(ctx2: Ctx)
    requires ctx2.cache == CacheMaps(map["/mob" := TypeDecl(1, "/mob")], map[], map[])
    requires ctx2.tables.typeDecls == [TypeDecl(1, "/mob")] && ctx2.tables.varDecls == [] && ctx2.tables.varLinks == {}
    ensures VarLinks(ctx2, 1, "/mob", HealthTree("100").types[0].vars)
      == Ok(Ctx(MobCache, ctx2.tables.(varDecls := [HealthA], varLinks := {VarDeclSnapshot(1, 1)})))
  {
    var vars := HealthTree("100").types[0].vars;
    assert MemberPath("/mob", "health") == "/mob/health";
    assert GetVarKey("/mob/health", TypeVar(None, Some(Float("100")))) == ("/mob/health", None, "100");
    var (v, ctx3) := VarLookup(ctx2, "/mob/health", TypeVar(None, Some(Float("100"))));
    assert v == HealthA && ctx3.tables.varLinks == {};
    var ctx4 := ctx3.(tables := WithVarLink(ctx3.tables, VarDeclSnapshot(1, 1)).value);
    assert vars[1..] == [];
    assert VarLinks(ctx4, 1, "/mob", vars[1..]) == Ok(ctx4);
    assert VarLinks(ctx2, 1, "/mob", vars) == Ok(ctx4);
    assert ctx4.cache.types == MobCache.types;
    assert ctx4.cache.vars == MobCache.vars;
    assert ctx4.cache == MobCache;
    assert ctx4.tables.varDecls == [HealthA];
    assert ctx4.tables.varLinks == {VarDeclSnapshot(1, 1)};
  }

  /** A tree of one type is built as that type. */
  lemma SingleTypeTree(ctx: Ctx, snapshotId: int, tt: TreeType)
    ensures TreeLinks(ctx, snapshotId, [tt]) == TypeLinks(ctx, snapshotId, tt)
  {
    assert [tt][1..] == [];
  }

  /**
   * The second snapshot: the type is answered from the map, the changed
   * value is a new key and, the var being untyped, the store query finds no
   * row, so a second var row is inserted and linked to snapshot 2.
   */
  lemma HealthSecondLinks(t: Tables)
    requires t.typeDecls == [TypeDecl(1, "/mob")] && t.varDecls == [HealthA]
    requires t.typeLinks == {TypeDeclSnapshot(1, 1)} && t.varLinks == {VarDeclSnapshot(1, 1)}
    ensures var r := TreeLinks(Ctx(MobCache, t), 2, HealthTree("50").types);
      && r.Ok?
      && r.value.tables == t.(varDecls := [HealthA, HealthB],
         typeLinks := {TypeDeclSnapshot(1, 1), TypeDeclSnapshot(2, 1)},
         varLinks := {VarDeclSnapshot(1, 1), VarDeclSnapshot(2, 2)})
  {
    var ctx := Ctx(MobCache, t);
    var tt := HealthTree("50").types[0];
    var (ty, ctx1) := TypeLookup(ctx, "/mob");
    assert ty == TypeDecl(1, "/mob") && ctx1 == ctx;
    var ctx2 := Ctx(MobCache, t.(typeLinks := {TypeDeclSnapshot(1, 1), TypeDeclSnapshot(2, 1)}));
    assert t.typeLinks + {TypeDeclSnapshot(2, 1)} == ctx2.tables.typeLinks;
    assert WithTypeLink(ctx1.tables, TypeDeclSnapshot(2, 1)) == Ok(ctx2.tables);
    assert ProcLinks(ctx2, 2, "/mob", []) == ctx2;
    HealthVarSecondLinked(ctx2);
    assert TypeLinks(ctx, 2, tt) == VarLinks(ctx2, 2, "/mob", tt.vars);
    SingleTypeTree(ctx, 2, tt);
  }

  /** The var of the second snapshot is not found (its filter asks for a declared type id of -1), so a second row is stored and linked to snapshot 2. */
  lemma HealthVarSecondLinked(ctx2: Ctx)
    requires ctx2.cache == MobCache
    requires ctx2.tables.typeDecls == [TypeDecl(1, "/mob")] && ctx2.tables.varDecls == [HealthA]
    requires ctx2.tables.varLinks == {VarDeclSnapshot(1, 1)}
    ensures var r := VarLinks(ctx2, 2, "/mob", HealthTree("50").types[0].vars);
      && r.Ok?
      && r.value.tables == ctx2.tables.(varDecls := [HealthA, HealthB], varLinks := {VarDeclSnapshot(1, 1), VarDeclSnapshot(2, 2)})
  {
    var vars := HealthTree("50").types[0].vars;
    assert MemberPath("/mob", "health") == "/mob/health";
    var key := GetVarKey("/mob/health", TypeVar(None, Some(Float("50"))));
    assert key == ("/mob/health", None, "50") && key !in ctx2.cache.vars;
    UntypedFilterMatchesNothing(ctx2.tables, "/mob/health", "50");
    var (v, ctx3) := VarLookup(ctx2, "/mob/health", TypeVar(None, Some(Float("50"))));
    assert v == HealthB && VarDeclSnapshot(2, 2) !in ctx3.tables.varLinks;
    var ctx4 := ctx3.(tables := WithVarLink(ctx3.tables, VarDeclSnapshot(2, 2)).value);
    assert vars[1..] == [];
    assert VarLinks(ctx4, 2, "/mob", vars[1..]) == Ok(ctx4);
    assert VarLinks(ctx2, 2, "/mob", vars) == Ok(ctx4);
    assert ctx4.tables.varDecls == [HealthA, HealthB];
    assert ctx4.tables.varLinks == {VarDeclSnapshot(1, 1), VarDeclSnapshot(2, 2)};
  }

  /** The tables after the first commit of the scenario below, as far as it fixes them. */
  ghost predicate AfterFirstHealth(t: Tables, cA: Commit)
  {
    && |t.logEntries| == 1 && t.logEntries[0].commitHash == cA.hash
    && t.snapshots == [Snapshot(1)]
    && t.typeDecls == [TypeDecl(1, "/mob")] && t.varDecls == [HealthA]
    && t.typeLinks == {TypeDeclSnapshot(1, 1)} && t.varLinks == {VarDeclSnapshot(1, 1)}
  }

  lemma HealthFirstCommit(cA: Commit)
    requires |cA.parentIds| > 0 && NumstatRows(Text.Split(cA.numstat, '\n'), 1).Ok?
    ensures var o := CommitOutcome(EmptyCache, EmptyTables, Revision(cA, Some("tgstation.dme"), Ok(HealthTree("100"))));
      o.result == Ok(()) && o.cache == MobCache && AfterFirstHealth(o.tables, cA)
  {
    var rev := Revision(cA, Some("tgstation.dme"), Ok(HealthTree("100")));
    var rows := NumstatRows(Text.Split(cA.numstat, '\n'), 1).value;
    var t2 := AddNumstats(AddLogEntry(EmptyTables, LogEntryRow(cA)), rows);
    assert LedgerOutcome(EmptyTables, cA) == (Ok(()), t2);
    assert t2.logEntries == [LogEntryRow(cA).(id := 1)];
    var t3 := AddSnapshot(t2);
    assert t3.snapshots == [Snapshot(1)] && NewSnapshot(t2).id == 1;
    var after := t3.(typeDecls := [TypeDecl(1, "/mob")], varDecls := [HealthA],
         typeLinks := {TypeDeclSnapshot(1, 1)}, varLinks := {VarDeclSnapshot(1, 1)});
    assert TreeLinks(Ctx(EmptyCache, t3), 1, HealthTree("100").types) == Ok(Ctx(MobCache, after)) by {
      HealthFirstLinks(t3);
    }
    IngestedOutcome(EmptyCache, EmptyTables, rev, t2);
  }

  /** A revision that is ingested and parses ends as its snapshot build does. */
  lemma IngestedOutcome(cache: CacheMaps, db: Tables, rev: Revision, t1: Tables)
    requires rev.entryPoint.Some? && !AlreadyIngested(db, rev.commit.hash)
    requires LedgerOutcome(db, rev.commit) == (Ok(()), t1) && rev.tree.Ok?
    ensures CommitOutcome(cache, db, rev)
      == TreeOutcome(cache, db, TreeLinks(Ctx(cache, AddSnapshot(t1)), NewSnapshot(t1).id, rev.tree.value.types))
  {
  }

  lemma HealthSecondCommit(cache: CacheMaps, t: Tables, cA: Commit, cB: Commit)
    requires cache == MobCache && AfterFirstHealth(t, cA)
    requires cA.hash != cB.hash && |cB.parentIds| > 0 && NumstatRows(Text.Split(cB.numstat, '\n'), 2).Ok?
    ensures var o := CommitOutcome(cache, t, Revision(cB, Some("tgstation.dme"), Ok(HealthTree("50"))));
      && o.result == Ok(())
      && o.tables.snapshots == [Snapshot(1), Snapshot(2)]
      && o.tables.typeDecls == [TypeDecl(1, "/mob")]
      && o.tables.varDecls == [HealthA, HealthB]
      && o.tables.typeLinks == {TypeDeclSnapshot(1, 1), TypeDeclSnapshot(2, 1)}
      && o.tables.varLinks == {VarDeclSnapshot(1, 1), VarDeclSnapshot(2, 2)}
  {
    assert !AlreadyIngested(t, cB.hash);
    var rev := Revision(cB, Some("tgstation.dme"), Ok(HealthTree("50")));
    var rows := NumstatRows(Text.Split(cB.numstat, '\n'), NewLogEntryId(t)).value;
    var t2 := AddNumstats(AddLogEntry(t, LogEntryRow(cB)), rows);
    assert LedgerOutcome(t, cB) == (Ok(()), t2);
    var t3 := AddSnapshot(t2);
    assert t3.snapshots == [Snapshot(1), Snapshot(2)];
    assert NewSnapshot(t2).id == 2;
    var r := TreeLinks(Ctx(cache, t3), 2, HealthTree("50").types);
    assert r.Ok? && r.value.tables == t3.(varDecls := [HealthA, HealthB],
         typeLinks := {TypeDeclSnapshot(1, 1), TypeDeclSnapshot(2, 1)},
         varLinks := {VarDeclSnapshot(1, 1), VarDeclSnapshot(2, 2)}) by {
      HealthSecondLinks(t3);
    }
    IngestedOutcome(cache, t, rev, t2);
  }

  /**
   * Two commits in a row that change `/mob`'s `health` from 100 to 50: the
   * run records two var rows, two snapshots, and links each snapshot to the
   * var row of its own value, while the type row is shared.
   */
  lemma HealthChangeScenario(cA: Commit, cB: Commit)
    requires cA.hash != cB.hash && |cA.parentIds| > 0 && |cB.parentIds| > 0
    requires NumstatRows(Text.Split(cA.numstat, '\n'), 1).Ok? && NumstatRows(Text.Split(cB.numstat, '\n'), 2).Ok?
    ensures var o := RunOutcome(EmptyCache, EmptyTables,
        [Revision(cA, Some("tgstation.dme"), Ok(HealthTree("100"))), Revision(cB, Some("tgstation.dme"), Ok(HealthTree("50")))]);
      && o.result == Ok(())
      && o.tables.snapshots == [Snapshot(1), Snapshot(2)]
      && o.tables.typeDecls == [TypeDecl(1, "/mob")]
      && o.tables.varDecls == [HealthA, HealthB]
      && o.tables.typeLinks == {TypeDeclSnapshot(1, 1), TypeDeclSnapshot(2, 1)}
      && o.tables.varLinks == {VarDeclSnapshot(1, 1), VarDeclSnapshot(2, 2)}
  {
    var revA := Revision(cA, Some("tgstation.dme"), Ok(HealthTree("100")));
    var revB := Revision(cB, Some("tgstation.dme"), Ok(HealthTree("50")));
    var oA := CommitOutcome(EmptyCache, EmptyTables, revA);
    assert oA.result == Ok(()) && oA.cache == MobCache && AfterFirstHealth(oA.tables, cA) by {
      HealthFirstCommit(cA);
    }
    var oB := CommitOutcome(oA.cache, oA.tables, revB);
    assert && oB.result == Ok(())
           && oB.tables.snapshots == [Snapshot(1), Snapshot(2)]
           && oB.tables.typeDecls == [TypeDecl(1, "/mob")]
           && oB.tables.varDecls == [HealthA, HealthB]
           && oB.tables.typeLinks == {TypeDeclSnapshot(1, 1), TypeDeclSnapshot(2, 1)}
           && oB.tables.varLinks == {VarDeclSnapshot(1, 1), VarDeclSnapshot(2, 2)} by {
      HealthSecondCommit(oA.cache, oA.tables, cA, cB);
    }
    RunOfOne(oA.cache, oA.tables, revB);
    assert [revA, revB][1..] == [revB];
  }

  /** A run over one revision is that revision's outcome. */
  lemma RunOfOne(cache: CacheMaps, db: Tables, rev: Revision)
    ensures RunOutcome(cache, db, [rev]) == CommitOutcome(cache, db, rev)
  {
    assert [rev][1..] == [];
  }

  /** The loop over a type's procs, at src/main.rs:160-172. */
  method LinkProcs(cache: Cache, txn: Transaction, snapshotId: int, typePath: string, procs: seq<string>)
    modifies cache`procs, txn
    ensures Ctx(cache.Maps(), txn.tables) == ProcLinks(Ctx(old(cache.Maps()), old(txn.tables)), snapshotId, typePath, procs)
  {
    assert procs[0..] == procs;
    for i := 0 to |procs|
      invariant ProcLinks(Ctx(old(cache.Maps()), old(txn.tables)), snapshotId, typePath, procs)
             == ProcLinks(Ctx(cache.Maps(), txn.tables), snapshotId, typePath, procs[i..])
    {
      assert procs[i..][1..] == procs[i + 1..];
      var pd := cache.GetProc(MemberPath(typePath, procs[i]), txn);
      txn.InsertProcLinkOrIgnore(ProcDeclSnapshot(snapshotId, pd.value.id));
    }
  }

  /** The loop over a type's vars, at src/main.rs:174-184. */
  method LinkVars(cache: Cache, txn: Transaction, snapshotId: int, typePath: string, vars: seq<(string, TypeVar)>)
    returns (r: Result<(), IngestError>)
    modifies cache`vars, cache`types, txn
    ensures var out := VarLinks(Ctx(old(cache.Maps()), old(txn.tables)), snapshotId, typePath, vars);
      && (r.Ok? <==> out.Ok?)
      && (out.Ok? ==> Ctx(cache.Maps(), txn.tables) == out.value)
      && (out.Err? ==> r.error == out.error)
    ensures r.Ok? ==>
      && VarsLinked(Ctx(cache.Maps(), txn.tables), snapshotId, typePath, vars)
      && txn.tables.varLinks == old(txn.tables).varLinks + VarLinkSet(cache.Maps(), snapshotId, typePath, vars)
  {
    VarLinksLinkAll(Ctx(cache.Maps(), txn.tables), snapshotId, typePath, vars);
    assert vars[0..] == vars;
    for i := 0 to |vars|
      invariant VarLinks(Ctx(old(cache.Maps()), old(txn.tables)), snapshotId, typePath, vars)
             == VarLinks(Ctx(cache.Maps(), txn.tables), snapshotId, typePath, vars[i..])
    {
      assert vars[i..][1..] == vars[i + 1..];
      var (name, v) := vars[i];
      var vd := cache.GetVarDecl(MemberPath(typePath, name), v, txn);
      var link := txn.InsertVarLink(VarDeclSnapshot(snapshotId, vd.value.id));
      if link.Err? {
        return Err(link.error);
      }
    }
    r := Ok(());
  }

  /** The body of the walk for one revision, src/main.rs:104-193. */
  method IngestRevision(rev: Revision, cache: Cache, db: Database) returns (r: Result<(), IngestError>)
    modifies cache, db
    ensures var o := CommitOutcome(old(cache.Maps()), old(db.tables), rev);
      r == o.result && db.tables == o.tables && (r.Ok? ==> cache.Maps() == o.cache)
  {
    if rev.entryPoint.None? || AlreadyIngested(db.tables, rev.commit.hash) {
      return Ok(());
    }
    var txn := new Transaction.Begin(db);
    ghost var maps := cache.Maps();
    var ledger := LogEntryFromCommit(txn, rev.commit);
    ghost var t1 := txn.tables;
    if ledger.Err? {
      assert CommitOutcome(maps, db.tables, rev) == Outcome(ledger, maps, db.tables);
      return ledger;
    }
    if rev.tree.Err? {
      assert CommitOutcome(maps, db.tables, rev) == Outcome(Err(Parser(rev.tree.error)), maps, db.tables);
      return Err(Parser(rev.tree.error));
    }
    var tree := rev.tree.value;
    var snapshotId := txn.InsertSnapshot();
    ghost var start := Ctx(cache.Maps(), txn.tables);
    IngestedOutcome(maps, db.tables, rev, t1);
    assert tree.types[0..] == tree.types;
    for i := 0 to |tree.types|
      invariant TreeLinks(start, snapshotId, tree.types) == TreeLinks(Ctx(cache.Maps(), txn.tables), snapshotId, tree.types[i..])
      invariant db.tables == old(db.tables)
    {
      assert tree.types[i..][1..] == tree.types[i + 1..];
      var tt := tree.types[i];
      var td := cache.GetType(tt.path, txn);
      var link := txn.InsertTypeLink(TypeDeclSnapshot(snapshotId, td.value.id));
      if link.Err? {
        return Err(link.error);
      }
      LinkProcs(cache, txn, snapshotId, tt.path, tt.procs);
      var vars := LinkVars(cache, txn, snapshotId, tt.path, tt.vars);
      if vars.Err? {
        return vars;
      }
    }
    txn.Commit(db);
    r := Ok(());
  }

  /** The walk over the revisions in the order the revision walker yields them. */
  method Run(revs: seq<Revision>, cache: Cache, db: Database) returns (r: Result<(), IngestError>)
    modifies cache, db
    ensures var o := RunOutcome(old(cache.Maps()), old(db.tables), revs);
      r == o.result && db.tables == o.tables && (r.Ok? ==> cache.Maps() == o.cache)
  {
    assert revs[0..] == revs;
    for i := 0 to |revs|
      invariant RunOutcome(old(cache.Maps()), old(db.tables), revs) == RunOutcome(cache.Maps(), db.tables, revs[i..])
    {
      assert revs[i..][1..] == revs[i + 1..];
      var step := IngestRevision(revs[i], cache, db);
      if step.Err? {
        return step;
      }
    }
    r := Ok(());
  }
}
