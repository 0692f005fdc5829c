# ss13_codedb snapshot ingestion, modelled in Dafny

ss13_codedb walks the history of a SS13 codebase. For each commit, it records
the commit in a ledger. It parses the object tree of the commit's `.dme`
environment. It then writes one snapshot that links every type, proc and var
declaration of that tree to a declaration row. A declaration row is stored
once and shared by every snapshot that contains it. The repository has two
ingesters, and this project models both.

- **The Rust ingester.** The walk is `src/main.rs:103-194`. The commit ledger
  recorder `log_entry_from_commit` and the entity rows are in
  `src/models.rs`. The declaration cache is `Cache` in `src/cache.rs`.
- **The older Python walker.** The walk is
  `src/ss13_codedb/tools/generate_parsed_git.py`. The SQLAlchemy models and
  their `get_or_create` lookups are in `src/ss13_codedb/git_models.py`.

## Files

| file | module | what it holds |
|---|---|---|
| `wrappers.dfy` | `Wrappers` | `Option`, `Result` |
| `text.dfy` | `Text` | cutting at a separator, joining, whitespace tokenising in Rust's sense (`split_whitespace`) and in Python's (`split(maxsplit=2)`), Rust's `i32` parser |
| `models.dfy` | `Models` | the Rust rows, the store (`Tables`), `Database`, and `Transaction` (a copy of the tables that is published on commit) |
| `ledger.dfy` | `Ledger` | `log_entry_from_commit`: the ledger entry and the numstat rows |
| `cache.dfy` | `DeclCache` | the declaration cache, as pure lookups and as the class `Cache` |
| `ingest.dfy` | `Ingest` | the Rust revision walk, as pure functions and as methods over `Cache`, `Transaction` and `Database` |
| `py_models.dfy` | `PyModels` | the Python ledger rows and the three `get_or_create` lookups, as pure functions and as methods over a `Session` class |
| `py_ingest.dfy` | `PyIngest` | the Python walk, as pure functions and as methods over the `CodeTree` seen-maps and the session |

## How the model is built

The model of the store:

- The store is a value of type `Tables`. Each table is a sequence, and the
  row at position `i` has id `i + 1`. Rows are never updated or deleted.
- In the Rust schema, each link table has a composite primary key, so the
  links are sets. Inserting a type link or var link that already exists is an
  error. The proc link insert ignores a conflict.
- The Python association tables have no key, so their links are sequences
  and may repeat.

Each step of each ingester is written twice:

- **A pure function.** Examples are `DeclCache.VarLookup`,
  `Ingest.CommitOutcome` and `PyIngest.CommitOutcome`. The lemmas about the
  step are proved over this function.
- **An imperative method.** Examples are `DeclCache.Cache.GetVarDecl`,
  `Ingest.IngestRevision` and `PyIngest.IngestCommit`. The method updates
  the cache maps, the transaction or session, and the database in place. Its
  `ensures` says that its result and the new state are those of the
  function.

Transactions are the only way to write:

- Rust writes through a `Transaction`, and Python through a `Session`, and
  each works on its own copy of the tables.
- The copy reaches the database only on `Commit`. So a revision that fails
  leaves the committed tables as they were.

Where the code and what it appears meant to do disagree, the model follows
the code:

- **Untyped vars in Rust.** The Rust var lookup filters on
  `declared_type_id = -1` when a var has no declared type
  (`src/cache.rs:87-98`). The row it stores has NULL in that column
  (`src/cache.rs:105-109`). So an untyped var is never found in the store:
  each run with a fresh cache inserts another copy of the row, and so does
  each new value within one run.
  - `DeclCache.UntypedVarDuplicatedAcrossRuns` proves this.
  - `Ingest.HealthChangeScenario` shows it on a two-commit history.
  - A typed var is found again (`DeclCache.TypedVarFoundAcrossRuns`).
- **`get_proc` takes two arguments.** `src/main.rs:162` calls it with three,
  but the `src/cache.rs:156-160` signature takes two. The model uses the
  two-argument lookup that is declared.
- **The Python walker never skips a commit.** It has no entry-point check:
  taking the first `.dme` of an empty glob raises IndexError and ends the
  run. A commit already in the ledger is processed again. If its entry has a
  numstat row, the entry and its snapshot are reused, and every link is
  appended to that snapshot once more (`PyIngest.WalkedAgainSpec`).
- **The Python hash query misses entries without numstat rows.** The query
  for the commit's hash eagerly loads `numstat_entries`, a relationship
  declared with `innerjoin=True` (`src/ss13_codedb/git_models.py:42-44`,
  `src/ss13_codedb/tools/generate_parsed_git.py:47-51`). So an entry with no
  numstat row, which a commit with an empty diff against its first parent
  gets, is never found. `commit_hash` has no unique constraint, so walking
  such a commit again appends a second entry with the same hash and a new
  snapshot (`PyIngest.EntryWithoutNumstatsDuplicated`).
- **The two recorders read numstat lines differently.**
  - Python skips only the empty line, so a line of spaces raises ValueError.
    Rust skips any line without words (`PyModels.RecordersDisagreeOnBlankLine`).
  - Python keeps the rest of the line as the path. Rust keeps only the third
    word (`PyModels.RecordersDisagreeOnSpacedPath`).
- **A new declared type is matched against untyped rows.**
  `VarDecl.get_or_create` builds its declared-type clause from the id of the
  type row it has just added (`src/ss13_codedb/git_models.py:220-224`). That
  row is still pending, so its id is None, and SQLAlchemy renders the clause
  as `declared_type_id IS NULL`. So the first lookup of a typed var whose type
  is new finds an untyped row with the same path and value, if there is one.
  Once the type row exists, the next lookup creates the typed row
  (`PyModels.NewDeclaredTypeFindsUntypedRow`).
- **The Python snapshot of a new entry is always new.** The snapshot filter
  of a new ledger entry also reads a pending id (`Snapshot.git_log_entry_id
  IS NULL`), so it matches nothing and a new snapshot is made.

## Model

| member | source | states |
|---|---|---|
| `Text.IndexOf` | src/models.rs:202-206 | the index returned holds the character and is its first occurrence; there is no index exactly when the character is absent |
| `Text.IndexOfAfterPrefix` | src/models.rs:202-206 | the first occurrence of a separator after a prefix without it is at the prefix's length |
| `Text.SplitOnce` | src/models.rs:202-206 | there is no cut exactly when the separator is absent; otherwise the head has no separator, and head, separator and tail rebuild the text |
| `Text.Split` | src/models.rs:248 | splitting gives at least one part, no part holds the separator, and joining the parts with it gives the text back |
| `Text.SplitJoin` | src/models.rs:211-215 | splitting a join of separator-free parts gives back the parts |
| `Text.WordLen` | src/models.rs:252 | the first word's length: no whitespace before it, and whitespace or the end after it |
| `Text.WordLenOfWord` | src/models.rs:252 | a word followed by whitespace or the end is measured as exactly that word |
| `Text.Words` | src/models.rs:252 | every part `split_whitespace` yields is a non-empty word without whitespace |
| `Text.WordsEmptyIffBlank` | src/models.rs:252-255 | a line yields no words exactly when it is all whitespace |
| `Text.WordsAfterWord` | src/models.rs:252 | a word followed by whitespace is the first word, and the rest tokenises on its own |
| `Text.TrimStart` | src/ss13_codedb/git_models.py:78 | the result is a suffix of the text, preceded only by whitespace, that starts with no whitespace |
| `Text.SplitMax` | src/ss13_codedb/git_models.py:78 | `split(maxsplit=n)` gives at most n + 1 fields |
| `Text.BlankSplitsToNothing` | src/ss13_codedb/git_models.py:78 | an all-whitespace line splits into no fields |
| `Text.SplitMaxSkipsSpace` | src/ss13_codedb/git_models.py:78 | leading whitespace does not change the fields |
| `Text.SplitMaxAfterWord` | src/ss13_codedb/git_models.py:78 | a word and whitespace are one field, and the rest is split with one split fewer |
| `Text.SplitMaxTwoWords` | src/ss13_codedb/git_models.py:78 | two words, then a rest that starts with no whitespace, split into exactly those three fields; the rest keeps its inner spaces |
| `Text.DigitChar` | src/models.rs:257 | the digit character has the given value |
| `Text.NatToDecimal` | src/models.rs:257 | the decimal text of a number is all digits, has that value and has no leading zero |
| `Text.ParseI32` | src/models.rs:257-260 | a parsed value is in the `i32` range and comes from an optionally signed run of digits; a run of digits whose value fits is parsed to that value |
| `Text.ParseI32OfDecimal` | src/models.rs:257-260 | the parser reads back any decimal text in the `i32` range (a round trip) |
| `Models.Numbered` | src/models.rs:273-275 | the batch insert numbers the rows consecutively from the next id and keeps their order and fields |
| `Models.WithTypeLink` | src/models.rs:96-115 | a type link that is already present is a key conflict; otherwise the link set gains exactly that link |
| `Models.WithVarLink` | src/models.rs:175-194 | a var link that is already present is a key conflict; otherwise the link set gains exactly that link |
| `Models.WithProcLinkOrIgnore` | src/main.rs:163-171 | afterwards the link is present, no other link changes, and a link that is already present changes nothing |
| `Models.Transaction.Begin` | src/main.rs:131 | a transaction starts from the database's tables |
| `Models.Transaction.Commit` | src/main.rs:192 | commit publishes the transaction's tables to the database |
| `Models.Transaction.InsertLogEntry` | src/models.rs:236 | the entry is appended with the next id, and that id is returned |
| `Models.Transaction.InsertNumstats` | src/models.rs:273-275 | the numstat rows are appended with consecutive ids |
| `Models.Transaction.InsertSnapshot` | src/main.rs:143-147 | an empty snapshot is appended and its new id is returned |
| `Models.Transaction.SaveTypeDecl` | src/cache.rs:58-65 | a type row with the path and the next id is appended and returned |
| `Models.Transaction.SaveProcDecl` | src/cache.rs:174-181 | a proc row with the path and the next id is appended and returned |
| `Models.Transaction.SaveVarDecl` | src/cache.rs:103-116 | a var row with the path, declared type and constant is appended with the next id and returned |
| `Models.Transaction.InsertTypeLink` | src/main.rs:153-158 | the insert fails exactly on a key conflict and then changes nothing; otherwise it adds the link |
| `Models.Transaction.InsertVarLink` | src/main.rs:178-183 | the insert fails exactly on a key conflict and then changes nothing; otherwise it adds the link |
| `Models.Transaction.InsertProcLinkOrIgnore` | src/main.rs:168-171 | the insert adds the link, and a conflict is ignored |
| `Ledger.SubjectBody` | src/models.rs:201-206 | the subject has no line break; with one, subject, break and body rebuild the message, and without one the body is empty |
| `Ledger.ParentHashesRoundTrip` | src/models.rs:211-215 | the comma-joined parent hashes split back into the parent ids |
| `Ledger.LogEntryRowDescribesCommit` | src/models.rs:208-234 | the entry carries the commit's hash and tree, and the author's and committer's names, emails and times; a name or email that is missing is stored as empty text; subject and body rebuild the message; a root commit has no parent hashes |
| `Ledger.CountField` | src/models.rs:256-261 | `-` counts as -1; any other word is a count exactly when it parses as an `i32`, and otherwise the recorder panics |
| `Ledger.BlankLineHasNoRow` | src/models.rs:252-255 | a line is skipped exactly when it has no words |
| `Ledger.CountFieldOfText` | src/models.rs:256-261 | a count written as git writes it, as a number or `-`, is read back as that count |
| `Ledger.ThreeWords` | src/models.rs:252 | three words separated by whitespace tokenise to those three words |
| `Ledger.LineFieldsRoundTrip` | src/models.rs:248-271 | a numstat line built from two counts and a path is read back as exactly those fields |
| `Ledger.BinaryLineExample` | src/models.rs:256-267 | a binary file's numstat line (`- -`) is stored with add and sub both -1 |
| `Ledger.CountedLineExample` | src/models.rs:256-267 | `3 1 file.dm` is stored as add 3, sub 1, path `file.dm` |
| `Ledger.NumstatRowsPerLine` | src/models.rs:248-271 | the rows build exactly when every line is readable; there is one row per line with words, in order, each with that line's fields and the entry's id |
| `Ledger.LedgerWritesEntryThenRows` | src/models.rs:196-278 | a root commit panics; on success the entry is appended with the next id, the numstat rows follow and point at it, and ids stay positions |
| `Ledger.ParseNumstatLine` | src/models.rs:249-269 | the per-line step returns exactly the reading of the line that `NumstatRowsPerLine` describes |
| `Ledger.LogEntryFromCommit` | src/models.rs:196-278 | what the recorder returns and writes into the transaction is the outcome `LedgerWritesEntryThenRows` describes |
| `DeclCache.EncodeConstantDistinguishes` | src/cache.rs:130-151 | two strings encode alike exactly when they are equal; prefabs and resources encode like strings; no constant and an unsupported constant both encode as empty text; null differs from any string |
| `DeclCache.GetVarKey` | src/cache.rs:124-154 | the key has the var's path, has a declared type exactly when the var declares one, and holds the encoded constant |
| `DeclCache.VarKeyDeclaredTypeRoundTrip` | src/cache.rs:126-128 | the declared type's segments can be read back from the key when no segment holds `/` |
| `DeclCache.CanonicalTypePath` | src/cache.rs:40-44 | a canonical type path starts with `/` |
| `DeclCache.CanonicalTypePathKeepsPath` | src/cache.rs:40-44 | canonicalising at most prepends one `/` to the path |
| `DeclCache.CanonicalTypePathSame` | src/cache.rs:40-44 | two paths canonicalise alike exactly when they are equal or differ only by a missing leading `/` |
| `DeclCache.CanonicalTypePathIdempotent` | src/cache.rs:40-44 | canonicalising twice is canonicalising once |
| `DeclCache.FirstMatch` | src/cache.rs:51-54 | `.one()` returns the first matching row, and nothing exactly when no row matches |
| `DeclCache.FindTypeRow` | src/cache.rs:51-54 | the row found has the path, and none is found exactly when no row has it |
| `DeclCache.FindProcRow` | src/cache.rs:167-170 | the row found has the path, and none is found exactly when no row has it |
| `DeclCache.FindVarRow` | src/cache.rs:93-98 | the row found is the first to pass all three filters, and none is found exactly when no row passes them |
| `DeclCache.CacheGet` | src/cache.rs:45-49 | a key that is present gives its entry; a missing key gives the cache error |
| `DeclCache.FreshCacheConsistent` | src/cache.rs:27-33 | an empty cache is consistent with any store that keeps the store rules |
| `DeclCache.AddTypeDeclKeepsRules` | src/cache.rs:58-65 | inserting a type whose path is not stored keeps type paths unique and keeps the other store rules |
| `DeclCache.AddProcDeclKeepsRules` | src/cache.rs:174-181 | inserting a proc whose path is not stored keeps proc paths unique and keeps the other store rules |
| `DeclCache.AddVarDeclKeepsRules` | src/cache.rs:103-116 | inserting a var whose declared type names a stored type keeps the store rules |
| `DeclCache.TypeLookupSpec` | src/cache.rs:35-71 | `get_type` returns the stored row of the canonical path, at its id, and caches it; it inserts exactly when the path is neither cached nor stored, writes nothing else, and keeps the cache consistent |
| `DeclCache.CanonicalTypeLookupSpec` | src/cache.rs:45-71 | the same as `TypeLookupSpec`, once the path is canonical |
| `DeclCache.ProcLookupSpec` | src/cache.rs:156-187 | `get_proc` returns the stored row of the path and caches it; it inserts exactly when the path is neither cached nor stored, and keeps the cache consistent |
| `DeclCache.DeclaredTypeIdSpec` | src/cache.rs:87-91 | the filter id is -1 for an untyped var and changes nothing; otherwise it is the id of the stored row of the canonical declared type |
| `DeclCache.UntypedFilterMatchesNothing` | src/cache.rs:87-98 | no stored var row passes the filter with declared-type id -1 |
| `DeclCache.StoreVarLookupSpec` | src/cache.rs:93-121 | the store half of `get_var_decl` returns a stored row described by the key, caches it, writes only var rows and keeps the cache consistent |
| `DeclCache.VarLookupSpec` | src/cache.rs:73-122 | `get_var_decl` returns a stored row with the var's path and encoded constant that is typed exactly when the var is, with the canonical declared type; it caches the row and writes only declaration rows |
| `DeclCache.TypeLookupRepeats` | src/cache.rs:45-50 | a second `get_type` of the same path returns the same row and changes nothing |
| `DeclCache.ProcLookupRepeats` | src/cache.rs:161-166 | a second `get_proc` of the same path returns the same row and changes nothing |
| `DeclCache.VarLookupRepeats` | src/cache.rs:79-85 | a second `get_var_decl` of the same var returns the same row and changes nothing |
| `DeclCache.VarDistinctness` | src/cache.rs:79-122 | two vars of one path get one row when their keys agree, and two rows when their constants, their typedness or their canonical declared types differ |
| `DeclCache.TypePathsWithAndWithoutSlash` | src/cache.rs:40-44 | a path without its leading `/` and the path with it share one cache entry and one row |
| `DeclCache.TypedVarFoundAcrossRuns` | src/cache.rs:87-101 | a second run with a fresh cache finds a typed var's row again and writes nothing |
| `DeclCache.UntypedVarDuplicatedAcrossRuns` | src/cache.rs:87-117 | with a fresh cache, every run inserts another copy of an untyped var's row, differing only in its id |
| `DeclCache.Cache.constructor` | src/cache.rs:27-33 | a new cache has three empty maps |
| `DeclCache.Cache.GetType` | src/cache.rs:35-71 | the row and the new maps and tables are those `TypeLookupSpec` describes |
| `DeclCache.Cache.GetProc` | src/cache.rs:156-187 | the row and the new maps and tables are those `ProcLookupSpec` describes |
| `DeclCache.Cache.GetVarDecl` | src/cache.rs:73-122 | the row and the new maps and tables are those `VarLookupSpec` describes |
| `Ingest.ProcLinksSpec` | src/main.rs:160-172 | linking a type's procs keeps the cache consistent and only adds proc rows and proc links that carry the snapshot's id and name stored rows |
| `Ingest.VarLinksSpec` | src/main.rs:174-184 | linking a type's vars, when it succeeds, keeps the cache consistent and only adds declaration rows and var links for the snapshot |
| `Ingest.TypeLinksSpec` | src/main.rs:150-184 | one type of the tree, when it succeeds, only adds declaration rows and links for the snapshot, and keeps the cache consistent |
| `Ingest.TreeLinksSpec` | src/main.rs:150-189 | a successful snapshot build only adds declaration rows and links carrying the snapshot's id, and keeps the cache consistent |
| `Ingest.ProcLinksExact` | src/main.rs:160-172 | linking a type's procs adds exactly one proc link per proc, naming the row the cache holds for it, and no type or var link; cached entries keep their rows |
| `Ingest.VarLinksLinkAll` | src/main.rs:174-184 | when linking a type's vars succeeds, every var is cached under its key and linked to the snapshot, and the var links added are exactly those of the tree's vars; no type or proc link is added |
| `Ingest.TypeLinksLinkAll` | src/main.rs:150-184 | when one type succeeds, the type, its procs and its vars are all cached and linked, and the links added are exactly the type's own link and those of its procs and vars |
| `Ingest.TreeLinksLinkAll` | src/main.rs:150-189 | a successful snapshot build links every type, proc and var of the tree, and each link table gains exactly the links the tree names, nothing else |
| `Ingest.IngestedLinksTree` | src/main.rs:148-193 | an ingested revision links its whole tree to the new snapshot and adds no link the tree does not name |
| `Ingest.LedgerAndSnapshotKeepRules` | src/main.rs:131-147 | the ledger entry and the new snapshot of a revision not yet ingested keep the rules of the store: each hash once, one snapshot per entry, numstats pointing at entries |
| `Ingest.LinkStepKeepsRules` | src/main.rs:150-192 | a snapshot build for the newest snapshot keeps the rules of the store |
| `Ingest.CommitOutcomeSpec` | src/main.rs:104-193 | a revision without an entry point or already in the ledger is skipped with no write; a failure leaves the tables as they were; an ingested revision adds one entry with its hash and one snapshot, every type, proc and var of its tree is cached and linked to that snapshot, and the links it adds are exactly those the tree names; the store rules and cache consistency are kept |
| `Ingest.RunStopsAtFirstFailure` | src/main.rs:103-194 | the walk stops at the first failing revision, reports its error and keeps exactly what the revisions before it committed |
| `Ingest.RunOutcomeSpec` | src/main.rs:103-194 | over a whole run the rules of the store hold and the ledger only grows; a successful run leaves every revision recorded |
| `Ingest.AllRecordedWritesNothing` | src/main.rs:108-129 | a walk over recorded revisions skips them all and writes nothing |
| `Ingest.Resumability` | src/main.rs:113-129 | running again with any cache over the same revisions skips every revision the first run got through; after a successful run, that is all of them |
| `Ingest.LinkedProcsChangeNothing` | src/main.rs:160-172 | procs that are already cached and linked to the snapshot change nothing when linked again |
| `Ingest.ProcLinksLinkAll` | src/main.rs:160-172 | after the loop every proc of the type is cached and linked to the snapshot |
| `Ingest.ProcLinksAppend` | src/main.rs:160-172 | linking two proc lists one after the other is linking their concatenation |
| `Ingest.ProcLinksIdempotent` | src/main.rs:168-171 | linking procs a second time, or a list that repeats procs, raises no error and changes nothing |
| `Ingest.HealthFirstLinks` | src/main.rs:150-184 | the first snapshot of `/mob` with `health = 100` stores one type row and one var row and links both to snapshot 1 |
| `Ingest.HealthSecondLinks` | src/cache.rs:87-117 | the second snapshot, with `health = 50`, reuses the type row but inserts a second var row, linked to snapshot 2 |
| `Ingest.HealthFirstCommit` | src/main.rs:104-193 | the first commit of the scenario commits the entry, snapshot 1 and its links |
| `Ingest.HealthSecondCommit` | src/main.rs:104-193 | the second commit adds snapshot 2, shares the type row and links the new var row |
| `Ingest.HealthChangeScenario` | src/main.rs:103-194 | a two-commit history that changes one var's value ends with two var rows and two snapshots, each linked to its own value's row, sharing one type row |
| `Ingest.LinkProcs` | src/main.rs:160-172 | the loop leaves the cache and the transaction as `ProcLinksSpec` describes |
| `Ingest.LinkVars` | src/main.rs:174-184 | the loop's result, cache and transaction are those of the var-link function; on success every var is cached and linked, and the var links added are exactly the vars' own (`VarLinksSpec`, `VarLinksLinkAll`) |
| `Ingest.IngestRevision` | src/main.rs:104-193 | one revision's result, cache and committed tables are those of the revision function, so `CommitOutcomeSpec` holds of them: a skip writes nothing, a failure rolls back, a success records the hash, adds one snapshot and links the whole tree to it |
| `Ingest.Run` | src/main.rs:103-194 | the walk's result, cache and committed tables are those `RunOutcomeSpec` and `RunStopsAtFirstFailure` describe |
| `PyModels.Scalar` | src/ss13_codedb/git_models.py:159 | `.scalar()` gives nothing exactly when no row matches, the one matching row when there is one, and raises MultipleResultsFound exactly when two rows match |
| `PyModels.CountOf` | src/ss13_codedb/git_models.py:79-82 | a count field is the sentinel exactly when the word is `-` |
| `PyModels.ColumnValue` | src/ss13_codedb/git_models.py:84-85 | the sentinel is stored as -1; a word is stored exactly when it is a non-empty run of digits, as a number that is not negative |
| `PyModels.PyLineFieldsCases` | src/ss13_codedb/git_models.py:75-78 | only the empty line is skipped; any other line is read exactly when it splits into three fields, so a line of spaces raises |
| `PyModels.PyNumstatPerLine` | src/ss13_codedb/git_models.py:75-88 | the numstat entries build exactly when every line is readable; there is one entry per non-empty line, in order, with that line's fields |
| `PyModels.PyLineFieldsRoundTrip` | src/ss13_codedb/git_models.py:78-86 | a line of two words and a path is read back as exactly those fields, with the path's inner spaces kept |
| `PyModels.ColumnValueOfText` | src/ss13_codedb/git_models.py:79-85 | a count as git writes it is stored as that count |
| `PyModels.PythonWordIsRustWord` | src/ss13_codedb/git_models.py:78 | a word without Python whitespace has no Rust whitespace either |
| `PyModels.RecordersDisagreeOnSpacedPath` | src/ss13_codedb/git_models.py:78-86 | on a path that contains a space, the Python recorder stores the whole path and the Rust recorder stores only its first word |
| `PyModels.RustWordsOfLine` | src/models.rs:252 | a line of four space-separated words tokenises to those four words |
| `PyModels.RecordersDisagreeOnBlankLine` | src/ss13_codedb/git_models.py:76-78 | a line of one space is skipped by the Rust recorder and raises in the Python one |
| `PyModels.NumstatColumns` | src/ss13_codedb/git_models.py:83-88 | the rows flush exactly when every count is storable; there is one row per entry, in order, with its counts, path and ledger entry |
| `PyModels.NumstatColumnsOfCounts` | src/ss13_codedb/git_models.py:79-86 | a numstat entry with counts as git writes them is stored with exactly those counts |
| `PyModels.TypeGetOrCreateSpec` | src/ss13_codedb/git_models.py:156-165 | the row returned has the path; it is created, with the next id, exactly when no row has the path; a row found is stored and nothing is written; only two rows with the path raise |
| `PyModels.ProcGetOrCreateSpec` | src/ss13_codedb/git_models.py:179-188 | the same as `TypeGetOrCreateSpec`, for procs |
| `PyModels.TypeGetOrCreateKeepsUnique` | src/ss13_codedb/git_models.py:148-165 | with paths unique, as the unique index keeps them, the lookup succeeds and keeps them unique |
| `PyModels.TypeGetOrCreateRepeats` | src/ss13_codedb/git_models.py:156-165 | a second lookup of the path finds the row the first returned and writes nothing |
| `PyModels.ProcGetOrCreateRepeats` | src/ss13_codedb/git_models.py:179-188 | a second lookup of the path finds the row the first returned and writes nothing |
| `PyModels.FalsyConstantsAreNull` | src/ss13_codedb/git_models.py:208-214 | no constant, a list, and any constant Python counts as false are all encoded as `null`, whereas the Rust encoding of no constant is empty text |
| `PyModels.DeclaredTypeOfSpec` | src/ss13_codedb/git_models.py:220-223 | an untyped var resolves nothing; a typed var resolves a stored type row with its declared path, created exactly when none had it; var rows are untouched |
| `PyModels.VarGetOrCreateSpec` | src/ss13_codedb/git_models.py:205-236 | the row returned has the var's path and encoded value; a row found passes the filter; a row is created exactly when none passes, with the declared type's id; only an ambiguous query raises |
| `PyModels.VarGetOrCreateRepeats` | src/ss13_codedb/git_models.py:205-236 | once the declared type is stored, a second lookup of the var finds the row the first returned and writes nothing |
| `PyModels.NewDeclaredTypeFindsUntypedRow` | src/ss13_codedb/git_models.py:220-226 | when the declared type is new, the filter asks for rows without a declared type, so an untyped row of the same path and value is returned; the next lookup creates the typed row |
| `PyModels.UntypedVarFindsTypedRow` | src/ss13_codedb/git_models.py:216-228 | an untyped var is answered with a typed row that has the same path and value, and nothing is written |
| `PyModels.UntypedVarAmbiguous` | src/ss13_codedb/git_models.py:216-226 | two rows with the untyped var's path and value make the lookup raise MultipleResultsFound, and nothing is written |
| `PyModels.Session.Open` | src/ss13_codedb/tools/generate_parsed_git.py:42 | the session starts from the database's tables |
| `PyModels.Session.Commit` | src/ss13_codedb/tools/generate_parsed_git.py:115 | commit publishes the session's tables to the database |
| `PyModels.Session.AddLedger` | src/ss13_codedb/tools/generate_parsed_git.py:55 | the entry gets the next id, and the numstat rows follow with consecutive ids |
| `PyModels.Session.AddSnapshot` | src/ss13_codedb/tools/generate_parsed_git.py:68-71 | a snapshot of the entry is appended with the next id and returned |
| `PyModels.Session.AddTypeDecl` | src/ss13_codedb/git_models.py:162-164 | a type row with the path and the next id is appended and returned |
| `PyModels.Session.AddProcDecl` | src/ss13_codedb/git_models.py:185-187 | a proc row with the path and the next id is appended and returned |
| `PyModels.Session.AddVarDecl` | src/ss13_codedb/git_models.py:229-235 | a var row with the path, declared type and value is appended with the next id and returned |
| `PyModels.Session.AppendTypeLink` | src/ss13_codedb/tools/generate_parsed_git.py:83 | the type link is appended, and a repeated link is kept |
| `PyModels.Session.AppendProcLink` | src/ss13_codedb/tools/generate_parsed_git.py:109 | the proc link is appended, and a repeated link is kept |
| `PyModels.Session.AppendVarLink` | src/ss13_codedb/tools/generate_parsed_git.py:99 | the var link is appended, and a repeated link is kept |
| `PyModels.GetOrCreateType` | src/ss13_codedb/git_models.py:156-165 | the result and the new session tables are those `TypeGetOrCreateSpec` describes |
| `PyModels.GetOrCreateProc` | src/ss13_codedb/git_models.py:179-188 | the result and the new session tables are those `ProcGetOrCreateSpec` describes |
| `PyModels.GetOrCreateVar` | src/ss13_codedb/git_models.py:205-236 | the result and the new session tables are those `VarGetOrCreateSpec` describes |
| `PyModels.GitLogEntryFromCommit` | src/ss13_codedb/git_models.py:47-90 | the loop returns the entry and the numstat entries that `PyNumstatPerLine` describes, or the exception the first bad line raises; a root commit raises IndexError |
| `PyIngest.SeenTypeSpec` | src/ss13_codedb/tools/generate_parsed_git.py:78-82 | a path already seen is answered from the map with nothing written; otherwise the stored row with the path is remembered; only an ambiguous lookup raises |
| `PyIngest.SeenProcSpec` | src/ss13_codedb/tools/generate_parsed_git.py:103-108 | the same as `SeenTypeSpec`, for proc paths |
| `PyIngest.SeenVarSpec` | src/ss13_codedb/tools/generate_parsed_git.py:93-98 | a key already seen is answered from the map; otherwise a stored row with the var's path and value (and its declared type, when the row has one) is remembered under the key |
| `PyIngest.VarLinksSpec` | src/ss13_codedb/tools/generate_parsed_git.py:86-99 | every var with a source location gets one link, in order, in the snapshot, naming a row with its path and value; other vars are skipped; only declaration rows and var links are added |
| `PyIngest.ProcLinksSpec` | src/ss13_codedb/tools/generate_parsed_git.py:101-109 | every proc gets one link, in order, in the snapshot, naming the row of its path; only proc rows and proc links are added |
| `PyIngest.TypeLinksSpec` | src/ss13_codedb/tools/generate_parsed_git.py:75-109 | one type gets one type link, then links for its sourced vars and its procs, in that order |
| `PyIngest.TreeLinksSpec` | src/ss13_codedb/tools/generate_parsed_git.py:75-112 | the tree's types, sourced vars and procs are each linked once, in walk order, to rows with their paths; the ledger and snapshots are untouched and the seen-maps stay true to the tables |
| `PyIngest.CommitOutcomeSpec` | src/ss13_codedb/tools/generate_parsed_git.py:46-115 | an exception leaves the committed tables as they were, and the outcome then gives back the seen-maps from before the commit, a convention of the model since the run ends there (the program itself may already have stored into them); a success needs a `.dme` file and a parsed tree, records the hash, and only grows the ledger, numstats and snapshots |
| `PyIngest.NewCommitSpec` | src/ss13_codedb/tools/generate_parsed_git.py:47-71 | for a commit the hash query does not return (no entry with its hash has a numstat row), a root commit raises IndexError; on success the commit's entry is appended with the next id, with one numstat row per entry and one new snapshot, into which the tree's links are written |
| `PyIngest.WalkedAgainSpec` | src/ss13_codedb/tools/generate_parsed_git.py:46-109 | a commit walked again, whose entry the hash query returns, reuses its entry and snapshot and writes nothing new to the ledger, but appends every link of the tree to that snapshot again |
| `PyIngest.EntryWithoutNumstatsDuplicated` | src/ss13_codedb/tools/generate_parsed_git.py:47-55 | a commit walked again whose only entry has no numstat row gets, on success, a second entry with the same hash and a new snapshot |
| `PyIngest.RunStopsAtFirstFailure` | src/ss13_codedb/tools/generate_parsed_git.py:42-115 | the first exception ends the run; what is committed is exactly what the commits before it committed |
| `PyIngest.RunOutcomeSpec` | src/ss13_codedb/tools/generate_parsed_git.py:42-115 | the committed ledger, numstats and snapshots only grow, the seen-maps stay true to the tables, and a run without an exception leaves every walked commit in the ledger |
| `PyIngest.VarLinksAsWrittenRaises` | src/ss13_codedb/tools/generate_parsed_git.py:94-96 | with the three-argument call, a type's vars get through exactly when every sourced var is already seen; otherwise the TypeError is raised; no var row is ever written |
| `PyIngest.AsWrittenRaisesOnFirstSourcedVar` | src/ss13_codedb/tools/generate_parsed_git.py:94-96 | at the start of a run, the first var with a source location raises the TypeError |
| `PyIngest.AsWrittenWithoutSourcedVars` | src/ss13_codedb/tools/generate_parsed_git.py:89-90 | vars without a source location are skipped and never reach the faulty call |
| `PyIngest.CodeTree.constructor` | src/ss13_codedb/tools/generate_parsed_git.py:40 | a new CodeTree has three empty seen-maps |
| `PyIngest.LookupType` | src/ss13_codedb/tools/generate_parsed_git.py:78-82 | the row, the seen-map and the session tables are those `SeenTypeSpec` describes |
| `PyIngest.LookupVar` | src/ss13_codedb/tools/generate_parsed_git.py:93-98 | the row, the seen-map and the session tables are those `SeenVarSpec` describes |
| `PyIngest.LookupProc` | src/ss13_codedb/tools/generate_parsed_git.py:103-108 | the row, the seen-map and the session tables are those `SeenProcSpec` describes |
| `PyIngest.LinkVars` | src/ss13_codedb/tools/generate_parsed_git.py:86-99 | the loop's result, seen-map and session are those `VarLinksSpec` describes |
| `PyIngest.LinkProcs` | src/ss13_codedb/tools/generate_parsed_git.py:101-109 | the loop's result, seen-map and session are those `ProcLinksSpec` describes |
| `PyIngest.LinkType` | src/ss13_codedb/tools/generate_parsed_git.py:75-109 | one type's result, seen-maps and session are those `TypeLinksSpec` describes |
| `PyIngest.IngestCommit` | src/ss13_codedb/tools/generate_parsed_git.py:46-115 | one commit's result, seen-maps and committed tables are those `CommitOutcomeSpec` describes; on success the session holds the committed tables |
| `PyIngest.Run` | src/ss13_codedb/tools/generate_parsed_git.py:40-115 | the walk's result, seen-maps and committed tables are those `RunOutcomeSpec` and `RunStopsAtFirstFailure` describe |

## Left out

- **Database failures.** Connection errors, statement errors, and failures
  of `begin`, `commit` and `try_into_model` are not modelled: every `?` on a
  database call is taken to succeed. The cache's "cannot get … from cache"
  error cannot happen once a key has been inserted, and `DeclCache.CacheGet`
  states this.
- **The version-control layer.**
  - Opening the repository, the revision walk and its order, `reset`, and
    the computation of the diff statistics are not modelled. The model takes
    as inputs the sequence of revisions the walk yields and each commit's
    numstat text.
  - Revision-walk errors that `flatten` drops are not modelled, and neither
    are objects that are not commits.
- **Environment detection and parsing.** These are inputs. Entry-point
  detection (`src/dme.rs`) is given as an optional path. The parse of the
  `.dme` is given as a tree or the parser's message, and the Python glob as
  a list of file names.
- **Logging and the progress counters.** `count`, `info!` and
  `logger.info` are left out. They write to the log only.
- **Timestamps.**
  - Commit times are kept as integer seconds.
  - The `expect`/`unwrap` panics on out-of-range dates
    (`src/models.rs:218-228`, `src/main.rs:112`) are not modelled.
  - Python's `datetime.fromtimestamp` text is not modelled.
- **Constant encodings.** `json.dumps` and Rust's float formatting are
  opaque text:
  - A Python constant carries its `json.dumps` text and its truthiness.
  - A Rust float carries its display text.
- **Rust signatures.** Name and email are absent when git2 does not give
  valid UTF-8, and are then stored as empty text. The message is assumed to
  be valid UTF-8, so the `unwrap` at `src/models.rs:201` is not modelled.
- **Python paths.** An avulto `Path` is modelled as its text:
  - `/` joins with a slash.
  - A declared type counts as true whenever it is present.
  - `seen_types` and `seen_procs` are keyed by that text.
- **Python column conversion.** Storing a count is modelled as strict
  conversion of a run of digits into the INTEGER column. A word that is not
  a count makes the flush raise. MySQL's lenient conversion in non-strict
  mode and the 11-digit range are not modelled.
- **Ids.** Ids are handed out per table in insert order. SQLAlchemy's flush
  order between tables changes only which id a row gets, and is not
  modelled. Nor is the fact that an auto-increment counter is not rolled back
  with a failed transaction or session: after a failure the model hands out
  the same ids again, while the database skips the ones the failure used.
- **Rust `get_proc` arity.** `src/main.rs:162` passes the database as an
  extra argument. It is modelled as the two-argument `get_proc` of
  `src/cache.rs:156-160`.
- `PyIngest.IngestCommit`: after an exception, the state of the seen-maps
  is not stated, because the run ends there. On success it is stated
  exactly.
- `PyModels.VarGetOrCreateRepeats`: this is stated only for a var whose
  declared type is already stored. When the type is new, the first lookup
  reads the pending id, and `PyModels.NewDeclaredTypeFindsUntypedRow`
  states what happens then.
- `Ingest.VarLinksSpec`, `Ingest.TypeLinksSpec` and `Ingest.TreeLinksSpec`:
  the error case (a repeated type or var link within one snapshot) is not
  described beyond leaving the committed tables unchanged, and
  `Ingest.CommitOutcomeSpec` states that.

## Findings

| source | as written | input that shows it | evidently intended | confidence | as-written member | corrected member |
|---|---|---|---|---|---|---|
| src/ss13_codedb/tools/generate_parsed_git.py:95 | `VarDecl.get_or_create` is called with the session, the var and the CodeTree, but the classmethod takes only the session and the var (`src/ss13_codedb/git_models.py:206`), so Python raises TypeError before the lookup runs | any commit whose tree has a var with a source location that is not yet in `seen_vars`; at the start of a run every such var qualifies, so the first one ends the run | call `VarDecl.get_or_create(session, vd)` and remember the row, as is done for types and procs | not executed | `PyIngest.VarLinksAsWritten` | `PyIngest.VarLinks` |

- **As written.** `PyIngest.VarLinksAsWritten` models the three-argument
  call. `PyIngest.VarLinksAsWrittenRaises` proves that the loop gets through
  only when every sourced var is already seen. `seen_vars` is then never
  filled. `PyIngest.AsWrittenRaisesOnFirstSourcedVar` shows that the first
  var with a source location raises the TypeError.
- **Corrected.** `PyIngest.VarLinks` uses the two-argument lookup.
  `PyIngest.VarLinksSpec` proves that each sourced var is linked once, in
  order, to a row with its path and value. The rest of the model
  (`PyIngest.TypeLinks`, `PyIngest.LookupVar`, `PyIngest.LinkVars`) uses the
  corrected call.
