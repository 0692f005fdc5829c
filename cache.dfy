/**
 * The declaration cache of src/cache.rs: maps from a declaration's key to its
 * stored row, in front of a lookup-or-insert against the store, so that one
 * declaration is stored once and every snapshot links to the same row.
 *
 * The pure functions TypeLookup, ProcLookup and VarLookup say what one call
 * does to the cache maps and the transaction's tables; the methods of the
 * class Cache do it step by step and are proved to match them.
 */
module DeclCache {
  import opened Wrappers
  import opened Text
  import opened Models

  /** The constant values the object tree can attach to a var; the ones the key does not encode are OtherConstant. */
  datatype Constant =
    | Null
    | Prefab(display: string)
    | StringConst(text: string)
    | Resource(text: string)
    | Float(display: string)
    | OtherConstant

  /** A var as the object tree gives it: the declared type's path segments, if declared, and its constant value, if any. */
  datatype TypeVar = TypeVar(declaredType: Option<seq<string>>, constant: Option<Constant>)

  /** A var's cache key: its path, its declared type (segments joined with `/`), and its encoded constant. */
  type VarKey = (string, Option<string>, string)

  datatype CacheMaps = CacheMaps(
    types: map<string, TypeDecl>,
    vars: map<VarKey, VarDecl>,
    procs: map<string, ProcDecl>)

  const EmptyCache: CacheMaps := CacheMaps(map[], map[], map[])

  /** The cache together with the tables of the transaction it writes through. */
  datatype Ctx = Ctx(cache: CacheMaps, tables: Tables)

  function Quote(s: string): string
  {
    "\"" + s + "\""
  }

  /** The `json_const_val` column: only null, prefabs, strings, resources and floats are encoded; text is quoted without escaping. */
  function EncodeConstant(c: Option<Constant>): string
  {
    match c
    case None => ""
    case Some(Null) => "null"
    case Some(Prefab(display)) => Quote(display)
    case Some(StringConst(text)) => Quote(text)
    case Some(Resource(text)) => Quote(text)
    case Some(Float(display)) => display
    case Some(OtherConstant) => ""
  }

  /**
   * What the encoding keeps apart and what it conflates: two strings are
   * told apart exactly when they differ, but a prefab, a string and a
   * resource with the same text encode alike, and so do "no constant" and a
   * constant kind the encoder does not support.
   */
  lemma EncodeConstantDistinguishes(a: string, b: string)
    ensures EncodeConstant(Some(StringConst(a))) == EncodeConstant(Some(StringConst(b))) <==> a == b
    ensures EncodeConstant(Some(Prefab(a))) == EncodeConstant(Some(StringConst(a)))
    ensures EncodeConstant(Some(Resource(a))) == EncodeConstant(Some(StringConst(a)))
    ensures EncodeConstant(None) == EncodeConstant(Some(OtherConstant)) == ""
    ensures EncodeConstant(Some(Null)) != EncodeConstant(Some(StringConst(a)))
  {
    if Quote(a) == Quote(b) {
      assert a == Quote(a)[1..|Quote(a)| - 1];
      assert b == Quote(b)[1..|Quote(b)| - 1];
    }
    assert Quote(a)[0] == '"';
  }

  /** `get_var_key`: the var's path, its declared type if it has a declaration, and its encoded constant. */
  function GetVarKey(varPath: string, v: TypeVar): (k: VarKey)
    ensures k.0 == varPath
    ensures k.1.Some? <==> v.declaredType.Some?
    ensures k.2 == EncodeConstant(v.constant)
  {
    var declaredType := match v.declaredType
      case Some(segments) => Some(Join(segments, '/'))
      case None => None;
    (varPath, declaredType, EncodeConstant(v.constant))
  }

  /** The declared type's segments can be read back from the key when none contains `/`. */
  lemma VarKeyDeclaredTypeRoundTrip(varPath: string, v: TypeVar)
    requires v.declaredType.Some? && |v.declaredType.value| >= 1
    requires forall k :: 0 <= k < |v.declaredType.value| ==> '/' !in v.declaredType.value[k]
    ensures Split(GetVarKey(varPath, v).1.value, '/') == v.declaredType.value
  {
    SplitJoin(v.declaredType.value, '/');
  }

  /** A type path as the store keys it: with a leading `/` added when it has none. */
  function CanonicalTypePath(p: string): (r: string)
    ensures |r| > 0 && r[0] == '/'
  {
    if |p| > 0 && p[0] == '/' then p else "/" + p
  }

  /** Canonicalising only ever prepends one `/` to the path. */
  lemma CanonicalTypePathKeepsPath(p: string)
    ensures var r := CanonicalTypePath(p); |p| <= |r| <= |p| + 1 && r[|r| - |p|..] == p
  {
  }

  /** Two type paths name the same type exactly when they are equal or differ only by the leading `/` that one lacks. */
  lemma CanonicalTypePathSame(p: string, q: string)
    ensures CanonicalTypePath(p) == CanonicalTypePath(q) <==>
      || p == q
      || (p == "/" + q && (q == [] || q[0] != '/'))
      || (q == "/" + p && (p == [] || p[0] != '/'))
  {
    var cp, cq := CanonicalTypePath(p), CanonicalTypePath(q);
    if cp == cq {
      if |p| > 0 && p[0] == '/' && !(|q| > 0 && q[0] == '/') {
        assert cq[1..] == q;
      } else if |q| > 0 && q[0] == '/' && !(|p| > 0 && p[0] == '/') {
        assert cp[1..] == p;
      } else if !(|p| > 0 && p[0] == '/') {
        assert cp[1..] == p && cq[1..] == q;
      }
    } else {
      if p == "/" + q {
        assert p[0] == '/';
      }
      if q == "/" + p {
        assert q[0] == '/';
      }
    }
  }

  /** A canonical path is its own canonical form. */
  lemma CanonicalTypePathIdempotent(p: string)
    ensures CanonicalTypePath(CanonicalTypePath(p)) == CanonicalTypePath(p)
  {
  }

  /** The index of the first row the predicate picks, as a query with `.one()` returns the first row in id order. */
  function FirstMatch<R>(rows: seq<R>, pick: R -> bool): (r: Option<nat>)
    ensures r.Some? ==> r.value < |rows| && pick(rows[r.value]) && forall j :: 0 <= j < r.value ==> !pick(rows[j])
    ensures r.None? <==> forall j :: 0 <= j < |rows| ==> !pick(rows[j])
  {
    if |rows| == 0 then None
    else if pick(rows[0]) then Some(0)
    else match FirstMatch(rows[1..], pick)
      case None => None
      case Some(i) => Some(i + 1)
  }

  /** SQL equality against a nullable column: NULL equals nothing. */
  predicate SqlEq(column: Option<int>, value: int)
  {
    column == Some(value)
  }

  /** `TypeDecl::find().filter(path = ..).one()`. */
  function FindTypeRow(rows: seq<TypeDecl>, path: string): (r: Option<nat>)
    ensures r.Some? ==> r.value < |rows| && rows[r.value].path == path
    ensures r.None? <==> forall j :: 0 <= j < |rows| ==> rows[j].path != path
  {
    FirstMatch(rows, (row: TypeDecl) => row.path == path)
  }

  /** `ProcDecl::find().filter(path = ..).one()`. */
  function FindProcRow(rows: seq<ProcDecl>, path: string): (r: Option<nat>)
    ensures r.Some? ==> r.value < |rows| && rows[r.value].path == path
    ensures r.None? <==> forall j :: 0 <= j < |rows| ==> rows[j].path != path
  {
    FirstMatch(rows, (row: ProcDecl) => row.path == path)
  }

  /** A var row matches the lookup's three filters; the declared type is compared with SQL equality. */
  predicate VarRowMatches(row: VarDecl, path: string, declaredTypeId: int, jsonConstVal: string)
  {
    row.path == path && SqlEq(row.declaredTypeId, declaredTypeId) && row.jsonConstVal == jsonConstVal
  }

  /** `VarDecl::find()` filtered on path, declared type id and encoded constant, then `.one()`. */
  function FindVarRow(rows: seq<VarDecl>, path: string, declaredTypeId: int, jsonConstVal: string): (r: Option<nat>)
    ensures r.Some? ==> r.value < |rows| && VarRowMatches(rows[r.value], path, declaredTypeId, jsonConstVal)
    ensures r.Some? ==> forall j :: 0 <= j < r.value ==> !VarRowMatches(rows[j], path, declaredTypeId, jsonConstVal)
    ensures r.None? <==> forall j :: 0 <= j < |rows| ==> !VarRowMatches(rows[j], path, declaredTypeId, jsonConstVal)
  {
    FirstMatch(rows, (row: VarDecl) => VarRowMatches(row, path, declaredTypeId, jsonConstVal))
  }

  /**
   * `get_type`: a canonical path in the map is answered from it; otherwise
   * the store is queried, a row is inserted only when the query finds none,
   * and the row is remembered in the map.
   */
  function TypeLookup(ctx: Ctx, typePath: string): (TypeDecl, Ctx)
  {
    CanonicalTypeLookup(ctx, CanonicalTypePath(typePath))
  }

  /** `get_type` once the path is canonical. */
  function CanonicalTypeLookup(ctx: Ctx, path: string): (TypeDecl, Ctx)
  {
    if path in ctx.cache.types then (ctx.cache.types[path], ctx)
    else
      var found := FindTypeRow(ctx.tables.typeDecls, path);
      var decl := if found.Some? then ctx.tables.typeDecls[found.value] else NewTypeDecl(ctx.tables, path);
      var tables := if found.Some? then ctx.tables else AddTypeDecl(ctx.tables, path);
      (decl, Ctx(ctx.cache.(types := ctx.cache.types[path := decl]), tables))
  }

  /** `get_proc`: the same as `get_type`, keyed by the proc path exactly as given. */
  function ProcLookup(ctx: Ctx, path: string): (ProcDecl, Ctx)
  {
    if path in ctx.cache.procs then (ctx.cache.procs[path], ctx)
    else
      var found := FindProcRow(ctx.tables.procDecls, path);
      var decl := if found.Some? then ctx.tables.procDecls[found.value] else NewProcDecl(ctx.tables, path);
      var tables := if found.Some? then ctx.tables else AddProcDecl(ctx.tables, path);
      (decl, Ctx(ctx.cache.(procs := ctx.cache.procs[path := decl]), tables))
  }

  /** The declared type id a var lookup filters on: the declared type's row id, resolved through `get_type`, or -1 for an untyped var. */
  function DeclaredTypeId(ctx: Ctx, declaredType: Option<string>): (int, Ctx)
  {
    match declaredType
    case None => (-1, ctx)
    case Some(typePath) =>
      var (decl, ctx') := TypeLookup(ctx, typePath);
      (decl.id, ctx')
  }

  /**
   * `get_var_decl`: a key in the map is answered from it; otherwise the
   * declared type is resolved, the store is queried on path, declared type id
   * and encoded constant, a row is inserted (NULL declared type when the id is
   * negative) only when the query finds none, and the row is remembered.
   */
  function VarLookup(ctx: Ctx, varPath: string, v: TypeVar): (VarDecl, Ctx)
  {
    var key := GetVarKey(varPath, v);
    if key in ctx.cache.vars then (ctx.cache.vars[key], ctx)
    else
      var typed := DeclaredTypeId(ctx, key.1);
      StoreVarLookup(typed.1, key, typed.0)
  }

  /** The store half of `get_var_decl`, once the declared type id is known. */
  function StoreVarLookup(ctx: Ctx, key: VarKey, declaredTypeId: int): (VarDecl, Ctx)
  {
    var found := FindVarRow(ctx.tables.varDecls, key.0, declaredTypeId, key.2);
    var column := if declaredTypeId >= 0 then Some(declaredTypeId) else None;
    var decl := if found.Some? then ctx.tables.varDecls[found.value] else NewVarDecl(ctx.tables, key.0, column, key.2);
    var tables := if found.Some? then ctx.tables else AddVarDecl(ctx.tables, key.0, column, key.2);
    (decl, Ctx(ctx.cache.(vars := ctx.cache.vars[key := decl]), tables))
  }

  /** `map.get(key).ok_or(IngesterError::Cache(..))`. */
  function CacheGet<K, V>(m: map<K, V>, key: K, message: string): (r: Result<V, IngestError>)
    ensures key in m ==> r == Ok(m[key])
    ensures key !in m ==> r == Err(Cache(message))
  {
    if key in m then Ok(m[key]) else Err(Cache(message))
  }

  ghost predicate UniqueTypePaths(rows: seq<TypeDecl>)
  {
    forall i, j :: 0 <= i < j < |rows| ==> rows[i].path != rows[j].path
  }

  ghost predicate UniqueProcPaths(rows: seq<ProcDecl>)
  {
    forall i, j :: 0 <= i < j < |rows| ==> rows[i].path != rows[j].path
  }

  /** Every declared type id a var row holds names a stored type. */
  ghost predicate VarTypeRefs(t: Tables)
  {
    forall i :: 0 <= i < |t.varDecls| && t.varDecls[i].declaredTypeId.Some? ==>
      1 <= t.varDecls[i].declaredTypeId.value <= |t.typeDecls|
  }

  /** What the store keeps true for the cache: ids are positions, one type row and one proc row per path, var rows refer to stored types. */
  ghost predicate StoreRules(t: Tables)
  {
    IdsArePositions(t) && UniqueTypePaths(t.typeDecls) && UniqueProcPaths(t.procDecls) && VarTypeRefs(t)
  }

  /** The row a var key is cached under has the key's path and constant, and is typed exactly when the key is, with the key's type. */
  ghost predicate KeyDescribes(t: Tables, key: VarKey, decl: VarDecl)
  {
    && decl.path == key.0
    && decl.jsonConstVal == key.2
    && (key.1.None? ==> decl.declaredTypeId.None?)
    && (key.1.Some? ==>
          && decl.declaredTypeId.Some?
          && 1 <= decl.declaredTypeId.value <= |t.typeDecls|
          && t.typeDecls[decl.declaredTypeId.value - 1].path == CanonicalTypePath(key.1.value))
  }

  ghost predicate TypesCached(m: map<string, TypeDecl>, t: Tables)
  {
    forall p :: p in m ==> m[p] in t.typeDecls && m[p].path == p
  }

  ghost predicate ProcsCached(m: map<string, ProcDecl>, t: Tables)
  {
    forall p :: p in m ==> m[p] in t.procDecls && m[p].path == p
  }

  ghost predicate VarsCached(m: map<VarKey, VarDecl>, t: Tables)
  {
    forall k :: k in m ==> m[k] in t.varDecls && KeyDescribes(t, k, m[k])
  }

  /**
   * What the cache and the store keep true between calls: the store rules,
   * and every map entry is a stored row with that entry's key.
   */
  ghost predicate Consistent(ctx: Ctx)
  {
    && StoreRules(ctx.tables)
    && TypesCached(ctx.cache.types, ctx.tables)
    && ProcsCached(ctx.cache.procs, ctx.tables)
    && VarsCached(ctx.cache.vars, ctx.tables)
  }

  /** The declaration tables of t' start with those of t. */
  ghost predicate DeclsGrow(t: Tables, t': Tables)
  {
    && |t.typeDecls| <= |t'.typeDecls| && t'.typeDecls[..|t.typeDecls|] == t.typeDecls
    && |t.procDecls| <= |t'.procDecls| && t'.procDecls[..|t.procDecls|] == t.procDecls
    && |t.varDecls| <= |t'.varDecls| && t'.varDecls[..|t.varDecls|] == t.varDecls
  }

  lemma DeclsGrowTransitive(t1: Tables, t2: Tables, t3: Tables)
    requires DeclsGrow(t1, t2) && DeclsGrow(t2, t3)
    ensures DeclsGrow(t1, t3)
  {
    assert t3.typeDecls[..|t1.typeDecls|] == t3.typeDecls[..|t2.typeDecls|][..|t1.typeDecls|];
    assert t3.procDecls[..|t1.procDecls|] == t3.procDecls[..|t2.procDecls|][..|t1.procDecls|];
    assert t3.varDecls[..|t1.varDecls|] == t3.varDecls[..|t2.varDecls|][..|t1.varDecls|];
  }

  lemma CachedStaysCached(c: CacheMaps, t: Tables, t': Tables)
    requires TypesCached(c.types, t) && ProcsCached(c.procs, t) && VarsCached(c.vars, t)
    requires DeclsGrow(t, t')
    ensures TypesCached(c.types, t') && ProcsCached(c.procs, t') && VarsCached(c.vars, t')
  {
    forall p | p in c.types ensures c.types[p] in t'.typeDecls {
      assert c.types[p] in t'.typeDecls[..|t.typeDecls|];
    }
    forall p | p in c.procs ensures c.procs[p] in t'.procDecls {
      assert c.procs[p] in t'.procDecls[..|t.procDecls|];
    }
    forall k | k in c.vars ensures c.vars[k] in t'.varDecls && KeyDescribes(t', k, c.vars[k]) {
      assert c.vars[k] in t'.varDecls[..|t.varDecls|];
      var d := c.vars[k];
      if k.1.Some? {
        assert t'.typeDecls[d.declaredTypeId.value - 1] == t'.typeDecls[..|t.typeDecls|][d.declaredTypeId.value - 1];
      }
    }
  }

  lemma StoredTypeAtId(t: Tables, decl: TypeDecl)
    requires IdsArePositions(t) && decl in t.typeDecls
    ensures 1 <= decl.id <= |t.typeDecls| && t.typeDecls[decl.id - 1] == decl
  {
    var i :| 0 <= i < |t.typeDecls| && t.typeDecls[i] == decl;
  }

  lemma StoredProcAtId(t: Tables, decl: ProcDecl)
    requires IdsArePositions(t) && decl in t.procDecls
    ensures 1 <= decl.id <= |t.procDecls| && t.procDecls[decl.id - 1] == decl
  {
    var i :| 0 <= i < |t.procDecls| && t.procDecls[i] == decl;
  }

  lemma StoredVarAtId(t: Tables, decl: VarDecl)
    requires IdsArePositions(t) && decl in t.varDecls
    ensures 1 <= decl.id <= |t.varDecls| && t.varDecls[decl.id - 1] == decl
  {
    var i :| 0 <= i < |t.varDecls| && t.varDecls[i] == decl;
  }

  /** An empty cache in front of a store that keeps the store rules is consistent. */
  lemma FreshCacheConsistent(t: Tables)
    requires StoreRules(t)
    ensures Consistent(Ctx(EmptyCache, t))
  {
  }

  /** Inserting a type whose path is not stored keeps the store rules. */
  lemma AddTypeDeclKeepsRules(t: Tables, path: string)
    requires StoreRules(t)
    requires forall j :: 0 <= j < |t.typeDecls| ==> t.typeDecls[j].path != path
    ensures StoreRules(AddTypeDecl(t, path)) && DeclsGrow(t, AddTypeDecl(t, path))
  {
    var t' := AddTypeDecl(t, path);
    assert t'.typeDecls[..|t.typeDecls|] == t.typeDecls;
  }

  lemma AddProcDeclKeepsRules(t: Tables, path: string)
    requires StoreRules(t)
    requires forall j :: 0 <= j < |t.procDecls| ==> t.procDecls[j].path != path
    ensures StoreRules(AddProcDecl(t, path)) && DeclsGrow(t, AddProcDecl(t, path))
  {
    var t' := AddProcDecl(t, path);
    assert t'.procDecls[..|t.procDecls|] == t.procDecls;
  }

  lemma AddVarDeclKeepsRules(t: Tables, path: string, declaredTypeId: Option<int>, jsonConstVal: string)
    requires StoreRules(t)
    requires declaredTypeId.Some? ==> 1 <= declaredTypeId.value <= |t.typeDecls|
    ensures StoreRules(AddVarDecl(t, path, declaredTypeId, jsonConstVal))
    ensures DeclsGrow(t, AddVarDecl(t, path, declaredTypeId, jsonConstVal))
  {
    var t' := AddVarDecl(t, path, declaredTypeId, jsonConstVal);
    assert t'.varDecls[..|t.varDecls|] == t.varDecls;
  }

  /**
   * `get_type` returns the stored row of the canonical path and remembers it;
   * it inserts a row exactly when the path is neither cached nor stored, and
   * it changes nothing else.
   */
  lemma TypeLookupSpec(ctx: Ctx, typePath: string)
    requires Consistent(ctx)
    ensures var (decl, ctx') := TypeLookup(ctx, typePath);
      var path := CanonicalTypePath(typePath);
      && Consistent(ctx')
      && DeclsGrow(ctx.tables, ctx'.tables)
      && decl.path == path
      && 1 <= decl.id <= |ctx'.tables.typeDecls| && ctx'.tables.typeDecls[decl.id - 1] == decl
      && ctx'.cache == ctx.cache.(types := ctx.cache.types[path := decl])
      && (ctx'.tables == ctx.tables || ctx'.tables == AddTypeDecl(ctx.tables, path))
      && (ctx'.tables == AddTypeDecl(ctx.tables, path) <==>
            path !in ctx.cache.types && forall j :: 0 <= j < |ctx.tables.typeDecls| ==> ctx.tables.typeDecls[j].path != path)
  {
    CanonicalTypeLookupSpec(ctx, CanonicalTypePath(typePath));
  }

  lemma CanonicalTypeLookupSpec(ctx: Ctx, path: string)
    requires Consistent(ctx)
    ensures var (decl, ctx') := CanonicalTypeLookup(ctx, path);
      && Consistent(ctx')
      && DeclsGrow(ctx.tables, ctx'.tables)
      && decl.path == path
      && 1 <= decl.id <= |ctx'.tables.typeDecls| && ctx'.tables.typeDecls[decl.id - 1] == decl
      && ctx'.cache == ctx.cache.(types := ctx.cache.types[path := decl])
      && (ctx'.tables == ctx.tables || ctx'.tables == AddTypeDecl(ctx.tables, path))
      && (ctx'.tables == AddTypeDecl(ctx.tables, path) <==>
            path !in ctx.cache.types && forall j :: 0 <= j < |ctx.tables.typeDecls| ==> ctx.tables.typeDecls[j].path != path)
  {
    var t := ctx.tables;
    var (decl, ctx') := CanonicalTypeLookup(ctx, path);
    assert |AddTypeDecl(t, path).typeDecls| != |t.typeDecls|;
    assert t.typeDecls[..|t.typeDecls|] == t.typeDecls;
    assert t.procDecls[..|t.procDecls|] == t.procDecls;
    assert t.varDecls[..|t.varDecls|] == t.varDecls;
    if path in ctx.cache.types {
      assert decl == ctx.cache.types[path] && ctx' == ctx;
      StoredTypeAtId(t, decl);
      assert ctx.cache.types[path := decl] == ctx.cache.types;
    } else {
      var found := FindTypeRow(t.typeDecls, path);
      if found.None? {
        assert decl == NewTypeDecl(t, path) && ctx'.tables == AddTypeDecl(t, path);
        AddTypeDeclKeepsRules(t, path);
        CachedStaysCached(ctx.cache, t, ctx'.tables);
        assert ctx'.tables.typeDecls[|t.typeDecls|] == decl;
      } else {
        assert ctx'.tables == t && decl == t.typeDecls[found.value];
      }
      CacheTypeKeepsConsistent(ctx.cache, ctx'.tables, path, decl);
      StoredTypeAtId(ctx'.tables, decl);
    }
  }

  /** Remembering a stored row under its own path keeps the cache consistent. */
  lemma CacheTypeKeepsConsistent(c: CacheMaps, t: Tables, path: string, decl: TypeDecl)
    requires StoreRules(t) && TypesCached(c.types, t) && ProcsCached(c.procs, t) && VarsCached(c.vars, t)
    requires decl in t.typeDecls && decl.path == path
    ensures Consistent(Ctx(c.(types := c.types[path := decl]), t))
  {
  }

  /** `get_proc` returns the stored row of the path and remembers it; it inserts a row exactly when the path is neither cached nor stored. */
  lemma ProcLookupSpec(ctx: Ctx, path: string)
    requires Consistent(ctx)
    ensures var (decl, ctx') := ProcLookup(ctx, path);
      && Consistent(ctx')
      && DeclsGrow(ctx.tables, ctx'.tables)
      && decl.path == path
      && 1 <= decl.id <= |ctx'.tables.procDecls| && ctx'.tables.procDecls[decl.id - 1] == decl
      && ctx'.cache == ctx.cache.(procs := ctx.cache.procs[path := decl])
      && (ctx'.tables == ctx.tables || ctx'.tables == AddProcDecl(ctx.tables, path))
      && (ctx'.tables == AddProcDecl(ctx.tables, path) <==>
            path !in ctx.cache.procs && forall j :: 0 <= j < |ctx.tables.procDecls| ==> ctx.tables.procDecls[j].path != path)
  {
    var t := ctx.tables;
    var (decl, ctx') := ProcLookup(ctx, path);
    assert |AddProcDecl(t, path).procDecls| != |t.procDecls|;
    assert t.typeDecls[..|t.typeDecls|] == t.typeDecls;
    assert t.procDecls[..|t.procDecls|] == t.procDecls;
    assert t.varDecls[..|t.varDecls|] == t.varDecls;
    if path in ctx.cache.procs {
      assert decl == ctx.cache.procs[path] && ctx' == ctx;
      StoredProcAtId(t, decl);
      assert ctx.cache.procs[path := decl] == ctx.cache.procs;
    } else {
      var found := FindProcRow(t.procDecls, path);
      if found.None? {
        assert decl == NewProcDecl(t, path) && ctx'.tables == AddProcDecl(t, path);
        AddProcDeclKeepsRules(t, path);
        CachedStaysCached(ctx.cache, t, ctx'.tables);
        assert ctx'.tables.procDecls[|t.procDecls|] == decl;
      } else {
        assert ctx'.tables == t && decl == t.procDecls[found.value];
      }
      CacheProcKeepsConsistent(ctx.cache, ctx'.tables, path, decl);
      StoredProcAtId(ctx'.tables, decl);
    }
  }

  /** Remembering a stored row under its own path keeps the cache consistent. */
  lemma CacheProcKeepsConsistent(c: CacheMaps, t: Tables, path: string, decl: ProcDecl)
    requires StoreRules(t) && TypesCached(c.types, t) && ProcsCached(c.procs, t) && VarsCached(c.vars, t)
    requires decl in t.procDecls && decl.path == path
    ensures Consistent(Ctx(c.(procs := c.procs[path := decl]), t))
  {
  }

  /** Only the declaration tables differ between t and t'. */
  ghost predicate SameOutsideDecls(t: Tables, t': Tables)
  {
    t'.(typeDecls := t.typeDecls, procDecls := t.procDecls, varDecls := t.varDecls) == t
  }

  /** The declared type id is -1 exactly for an untyped var, and otherwise names the stored row of the canonical declared type. */
  lemma DeclaredTypeIdSpec(ctx: Ctx, declaredType: Option<string>)
    requires Consistent(ctx)
    ensures var (id, ctx') := DeclaredTypeId(ctx, declaredType);
      && Consistent(ctx')
      && DeclsGrow(ctx.tables, ctx'.tables)
      && SameOutsideDecls(ctx.tables, ctx'.tables)
      && ctx'.tables.varDecls == ctx.tables.varDecls && ctx'.tables.procDecls == ctx.tables.procDecls
      && ctx'.cache.vars == ctx.cache.vars && ctx'.cache.procs == ctx.cache.procs
      && (declaredType.None? ==> id == -1 && ctx' == ctx)
      && (declaredType.Some? ==>
            1 <= id <= |ctx'.tables.typeDecls| && ctx'.tables.typeDecls[id - 1].path == CanonicalTypePath(declaredType.value))
  {
    if declaredType.Some? {
      TypeLookupSpec(ctx, declaredType.value);
    }
  }

  /** No var row matches a declared type id of -1: SQL equality never holds against NULL, and stored ids are positive. */
  lemma UntypedFilterMatchesNothing(t: Tables, path: string, jsonConstVal: string)
    requires VarTypeRefs(t)
    ensures FindVarRow(t.varDecls, path, -1, jsonConstVal).None?
  {
  }

  /** The store half of `get_var_decl` keeps the cache consistent and returns a row described by the key. */
  lemma StoreVarLookupSpec(ctx: Ctx, key: VarKey, declaredTypeId: int)
    requires Consistent(ctx)
    requires key.1.None? ==> declaredTypeId == -1
    requires key.1.Some? ==>
      1 <= declaredTypeId <= |ctx.tables.typeDecls| && ctx.tables.typeDecls[declaredTypeId - 1].path == CanonicalTypePath(key.1.value)
    ensures var (decl, ctx') := StoreVarLookup(ctx, key, declaredTypeId);
      && Consistent(ctx')
      && DeclsGrow(ctx.tables, ctx'.tables)
      && SameOutsideDecls(ctx.tables, ctx'.tables)
      && ctx'.tables.procDecls == ctx.tables.procDecls && ctx'.tables.typeDecls == ctx.tables.typeDecls
      && KeyDescribes(ctx'.tables, key, decl)
      && 1 <= decl.id <= |ctx'.tables.varDecls| && ctx'.tables.varDecls[decl.id - 1] == decl
      && ctx'.cache == ctx.cache.(vars := ctx.cache.vars[key := decl])
  {
    var t := ctx.tables;
    var (decl, ctx') := StoreVarLookup(ctx, key, declaredTypeId);
    var found := FindVarRow(t.varDecls, key.0, declaredTypeId, key.2);
    var column := if declaredTypeId >= 0 then Some(declaredTypeId) else None;
    assert t.varDecls[..|t.varDecls|] == t.varDecls;
    assert t.typeDecls[..|t.typeDecls|] == t.typeDecls;
    assert t.procDecls[..|t.procDecls|] == t.procDecls;
    if found.None? {
      assert decl == NewVarDecl(t, key.0, column, key.2) && ctx'.tables == AddVarDecl(t, key.0, column, key.2);
      AddVarDeclKeepsRules(t, key.0, column, key.2);
      CachedStaysCached(ctx.cache, t, ctx'.tables);
      assert ctx'.tables.varDecls[|t.varDecls|] == decl;
    } else {
      if key.1.None? {
        UntypedFilterMatchesNothing(t, key.0, key.2);
      }
      assert ctx'.tables == t && decl == t.varDecls[found.value];
    }
    assert decl in ctx'.tables.varDecls && KeyDescribes(ctx'.tables, key, decl);
    CacheVarKeepsConsistent(ctx.cache, ctx'.tables, key, decl);
    StoredVarAtId(ctx'.tables, decl);
  }

  /** Remembering a stored row under a key that describes it keeps the cache consistent. */
  lemma CacheVarKeepsConsistent(c: CacheMaps, t: Tables, key: VarKey, decl: VarDecl)
    requires StoreRules(t) && TypesCached(c.types, t) && ProcsCached(c.procs, t) && VarsCached(c.vars, t)
    requires decl in t.varDecls && KeyDescribes(t, key, decl)
    ensures Consistent(Ctx(c.(vars := c.vars[key := decl]), t))
  {
  }

  /**
   * `get_var_decl` returns a stored row that has the var's path and encoded
   * constant and is typed exactly when the var has a declaration, with the
   * canonical declared type; it keeps the cache consistent and writes only
   * declaration rows.
   */
  lemma VarLookupSpec(ctx: Ctx, varPath: string, v: TypeVar)
    requires Consistent(ctx)
    ensures var (decl, ctx') := VarLookup(ctx, varPath, v);
      var key := GetVarKey(varPath, v);
      && Consistent(ctx')
      && DeclsGrow(ctx.tables, ctx'.tables)
      && SameOutsideDecls(ctx.tables, ctx'.tables)
      && ctx'.tables.procDecls == ctx.tables.procDecls
      && KeyDescribes(ctx'.tables, key, decl)
      && 1 <= decl.id <= |ctx'.tables.varDecls| && ctx'.tables.varDecls[decl.id - 1] == decl
      && ctx'.cache.vars == ctx.cache.vars[key := decl]
      && ctx'.cache.procs == ctx.cache.procs
  {
    var key := GetVarKey(varPath, v);
    if key in ctx.cache.vars {
      assert VarLookup(ctx, varPath, v) == (ctx.cache.vars[key], ctx);
      CachedVarSpec(ctx, key);
    } else {
      assert VarLookup(ctx, varPath, v) == StoreVarLookup(DeclaredTypeId(ctx, key.1).1, key, DeclaredTypeId(ctx, key.1).0);
      UncachedVarSpec(ctx, key);
    }
  }

  /** A key not in the map: the declared type is looked up, then the store half runs. */
  lemma UncachedVarSpec(ctx: Ctx, key: VarKey)
    requires Consistent(ctx)
    ensures var (id, ctxA) := DeclaredTypeId(ctx, key.1);
      var (decl, ctx') := StoreVarLookup(ctxA, key, id);
      && Consistent(ctx')
      && DeclsGrow(ctx.tables, ctx'.tables)
      && SameOutsideDecls(ctx.tables, ctx'.tables)
      && ctx'.tables.procDecls == ctx.tables.procDecls
      && KeyDescribes(ctx'.tables, key, decl)
      && 1 <= decl.id <= |ctx'.tables.varDecls| && ctx'.tables.varDecls[decl.id - 1] == decl
      && ctx'.cache.vars == ctx.cache.vars[key := decl]
      && ctx'.cache.procs == ctx.cache.procs
  {
    var (id, ctxA) := DeclaredTypeId(ctx, key.1);
    DeclaredTypeIdSpec(ctx, key.1);
    StoreAfterTypeLookup(ctx, ctxA, key, id);
  }

  /** A key found in the map is answered with its row, which the key describes, and nothing changes. */
  lemma CachedVarSpec(ctx: Ctx, key: VarKey)
    requires Consistent(ctx) && key in ctx.cache.vars
    ensures var decl := ctx.cache.vars[key];
      && KeyDescribes(ctx.tables, key, decl)
      && 1 <= decl.id <= |ctx.tables.varDecls| && ctx.tables.varDecls[decl.id - 1] == decl
      && ctx.cache.vars == ctx.cache.vars[key := decl]
      && DeclsGrow(ctx.tables, ctx.tables)
  {
    StoredVarAtId(ctx.tables, ctx.cache.vars[key]);
    assert ctx.tables.varDecls[..|ctx.tables.varDecls|] == ctx.tables.varDecls;
    assert ctx.tables.typeDecls[..|ctx.tables.typeDecls|] == ctx.tables.typeDecls;
    assert ctx.tables.procDecls[..|ctx.tables.procDecls|] == ctx.tables.procDecls;
  }

  /** The store half of `get_var_decl`, run after the declared type was looked up, described relative to the state before that lookup. */
  lemma StoreAfterTypeLookup(ctx: Ctx, ctxA: Ctx, key: VarKey, id: int)
    requires Consistent(ctxA) && DeclsGrow(ctx.tables, ctxA.tables) && SameOutsideDecls(ctx.tables, ctxA.tables)
    requires ctxA.tables.procDecls == ctx.tables.procDecls
    requires ctxA.cache.vars == ctx.cache.vars && ctxA.cache.procs == ctx.cache.procs
    requires key.1.None? ==> id == -1
    requires key.1.Some? ==>
      1 <= id <= |ctxA.tables.typeDecls| && ctxA.tables.typeDecls[id - 1].path == CanonicalTypePath(key.1.value)
    ensures var (decl, ctx') := StoreVarLookup(ctxA, key, id);
      && Consistent(ctx')
      && DeclsGrow(ctx.tables, ctx'.tables)
      && SameOutsideDecls(ctx.tables, ctx'.tables)
      && ctx'.tables.procDecls == ctx.tables.procDecls
      && KeyDescribes(ctx'.tables, key, decl)
      && 1 <= decl.id <= |ctx'.tables.varDecls| && ctx'.tables.varDecls[decl.id - 1] == decl
      && ctx'.cache.vars == ctx.cache.vars[key := decl]
      && ctx'.cache.procs == ctx.cache.procs
  {
    StoreVarLookupSpec(ctxA, key, id);
    DeclsGrowTransitive(ctx.tables, ctxA.tables, StoreVarLookup(ctxA, key, id).1.tables);
  }

  /** A second `get_type` with the same path is answered from the map: the same row, and nothing changes. */
  lemma TypeLookupRepeats(ctx: Ctx, typePath: string)
    ensures var (decl, ctx') := TypeLookup(ctx, typePath); TypeLookup(ctx', typePath) == (decl, ctx')
  {
  }

  /** A second `get_proc` with the same path is answered from the map. */
  lemma ProcLookupRepeats(ctx: Ctx, path: string)
    ensures var (decl, ctx') := ProcLookup(ctx, path); ProcLookup(ctx', path) == (decl, ctx')
  {
  }

  /** A second `get_var_decl` with the same var is answered from the map. */
  lemma VarLookupRepeats(ctx: Ctx, varPath: string, v: TypeVar)
    ensures var (decl, ctx') := VarLookup(ctx, varPath, v); VarLookup(ctx', varPath, v) == (decl, ctx')
  {
    var key := GetVarKey(varPath, v);
    if key !in ctx.cache.vars {
      var typed := DeclaredTypeId(ctx, key.1);
      var (decl, ctx') := StoreVarLookup(typed.1, key, typed.0);
      assert key in ctx'.cache.vars && ctx'.cache.vars[key] == decl;
    }
  }

  /**
   * Var distinctness: two observations of one path get one row when their
   * keys agree, and two different rows when their encoded constants differ,
   * when only one of them is typed, or when their declared types differ
   * after canonicalisation.
   */
  lemma VarDistinctness(ctx: Ctx, varPath: string, v1: TypeVar, v2: TypeVar)
    requires Consistent(ctx)
    ensures var (d1, c1) := VarLookup(ctx, varPath, v1);
      var (d2, c2) := VarLookup(c1, varPath, v2);
      var k1, k2 := GetVarKey(varPath, v1), GetVarKey(varPath, v2);
      && (k1 == k2 ==> d2 == d1 && c2 == c1)
      && (k1.2 != k2.2 || k1.1.Some? != k2.1.Some?
          || (k1.1.Some? && k2.1.Some? && CanonicalTypePath(k1.1.value) != CanonicalTypePath(k2.1.value))
          ==> d1.id != d2.id)
  {
    if GetVarKey(varPath, v1) == GetVarKey(varPath, v2) {
      SameKeyCached(ctx, varPath, v1, v2);
    } else {
      OtherKeyOtherRow(ctx, varPath, v1, v2);
    }
  }

  /** A second lookup of the key just looked up is answered from the cache. */
  lemma SameKeyCached(ctx: Ctx, varPath: string, v1: TypeVar, v2: TypeVar)
    requires Consistent(ctx) && GetVarKey(varPath, v1) == GetVarKey(varPath, v2)
    ensures var (d1, c1) := VarLookup(ctx, varPath, v1);
      VarLookup(c1, varPath, v2) == (d1, c1)
  {
    var (d1, c1) := VarLookup(ctx, varPath, v1);
    assert c1.cache.vars == ctx.cache.vars[GetVarKey(varPath, v1) := d1] by {
      VarLookupSpec(ctx, varPath, v1);
    }
  }

  /** Two lookups whose rows share an id agree on name, typedness and canonical declared type. */
  lemma OtherKeyOtherRow(ctx: Ctx, varPath: string, v1: TypeVar, v2: TypeVar)
    requires Consistent(ctx)
    ensures var (d1, c1) := VarLookup(ctx, varPath, v1);
      var (d2, c2) := VarLookup(c1, varPath, v2);
      var k1, k2 := GetVarKey(varPath, v1), GetVarKey(varPath, v2);
      d1.id == d2.id ==>
        && k1.2 == k2.2 && k1.1.Some? == k2.1.Some?
        && (k1.1.Some? && k2.1.Some? ==> CanonicalTypePath(k1.1.value) == CanonicalTypePath(k2.1.value))
  {
    var (d1, c1) := VarLookup(ctx, varPath, v1);
    VarLookupSpec(ctx, varPath, v1);
    LaterRowOfSameId(c1, GetVarKey(varPath, v1), d1, varPath, v2);
  }

  /** A lookup after a row was stored for `k1` returns that row's id only for a key that agrees with `k1`. */
  lemma LaterRowOfSameId(c1: Ctx, k1: VarKey, d1: VarDecl, varPath: string, v2: TypeVar)
    requires Consistent(c1) && KeyDescribes(c1.tables, k1, d1)
    requires 1 <= d1.id <= |c1.tables.varDecls| && c1.tables.varDecls[d1.id - 1] == d1
    ensures var (d2, c2) := VarLookup(c1, varPath, v2);
      var k2 := GetVarKey(varPath, v2);
      d1.id == d2.id ==>
        && k1.2 == k2.2 && k1.1.Some? == k2.1.Some?
        && (k1.1.Some? && k2.1.Some? ==> CanonicalTypePath(k1.1.value) == CanonicalTypePath(k2.1.value))
  {
    var k2 := GetVarKey(varPath, v2);
    var (d2, c2) := VarLookup(c1, varPath, v2);
    assert && DeclsGrow(c1.tables, c2.tables) && KeyDescribes(c2.tables, k2, d2)
           && 1 <= d2.id <= |c2.tables.varDecls| && c2.tables.varDecls[d2.id - 1] == d2 by {
      VarLookupSpec(c1, varPath, v2);
    }
    if d1.id == d2.id {
      SameRowSameKey(c1.tables, c2.tables, k1, k2, d1, d2);
    }
  }

  /** A row at one id of two tables, the second grown from the first, is one row, so the keys it is described by agree. */
  lemma SameRowSameKey(t1: Tables, t2: Tables, k1: VarKey, k2: VarKey, d1: VarDecl, d2: VarDecl)
    requires DeclsGrow(t1, t2) && d1.id == d2.id
    requires KeyDescribes(t1, k1, d1) && 1 <= d1.id <= |t1.varDecls| && t1.varDecls[d1.id - 1] == d1
    requires KeyDescribes(t2, k2, d2) && 1 <= d2.id <= |t2.varDecls| && t2.varDecls[d2.id - 1] == d2
    ensures k1.2 == k2.2 && k1.1.Some? == k2.1.Some?
    ensures k1.1.Some? && k2.1.Some? ==> CanonicalTypePath(k1.1.value) == CanonicalTypePath(k2.1.value)
  {
    assert t2.varDecls[d1.id - 1] == t2.varDecls[..|t1.varDecls|][d1.id - 1];
    if k1.1.Some? && k2.1.Some? {
      var i := d1.declaredTypeId.value - 1;
      assert t2.typeDecls[i] == t2.typeDecls[..|t1.typeDecls|][i];
    }
  }

  /** A path without its leading `/` and the path with it share one map entry and one row. */
  lemma TypePathsWithAndWithoutSlash(ctx: Ctx, p: string)
    requires p == [] || p[0] != '/'
    ensures TypeLookup(ctx, p) == TypeLookup(ctx, "/" + p)
    ensures var (decl, ctx') := TypeLookup(ctx, p); TypeLookup(ctx', "/" + p) == (decl, ctx')
  {
    CanonicalTypePathSame(p, "/" + p);
  }

  lemma FindTypeRowOfUnique(rows: seq<TypeDecl>, i: nat)
    requires UniqueTypePaths(rows) && i < |rows|
    ensures FindTypeRow(rows, rows[i].path) == Some(i)
  {
  }

  lemma FindVarRowAfter(rows: seq<VarDecl>, more: seq<VarDecl>, path: string, declaredTypeId: int, jsonConstVal: string)
    requires FindVarRow(rows, path, declaredTypeId, jsonConstVal).Some? || |more| == 0 ||
      (|more| == 1 && VarRowMatches(more[0], path, declaredTypeId, jsonConstVal))
    ensures FindVarRow(rows, path, declaredTypeId, jsonConstVal).Some? ==>
      FindVarRow(rows + more, path, declaredTypeId, jsonConstVal) == FindVarRow(rows, path, declaredTypeId, jsonConstVal)
    ensures FindVarRow(rows, path, declaredTypeId, jsonConstVal).None? && |more| == 0 ==>
      FindVarRow(rows + more, path, declaredTypeId, jsonConstVal).None?
    ensures FindVarRow(rows, path, declaredTypeId, jsonConstVal).None? && |more| == 1 ==>
      FindVarRow(rows + more, path, declaredTypeId, jsonConstVal) == Some(|rows|)
  {
    var all := rows + more;
    var r := FindVarRow(rows, path, declaredTypeId, jsonConstVal);
    var r' := FindVarRow(all, path, declaredTypeId, jsonConstVal);
    if r.Some? {
      assert VarRowMatches(all[r.value], path, declaredTypeId, jsonConstVal);
      assert forall j :: 0 <= j < |rows| ==> all[j] == rows[j];
    } else if |more| == 0 {
      assert all == rows;
    } else {
      assert VarRowMatches(all[|rows|], path, declaredTypeId, jsonConstVal);
      assert forall j :: 0 <= j < |rows| ==> all[j] == rows[j];
    }
  }

  /**
   * Across runs the map starts empty and only the store remembers. A typed
   * var is found again: a second run over the first run's tables returns the
   * same row and writes nothing.
   */
  lemma TypedVarFoundAcrossRuns(t: Tables, varPath: string, v: TypeVar)
    requires StoreRules(t) && v.declaredType.Some?
    ensures var (d1, c1) := VarLookup(Ctx(EmptyCache, t), varPath, v);
      var (d2, c2) := VarLookup(Ctx(EmptyCache, c1.tables), varPath, v);
      d2 == d1 && c2.tables == c1.tables
  {
    var key := GetVarKey(varPath, v);
    var ctx := Ctx(EmptyCache, t);
    var (id1, ctxA) := DeclaredTypeId(ctx, key.1);
    assert && StoreRules(ctxA.tables) && 1 <= id1 <= |ctxA.tables.typeDecls|
           && ctxA.tables.typeDecls[id1 - 1].path == CanonicalTypePath(key.1.value) by {
      FreshCacheConsistent(t);
      DeclaredTypeIdSpec(ctx, key.1);
    }
    assert VarLookup(ctx, varPath, v) == StoreVarLookup(ctxA, key, id1);
    var ctx2 := Ctx(EmptyCache, StoreVarLookup(ctxA, key, id1).1.tables);
    assert VarLookup(ctx2, varPath, v) == StoreVarLookup(DeclaredTypeId(ctx2, key.1).1, key, DeclaredTypeId(ctx2, key.1).0);
    TypedRowFoundAgain(ctxA, key, id1);
  }

  /** After the store half ran for a typed key, a fresh lookup resolves the same type id and finds the same row. */
  lemma TypedRowFoundAgain(ctxA: Ctx, key: VarKey, id1: int)
    requires StoreRules(ctxA.tables) && key.1.Some?
    requires 1 <= id1 <= |ctxA.tables.typeDecls| && ctxA.tables.typeDecls[id1 - 1].path == CanonicalTypePath(key.1.value)
    ensures var (d1, c1) := StoreVarLookup(ctxA, key, id1);
      var (id2, ctxB) := DeclaredTypeId(Ctx(EmptyCache, c1.tables), key.1);
      var (d2, c2) := StoreVarLookup(ctxB, key, id2);
      d2 == d1 && c2.tables == c1.tables
  {
    var found := FindVarRow(ctxA.tables.varDecls, key.0, id1, key.2);
    var (d1, c1) := StoreVarLookup(ctxA, key, id1);
    assert c1.tables.typeDecls == ctxA.tables.typeDecls;
    assert StoreRules(c1.tables) by {
      if found.None? {
        AddVarDeclKeepsRules(ctxA.tables, key.0, Some(id1), key.2);
      }
    }
    // The second run finds the type row of the first by its unique path.
    var (id2, ctxB) := DeclaredTypeId(Ctx(EmptyCache, c1.tables), key.1);
    assert id2 == id1 && ctxB.tables == c1.tables by {
      FindTypeRowOfUnique(c1.tables.typeDecls, id1 - 1);
      assert c1.tables.typeDecls[id1 - 1].id == id1;
    }
    StoredRowFoundAgain(ctxA, ctxB, key, id1);
  }

  /** The store half run again over its own result, with a declared type id, finds the row it returned and writes nothing. */
  lemma StoredRowFoundAgain(ctxA: Ctx, ctxB: Ctx, key: VarKey, id: int)
    requires id >= 0 && ctxB.tables == StoreVarLookup(ctxA, key, id).1.tables
    ensures StoreVarLookup(ctxB, key, id).0 == StoreVarLookup(ctxA, key, id).0
    ensures StoreVarLookup(ctxB, key, id).1.tables == ctxB.tables
  {
    var rows := ctxA.tables.varDecls;
    if FindVarRow(rows, key.0, id, key.2).Some? {
      FindVarRowAfter(rows, [], key.0, id, key.2);
      assert ctxB.tables.varDecls == rows + [];
    } else {
      var added := ctxB.tables.varDecls[|rows|..];
      assert ctxB.tables.varDecls == rows + added;
      FindVarRowAfter(rows, added, key.0, id, key.2);
    }
  }

  /**
   * An untyped var is never found in the store, because its lookup filters on
   * a declared type id of -1 while the row holds NULL: every run inserts
   * another row identical to the last but for its id.
   */
  lemma UntypedVarDuplicatedAcrossRuns(t: Tables, varPath: string, v: TypeVar)
    requires StoreRules(t) && v.declaredType.None?
    ensures var (d1, c1) := VarLookup(Ctx(EmptyCache, t), varPath, v);
      var (d2, c2) := VarLookup(Ctx(EmptyCache, c1.tables), varPath, v);
      && c1.tables == AddVarDecl(t, varPath, None, EncodeConstant(v.constant))
      && c2.tables == AddVarDecl(c1.tables, varPath, None, EncodeConstant(v.constant))
      && d1.id != d2.id && d2 == d1.(id := d2.id)
  {
    var ctx := Ctx(EmptyCache, t);
    FreshCacheConsistent(t);
    UntypedFilterMatchesNothing(t, varPath, EncodeConstant(v.constant));
    VarLookupSpec(ctx, varPath, v);
    var (d1, c1) := VarLookup(ctx, varPath, v);
    FreshCacheConsistent(c1.tables);
    UntypedFilterMatchesNothing(c1.tables, varPath, EncodeConstant(v.constant));
  }

  /** The declaration cache of one ingestion run. */
  class Cache {
    var types: map<string, TypeDecl>
    var vars: map<VarKey, VarDecl>
    var procs: map<string, ProcDecl>

    function Maps(): CacheMaps
      reads this
    {
      CacheMaps(types, vars, procs)
    }

    constructor ()
      ensures Maps() == EmptyCache
    {
      types := map[];
      vars := map[];
      procs := map[];
    }

    method GetType(typePath: string, txn: Transaction) returns (r: Result<TypeDecl, IngestError>)
      modifies this`types, txn
      ensures var (decl, ctx') := TypeLookup(Ctx(old(Maps()), old(txn.tables)), typePath);
        r == Ok(decl) && Maps() == ctx'.cache && txn.tables == ctx'.tables
    {
      var path := CanonicalTypePath(typePath);
      if path in types {
        return CacheGet(types, path, "cannot get type from cache");
      }
      var model := FindTypeRow(txn.tables.typeDecls, path);
      var typeDecl: TypeDecl;
      if model.Some? {
        typeDecl := txn.tables.typeDecls[model.value];
      } else {
        typeDecl := txn.SaveTypeDecl(path);
      }
      types := types[path := typeDecl];
      r := CacheGet(types, path, "cannot get type from cache");
    }

    method GetProc(path: string, txn: Transaction) returns (r: Result<ProcDecl, IngestError>)
      modifies this`procs, txn
      ensures var (decl, ctx') := ProcLookup(Ctx(old(Maps()), old(txn.tables)), path);
        r == Ok(decl) && Maps() == ctx'.cache && txn.tables == ctx'.tables
    {
      if path in procs {
        return CacheGet(procs, path, "cannot get type from cache");
      }
      var model := FindProcRow(txn.tables.procDecls, path);
      var procDecl: ProcDecl;
      if model.Some? {
        procDecl := txn.tables.procDecls[model.value];
      } else {
        procDecl := txn.SaveProcDecl(path);
      }
      procs := procs[path := procDecl];
      r := CacheGet(procs, path, "cannot get type from cache");
    }

    method GetVarDecl(varPath: string, v: TypeVar, txn: Transaction) returns (r: Result<VarDecl, IngestError>)
      modifies this`vars, this`types, txn
      ensures var (decl, ctx') := VarLookup(Ctx(old(Maps()), old(txn.tables)), varPath, v);
        r == Ok(decl) && Maps() == ctx'.cache && txn.tables == ctx'.tables
    {
      var varKey := GetVarKey(varPath, v);
      if varKey in vars {
        return CacheGet(vars, varKey, "cannot get var from cache");
      }
      var declaredTypeId := -1;
      if varKey.1.Some? {
        var declaredType := GetType(varKey.1.value, txn);
        declaredTypeId := declaredType.value.id;
      }
      var model := FindVarRow(txn.tables.varDecls, varPath, declaredTypeId, varKey.2);
      var varDecl: VarDecl;
      if model.Some? {
        varDecl := txn.tables.varDecls[model.value];
      } else {
        var column := if declaredTypeId >= 0 then Some(declaredTypeId) else None;
        varDecl := txn.SaveVarDecl(varPath, column, varKey.2);
      }
      vars := vars[varKey := varDecl];
      r := CacheGet(vars, varKey, "cannot get var from cache");
    }
  }
}
