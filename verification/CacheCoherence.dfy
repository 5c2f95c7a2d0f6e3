/**
 * The read cache beside OPFS, driven by interleaved storage requests. Every
 * request is split at its awaits; between two steps of one request any number
 * of steps of others may run.
 */
module CacheCoherence {
  import opened Prelude
  import opened StoragePaths
  import opened RecencyList

  const DEFAULT_CONTENT_TYPE: string := "application/octet-stream"

  /** A request that is past its first await. */
  datatype Op =
    // `get` after a miss: the parts of OPFS it has read so far
    | Reading(path: string, ticket: nat, body: Option<Bytes>, contentType: Option<string>)
    // `put`
    | Putting(path: string, ticket: nat, data: Bytes, kind: string, wroteBody: bool, wroteMeta: bool)
    // `put_streaming` or `delete`: rewrites or removes its own two files
    | Rewriting(path: string)
    // `delete_folder`
    | DeletingFolder(folder: string)

  /** `bodies` and `metas` are OPFS's object files and the sidecars beside them. */
  datatype State = State(cache: Lru, bodies: map<string, Bytes>, metas: map<string, string>, ops: map<nat, Op>)

  datatype Step =
    | GetStart(id: nat, path: string)
    | ReadBody(id: nat)
    | ReadMeta(id: nat)
    | GetDone(id: nat, key: string, now: int)
    | GetFail(id: nat)
    | PutStart(id: nat, path: string, data: Bytes, kind: string)
    | PutCreate(id: nat)
    | PutBody(id: nat)
    | PutMeta(id: nat)
    | PutDone(id: nat, key: string, now: int)
    | PutFail(id: nat)
    | RewriteStart(id: nat, path: string)
    | Rewrite(id: nat, newBody: Option<Bytes>, newMeta: Option<string>)
    | RewriteEnd(id: nat)
    | FolderStart(id: nat, folder: string)
    | FolderRemove(id: nat, bodies: set<string>, metas: set<string>)
    | FolderEnd(id: nat)

  function ContentType(s: State, path: string): string
  {
    if path in s.metas then s.metas[path] else DEFAULT_CONTENT_TYPE
  }

  function SetTo<T>(m: map<string, T>, path: string, value: Option<T>): map<string, T>
  {
    if value.Some? then m[path := value.value] else m - {path}
  }

  predicate Enabled(s: State, step: Step)
  {
    match step
    case GetStart(id, _) => id !in s.ops
    case ReadBody(id) => id in s.ops && s.ops[id].Reading? && s.ops[id].body.None? && s.ops[id].path in s.bodies
    case ReadMeta(id) => id in s.ops && s.ops[id].Reading? && s.ops[id].body.Some? && s.ops[id].contentType.None?
    case GetDone(id, _, _) => id in s.ops && s.ops[id].Reading? && s.ops[id].body.Some? && s.ops[id].contentType.Some?
    case GetFail(id) => id in s.ops && s.ops[id].Reading?
    case PutStart(id, _, _, _) => id !in s.ops
    case PutCreate(id) => id in s.ops && s.ops[id].Putting? && !s.ops[id].wroteBody
    case PutBody(id) => id in s.ops && s.ops[id].Putting? && !s.ops[id].wroteBody
    case PutMeta(id) => id in s.ops && s.ops[id].Putting? && s.ops[id].wroteBody && !s.ops[id].wroteMeta
    case PutDone(id, _, _) => id in s.ops && s.ops[id].Putting? && s.ops[id].wroteBody && s.ops[id].wroteMeta
    case PutFail(id) => id in s.ops && s.ops[id].Putting?
    case RewriteStart(id, _) => id !in s.ops
    case Rewrite(id, _, _) => id in s.ops && s.ops[id].Rewriting?
    case RewriteEnd(id) => id in s.ops && s.ops[id].Rewriting?
    case FolderStart(id, _) => id !in s.ops
    // `removeEntry(leaf, { recursive: true })` removes the entry of that name,
    // file or directory, and everything below it - or, when it fails, some of it.
    case FolderRemove(id, bodies, metas) =>
      && id in s.ops && s.ops[id].DeletingFolder?
      && (forall p | p in bodies :: p == s.ops[id].folder || Under(s.ops[id].folder, p))
      && (forall p | p in metas :: MetaName(p) == s.ops[id].folder || Under(s.ops[id].folder, MetaName(p)))
    case FolderEnd(id) => id in s.ops && s.ops[id].DeletingFolder?
  }

  function Apply(s: State, step: Step): State
    requires Enabled(s, step)
  {
    match step
    case GetStart(id, path) =>
      if Find(s.cache.items, path).Some? then s.(cache := Get(s.cache, path))
      else s.(ops := s.ops[id := Reading(path, s.cache.epoch, None, None)])
    case ReadBody(id) => s.(ops := s.ops[id := s.ops[id].(body := Some(s.bodies[s.ops[id].path]))])
    case ReadMeta(id) => s.(ops := s.ops[id := s.ops[id].(contentType := Some(ContentType(s, s.ops[id].path)))])
    case GetDone(id, key, now) =>
      var op := s.ops[id];
      var info := ObjectInfo(key, |op.body.value|, op.contentType.value, now);
      s.(cache := InsertRead(s.cache, op.ticket, op.path, Cached(op.body.value, info)), ops := s.ops - {id})
    case GetFail(id) => s.(ops := s.ops - {id})
    case PutStart(id, path, data, kind) =>
      var voided := Invalidate(s.cache, path);
      s.(cache := voided, ops := s.ops[id := Putting(path, voided.epoch, data, kind, false, false)])
    case PutCreate(id) =>
      var path := s.ops[id].path;
      s.(bodies := if path in s.bodies then s.bodies else s.bodies[path := []])
    case PutBody(id) =>
      var op := s.ops[id];
      s.(bodies := s.bodies[op.path := op.data], ops := s.ops[id := op.(wroteBody := true)])
    case PutMeta(id) =>
      var op := s.ops[id];
      s.(metas := s.metas[op.path := op.kind], ops := s.ops[id := op.(wroteMeta := true)])
    case PutDone(id, key, now) =>
      var op := s.ops[id];
      var info := ObjectInfo(key, |op.data|, op.kind, now);
      s.(cache := InsertWritten(s.cache, op.ticket, op.path, Cached(op.data, info)), ops := s.ops - {id})
    case PutFail(id) => s.(cache := Invalidate(s.cache, s.ops[id].path), ops := s.ops - {id})
    case RewriteStart(id, path) =>
      s.(cache := Invalidate(s.cache, path), ops := s.ops[id := Rewriting(path)])
    case Rewrite(id, newBody, newMeta) =>
      var path := s.ops[id].path;
      s.(bodies := SetTo(s.bodies, path, newBody), metas := SetTo(s.metas, path, newMeta))
    case RewriteEnd(id) => s.(cache := Invalidate(s.cache, s.ops[id].path), ops := s.ops - {id})
    case FolderStart(id, folder) =>
      s.(cache := InvalidateFolder(s.cache, folder), ops := s.ops[id := DeletingFolder(folder)])
    case FolderRemove(id, bodies, metas) => s.(bodies := s.bodies - bodies, metas := s.metas - metas)
    case FolderEnd(id) => s.(cache := InvalidateFolder(s.cache, s.ops[id].folder), ops := s.ops - {id})
  }

  // ─── Runs ───────────────────────────────────────────────────────────────

  /** A worker that has just started: an empty cache over whatever OPFS holds. */
  predicate Initial(s: State)
  {
    s.cache.items == [] && s.ops == map[]
  }

  predicate Allowed(s: State, run: seq<Step>)
    decreases |run|
  {
    run == [] || (Enabled(s, run[0]) && Allowed(Apply(s, run[0]), run[1..]))
  }

  function Final(s: State, run: seq<Step>): State
    requires Allowed(s, run)
    decreases |run|
  {
    if run == [] then s else Final(Apply(s, run[0]), run[1..])
  }

  // ─── Coherence ──────────────────────────────────────────────────────────

  /** The write `op` reports `path` to the cache at both its ends. */
  predicate Reports(op: Op, path: string)
  {
    match op
    case Reading(_, _, _, _) => false
    case DeletingFolder(folder) => Under(folder, path)
    case _ => op.path == path
  }

  /** A write on `path`, other than `self`, is in flight. */
  ghost predicate Disturbed(s: State, path: string, self: nat)
  {
    exists id :: id in s.ops && id != self && Reports(s.ops[id], path)
  }

  /** No write on `path` is in flight. */
  ghost predicate Quiet(s: State, path: string)
  {
    forall id :: id in s.ops ==> !Reports(s.ops[id], path)
  }

  /** `cached` is what a read of `path` that went to OPFS would report. */
  predicate Current(s: State, path: string, cached: Cached)
  {
    && path in s.bodies
    && cached.data == s.bodies[path]
    && cached.info.size == |s.bodies[path]|
    && cached.info.contentType == ContentType(s, path)
  }

  ghost predicate Coherent(s: State, path: string)
  {
    Find(s.cache.items, path).Some? && Quiet(s, path) ==> Current(s, path, Find(s.cache.items, path).value.cached)
  }

  /** A read whose ticket is current has read what OPFS still holds. */
  ghost predicate ReadUpToDate(s: State, op: Op)
    requires op.Reading?
  {
    op.ticket == s.cache.epoch && Quiet(s, op.path) ==>
      && (op.body.Some? ==> op.path in s.bodies && op.body.value == s.bodies[op.path])
      && (op.contentType.Some? ==> op.contentType.value == ContentType(s, op.path))
  }

  /** A put whose ticket is current is the last writer of what it has written. */
  ghost predicate PutUpToDate(s: State, id: nat, op: Op)
    requires op.Putting?
  {
    op.ticket == s.cache.epoch && !Disturbed(s, op.path, id) ==>
      && (op.wroteBody ==> op.path in s.bodies && op.data == s.bodies[op.path])
      && (op.wroteMeta ==> op.kind == ContentType(s, op.path))
  }

  ghost predicate OpInv(s: State, path: string, id: nat, op: Op)
  {
    match op
    case Reading(at, _, _, _) => at == path ==> ReadUpToDate(s, op)
    case Putting(at, _, _, _, _, _) => at == path ==> PutUpToDate(s, id, op)
    case _ => true
  }

  /** What holds whatever happens: no path twice, no ticket from the future. */
  ghost predicate Basic(s: State)
  {
    && Distinct(s.cache.items)
    && (forall id :: id in s.ops && (s.ops[id].Reading? || s.ops[id].Putting?) ==> s.ops[id].ticket <= s.cache.epoch)
  }

  /** What holds of one object's path, whatever else goes on. */
  ghost predicate Inv(s: State, path: string)
  {
    && Basic(s)
    && Coherent(s, path)
    && (forall id :: id in s.ops ==> OpInv(s, path, id, s.ops[id]))
  }

  // ─── The folder that is a file ──────────────────────────────────────────

  /** The bytes of `path` that the cache holds, or is about to. */
  ghost predicate BodyReliedOn(s: State, path: string)
  {
    || (Find(s.cache.items, path).Some? && Quiet(s, path))
    || exists id :: id in s.ops && OpReliesOnBody(s, path, id, s.ops[id])
  }

  ghost predicate OpReliesOnBody(s: State, path: string, id: nat, op: Op)
  {
    match op
    case Reading(at, ticket, body, _) => at == path && ticket == s.cache.epoch && Quiet(s, path) && body.Some?
    case Putting(at, ticket, _, _, wroteBody, _) =>
      at == path && ticket == s.cache.epoch && !Disturbed(s, path, id) && wroteBody
    case _ => false
  }

  /** The same of its content type. */
  ghost predicate KindReliedOn(s: State, path: string)
  {
    || (Find(s.cache.items, path).Some? && Quiet(s, path))
    || exists id :: id in s.ops && OpReliesOnKind(s, path, id, s.ops[id])
  }

  ghost predicate OpReliesOnKind(s: State, path: string, id: nat, op: Op)
  {
    match op
    case Reading(at, ticket, _, kind) => at == path && ticket == s.cache.epoch && Quiet(s, path) && kind.Some?
    case Putting(at, ticket, _, _, _, wroteMeta) =>
      at == path && ticket == s.cache.epoch && !Disturbed(s, path, id) && wroteMeta
    case _ => false
  }

  /**
   * `delete_folder` on a name that is a file removes that file, but the cache
   * is told only of what lies below the name. The object file of `path` goes
   * this way ...
   */
  predicate TakesBody(s: State, step: Step, path: string)
  {
    && step.FolderRemove? && Enabled(s, step) && !Under(s.ops[step.id].folder, path)
    && path in step.bodies && path in s.bodies
  }

  /** ... or its sidecar does, with a content type of its own. */
  predicate TakesKind(s: State, step: Step, path: string)
  {
    && step.FolderRemove? && Enabled(s, step) && !Under(s.ops[step.id].folder, path)
    && path in step.metas && ContentType(s, path) != DEFAULT_CONTENT_TYPE
  }

  /** The step takes a file of `path` that the cache counts on. */
  ghost predicate Spoils(s: State, step: Step, path: string)
  {
    || (TakesBody(s, step, path) && BodyReliedOn(s, path))
    || (TakesKind(s, step, path) && KindReliedOn(s, path))
  }

  /** The step reports `path` to the cache, which forgets it and every ticket. */
  predicate Heals(s: State, step: Step, path: string)
    requires Enabled(s, step)
  {
    match step
    case PutStart(_, at, _, _) => at == path
    case PutDone(id, _, _) => s.ops[id].path == path && s.ops[id].ticket != s.cache.epoch
    case PutFail(id) => s.ops[id].path == path
    case RewriteStart(_, at) => at == path
    case RewriteEnd(id) => s.ops[id].path == path
    case FolderStart(_, folder) => Under(folder, path)
    case FolderEnd(id) => Under(s.ops[id].folder, path)
    case _ => false
  }

  /**
   * Along the run, nothing has spoiled `path` since it was last reported to
   * the cache (or since the start, where it `stood`).
   */
  ghost predicate Stands(s: State, run: seq<Step>, path: string, stood: bool)
    requires Allowed(s, run)
    decreases |run|
  {
    if run == [] then stood
    else Stands(Apply(s, run[0]), run[1..], path, Heals(s, run[0], path) || (stood && !Spoils(s, run[0], path)))
  }

  /** No file of `path` is taken as a folder anywhere along the run. */
  ghost predicate NoFileTaken(s: State, run: seq<Step>, path: string)
    requires Allowed(s, run)
    decreases |run|
  {
    run != [] ==>
      && !TakesBody(s, run[0], path) && !TakesKind(s, run[0], path)
      && NoFileTaken(Apply(s, run[0]), run[1..], path)
  }

  // ─── What each kind of step keeps ───────────────────────────────────────

  /** The cache forgot what `op` reports, advanced its epoch, gained nothing. */
  ghost predicate Voided(before: Lru, after: Lru, op: Op)
  {
    && Distinct(after.items)
    && after.epoch == before.epoch + 1
    && (forall p :: KeptOrGone(Find(before.items, p), Find(after.items, p)))
    && (forall p :: Reports(op, p) ==> Find(after.items, p).None?)
  }

  lemma InvalidateVoids(c: Lru, op: Op)
    requires Distinct(c.items) && (op.Putting? || op.Rewriting?)
    ensures Voided(c, Invalidate(c, op.path), op)
  {
    WithoutFacts(c.items, op.path);
    forall p ensures Find(Without(c.items, op.path), p) == if p == op.path then None else Find(c.items, p) {
      FindWithout(c.items, op.path, p);
    }
  }

  lemma InvalidateFolderVoids(c: Lru, folder: string)
    requires Distinct(c.items)
    ensures Voided(c, InvalidateFolder(c, folder), DeletingFolder(folder))
  {
    WithoutFolderFacts(c.items, folder);
    forall p ensures Find(WithoutFolder(c.items, folder), p) == if Under(folder, p) then None else Find(c.items, p) {
      FindWithoutFolder(c.items, folder, p);
    }
  }

  lemma WriteStarts(s: State, path: string, id: nat, op: Op, cache: Lru)
    requires Inv(s, path) && id !in s.ops && !op.Reading? && Voided(s.cache, cache, op)
    requires op.Putting? ==> op.ticket == cache.epoch && !op.wroteBody && !op.wroteMeta
    ensures Inv(s.(cache := cache, ops := s.ops[id := op]), path)
  {
    var t := s.(cache := cache, ops := s.ops[id := op]);
    if Find(cache.items, path).Some? && Quiet(t, path) {
      assert forall i :: i in s.ops ==> t.ops[i] == s.ops[i];
      assert Quiet(s, path);
    }
    forall i | i in t.ops ensures OpInv(t, path, i, t.ops[i]) {
      if i != id { assert OpInv(s, path, i, s.ops[i]); }
    }
  }

  lemma WriteEnds(s: State, path: string, id: nat, cache: Lru)
    requires Inv(s, path) && id in s.ops && Voided(s.cache, cache, s.ops[id])
    ensures Inv(s.(cache := cache, ops := s.ops - {id}), path)
  {
    var t := s.(cache := cache, ops := s.ops - {id});
    if Find(cache.items, path).Some? && Quiet(t, path) {
      assert forall i :: i in s.ops && i != id ==> i in t.ops;
      assert Quiet(s, path);
    }
    forall i | i in t.ops ensures OpInv(t, path, i, t.ops[i]) {
      assert OpInv(s, path, i, s.ops[i]);
    }
  }

  /** OPFS changes only where a write in flight said it would. */
  lemma WriteRuns(s: State, path: string, id: nat, op: Op, t: State)
    requires Inv(s, path) && id in s.ops && !op.Reading?
    requires t.cache == s.cache && t.ops == s.ops[id := op]
    requires Reports(op, path) == Reports(s.ops[id], path)
    requires !Reports(op, path) ==>
               (path in t.bodies <==> path in s.bodies) && (path in s.bodies ==> t.bodies[path] == s.bodies[path])
               && ContentType(t, path) == ContentType(s, path)
    requires OpInv(t, path, id, op) && (op.Putting? ==> op.ticket <= s.cache.epoch)
    ensures Inv(t, path)
  {
    assert Quiet(t, path) == Quiet(s, path) by {
      assert forall i :: i in s.ops ==> Reports(t.ops[i], path) == Reports(s.ops[i], path);
    }
    assert t.ops[id] == op;
    forall i | i in t.ops ensures OpInv(t, path, i, t.ops[i]) {
      if i != id {
        assert OpInv(s, path, i, s.ops[i]);
        if t.ops[i].Putting? && t.ops[i].path == path && !Disturbed(t, path, i) {
          assert !Reports(t.ops[id], path);
          forall j | j in s.ops && j != i ensures !Reports(s.ops[j], path) {
            assert !Reports(t.ops[j], path);
          }
        }
      }
    }
  }

  lemma ReadAdvances(s: State, path: string, id: nat, op: Op)
    requires Inv(s, path) && op.Reading? && (id in s.ops ==> s.ops[id].Reading?)
    requires op.ticket <= s.cache.epoch && (op.path == path ==> ReadUpToDate(s, op))
    ensures Inv(s.(ops := s.ops[id := op]), path)
  {
    var t := s.(ops := s.ops[id := op]);
    SameWrites(s, t, path);
    forall i | i in t.ops ensures OpInv(t, path, i, t.ops[i]) {
      if i != id { assert OpInv(s, path, i, s.ops[i]); }
    }
  }

  lemma ReadEnds(s: State, path: string, id: nat)
    requires Inv(s, path) && id in s.ops && s.ops[id].Reading?
    ensures Inv(s.(ops := s.ops - {id}), path)
  {
    var t := s.(ops := s.ops - {id});
    SameWrites(s, t, path);
    forall i | i in t.ops ensures OpInv(t, path, i, t.ops[i]) {
      assert OpInv(s, path, i, s.ops[i]);
    }
  }

  /** Reads in flight disturb nobody. */
  lemma SameWrites(s: State, t: State, path: string)
    requires forall id :: id in s.ops && !s.ops[id].Reading? ==> id in t.ops && t.ops[id] == s.ops[id]
    requires forall id :: id in t.ops && !t.ops[id].Reading? ==> id in s.ops && t.ops[id] == s.ops[id]
    ensures Quiet(t, path) == Quiet(s, path)
    ensures forall id :: Disturbed(t, path, id) == Disturbed(s, path, id)
  {
  }

  /** The cache changed, at the same epoch, and what it finds for `path` is still right. */
  lemma CacheMoves(s: State, path: string, cache: Lru)
    requires Inv(s, path) && Distinct(cache.items) && cache.epoch == s.cache.epoch
    requires Coherent(s.(cache := cache), path)
    ensures Inv(s.(cache := cache), path)
  {
    var t := s.(cache := cache);
    SameWrites(s, t, path);
    forall i | i in t.ops ensures OpInv(t, path, i, t.ops[i]) {
      assert OpInv(s, path, i, s.ops[i]);
    }
  }

  /** Holding what OPFS holds - or anything, for a path being written - is safe. */
  lemma InsertKeeps(s: State, path: string, at: string, cached: Cached)
    requires Inv(s, path)
    requires at == path && Quiet(s, path) ==> Current(s, path, cached)
    ensures Inv(s.(cache := Insert(s.cache, at, cached)), path)
  {
    var t := s.(cache := Insert(s.cache, at, cached));
    FindAfterInsert(s.cache, at, cached, path);
    SameWrites(s, t, path);
    CacheMoves(s, path, t.cache);
  }

  // ─── Every step, every run ──────────────────────────────────────────────

  lemma StepKeeps(s: State, path: string, step: Step)
    requires Inv(s, path) && Enabled(s, step)
    requires !Spoils(s, step, path)
    ensures Inv(Apply(s, step), path)
  {
    match step
    case GetStart(id, at) => GetStartKeeps(s, path, id, at);
    case ReadBody(id) =>
      var op := s.ops[id];
      assert OpInv(s, path, id, op);
      ReadAdvances(s, path, id, op.(body := Some(s.bodies[op.path])));
    case ReadMeta(id) =>
      var op := s.ops[id];
      assert OpInv(s, path, id, op);
      ReadAdvances(s, path, id, op.(contentType := Some(ContentType(s, op.path))));
    case GetDone(id, key, now) => GetDoneKeeps(s, path, id, key, now);
    case GetFail(id) => ReadEnds(s, path, id);
    case PutStart(id, at, data, kind) =>
      var op := Putting(at, s.cache.epoch + 1, data, kind, false, false);
      InvalidateVoids(s.cache, op);
      WriteStarts(s, path, id, op, Invalidate(s.cache, at));
    case PutCreate(id) => PutRunKeeps(s, path, step, id);
    case PutBody(id) => PutRunKeeps(s, path, step, id);
    case PutMeta(id) => PutRunKeeps(s, path, step, id);
    case PutDone(id, key, now) => PutDoneKeeps(s, path, id, key, now);
    case PutFail(id) =>
      InvalidateVoids(s.cache, s.ops[id]);
      WriteEnds(s, path, id, Invalidate(s.cache, s.ops[id].path));
    case RewriteStart(id, at) =>
      InvalidateVoids(s.cache, Rewriting(at));
      WriteStarts(s, path, id, Rewriting(at), Invalidate(s.cache, at));
    case Rewrite(id, _, _) =>
      var t := Apply(s, step);
      assert t.ops == s.ops[id := s.ops[id]];
      WriteRuns(s, path, id, s.ops[id], t);
    case RewriteEnd(id) =>
      InvalidateVoids(s.cache, s.ops[id]);
      WriteEnds(s, path, id, Invalidate(s.cache, s.ops[id].path));
    case FolderStart(id, folder) =>
      InvalidateFolderVoids(s.cache, folder);
      WriteStarts(s, path, id, DeletingFolder(folder), InvalidateFolder(s.cache, folder));
    case FolderRemove(_, _, _) => FolderRemoveKeepsIff(s, path, step);
    case FolderEnd(id) =>
      InvalidateFolderVoids(s.cache, s.ops[id].folder);
      WriteEnds(s, path, id, InvalidateFolder(s.cache, s.ops[id].folder));
  }

  lemma GetStartKeeps(s: State, path: string, id: nat, at: string)
    requires Inv(s, path) && Enabled(s, GetStart(id, at))
    ensures Inv(Apply(s, GetStart(id, at)), path)
  {
    if Find(s.cache.items, at).Some? {
      var t := Apply(s, GetStart(id, at));
      FindAfterGet(s.cache, at, path);
      SameWrites(s, t, path);
      CacheMoves(s, path, t.cache);
    } else {
      ReadAdvances(s, path, id, Reading(at, s.cache.epoch, None, None));
    }
  }

  lemma GetDoneKeeps(s: State, path: string, id: nat, key: string, now: int)
    requires Inv(s, path) && Enabled(s, GetDone(id, key, now))
    ensures Inv(Apply(s, GetDone(id, key, now)), path)
  {
    var op, t := s.ops[id], s.(ops := s.ops - {id});
    assert OpInv(s, path, id, op);
    ReadEnds(s, path, id);
    SameWrites(s, t, path);
    if op.ticket == s.cache.epoch {
      var info := ObjectInfo(key, |op.body.value|, op.contentType.value, now);
      InsertKeeps(t, path, op.path, Cached(op.body.value, info));
    }
  }

  lemma PutRunKeeps(s: State, path: string, step: Step, id: nat)
    requires Inv(s, path) && Enabled(s, step) && step.id == id
    requires step.PutCreate? || step.PutBody? || step.PutMeta?
    ensures Inv(Apply(s, step), path)
  {
    var op, t := s.ops[id], Apply(s, step);
    assert OpInv(s, path, id, op);
    assert t.ops == s.ops[id := t.ops[id]];
    if !Disturbed(t, path, id) {
      forall j | j in s.ops && j != id ensures !Reports(s.ops[j], path) {
        assert t.ops[j] == s.ops[j];
      }
      assert !Disturbed(s, path, id);
    }
    WriteRuns(s, path, id, t.ops[id], t);
  }

  lemma PutDoneKeeps(s: State, path: string, id: nat, key: string, now: int)
    requires Inv(s, path) && Enabled(s, PutDone(id, key, now))
    ensures Inv(Apply(s, PutDone(id, key, now)), path)
  {
    var op := s.ops[id];
    var voided := Invalidate(s.cache, op.path);
    InvalidateVoids(s.cache, op);
    WriteEnds(s, path, id, voided);
    var t := s.(cache := voided, ops := s.ops - {id});
    if op.ticket == s.cache.epoch {
      var cached := Cached(op.data, ObjectInfo(key, |op.data|, op.kind, now));
      if op.path == path && Quiet(t, path) {
        assert !Disturbed(s, path, id) by {
          forall j | j in s.ops && j != id ensures !Reports(s.ops[j], path) {
            assert j in t.ops;
          }
        }
        assert OpInv(s, path, id, op);
      }
      InsertKeeps(t, path, op.path, cached);
    }
  }

  /**
   * A recursive removal, run to its end or not, in any reachable state and
   * whatever is in flight: it keeps the path right exactly when it takes no
   * file of it that the cache counts on.
   */
  lemma FolderRemoveKeepsIff(s: State, path: string, step: Step)
    requires Inv(s, path) && Enabled(s, step) && step.FolderRemove?
    ensures Inv(Apply(s, step), path) <==> !Spoils(s, step, path)
  {
    var op, t := s.ops[step.id], Apply(s, step);
    assert t.ops == s.ops[step.id := op];
    if Under(op.folder, path) {
      WriteRuns(s, path, step.id, op, t);
    } else {
      SidecarUnderIffObjectUnder(op.folder, path);
      SameWrites(s, t, path);
      forall i | i in t.ops
        ensures OpInv(t, path, i, t.ops[i]) <==>
                !(TakesBody(s, step, path) && OpReliesOnBody(s, path, i, s.ops[i]))
                && !(TakesKind(s, step, path) && OpReliesOnKind(s, path, i, s.ops[i]))
      {
        assert OpInv(s, path, i, s.ops[i]);
      }
    }
  }

  // ─── Healing ────────────────────────────────────────────────────────────

  /** A report of `path`, wherever the state came from: nothing held, no ticket current. */
  lemma VoidedHeals(s: State, path: string, op: Op, t: State)
    requires Basic(s) && Voided(s.cache, t.cache, op) && Reports(op, path)
    requires forall id :: id in t.ops && id in s.ops ==> t.ops[id] == s.ops[id]
    requires forall id :: id in t.ops && id !in s.ops ==> t.ops[id] == op && !op.Reading?
    requires op.Putting? && (exists id :: id in t.ops && id !in s.ops) ==>
               op.ticket == t.cache.epoch && !op.wroteBody && !op.wroteMeta
    ensures Inv(t, path)
  {
  }

  lemma HealKeeps(s: State, path: string, step: Step)
    requires Basic(s) && Enabled(s, step) && Heals(s, step, path)
    ensures Inv(Apply(s, step), path)
  {
    var t := Apply(s, step);
    match step
    case PutStart(id, at, data, kind) =>
      var op := t.ops[id];
      InvalidateVoids(s.cache, op);
      VoidedHeals(s, path, op, t);
    case RewriteStart(id, at) =>
      InvalidateVoids(s.cache, Rewriting(at));
      VoidedHeals(s, path, Rewriting(at), t);
    case FolderStart(id, folder) =>
      InvalidateFolderVoids(s.cache, folder);
      VoidedHeals(s, path, DeletingFolder(folder), t);
    case FolderEnd(id) =>
      InvalidateFolderVoids(s.cache, s.ops[id].folder);
      VoidedHeals(s, path, s.ops[id], t);
    case PutDone(id, _, _) =>
      InvalidateVoids(s.cache, s.ops[id]);
      VoidedHeals(s, path, s.ops[id], t);
    case PutFail(id) =>
      InvalidateVoids(s.cache, s.ops[id]);
      VoidedHeals(s, path, s.ops[id], t);
    case RewriteEnd(id) =>
      InvalidateVoids(s.cache, s.ops[id]);
      VoidedHeals(s, path, s.ops[id], t);
  }

  lemma BasicKeeps(s: State, step: Step)
    requires Basic(s) && Enabled(s, step)
    ensures Basic(Apply(s, step))
  {
    match step
    case GetStart(id, at) => FindAfterGet(s.cache, at, at);
    case GetDone(id, key, now) =>
      var op := s.ops[id];
      var info := ObjectInfo(key, |op.body.value|, op.contentType.value, now);
      FindAfterInsert(s.cache, op.path, Cached(op.body.value, info), op.path);
    case PutStart(id, at, _, _) => WithoutFacts(s.cache.items, at);
    case PutDone(id, key, now) =>
      var op := s.ops[id];
      WithoutFacts(s.cache.items, op.path);
      var cached := Cached(op.data, ObjectInfo(key, |op.data|, op.kind, now));
      FindAfterInsert(Invalidate(s.cache, op.path), op.path, cached, op.path);
    case PutFail(id) => WithoutFacts(s.cache.items, s.ops[id].path);
    case RewriteStart(id, at) => WithoutFacts(s.cache.items, at);
    case RewriteEnd(id) => WithoutFacts(s.cache.items, s.ops[id].path);
    case FolderStart(id, folder) => WithoutFolderFacts(s.cache.items, folder);
    case FolderEnd(id) => WithoutFolderFacts(s.cache.items, s.ops[id].folder);
    case _ =>
  }

  // ─── Every run ──────────────────────────────────────────────────────────

  /** In every reachable state, a path that stands satisfies the invariant. */
  lemma {:induction false} RunKeeps(s: State, path: string, run: seq<Step>, stood: bool)
    requires Basic(s) && (stood ==> Inv(s, path)) && Allowed(s, run)
    ensures Basic(Final(s, run)) && (Stands(s, run, path, stood) ==> Inv(Final(s, run), path))
    decreases |run|
  {
    if run != [] {
      var heals := Heals(s, run[0], path);
      var stands := heals || (stood && !Spoils(s, run[0], path));
      BasicKeeps(s, run[0]);
      if heals {
        HealKeeps(s, path, run[0]);
      } else if stands {
        StepKeeps(s, path, run[0]);
      }
      RunKeeps(Apply(s, run[0]), path, run[1..], stands);
    }
  }

  /** Enough, and visible in the files alone: no file of the path is ever taken as a folder. */
  lemma {:induction false} NoFileTakenStands(s: State, path: string, run: seq<Step>)
    requires Allowed(s, run) && NoFileTaken(s, run, path)
    ensures Stands(s, run, path, true)
    decreases |run|
  {
    if run != [] {
      NoFileTakenStands(Apply(s, run[0]), path, run[1..]);
    }
  }

  /** What an uncached read of `path` under the name `key` answers. */
  function MissAnswer(s: State, path: string, key: string, now: int): Cached
    requires path in s.bodies
  {
    Cached(s.bodies[path], ObjectInfo(key, |s.bodies[path]|, ContentType(s, path), now))
  }

  /** What a hit answers: the entry, under the caller's key, as of now. */
  function HitAnswer(hit: Cached, key: string, now: int): Cached
  {
    Cached(hit.data, hit.info.(key := key, lastModified := now))
  }

  /**
   * Quiescent coherence: however requests interleaved since the worker
   * started, an object the cache holds and no write in flight touches is
   * answered exactly as OPFS would answer it - unless a `delete_folder` took
   * a file of its own from under the cache, and no write has reported it since.
   */
  lemma HitEqualsMiss(s: State, run: seq<Step>, path: string, key: string, now: int)
    requires Initial(s) && Allowed(s, run) && Stands(s, run, path, true)
    requires var t := Final(s, run); Quiet(t, path) && Find(t.cache.items, path).Some?
    ensures var t := Final(s, run);
            && path in t.bodies
            && HitAnswer(Find(t.cache.items, path).value.cached, key, now) == MissAnswer(t, path, key, now)
  {
    RunKeeps(s, path, run, true);
    var t := Final(s, run);
    assert Current(t, path, Find(t.cache.items, path).value.cached);
  }

  // ─── What a spoiled path comes to ───────────────────────────────────────

  /** The cache holds `path`, at rest, and answers it otherwise than OPFS would. */
  ghost predicate Stale(s: State, path: string)
  {
    && Find(s.cache.items, path).Some? && Quiet(s, path)
    && !Current(s, path, Find(s.cache.items, path).value.cached)
  }

  /** The operation counts on the file, or the content type, that the step takes. */
  ghost predicate SpoilsOp(s: State, step: Step, path: string, id: nat)
  {
    && id in s.ops
    && ((TakesBody(s, step, path) && OpReliesOnBody(s, path, id, s.ops[id]))
        || (TakesKind(s, step, path) && OpReliesOnKind(s, path, id, s.ops[id])))
  }

  lemma RunOfOne(t: State, step: Step)
    requires Enabled(t, step)
    ensures Allowed(t, [step]) && Final(t, [step]) == Apply(t, step)
  {
    FinalOf(t, [step], [Apply(t, step)]);
  }

  lemma RunOfTwo(t: State, first: Step, second: Step)
    requires Enabled(t, first) && Enabled(Apply(t, first), second)
    ensures Allowed(t, [first, second]) && Final(t, [first, second]) == Apply(Apply(t, first), second)
  {
    FinalOf(t, [first, second], [Apply(t, first), Apply(Apply(t, first), second)]);
  }

  /** The read `id` is about to cache bytes or a content type that OPFS no longer has. */
  ghost predicate Doomed(t: State, path: string, id: nat, data: Bytes, kind: string)
  {
    && Basic(t) && Quiet(t, path) && id in t.ops
    && t.ops[id] == Reading(path, t.cache.epoch, Some(data), Some(kind))
    && (path in t.bodies ==> t.bodies[path] != data || ContentType(t, path) != kind)
  }

  /** Room for the object in the cache, under a key of no length. */
  predicate Fits(c: Lru, path: string, data: Bytes, kind: string)
  {
    Admitted(c, path, Cached(data, ObjectInfo("", |data|, kind, 0)))
  }

  lemma DoomedGoesStale(t: State, path: string, id: nat, data: Bytes, kind: string)
    requires Doomed(t, path, id, data, kind) && Fits(t.cache, path, data, kind)
    ensures Stale(Apply(t, GetDone(id, "", 0)), path)
  {
    var u := Apply(t, GetDone(id, "", 0));
    FindAfterInsert(t.cache, path, Cached(data, ObjectInfo("", |data|, kind, 0)), path);
    forall j | j in u.ops ensures !Reports(u.ops[j], path) { assert u.ops[j] == t.ops[j]; }
  }

  /** What the rest of a spoiled read does: read the content type if it has not, and be cached. */
  lemma SpoiledReadIsDoomed(s: State, path: string, step: Step, id: nat, data: Bytes) returns (u: State)
    requires Inv(s, path) && SpoilsOp(s, step, path, id) && s.ops[id].Reading? && s.ops[id].body == Some(data)
    ensures var t := Apply(s, step);
            && u.cache == s.cache
            && (if t.ops[id].contentType.Some? then u == t else Enabled(t, ReadMeta(id)) && u == Apply(t, ReadMeta(id)))
            && Doomed(u, path, id, data, t.ops[id].contentType.UnwrapOr(ContentType(t, path)))
  {
    var t := Apply(s, step);
    assert OpInv(s, path, id, s.ops[id]);
    u := if t.ops[id].contentType.Some? then t else Apply(t, ReadMeta(id));
    SameWrites(t, u, path);
  }

  /** Such a read, with its body read, finishes by caching what is gone, if the cache has room for it. */
  lemma SpoiledReadGoesStale(s: State, path: string, step: Step, id: nat, data: Bytes, kind: string)
    returns (finish: seq<Step>)
    requires Inv(s, path) && SpoilsOp(s, step, path, id) && s.ops[id].Reading? && s.ops[id].body == Some(data)
    requires kind == s.ops[id].contentType.UnwrapOr(ContentType(Apply(s, step), path))
    requires Fits(s.cache, path, data, kind)
    ensures Allowed(Apply(s, step), finish) && Stale(Final(Apply(s, step), finish), path)
  {
    var t := Apply(s, step);
    var u := SpoiledReadIsDoomed(s, path, step, id, data);
    DoomedGoesStale(u, path, id, data, kind);
    if t.ops[id].contentType.Some? {
      finish := [GetDone(id, "", 0)];
      RunOfOne(t, finish[0]);
    } else {
      finish := [ReadMeta(id), GetDone(id, "", 0)];
      RunOfTwo(t, finish[0], finish[1]);
    }
  }

  /** The put `id` is about to do the same. */
  ghost predicate DoomedPut(t: State, path: string, id: nat, data: Bytes, kind: string)
  {
    && Basic(t) && !Disturbed(t, path, id) && id in t.ops
    && t.ops[id] == Putting(path, t.cache.epoch, data, kind, true, true)
    && (path in t.bodies ==> t.bodies[path] != data || ContentType(t, path) != kind)
  }

  lemma DoomedPutGoesStale(t: State, path: string, id: nat, data: Bytes, kind: string)
    requires DoomedPut(t, path, id, data, kind) && Fits(t.cache, path, data, kind)
    ensures Stale(Apply(t, PutDone(id, "", 0)), path)
  {
    var u, cached := Apply(t, PutDone(id, "", 0)), Cached(data, ObjectInfo("", |data|, kind, 0));
    WithoutFacts(t.cache.items, path);
    FindAfterInsert(Invalidate(t.cache, path), path, cached, path);
    forall j | j in u.ops ensures !Reports(u.ops[j], path) { assert u.ops[j] == t.ops[j]; }
  }

  lemma SpoiledPutIsDoomed(s: State, path: string, step: Step, id: nat) returns (u: State)
    requires Inv(s, path) && SpoilsOp(s, step, path, id) && s.ops[id].Putting? && s.ops[id].wroteBody
    ensures var t, op := Apply(s, step), s.ops[id];
            && u.cache == s.cache
            && (if op.wroteMeta then u == t else Enabled(t, PutMeta(id)) && u == Apply(t, PutMeta(id)))
            && DoomedPut(u, path, id, op.data, op.kind)
  {
    var op, t := s.ops[id], Apply(s, step);
    assert OpInv(s, path, id, op);
    u := if op.wroteMeta then t else Apply(t, PutMeta(id));
    forall j | j in u.ops && j != id ensures !Reports(u.ops[j], path) { assert u.ops[j] == s.ops[j]; }
  }

  /** And such a put, with its body written. */
  lemma SpoiledPutGoesStale(s: State, path: string, step: Step, id: nat) returns (finish: seq<Step>)
    requires Inv(s, path) && SpoilsOp(s, step, path, id) && s.ops[id].Putting? && s.ops[id].wroteBody
    requires Fits(s.cache, path, s.ops[id].data, s.ops[id].kind)
    ensures Allowed(Apply(s, step), finish) && Stale(Final(Apply(s, step), finish), path)
  {
    var op, t := s.ops[id], Apply(s, step);
    var u := SpoiledPutIsDoomed(s, path, step, id);
    DoomedPutGoesStale(u, path, id, op.data, op.kind);
    if op.wroteMeta {
      finish := [PutDone(id, "", 0)];
      RunOfOne(t, finish[0]);
    } else {
      finish := [PutMeta(id), PutDone(id, "", 0)];
      RunOfTwo(t, finish[0], finish[1]);
    }
  }

  /** The objects a complete removal of the name takes. */
  function BodiesAt(s: State, folder: string): (r: set<string>)
    ensures forall p :: p in r <==> p in s.bodies && (p == folder || Under(folder, p))
  {
    set p | p in s.bodies && (p == folder || Under(folder, p))
  }

  /** The objects whose sidecar it takes. */
  function MetasAt(s: State, folder: string): (r: set<string>)
    ensures forall p :: p in r <==> p in s.metas && (MetaName(p) == folder || Under(folder, MetaName(p)))
  {
    set p | p in s.metas && (MetaName(p) == folder || Under(folder, MetaName(p)))
  }

  /**
   * `delete_folder` on a name that is a file removes that file, but the cache
   * forgets only what lies below the name. A whole `delete_folder`, from the
   * request to its answer:
   */
  function DeleteFolder(s: State, folder: string): State
  {
    s.(cache := InvalidateFolder(InvalidateFolder(s.cache, folder), folder),
       bodies := s.bodies - BodiesAt(s, folder), metas := s.metas - MetasAt(s, folder))
  }

  lemma DeleteFolderRuns(s: State, id: nat, folder: string)
    requires id !in s.ops
    ensures var removal := FolderRemove(id, BodiesAt(s, folder), MetasAt(s, folder));
            var run := [FolderStart(id, folder), removal, FolderEnd(id)];
            Allowed(s, run) && Final(s, run) == DeleteFolder(s, folder)
  {
    var removal := FolderRemove(id, BodiesAt(s, folder), MetasAt(s, folder));
    var run := [FolderStart(id, folder), removal, FolderEnd(id)];
    var s1 := Apply(s, run[0]);
    var s2 := Apply(s1, run[1]);
    var s3 := Apply(s2, run[2]);
    assert s3.ops == s.ops;
    FinalOf(s, run, [s1, s2, s3]);
  }

  /** A cached object is made stale by removing `folder`: it is, or its sidecar is, that file. */
  predicate GoesStale(s: State, folder: string, path: string)
  {
    && Find(s.cache.items, path).Some? && !Under(folder, path)
    && (path == folder || (MetaName(path) == folder && ContentType(s, path) != DEFAULT_CONTENT_TYPE))
  }

  /** In any reachable state, an object at rest stays coherent exactly when it is not such a one. */
  lemma DeleteFolderCoherentIff(s: State, folder: string, path: string)
    requires Inv(s, path) && Quiet(s, path)
    ensures var t := DeleteFolder(s, folder);
            Quiet(t, path) && (Coherent(t, path) <==> !GoesStale(s, folder, path))
  {
    FindWithoutFolder(s.cache.items, folder, path);
    FindWithoutFolder(WithoutFolder(s.cache.items, folder), folder, path);
    SidecarUnderIffObjectUnder(folder, path);
  }

  /** Any cached object whose own name is deleted as a folder stays cached, its file gone. */
  lemma DeletedFolderStillServed(s: State, path: string)
    requires Find(s.cache.items, path).Some?
    ensures var t := DeleteFolder(s, path);
            path !in t.bodies && Find(t.cache.items, path) == Find(s.cache.items, path)
  {
    assert !Under(path, path);
    FindWithoutFolder(s.cache.items, path, path);
    FindWithoutFolder(WithoutFolder(s.cache.items, path), path, path);
  }

  // ─── What is cached at all ──────────────────────────────────────────────

  /** Room in the cache for `cached` at `path`. */
  predicate HasRoom(c: Lru, path: string, cached: Cached)
  {
    |cached.data| <= c.maxEntry && Charge(path, cached.data, cached.info) <= c.budget
  }

  /** In any state, a put that nothing disturbs leaves its object in OPFS and, if there is room, cached. */
  lemma PutIsCached(s: State, id: nat, path: string, data: Bytes, kind: string, key: string, now: int)
    requires Basic(s) && id !in s.ops
    ensures var run := [PutStart(id, path, data, kind), PutBody(id), PutMeta(id), PutDone(id, key, now)];
            var cached := Cached(data, ObjectInfo(key, |data|, kind, now));
            && Allowed(s, run)
            && var t := Final(s, run);
               && t.ops == s.ops && t.bodies == s.bodies[path := data] && t.metas == s.metas[path := kind]
               && t.cache == InsertWritten(Invalidate(s.cache, path), s.cache.epoch + 1, path, cached)
               && (HasRoom(s.cache, path, cached) ==>
                     Find(t.cache.items, path) == Some(Item(path, cached, Charge(path, data, cached.info))))
  {
    var run := [PutStart(id, path, data, kind), PutBody(id), PutMeta(id), PutDone(id, key, now)];
    var s1 := Apply(s, run[0]);
    var s2 := Apply(s1, run[1]);
    var s3 := Apply(s2, run[2]);
    var s4 := Apply(s3, run[3]);
    FinalOf(s, run, [s1, s2, s3, s4]);
    assert s4.ops == s.ops;
    var cached := Cached(data, ObjectInfo(key, |data|, kind, now));
    WithoutFacts(s.cache.items, path);
    WriteIsCachedIff(Invalidate(s.cache, path), s.cache.epoch + 1, path, cached, path);
  }

  /** A read that misses and that nothing disturbs is cached, if there is room, as OPFS answered it. */
  lemma GetIsCached(s: State, id: nat, path: string, key: string, now: int)
    requires Basic(s) && id !in s.ops && path in s.bodies && Find(s.cache.items, path).None?
    ensures var run := [GetStart(id, path), ReadBody(id), ReadMeta(id), GetDone(id, key, now)];
            var cached := MissAnswer(s, path, key, now);
            && Allowed(s, run)
            && var t := Final(s, run);
               && t == s.(cache := InsertRead(s.cache, s.cache.epoch, path, cached))
               && (HasRoom(s.cache, path, cached) ==>
                     Find(t.cache.items, path) == Some(Item(path, cached, Charge(path, cached.data, cached.info))))
  {
    var run := [GetStart(id, path), ReadBody(id), ReadMeta(id), GetDone(id, key, now)];
    var s1 := Apply(s, run[0]);
    var s2 := Apply(s1, run[1]);
    var s3 := Apply(s2, run[2]);
    var s4 := Apply(s3, run[3]);
    FinalOf(s, run, [s1, s2, s3, s4]);
    assert s4.ops == s.ops;
    ReadIsCachedIff(s.cache, s.cache.epoch, path, MissAnswer(s, path, key, now), path);
  }

  /** A read that hits goes no further than the cache, and every lookup answers as before. */
  lemma HitStaysInside(s: State, id: nat, path: string, other: string)
    requires Basic(s) && id !in s.ops && Find(s.cache.items, path).Some?
    ensures var t := Apply(s, GetStart(id, path));
            t == s.(cache := Get(s.cache, path)) && Find(t.cache.items, other) == Find(s.cache.items, other)
  {
    FindAfterGet(s.cache, path, other);
  }

  /** Step `i` of the run leads to the `i`-th listed state. */
  predicate StepAt(s: State, run: seq<Step>, states: seq<State>, i: nat)
    requires |run| == |states| && i < |run|
  {
    var before := if i == 0 then s else states[i - 1];
    Enabled(before, run[i]) && Apply(before, run[i]) == states[i]
  }

  /** A run whose states are listed is allowed and ends in the last of them. */
  lemma {:induction false} FinalOf(s: State, run: seq<Step>, states: seq<State>)
    requires |run| == |states|
    requires forall i :: 0 <= i < |run| ==> StepAt(s, run, states, i)
    ensures Allowed(s, run)
    ensures Final(s, run) == if run == [] then s else states[|states| - 1]
    decreases |run|
  {
    if run != [] {
      assert StepAt(s, run, states, 0);
      forall i | 0 <= i < |run| - 1 ensures StepAt(states[0], run[1..], states[1..], i) {
        assert StepAt(s, run, states, i + 1);
      }
      FinalOf(states[0], run[1..], states[1..]);
    }
  }
}
