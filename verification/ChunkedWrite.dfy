/**
 * Chunked object writes: the registry of open writers, their swap files, and
 * the two files - body and sidecar - that no OPFS transaction covers.
 */
module ChunkedWrites {
  import opened Prelude

  /** A sidecar; `Blank` is one that was created but never written. */
  datatype Sidecar = Blank | Sidecar(kind: string, size: nat)

  datatype Store = Store(bodies: map<string, Bytes>, sidecars: map<string, Sidecar>)

  /** `swap` is the writable's own copy: the file has it only once `close` commits. */
  datatype Writer = Writer(path: string, swap: Bytes, size: nat, created: bool)

  datatype Item = Chunk(bytes: Bytes) | BodyError

  datatype SidecarFault = Written | FailsBeforeFile | FailsAfterFile

  /** What OPFS refuses during one write. */
  datatype Faults = Faults(
    refusedChunk: Option<nat>, closeFails: bool, sidecar: SidecarFault, keepsBody: bool, keepsSidecar: bool)

  /** How far a write gets. */
  datatype Fate = BodyBroke | ChunkRefused | CloseFailed | SidecarFailed | Done

  function FateFrom(data: seq<Item>, index: nat, f: Faults): Fate
    requires index <= |data|
    decreases |data| - index
  {
    if index == |data| then
      if f.closeFails then CloseFailed else if f.sidecar.Written? then Done else SidecarFailed
    else if data[index].BodyError? then BodyBroke
    else if f.refusedChunk == Some(index) then ChunkRefused
    else FateFrom(data, index + 1, f)
  }

  /** The bytes of the chunks before the first error item. */
  function Body(data: seq<Item>): Bytes
  {
    if data == [] || data[0].BodyError? then [] else data[0].bytes + Body(data[1..])
  }

  /** `removeCreatedFiles` for a key the write created: each removal may be refused, silently. */
  function Cleaned(s: Store, path: string, f: Faults): Store
  {
    Store(if f.keepsBody then s.bodies else s.bodies - {path},
          if f.keepsSidecar then s.sidecars else s.sidecars - {path})
  }

  /** What a write of `data` to `path` leaves, and whether it reports success. */
  function Streamed(s: Store, path: string, data: seq<Item>, kind: string, f: Faults): (r: (Store, bool))
  {
    var created := path !in s.bodies;
    match FateFrom(data, 0, f)
    case Done =>
      (Store(s.bodies[path := Body(data)], s.sidecars[path := Sidecar(kind, |Body(data)|)]), true)
    case SidecarFailed =>
      var blank := f.sidecar.FailsAfterFile? && path !in s.sidecars;
      var committed := Store(s.bodies[path := Body(data)], if blank then s.sidecars[path := Blank] else s.sidecars);
      (if created then Cleaned(committed, path, f) else committed, false)
    case _ =>
      (if created then Cleaned(s.(bodies := s.bodies[path := []]), path, f) else s, false)
  }

  /** Every chunk of a body that is sent whole. */
  function Chunks(data: seq<Item>): seq<Bytes>
    requires forall i :: 0 <= i < |data| ==> data[i].Chunk?
  {
    seq(|data|, i requires 0 <= i < |data| => data[i].bytes)
  }

  lemma {:induction false} BodyIsChunks(data: seq<Item>)
    requires forall i :: 0 <= i < |data| ==> data[i].Chunk?
    ensures Body(data) == Flatten(Chunks(data))
  {
    if data != [] {
      var last := |data| - 1;
      BodyIsChunks(data[..last]);
      BodyGrows(data, last);
      assert data[..last + 1] == data;
      assert Chunks(data) == Chunks(data[..last]) + [data[last].bytes];
      FlattenAppend(Chunks(data[..last]), data[last].bytes);
    }
  }

  lemma {:induction false} BodyGrows(data: seq<Item>, index: nat)
    requires index < |data| && forall i :: 0 <= i <= index ==> data[i].Chunk?
    ensures Body(data[..index + 1]) == Body(data[..index]) + data[index].bytes
  {
    if index > 0 {
      BodyGrows(data[1..], index - 1);
      assert data[..index + 1][1..] == data[1..][..index];
      assert data[..index][1..] == data[1..][..index - 1];
    } else {
      assert data[..1] == [data[0]];
      assert [data[0]][1..] == [];
      assert data[0].bytes + [] == [] + data[0].bytes;
    }
  }

  /** No item before `n` breaks the body or is refused. */
  predicate SentUpTo(data: seq<Item>, n: nat, f: Faults)
    requires n <= |data|
  {
    forall i :: 0 <= i < n ==> data[i].Chunk? && f.refusedChunk != Some(i)
  }

  lemma {:induction false} FateFromIff(data: seq<Item>, index: nat, f: Faults)
    requires index <= |data| && SentUpTo(data, index, f)
    ensures var fate := FateFrom(data, index, f);
            && (SentUpTo(data, |data|, f) ==>
                  fate == if f.closeFails then CloseFailed else if f.sidecar.Written? then Done else SidecarFailed)
            && (!SentUpTo(data, |data|, f) ==>
                  exists n :: 0 <= n < |data| && StopsAt(data, n, f) && fate == StopFate(data[n]))
    decreases |data| - index
  {
    if index < |data| {
      if data[index].Chunk? && f.refusedChunk != Some(index) {
        FateFromIff(data, index + 1, f);
      } else {
        assert StopsAt(data, index, f);
      }
    }
  }

  /** The first item that goes wrong. */
  predicate StopsAt(data: seq<Item>, n: nat, f: Faults)
    requires n < |data|
  {
    SentUpTo(data, n, f) && (data[n].BodyError? || f.refusedChunk == Some(n))
  }

  function StopFate(item: Item): Fate
  {
    if item.BodyError? then BodyBroke else ChunkRefused
  }

  /**
   * How far a write gets, by what was refused: it is done if and only if
   * nothing was - every item a chunk, none refused, the close committed and
   * the sidecar written - and otherwise fails at the first of these to go wrong.
   */
  lemma FateIff(data: seq<Item>, f: Faults)
    ensures var fate, sent := FateFrom(data, 0, f), SentUpTo(data, |data|, f);
            && (fate.Done? <==> sent && !f.closeFails && f.sidecar.Written?)
            && (fate.SidecarFailed? <==> sent && !f.closeFails && !f.sidecar.Written?)
            && (fate.CloseFailed? <==> sent && f.closeFails)
            && (!sent ==> exists n :: 0 <= n < |data| && StopsAt(data, n, f) && fate == StopFate(data[n]))
  {
    FateFromIff(data, 0, f);
  }

  lemma {:induction false} FinishedMeansChunks(data: seq<Item>, index: nat, f: Faults)
    requires index <= |data| && (FateFrom(data, index, f).Done? || FateFrom(data, index, f).SidecarFailed?)
    ensures forall i :: index <= i < |data| ==> data[i].Chunk?
    decreases |data| - index
  {
    if index < |data| {
      FinishedMeansChunks(data, index + 1, f);
    }
  }

  /**
   * What an upload leaves behind. Success: the concatenated chunks, and a
   * sidecar with their total size. Failure of a key the write created: neither
   * file, exactly when OPFS lets both be removed (a sidecar there was never one
   * of needs no removing). Failure of an overwrite: the old object under its
   * old sidecar, unless it was the sidecar that failed - then the new bytes are
   * under the old sidecar, or, where there was none, under an empty one exactly
   * when its file was made before it failed. No other object is touched.
   */
  lemma UploadLeaves(s: Store, path: string, data: seq<Item>, kind: string, f: Faults)
    ensures var (after, ok) := Streamed(s, path, data, kind, f);
            var fate, created := FateFrom(data, 0, f), path !in s.bodies;
            && (ok <==> fate.Done?)
            && (ok ==>
                  && (forall i :: 0 <= i < |data| ==> data[i].Chunk?)
                  && after.bodies == s.bodies[path := Flatten(Chunks(data))]
                  && after.sidecars == s.sidecars[path := Sidecar(kind, |Flatten(Chunks(data))|)])
            && (!ok && created ==>
                  (path !in after.bodies && path !in after.sidecars <==>
                    && !f.keepsBody
                    && (f.keepsSidecar ==>
                          path !in s.sidecars && !(fate.SidecarFailed? && f.sidecar.FailsAfterFile?))))
            && (!ok && !created && !fate.SidecarFailed? ==> after == s)
            && (!ok && !created && fate.SidecarFailed? ==>
                  && (forall i :: 0 <= i < |data| ==> data[i].Chunk?)
                  && after.bodies == s.bodies[path := Flatten(Chunks(data))]
                  && after.sidecars == if path !in s.sidecars && f.sidecar.FailsAfterFile?
                                       then s.sidecars[path := Blank] else s.sidecars)
            && (forall p :: p != path ==>
                  && (p in after.bodies <==> p in s.bodies) && (p in s.bodies ==> after.bodies[p] == s.bodies[p])
                  && (p in after.sidecars <==> p in s.sidecars)
                  && (p in s.sidecars ==> after.sidecars[p] == s.sidecars[p]))
  {
    var fate := FateFrom(data, 0, f);
    if fate.Done? || fate.SidecarFailed? {
      FinishedMeansChunks(data, 0, f);
      BodyIsChunks(data);
    }
  }

  // The same, step by step: what a writer has taken, what closing and discarding it do.

  function Started(s: Store, path: string): Store
  {
    if path in s.bodies then s else s.(bodies := s.bodies[path := []])
  }

  function WriterAt(s: Store, path: string, sent: seq<Item>): Writer
  {
    Writer(path, Body(sent), |Body(sent)|, path !in s.bodies)
  }

  function Discarded(s: Store, w: Writer, f: Faults): Store
  {
    if w.created then Cleaned(s, w.path, f) else s
  }

  function Closed(s: Store, w: Writer, kind: string, f: Faults): Store
  {
    if f.closeFails then Discarded(s, w, f)
    else
      var bodies := s.bodies[w.path := w.swap];
      if f.sidecar.Written? then Store(bodies, s.sidecars[w.path := Sidecar(kind, w.size)])
      else
        var blank := f.sidecar.FailsAfterFile? && w.path !in s.sidecars;
        Discarded(Store(bodies, if blank then s.sidecars[w.path := Blank] else s.sidecars), w, f)
  }

  /** Whatever the fate, a started write ends as its writer's close or discard leaves it. */
  lemma StreamedFrom(s: Store, path: string, data: seq<Item>, kind: string, f: Faults)
    ensures var begun := Started(s, path);
            var (after, ok) := Streamed(s, path, data, kind, f);
            match FateFrom(data, 0, f)
            case BodyBroke => after == Discarded(begun, WriterAt(s, path, data), f) && !ok
            case ChunkRefused => after == Discarded(begun, WriterAt(s, path, data), f) && !ok
            case _ => after == Closed(begun, WriterAt(s, path, data), kind, f)
  {
    assert path !in s.bodies ==> s.bodies[path := []][path := Body(data)] == s.bodies[path := Body(data)];
    if FateFrom(data, 0, f).CloseFailed? || FateFrom(data, 0, f).Done? || FateFrom(data, 0, f).SidecarFailed? {
      FateIsTheEnd(data, 0, f);
    }
  }

  lemma {:induction false} FateIsTheEnd(data: seq<Item>, index: nat, f: Faults)
    requires index <= |data|
    requires !FateFrom(data, index, f).BodyBroke? && !FateFrom(data, index, f).ChunkRefused?
    ensures FateFrom(data, index, f) == FateFrom(data, |data|, f)
    decreases |data| - index
  {
    if index < |data| { FateIsTheEnd(data, index + 1, f); }
  }

  class Registry {
    var bodies: map<string, Bytes>
    var sidecars: map<string, Sidecar>
    var writers: map<nat, Writer>
    var nextId: nat

    ghost predicate Valid()
      reads this
    {
      forall id :: id in writers ==> id < nextId
    }

    ghost function Files(): Store
      reads this
    {
      Store(bodies, sidecars)
    }

    constructor ()
      ensures Valid() && Files() == Store(map[], map[]) && writers == map[]
    {
      bodies, sidecars, writers, nextId := map[], map[], map[], 1;
    }

    /** `storagePutStreamStart`, once its writable is open: a new key has to be created first. */
    method Start(path: string) returns (id: nat)
      requires Valid()
      modifies this
      ensures Valid() && id == old(nextId) && id !in old(writers)
      ensures Files() == Started(old(Files()), path)
      ensures id in writers && writers[id] == Writer(path, [], 0, path !in old(bodies))
      ensures writers - {id} == old(writers)
    {
      var created := false;
      if path !in bodies {
        bodies := bodies[path := []];
        created := true;
      }
      id := nextId;
      nextId := nextId + 1;
      writers := writers[id := Writer(path, [], 0, created)];
    }

    method WriteChunk(id: nat, chunk: Bytes, refused: bool) returns (ok: bool)
      requires Valid()
      modifies this`writers
      ensures Valid() && ok == (id in old(writers) && !refused)
      ensures !ok ==> writers == old(writers)
      ensures ok ==> writers - {id} == old(writers) - {id} && id in writers
      ensures ok ==> var w := old(writers)[id];
                     writers[id] == w.(swap := w.swap + chunk, size := w.size + |chunk|)
    {
      if id !in writers || refused {
        return false;
      }
      var entry := writers[id];
      writers := writers[id := entry.(swap := entry.swap + chunk, size := entry.size + |chunk|)];
      return true;
    }

    /** Close, which commits the swap file; then the sidecar. */
    method Finish(id: nat, kind: string, f: Faults) returns (ok: bool)
      requires Valid()
      modifies this`bodies, this`sidecars, this`writers
      ensures Valid() && ok == (id in old(writers) && !f.closeFails && f.sidecar.Written?)
      ensures writers == old(writers) - {id}
      ensures Files() == if id in old(writers) then Closed(old(Files()), old(writers)[id], kind, f) else old(Files())
    {
      if id !in writers {
        return false;
      }
      var entry := writers[id];
      if f.closeFails {
        DiscardWriter(id, f);
        return false;
      }
      bodies := bodies[entry.path := entry.swap];
      writers := writers - {id};
      if f.sidecar.Written? {
        sidecars := sidecars[entry.path := Sidecar(kind, entry.size)];
        return true;
      }
      if f.sidecar.FailsAfterFile? && entry.path !in sidecars {
        sidecars := sidecars[entry.path := Blank];
      }
      RemoveCreatedFiles(entry, f);
      return false;
    }

    /** Idempotent: a writer already discarded or finished is not there to discard. */
    method DiscardWriter(id: nat, f: Faults)
      requires Valid()
      modifies this`bodies, this`sidecars, this`writers
      ensures Valid() && writers == old(writers) - {id}
      ensures Files() == if id in old(writers) then Discarded(old(Files()), old(writers)[id], f) else old(Files())
    {
      if id !in writers {
        return;
      }
      var entry := writers[id];
      writers := writers - {id};
      RemoveCreatedFiles(entry, f);
    }

    method RemoveCreatedFiles(entry: Writer, f: Faults)
      modifies this`bodies, this`sidecars
      ensures Files() == Discarded(old(Files()), entry, f)
    {
      if !entry.created {
        return;
      }
      if !f.keepsBody {
        bodies := bodies - {entry.path};
      }
      if !f.keepsSidecar {
        sidecars := sidecars - {entry.path};
      }
    }

    /** `stream_to_opfs`: whatever happens, no writer of it stays registered. */
    method StreamToOpfs(path: string, data: seq<Item>, kind: string, f: Faults) returns (ok: bool)
      requires Valid()
      modifies this
      ensures Valid() && writers == old(writers)
      ensures (Files(), ok) == Streamed(old(Files()), path, data, kind, f)
    {
      var id := Start(path);
      ghost var before, begun := old(Files()), Files();
      StreamedFrom(before, path, data, kind, f);
      var index := 0;
      while index < |data|
        invariant index <= |data| && forall i :: 0 <= i < index ==> data[i].Chunk?
        invariant Valid() && Files() == begun
        invariant id in writers && writers[id] == WriterAt(before, path, data[..index])
        invariant writers - {id} == old(writers)
        invariant FateFrom(data, 0, f) == FateFrom(data, index, f)
      {
        if data[index].BodyError? {
          DiscardWriter(id, f);
          return false;
        }
        var taken := WriteChunk(id, data[index].bytes, f.refusedChunk == Some(index));
        if !taken {
          DiscardWriter(id, f);
          return false;
        }
        BodyGrows(data, index);
        index := index + 1;
      }
      assert data[..|data|] == data;
      ok := Finish(id, kind, f);
      if !ok {
        DiscardWriter(id, f);
      }
    }
  }
}
