/**
 * The export protocol over whole runs: requests and writes interleaved at
 * their awaits, whole-database exports queued one behind another, failures of
 * any of them, and crashes of the worker. What survives a crash is the OPFS
 * image; everything else starts again from it.
 */
module ExportProtocol {
  import opened Prelude
  import opened FlushScopes

  /** The `index`-th statement a logical mutation ran. */
  datatype Stmt = Stmt(mutation: nat, index: nat)

  datatype Mutation = Mutation(statements: nat, running: bool, scope: Option<nat>)

  /** One export, from its call to the moment Rust has seen its outcome. */
  datatype Phase =
    | Queued                          // behind earlier calls
    | Writing(snapshot: seq<Stmt>)    // `db.export()` taken, OPFS write under way
    | Settled(written: bool)          // the bridge promise has resolved or rejected
    | Resolved(ok: bool)              // the shared future has run to its end

  /** `clean`: the connection was in no transaction at the call (`settle_transaction`). */
  datatype Export = Export(covers: nat, clean: bool, phase: Phase)

  datatype Request =
    | InScope(owes: bool)                 // a top-level scope whose future has not finished
    | Waiting(ended: nat, flush: nat)     // finished when `ended` mutations had; awaits an export
    | Answered(ended: nat, ok: bool)      // its flush verdict is out

  /** `db` and `disk` list the statements each holds, in the order they ran. */
  datatype State = State(
    cells: Cells, db: seq<Stmt>, disk: seq<Stmt>,
    queue: seq<nat>, exports: map<nat, Export>,
    ended: seq<nat>,               // the mutations that have ended, in order
    mutations: map<nat, Mutation>, // every mutation ever begun
    requests: map<nat, Request>,
    vouched: set<nat>)             // mutations some `Ok` verdict has covered

  datatype Step =
    | OpenScope(r: nat)
    | BeginMutation(m: nat, scope: Option<nat>)
    | RunStatement(m: nat)
    | EndMutation(m: nat)                            // in a scope, or dropped half-way
    | EndUnscoped(m: nat, r: nat, clean: bool)       // outside every scope: flushes itself
    | EndScope(r: nat, clean: bool)
    | TakeSnapshot
    | CommitWrite
    | FailExport
    | ResolveExport(id: nat)
    | Answer(r: nat)
    | Crash

  // ─── Steps ──────────────────────────────────────────────────────────────

  predicate Enabled(s: State, step: Step)
  {
    match step
    case OpenScope(r) => r !in s.requests
    case BeginMutation(m, scope) =>
      m !in s.mutations && (scope.Some? ==> scope.value in s.requests && s.requests[scope.value].InScope?)
    case RunStatement(m) => m in s.mutations && s.mutations[m].running
    case EndMutation(m) => m in s.mutations && s.mutations[m].running
    case EndUnscoped(m, r, _) =>
      m in s.mutations && s.mutations[m].running && s.mutations[m].scope.None? && r !in s.requests
    case EndScope(r, _) => r in s.requests && s.requests[r].InScope?
    case TakeSnapshot => s.queue != [] && s.queue[0] in s.exports && s.exports[s.queue[0]].phase.Queued?
    case CommitWrite => s.queue != [] && s.queue[0] in s.exports && s.exports[s.queue[0]].phase.Writing?
    case FailExport =>
      s.queue != [] && s.queue[0] in s.exports
      && (s.exports[s.queue[0]].phase.Queued? || s.exports[s.queue[0]].phase.Writing?)
    case ResolveExport(id) => id in s.exports && s.exports[id].phase.Settled?
    case Answer(r) =>
      && r in s.requests && s.requests[r].Waiting?
      && s.requests[r].flush in s.exports && s.exports[s.requests[r].flush].phase.Resolved?
    case Crash => true
  }

  /** Await the covering export, calling a new one (queued last) when there is none. */
  function Flush(s: State, r: nat, clean: bool): State
  {
    var (cells, id) := FlushCoveringNow(s.cells);
    var waiting := s.requests[r := Waiting(|s.ended|, id)];
    if Covered(s.cells) then s.(requests := waiting)
    else s.(cells := cells, requests := waiting, queue := s.queue + [id],
            exports := s.exports[id := Export(s.cells.epoch, clean, Queued)])
  }

  function Ended(s: State, m: nat): State
  {
    s.(cells := MutationEnded(s.cells), ended := s.ended + [m],
       mutations := if m in s.mutations then s.mutations[m := s.mutations[m].(running := false)] else s.mutations)
  }

  function MoveHead(s: State, phase: Phase): State
    requires s.queue != [] && s.queue[0] in s.exports
  {
    s.(exports := s.exports[s.queue[0] := s.exports[s.queue[0]].(phase := phase)])
  }

  function VouchFor(s: State, ended: nat, ok: bool): set<nat>
  {
    s.vouched + if ok && ended <= |s.ended| then set m | m in s.ended[..ended] else {}
  }

  function Apply(s: State, step: Step): State
    requires Enabled(s, step)
  {
    match step
    case OpenScope(r) => s.(requests := s.requests[r := InScope(false)])
    case BeginMutation(m, scope) =>
      var begun := s.(mutations := s.mutations[m := Mutation(0, true, scope)]);
      if scope.Some? then begun.(requests := s.requests[scope.value := InScope(true)]) else begun
    case RunStatement(m) =>
      var count := s.mutations[m].statements;
      s.(db := s.db + [Stmt(m, count)], mutations := s.mutations[m := s.mutations[m].(statements := count + 1)])
    case EndMutation(m) => Ended(s, m)
    case EndUnscoped(m, r, clean) => Flush(Ended(s, m), r, clean)
    case EndScope(r, clean) =>
      if s.requests[r].owes || Unexported(s.cells) then Flush(s, r, clean)
      else s.(requests := s.requests[r := Answered(|s.ended|, true)], vouched := VouchFor(s, |s.ended|, true))
    case TakeSnapshot => MoveHead(s, Writing(s.db))
    case CommitWrite =>
      MoveHead(s, Settled(true)).(disk := s.exports[s.queue[0]].phase.snapshot, queue := s.queue[1..])
    case FailExport => MoveHead(s, Settled(false)).(queue := s.queue[1..])
    case ResolveExport(id) =>
      var e := s.exports[id];
      var ok := e.clean && e.phase.written;
      s.(cells := ExportResolved(s.cells, id, e.covers, ok), exports := s.exports[id := e.(phase := Resolved(ok))])
    case Answer(r) =>
      var w := s.requests[r];
      var ok := s.exports[w.flush].phase.ok;
      s.(requests := s.requests[r := Answered(w.ended, ok)], vouched := VouchFor(s, w.ended, ok))
    case Crash =>
      s.(cells := FRESH_CELLS, db := s.disk, queue := [], exports := map[], ended := [], requests := map[],
         mutations := map m | m in s.mutations :: s.mutations[m].(running := false))
  }

  predicate Initial(s: State)
  {
    s == State(FRESH_CELLS, [], [], [], map[], [], map[], map[], {})
  }

  predicate Allowed(s: State, run: seq<Step>)
    decreases |run|
  {
    run != [] ==> Enabled(s, run[0]) && Allowed(Apply(s, run[0]), run[1..])
  }

  function Final(s: State, run: seq<Step>): State
    requires Allowed(s, run)
    decreases |run|
  {
    if run == [] then s else Final(Apply(s, run[0]), run[1..])
  }

  // ─── The invariant ──────────────────────────────────────────────────────

  /** Every statement mutation `m` ever ran is in `image`. */
  ghost predicate Holds(s: State, image: seq<Stmt>, m: nat)
  {
    m in s.mutations && forall i :: 0 <= i < s.mutations[m].statements ==> Stmt(m, i) in image
  }

  /** The first `n` mutations to have ended are in `image` whole. */
  ghost predicate HoldsFirst(s: State, image: seq<Stmt>, n: nat)
  {
    n <= |s.ended| && forall k :: 0 <= k < n ==> Holds(s, image, s.ended[k])
  }

  /** What an export promises, phase by phase. */
  ghost predicate ExportInv(s: State, e: Export)
  {
    && e.covers <= |s.ended|
    && match e.phase
       case Queued => true
       case Writing(snapshot) => s.disk <= snapshot && snapshot <= s.db && HoldsFirst(s, snapshot, e.covers)
       case Settled(written) => written ==> HoldsFirst(s, s.disk, e.covers)
       case Resolved(ok) => ok ==> HoldsFirst(s, s.disk, e.covers)
  }

  ghost predicate RequestInv(s: State, q: Request)
  {
    match q
    case InScope(_) => true
    case Waiting(ended, flush) =>
      ended <= |s.ended| && flush in s.exports && ended <= s.exports[flush].covers
    case Answered(ended, ok) =>
      ok ==> HoldsFirst(s, s.disk, ended) && forall k :: 0 <= k < ended ==> s.ended[k] in s.vouched
  }

  /** Exports are serialized: only the head of the queue is past the queue. */
  ghost predicate QueueInv(s: State)
  {
    && (forall i, j :: 0 <= i < j < |s.queue| ==> s.queue[i] != s.queue[j])
    && (forall i :: 0 <= i < |s.queue| ==> s.queue[i] in s.exports)
    && (forall i :: 1 <= i < |s.queue| ==> s.exports[s.queue[i]].phase.Queued?)
    && (forall id :: id in s.exports && (s.exports[id].phase.Queued? || s.exports[id].phase.Writing?) ==> id in s.queue)
    && (s.queue != [] ==> s.exports[s.queue[0]].phase.Queued? || s.exports[s.queue[0]].phase.Writing?)
  }

  ghost predicate CellsInv(s: State)
  {
    && s.cells.epoch == |s.ended|
    && HoldsFirst(s, s.disk, s.cells.exportedThrough)
    && (s.cells.inFlight.Some? ==>
          var f := s.cells.inFlight.value;
          f.id in s.exports && s.exports[f.id].covers == f.covers && !s.exports[f.id].phase.Resolved?)
    && (forall id :: id in s.exports ==> id < s.cells.nextFlushId)
  }

  ghost predicate Inv(s: State)
  {
    && s.disk <= s.db
    && CellsInv(s)
    && QueueInv(s)
    && HoldsFirst(s, s.db, |s.ended|)
    && (forall k :: 0 <= k < |s.ended| ==> !s.mutations[s.ended[k]].running)
    && (forall m :: m in s.mutations && s.mutations[m].running ==> Holds(s, s.db, m))
    && (forall id :: id in s.exports ==> ExportInv(s, s.exports[id]))
    && (forall r :: r in s.requests ==> RequestInv(s, s.requests[r]))
    && (forall m :: m in s.vouched ==> Holds(s, s.disk, m) && !s.mutations[m].running)
  }

  // ─── What every step keeps ──────────────────────────────────────────────

  /** Between crashes nothing is taken back: logs grow, ended mutations stay ended. */
  ghost predicate Onward(s: State, t: State)
  {
    && s.ended <= t.ended && s.disk <= t.disk && s.db <= t.db
    && (forall m :: m in s.mutations && !s.mutations[m].running ==>
          m in t.mutations && t.mutations[m] == s.mutations[m])
  }

  /** What an image held for good, a longer image holds later. */
  lemma Carried(s: State, t: State)
    requires Inv(s) && Onward(s, t)
    ensures forall image, later, n :: HoldsFirst(s, image, n) && image <= later ==> HoldsFirst(t, later, n)
    ensures forall m :: m in s.vouched ==> Holds(t, t.disk, m) && !t.mutations[m].running
  {
  }

  lemma HoldsLater(s: State, t: State, image: seq<Stmt>, later: seq<Stmt>, m: nat)
    requires Holds(s, image, m) && image <= later
    requires m in t.mutations && t.mutations[m].statements == s.mutations[m].statements
    ensures Holds(t, later, m)
  {
  }

  /** A new or marked scope, and a new mutation with nothing run yet. */
  lemma ScopeMarked(s: State, r: nat, owes: bool)
    requires Inv(s)
    ensures Inv(s.(requests := s.requests[r := InScope(owes)]))
  {
    var t := s.(requests := s.requests[r := InScope(owes)]);
    Carried(s, t);
    KeptExports(s, t);
    forall q | q in t.requests ensures RequestInv(t, t.requests[q]) {
      if q != r { assert RequestInv(s, s.requests[q]); }
    }
  }

  lemma MutationBegun(s: State, m: nat, scope: Option<nat>)
    requires Inv(s) && m !in s.mutations
    ensures Inv(s.(mutations := s.mutations[m := Mutation(0, true, scope)]))
  {
    var t := s.(mutations := s.mutations[m := Mutation(0, true, scope)]);
    Carried(s, t);
    KeptExports(s, t);
    forall q | q in t.requests ensures RequestInv(t, t.requests[q]) {
      assert RequestInv(s, s.requests[q]);
    }
  }

  /** A request's verdict: nothing but the request and what it vouches for changes. */
  lemma AnswerKeeps(s: State, r: nat, ended: nat, ok: bool)
    requires Inv(s) && (ok ==> HoldsFirst(s, s.disk, ended))
    ensures Inv(s.(requests := s.requests[r := Answered(ended, ok)], vouched := VouchFor(s, ended, ok)))
  {
    var t := s.(requests := s.requests[r := Answered(ended, ok)], vouched := VouchFor(s, ended, ok));
    Carried(s, t);
    KeptExports(s, t);
    if ok { VouchHolds(s, ended); }
    forall q | q in t.requests ensures RequestInv(t, t.requests[q]) {
      if q != r {
        assert RequestInv(s, s.requests[q]);
      } else {
        forall k | 0 <= k < ended && ok ensures t.ended[k] in t.vouched {
          assert s.ended[..ended][k] == t.ended[k];
        }
      }
    }
  }

  lemma KeptExports(s: State, t: State)
    requires Inv(s) && Onward(s, t) && t.exports == s.exports && t.disk == s.disk
    ensures forall id :: id in t.exports ==> ExportInv(t, t.exports[id])
  {
  }

  /** An `Ok` verdict vouches only for what the disk image already holds. */
  lemma VouchHolds(s: State, n: nat)
    requires Inv(s) && HoldsFirst(s, s.disk, n)
    ensures forall m :: m in VouchFor(s, n, true) ==> Holds(s, s.disk, m) && !s.mutations[m].running
  {
  }

  lemma StatementStep(s: State, m: nat)
    requires Inv(s) && Enabled(s, RunStatement(m))
    ensures Inv(Apply(s, RunStatement(m)))
  {
    var t := Apply(s, RunStatement(m));
    Carried(s, t);
    forall id | id in t.exports ensures ExportInv(t, t.exports[id]) {
      assert ExportInv(s, s.exports[id]);
    }
    forall o | o in t.mutations && t.mutations[o].running ensures Holds(t, t.db, o) {
      assert Holds(s, s.db, o);
      forall i | 0 <= i < t.mutations[o].statements ensures Stmt(o, i) in t.db {
        if o == m && i == s.mutations[m].statements {
          assert t.db[|s.db|] == Stmt(o, i);
        } else {
          assert Stmt(o, i) in s.db;
        }
      }
    }
  }

  lemma EndedKeeps(s: State, m: nat)
    requires Inv(s) && m in s.mutations && s.mutations[m].running
    ensures Inv(Ended(s, m))
  {
    var t := Ended(s, m);
    Carried(s, t);
    forall id | id in t.exports ensures ExportInv(t, t.exports[id]) {
      assert ExportInv(s, s.exports[id]);
    }
    assert HoldsFirst(t, t.db, |s.ended|);
    HoldsLater(s, t, s.db, t.db, m);
    forall o | o in t.mutations && t.mutations[o].running ensures Holds(t, t.db, o) {
      HoldsLater(s, t, s.db, t.db, o);
    }
  }

  /** A new export joins the queue last, under an id no export has. */
  lemma FlushQueues(s: State, r: nat, clean: bool)
    requires Inv(s)
    ensures var t := Flush(s, r, clean);
            && QueueInv(t) && Onward(s, t)
            && (forall id :: id in s.exports ==> id in t.exports && t.exports[id] == s.exports[id])
  {
    var id := s.cells.nextFlushId;
    assert id !in s.exports;
    forall i | 0 <= i < |s.queue| ensures s.queue[i] != id { assert s.queue[i] in s.exports; }
  }

  lemma FlushCells(s: State, r: nat, clean: bool)
    requires Inv(s) && Onward(s, Flush(s, r, clean))
    ensures CellsInv(Flush(s, r, clean))
  {
  }

  lemma FlushExports(s: State, r: nat, clean: bool)
    requires Inv(s) && Onward(s, Flush(s, r, clean))
    ensures var t := Flush(s, r, clean); forall id :: id in t.exports ==> ExportInv(t, t.exports[id])
  {
  }

  lemma FlushKeeps(s: State, r: nat, clean: bool)
    requires Inv(s)
    ensures Inv(Flush(s, r, clean))
  {
    var t := Flush(s, r, clean);
    FlushQueues(s, r, clean);
    FlushCells(s, r, clean);
    FlushExports(s, r, clean);
    Carried(s, t);
    forall q | q in t.requests ensures RequestInv(t, t.requests[q]) {
      if q != r { assert RequestInv(s, s.requests[q]); }
    }
  }

  /** Snapshot-to-commit windows never overlap: only the head is being written. */
  lemma OnlyHeadWrites(s: State)
    requires QueueInv(s)
    ensures forall id :: id in s.exports && s.exports[id].phase.Writing? ==> s.queue != [] && id == s.queue[0]
  {
  }

  /** The head settles, and the next call is the head. */
  lemma HeadPops(s: State, t: State)
    requires QueueInv(s) && s.queue != []
    requires s.queue[0] in t.exports && t.exports == s.exports[s.queue[0] := t.exports[s.queue[0]]]
    requires t.queue == s.queue[1..] && t.exports[s.queue[0]].phase.Settled?
    ensures QueueInv(t)
  {
  }

  lemma HeadMoves(s: State, step: Step)
    requires Inv(s) && Enabled(s, step)
    requires step.TakeSnapshot? || step.CommitWrite? || step.FailExport?
    ensures QueueInv(Apply(s, step)) && Onward(s, Apply(s, step))
  {
    var head, t := s.queue[0], Apply(s, step);
    assert ExportInv(s, s.exports[head]);
    if !step.TakeSnapshot? {
      HeadPops(s, t);
    }
  }

  lemma ExportSteps(s: State, step: Step)
    requires Inv(s) && Enabled(s, step)
    requires step.TakeSnapshot? || step.CommitWrite? || step.FailExport?
    ensures Inv(Apply(s, step)) && Onward(s, Apply(s, step))
  {
    var head, t := s.queue[0], Apply(s, step);
    HeadMoves(s, step);
    OnlyHeadWrites(s);
    Carried(s, t);
    assert CellsInv(t);
    forall id | id in t.exports ensures ExportInv(t, t.exports[id]) {
      assert ExportInv(s, s.exports[id]);
    }
    forall q | q in t.requests ensures RequestInv(t, t.requests[q]) {
      assert RequestInv(s, s.requests[q]);
    }
  }

  lemma ResolveStep(s: State, id: nat)
    requires Inv(s) && Enabled(s, ResolveExport(id))
    ensures Inv(Apply(s, ResolveExport(id)))
  {
    var t := Apply(s, ResolveExport(id));
    Carried(s, t);
    assert ExportInv(s, s.exports[id]);
    forall o | o in t.exports ensures ExportInv(t, t.exports[o]) {
      assert ExportInv(s, s.exports[o]);
    }
    forall q | q in t.requests ensures RequestInv(t, t.requests[q]) {
      assert RequestInv(s, s.requests[q]);
    }
    forall m | m in t.mutations && t.mutations[m].running ensures Holds(t, t.db, m) {
      assert Holds(s, s.db, m);
    }
  }

  lemma CrashStep(s: State)
    requires Inv(s)
    ensures Inv(Apply(s, Crash))
  {
    var t := Apply(s, Crash);
    forall m | m in t.vouched ensures Holds(t, t.disk, m) {
      HoldsLater(s, t, s.disk, t.disk, m);
    }
  }

  lemma StepKeeps(s: State, step: Step)
    requires Inv(s) && Enabled(s, step)
    ensures Inv(Apply(s, step))
  {
    match step
    case RunStatement(m) => StatementStep(s, m);
    case EndMutation(m) => EndedKeeps(s, m);
    case EndUnscoped(m, r, clean) =>
      EndedKeeps(s, m);
      FlushKeeps(Ended(s, m), r, clean);
    case EndScope(r, clean) =>
      if s.requests[r].owes || Unexported(s.cells) {
        FlushKeeps(s, r, clean);
      } else {
        AnswerKeeps(s, r, |s.ended|, true);
      }
    case Answer(r) =>
      assert RequestInv(s, s.requests[r]) && ExportInv(s, s.exports[s.requests[r].flush]);
      AnswerKeeps(s, r, s.requests[r].ended, s.exports[s.requests[r].flush].phase.ok);
    case TakeSnapshot => ExportSteps(s, step);
    case CommitWrite => ExportSteps(s, step);
    case FailExport => ExportSteps(s, step);
    case ResolveExport(id) => ResolveStep(s, id);
    case Crash => CrashStep(s);
    case OpenScope(r) => ScopeMarked(s, r, false);
    case BeginMutation(m, scope) =>
      MutationBegun(s, m, scope);
      if scope.Some? { ScopeMarked(s.(mutations := s.mutations[m := Mutation(0, true, scope)]), scope.value, true); }
  }

  // ─── Whole runs ─────────────────────────────────────────────────────────

  lemma {:induction false} RunKeeps(s: State, run: seq<Step>)
    requires Inv(s) && Allowed(s, run)
    ensures Inv(Final(s, run))
    decreases |run|
  {
    if run != [] {
      StepKeeps(s, run[0]);
      RunKeeps(Apply(s, run[0]), run[1..]);
    }
  }

  /**
   * The image on disk only ever grows: no step, a crash included, puts an
   * older snapshot over a newer one, and what was vouched for stays so.
   */
  lemma {:induction false} ImageOnlyAdvances(s: State, run: seq<Step>)
    requires Inv(s) && Allowed(s, run)
    ensures s.disk <= Final(s, run).disk && s.vouched <= Final(s, run).vouched
    decreases |run|
  {
    if run != [] {
      StepKeeps(s, run[0]);
      if run[0].CommitWrite? { ExportSteps(s, run[0]); }
      ImageOnlyAdvances(Apply(s, run[0]), run[1..]);
    }
  }

  /** A failed export leaves the image alone and hands the turn to the next call. */
  lemma FailureUnblocks(s: State)
    requires Inv(s) && s.queue != []
    ensures Enabled(s, FailExport)
    ensures var t := Apply(s, FailExport);
            && t.disk == s.disk && t.queue == s.queue[1..]
            && (t.queue != [] ==> Enabled(t, TakeSnapshot))
  {
  }

  // ─── The epoch rule ─────────────────────────────────────────────────────

  predicate Finished(q: Request, ended: nat)
  {
    (q.Waiting? || q.Answered?) && q.ended == ended
  }

  lemma FinishedStep(s: State, step: Step, r: nat, ended: nat)
    requires Enabled(s, step) && !step.Crash?
    requires r in s.requests && Finished(s.requests[r], ended)
    ensures var t := Apply(s, step); r in t.requests && Finished(t.requests[r], ended) && s.ended <= t.ended
  {
  }

  /** Until the worker dies, a finished request waits on, and answers for, the same mutations. */
  lemma {:induction false} FinishedStays(s: State, run: seq<Step>, r: nat, ended: nat)
    requires Inv(s) && Allowed(s, run) && Crash !in run
    requires r in s.requests && Finished(s.requests[r], ended)
    ensures var t := Final(s, run); r in t.requests && Finished(t.requests[r], ended) && s.ended <= t.ended
    decreases |run|
  {
    if run != [] {
      assert run[0] in run;
      assert forall step :: step in run[1..] ==> step in run;
      StepKeeps(s, run[0]);
      FinishedStep(s, run[0], r, ended);
      FinishedStays(Apply(s, run[0]), run[1..], r, ended);
    }
  }

  /** `dispatch_request`'s answer, given the flow's own and the flush verdict. */
  datatype Reply<T> = NotInitialized | NotSaved | Flow(response: T)

  function Dispatch<T>(initialized: bool, response: T, flushed: bool): Reply<T>
  {
    if !initialized then NotInitialized
    else if !flushed then NotSaved
    else Flow(response)
  }

  /** An `Ok` verdict vouches for every mutation that had ended when the scope did. */
  lemma VerdictVouches(s: State, r: nat, clean: bool, middle: seq<Step>, m: nat)
    requires Inv(s) && Enabled(s, EndScope(r, clean)) && m in s.ended
    requires Allowed(Apply(s, EndScope(r, clean)), middle) && Crash !in middle
    requires var t := Final(Apply(s, EndScope(r, clean)), middle);
             r in t.requests && t.requests[r].Answered? && t.requests[r].ok
    ensures Inv(Final(Apply(s, EndScope(r, clean)), middle))
    ensures m in Final(Apply(s, EndScope(r, clean)), middle).vouched
  {
    var ended := Apply(s, EndScope(r, clean));
    StepKeeps(s, EndScope(r, clean));
    FinishedStays(ended, middle, r, |s.ended|);
    RunKeeps(ended, middle);
    var t := Final(ended, middle);
    OkVouches(t, r, s.ended, m);
  }

  lemma OkVouches(t: State, r: nat, ended: seq<nat>, m: nat)
    requires Inv(t) && r in t.requests && t.requests[r] == Answered(|ended|, true)
    requires ended <= t.ended && m in ended
    ensures m in t.vouched
  {
  }

  /** Whatever was vouched for is on disk, and in memory after any crash and reopen. */
  lemma VouchedSurvives(s: State, after: seq<Step>, m: nat)
    requires Inv(s) && m in s.vouched && Allowed(s, after)
    ensures var t := Final(s, after); Holds(t, t.disk, m) && Holds(Apply(t, Crash), Apply(t, Crash).db, m)
  {
    ImageOnlyAdvances(s, after);
    RunKeeps(s, after);
    var t := Final(s, after);
    assert Holds(t, t.disk, m);
    HoldsLater(t, Apply(t, Crash), t.disk, t.disk, m);
  }

  /**
   * The epoch rule, and the crash safety of replies. From a fresh worker,
   * `before` leads to `s1`, where request `r`'s scope ends; `middle` to `s2`,
   * where its verdict is out and the flow's own response is handed back; and
   * `after`, any steps, failures and crashes, to `s3`. Every mutation that had
   * ended at `s1` - whichever request made it, completed or dropped half-way -
   * is whole in the OPFS image of `s3`, and in the database a worker that
   * crashes there reopens.
   */
  lemma RepliesAreDurable<T>(s0: State, before: seq<Step>, s1: State, r: nat, clean: bool,
                             middle: seq<Step>, s2: State, after: seq<Step>, s3: State, response: T, m: nat)
    requires Initial(s0) && Allowed(s0, before) && s1 == Final(s0, before) && m in s1.ended
    requires Enabled(s1, EndScope(r, clean)) && Crash !in middle
    requires Allowed(Apply(s1, EndScope(r, clean)), middle) && s2 == Final(Apply(s1, EndScope(r, clean)), middle)
    requires r in s2.requests && s2.requests[r].Answered?
    requires Dispatch(true, response, s2.requests[r].ok) == Flow(response)
    requires Allowed(s2, after) && s3 == Final(s2, after)
    ensures Holds(s3, s3.disk, m)
    ensures Holds(Apply(s3, Crash), Apply(s3, Crash).db, m)
  {
    RunKeeps(s0, before);
    VerdictVouches(s1, r, clean, middle, m);
    VouchedSurvives(s2, after, m);
  }

  /**
   * A write outside every scope always calls an export of its own: no export
   * called before its end counts as covering it.
   */
  lemma UnscopedCallsItsOwn(s: State, m: nat, r: nat, clean: bool)
    requires Inv(s) && Enabled(s, EndUnscoped(m, r, clean))
    ensures var t := Apply(s, EndUnscoped(m, r, clean));
            && t.queue == s.queue + [s.cells.nextFlushId]
            && t.requests[r] == Waiting(|s.ended| + 1, s.cells.nextFlushId)
            && t.exports[s.cells.nextFlushId] == Export(|s.ended| + 1, clean, Queued)
  {
  }

  /** Its flush's `Ok` vouches for it, and for every mutation that ended before it. */
  lemma UnscopedVouches(s: State, m: nat, r: nat, clean: bool, middle: seq<Step>, o: nat)
    requires Inv(s) && Enabled(s, EndUnscoped(m, r, clean)) && (o == m || o in s.ended)
    requires Allowed(Apply(s, EndUnscoped(m, r, clean)), middle) && Crash !in middle
    requires var t := Final(Apply(s, EndUnscoped(m, r, clean)), middle);
             r in t.requests && t.requests[r].Answered? && t.requests[r].ok
    ensures Inv(Final(Apply(s, EndUnscoped(m, r, clean)), middle))
    ensures o in Final(Apply(s, EndUnscoped(m, r, clean)), middle).vouched
  {
    var ended := Apply(s, EndUnscoped(m, r, clean));
    StepKeeps(s, EndUnscoped(m, r, clean));
    UnscopedCallsItsOwn(s, m, r, clean);
    FinishedStays(ended, middle, r, |s.ended| + 1);
    RunKeeps(ended, middle);
    OkVouches(Final(ended, middle), r, s.ended + [m], o);
  }

  /**
   * The same rule for a write outside every scope. From a fresh worker,
   * `before` leads to `s1`, where the write `m` ends and calls its flush;
   * `middle` to `s2`, where that flush has answered `Ok`; `after`, any steps,
   * failures and crashes, to `s3`. The write, and every mutation that had ended
   * before it, is whole in the image of `s3` and in a database reopened there.
   */
  lemma WritesAreDurable(s0: State, before: seq<Step>, s1: State, m: nat, r: nat, clean: bool,
                         middle: seq<Step>, s2: State, after: seq<Step>, s3: State, o: nat)
    requires Initial(s0) && Allowed(s0, before) && s1 == Final(s0, before)
    requires Enabled(s1, EndUnscoped(m, r, clean)) && Crash !in middle && (o == m || o in s1.ended)
    requires Allowed(Apply(s1, EndUnscoped(m, r, clean)), middle)
    requires s2 == Final(Apply(s1, EndUnscoped(m, r, clean)), middle)
    requires r in s2.requests && s2.requests[r].Answered? && s2.requests[r].ok
    requires Allowed(s2, after) && s3 == Final(s2, after)
    ensures Holds(s3, s3.disk, o)
    ensures Holds(Apply(s3, Crash), Apply(s3, Crash).db, o)
  {
    RunKeeps(s0, before);
    UnscopedVouches(s1, m, r, clean, middle, o);
    VouchedSurvives(s2, after, o);
  }

  // ─── At most one export each ────────────────────────────────────────────

  /** The exports the step calls. */
  function Called(s: State, step: Step): nat
    requires Enabled(s, step)
  {
    var t := Apply(s, step);
    if |t.queue| > |s.queue| then |t.queue| - |s.queue| else 0
  }

  /** The step is the end of request `r`, the one place it can call an export. */
  predicate Ends(step: Step, r: nat)
  {
    (step.EndScope? || step.EndUnscoped?) && step.r == r
  }

  /** The exports request `r` calls along a run. */
  function CalledBy(s: State, run: seq<Step>, r: nat): nat
    requires Allowed(s, run)
    decreases |run|
  {
    if run == [] then 0
    else (if Ends(run[0], r) then Called(s, run[0]) else 0) + CalledBy(Apply(s, run[0]), run[1..], r)
  }

  /** Only the end of a scope, or of a write outside one, calls an export. */
  lemma OnlyEndsCall(s: State, step: Step)
    requires Enabled(s, step)
    ensures Called(s, step) <= 1
    ensures Called(s, step) == 1 ==> step.EndScope? || step.EndUnscoped?
  {
  }

  lemma {:induction false} FinishedCallsNone(s: State, run: seq<Step>, r: nat)
    requires Inv(s) && Allowed(s, run) && Crash !in run
    requires r in s.requests && !s.requests[r].InScope?
    ensures CalledBy(s, run, r) == 0
    decreases |run|
  {
    if run != [] {
      assert run[0] in run && forall step :: step in run[1..] ==> step in run;
      StepKeeps(s, run[0]);
      FinishedStep(s, run[0], r, s.requests[r].ended);
      FinishedCallsNone(Apply(s, run[0]), run[1..], r);
    }
  }

  /**
   * Coalescing: between crashes, over every run, a request or a write outside
   * every scope calls at most one export, however many mutations it made.
   */
  lemma {:induction false} OneExportEach(s: State, run: seq<Step>, r: nat)
    requires Inv(s) && Allowed(s, run) && Crash !in run
    ensures CalledBy(s, run, r) <= 1
    decreases |run|
  {
    if run != [] {
      assert run[0] in run && forall step :: step in run[1..] ==> step in run;
      StepKeeps(s, run[0]);
      OnlyEndsCall(s, run[0]);
      if Ends(run[0], r) {
        EndFinishes(s, run[0]);
        FinishedCallsNone(Apply(s, run[0]), run[1..], r);
      } else {
        OneExportEach(Apply(s, run[0]), run[1..], r);
      }
    }
  }

  lemma EndFinishes(s: State, step: Step)
    requires Enabled(s, step) && (step.EndScope? || step.EndUnscoped?)
    ensures var t := Apply(s, step); step.r in t.requests && !t.requests[step.r].InScope?
  {
  }

  /** The scope's end in the protocol is the decision the scope's own cells make. */
  lemma EndScopeDecides(s: State, r: nat, clean: bool)
    requires Inv(s) && Enabled(s, EndScope(r, clean))
    ensures var t := Apply(s, EndScope(r, clean));
            var (cells, verdict) := ScopeEnd(s.cells, s.requests[r].owes);
            && t.cells == cells
            && (verdict.Nothing? <==> t.requests[r] == Answered(|s.ended|, true))
            && (verdict.Await? ==> t.requests[r] == Waiting(|s.ended|, verdict.flush))
            && t.queue == (if verdict.Await? && verdict.started then s.queue + [verdict.flush] else s.queue)
  {
    ScopeEndDecides(s.cells, s.requests[r].owes);
  }
}
