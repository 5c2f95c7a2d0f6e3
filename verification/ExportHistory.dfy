/**
 * The export protocol told by its steps alone. An account that sees no cell, no
 * queue and no export - only what was called, committed, failed, resolved and
 * ended, in order - says what every scope's end decides and how every request
 * is answered; over every run, the protocol does what the account says.
 */
module ExportHistory {
  import opened Prelude
  import opened FlushScopes
  import opened ExportProtocol

  /** One `dbFlush`: the mutations ended at the call, whether it found the connection clean, its write. */
  datatype Call = Call(ended: nat, clean: bool, committed: bool)

  /** Since the worker started. Calls take their turns in order: `turns` of them are over. */
  datatype Account = Account(
    ended: seq<nat>, owing: set<nat>, calls: seq<Call>, turns: nat,
    resolved: set<nat>,             // calls whose outcome has been seen
    through: nat,                   // the most mutations a call seen to succeed vouches for
    awaits: map<nat, Option<nat>>)  // who has ended, and the call each waits for, if any

  const NOTHING_YET := Account([], {}, [], 0, {}, 0, map[])

  predicate Succeeded(call: Call)
  {
    call.clean && call.committed
  }

  /** The last call, if it is unseen and no mutation has ended since. */
  predicate CanJoin(l: Account)
  {
    var last := |l.calls| - 1;
    l.calls != [] && last !in l.resolved && l.calls[last].ended == |l.ended|
  }

  function CallFor(l: Account, r: nat, clean: bool): Account
  {
    l.(calls := l.calls + [Call(|l.ended|, clean, false)], awaits := l.awaits[r := Some(|l.calls|)])
  }

  function Noted(l: Account, step: Step): Account
  {
    match step
    case BeginMutation(_, scope) => if scope.Some? then l.(owing := l.owing + {scope.value}) else l
    case EndMutation(m) => l.(ended := l.ended + [m])
    case EndUnscoped(m, r, clean) => CallFor(l.(ended := l.ended + [m]), r, clean)
    case EndScope(r, clean) =>
      if r !in l.owing && |l.ended| <= l.through then l.(awaits := l.awaits[r := None])
      else if CanJoin(l) then l.(awaits := l.awaits[r := Some(|l.calls| - 1)])
      else CallFor(l, r, clean)
    case CommitWrite =>
      if l.turns >= |l.calls| then l
      else l.(calls := l.calls[l.turns := l.calls[l.turns].(committed := true)], turns := l.turns + 1)
    case FailExport => l.(turns := l.turns + 1)
    case ResolveExport(id) =>
      var seen := l.(resolved := l.resolved + {id});
      if id < |l.calls| && Succeeded(l.calls[id]) && l.calls[id].ended > l.through
      then seen.(through := l.calls[id].ended) else seen
    case Crash => NOTHING_YET
    case _ => l
  }

  function History(l: Account, run: seq<Step>): Account
    decreases |run|
  {
    if run == [] then l else History(Noted(l, run[0]), run[1..])
  }

  // ─── The protocol keeps to the account ───────────────────────────────────

  /** The export of the `id`-th call. */
  predicate TracksExport(e: Export, call: Call, over: bool, seen: bool)
  {
    && e.covers == call.ended && e.clean == call.clean
    && match e.phase
       case Queued => !over && !seen && !call.committed
       case Writing(_) => !over && !seen && !call.committed
       case Settled(written) => over && !seen && written == call.committed
       case Resolved(ok) => over && seen && ok == Succeeded(call)
  }

  /** The queue is the calls whose turn is to come, in order. */
  ghost predicate TracksQueue(l: Account, queue: seq<nat>)
  {
    && l.turns + |queue| == |l.calls|
    && (forall i :: 0 <= i < |queue| ==> queue[i] == l.turns + i)
  }

  ghost predicate TracksExports(l: Account, exports: map<nat, Export>)
  {
    && (forall id: nat :: id in exports <==> id < |l.calls|)
    && (forall id: nat :: id < |l.calls| ==>
          TracksExport(exports[id], l.calls[id], id < l.turns, id in l.resolved))
    && (forall id :: id in l.resolved ==> id < |l.calls|)
  }

  predicate TracksCells(l: Account, c: Cells)
  {
    var last := |l.calls| - 1;
    c == Cells(|l.ended|, l.through,
               if l.calls != [] && last !in l.resolved then Some(InFlight(l.calls[last].ended, last)) else None,
               |l.calls|)
  }

  predicate TracksRequest(l: Account, r: nat, q: Request)
  {
    match q
    case InScope(owes) => r !in l.awaits && (owes <==> r in l.owing)
    case Waiting(_, flush) => r in l.awaits && l.awaits[r] == Some(flush) && flush < |l.calls|
    case Answered(_, ok) =>
      && r in l.awaits
      && (l.awaits[r].None? ==> ok)
      && (l.awaits[r].Some? ==>
            var id := l.awaits[r].value;
            id < |l.calls| && id in l.resolved && ok == Succeeded(l.calls[id]))
  }

  ghost predicate TracksRequests(l: Account, requests: map<nat, Request>)
  {
    && (forall r :: r in requests ==> TracksRequest(l, r, requests[r]))
    && (forall r :: r in l.awaits ==> r in requests && !requests[r].InScope?)
    && (forall r :: r in l.owing ==> r in requests)
  }

  ghost predicate Tracks(l: Account, s: State)
  {
    && s.ended == l.ended
    && (forall id: nat :: id < |l.calls| ==> l.calls[id].ended <= |l.ended|)
    && TracksCells(l, s.cells)
    && TracksQueue(l, s.queue)
    && TracksExports(l, s.exports)
    && TracksRequests(l, s.requests)
  }

  /** One export moved on, or new; the others are as they were. */
  lemma ExportMoves(l: Account, after: Account, exports: map<nat, Export>, now: map<nat, Export>, id: nat)
    requires TracksExports(l, exports) && id < |after.calls| && |l.calls| <= |after.calls| <= |l.calls| + 1
    requires |after.calls| == |l.calls| + 1 ==> id == |l.calls|
    requires now.Keys == exports.Keys + {id}
    requires forall o: nat :: o < |l.calls| && o != id ==>
               && now[o] == exports[o] && after.calls[o] == l.calls[o]
               && (o < after.turns <==> o < l.turns) && (o in after.resolved <==> o in l.resolved)
    requires TracksExport(now[id], after.calls[id], id < after.turns, id in after.resolved)
    requires after.resolved <= l.resolved + {id}
    ensures TracksExports(after, now)
  {
    forall o: nat | o < |after.calls|
      ensures TracksExport(now[o], after.calls[o], o < after.turns, o in after.resolved)
    {
      if o != id { assert TracksExport(exports[o], l.calls[o], o < l.turns, o in l.resolved); }
    }
  }

  lemma CallExports(l: Account, exports: map<nat, Export>, r: nat, clean: bool)
    requires TracksExports(l, exports) && l.turns <= |l.calls|
    ensures TracksExports(CallFor(l, r, clean), exports[|l.calls| := Export(|l.ended|, clean, Queued)])
  {
    ExportMoves(l, CallFor(l, r, clean), exports, exports[|l.calls| := Export(|l.ended|, clean, Queued)], |l.calls|);
  }

  /** A new call is the last in the queue; the other exports are as they were. */
  lemma CallTracks(l: Account, s: State, r: nat, clean: bool)
    requires Tracks(l, s) && !Covered(s.cells) && r !in l.awaits
    ensures Tracks(CallFor(l, r, clean), Flush(s, r, clean))
  {
    var after, t := CallFor(l, r, clean), Flush(s, r, clean);
    CallExports(l, s.exports, r, clean);
    assert t.exports == s.exports[|l.calls| := Export(|l.ended|, clean, Queued)];
    RequestsTracked(l, after, s.requests, t.requests, r);
  }

  /** What is known of a request does not change with later calls, turns and ends. */
  predicate SameCalls(l: Account, after: Account)
  {
    && |l.calls| <= |after.calls|
    && l.resolved <= after.resolved
    && (forall id: nat | id in l.resolved && id < |l.calls| :: after.calls[id] == l.calls[id])
  }

  lemma RequestsTracked(l: Account, after: Account, requests: map<nat, Request>, now: map<nat, Request>, r: nat)
    requires TracksRequests(l, requests) && SameCalls(l, after)
    requires now.Keys == requests.Keys + {r} && (forall q :: q in requests && q != r ==> now[q] == requests[q])
    requires forall q :: q != r ==>
               (q in after.awaits <==> q in l.awaits) && (q in l.awaits ==> after.awaits[q] == l.awaits[q])
               && (q in after.owing <==> q in l.owing)
    requires TracksRequest(after, r, now[r]) && (r in after.awaits ==> !now[r].InScope?)
    ensures TracksRequests(after, now)
  {
    forall q | q in now ensures TracksRequest(after, q, now[q]) {
      if q != r { assert TracksRequest(l, q, requests[q]); }
    }
  }

  /** The same when no request changes. */
  lemma RequestsKept(l: Account, after: Account, requests: map<nat, Request>)
    requires TracksRequests(l, requests) && SameCalls(l, after)
    requires after.awaits == l.awaits && after.owing == l.owing
    ensures TracksRequests(after, requests)
  {
    forall q | q in requests ensures TracksRequest(after, q, requests[q]) {
      assert TracksRequest(l, q, requests[q]);
    }
  }

  lemma EndedTracks(l: Account, s: State, m: nat)
    requires Tracks(l, s)
    ensures Tracks(l.(ended := l.ended + [m]), Ended(s, m))
  {
    RequestsKept(l, l.(ended := l.ended + [m]), s.requests);
  }

  /** The calls the cells say an end can share are the ones the account does. */
  lemma CoveredIff(l: Account, s: State)
    requires Tracks(l, s)
    ensures Covered(s.cells) <==> CanJoin(l)
    ensures Unexported(s.cells) <==> |l.ended| > l.through
  {
  }

  /** A scope answered at once, or joined to the last call. */
  lemma NoCallTracks(l: Account, s: State, r: nat, call: Option<nat>, q: Request)
    requires Tracks(l, s) && r in s.requests && r !in l.awaits && !q.InScope?
    requires TracksRequest(l.(awaits := l.awaits[r := call]), r, q)
    ensures Tracks(l.(awaits := l.awaits[r := call]), s.(requests := s.requests[r := q]))
  {
    RequestsTracked(l, l.(awaits := l.awaits[r := call]), s.requests, s.requests[r := q], r);
  }

  /** Only what an account tracks matters to it. */
  lemma VouchedIsUntracked(l: Account, s: State, vouched: set<nat>)
    requires Tracks(l, s)
    ensures Tracks(l, s.(vouched := vouched))
  {
  }

  lemma IdleTracks(l: Account, s: State, r: nat)
    requires Tracks(l, s) && r in s.requests && s.requests[r].InScope? && r !in l.awaits
    ensures Tracks(l.(awaits := l.awaits[r := None]),
                   s.(requests := s.requests[r := Answered(|s.ended|, true)], vouched := VouchFor(s, |s.ended|, true)))
  {
    NoCallTracks(l, s, r, None, Answered(|s.ended|, true));
    VouchedIsUntracked(l.(awaits := l.awaits[r := None]),
                       s.(requests := s.requests[r := Answered(|s.ended|, true)]), VouchFor(s, |s.ended|, true));
  }

  /** A scope's end: answered at once, joined to the last call, or a call of its own. */
  lemma EndScopeTracks(l: Account, s: State, r: nat, clean: bool)
    requires Tracks(l, s) && Enabled(s, EndScope(r, clean))
    ensures Tracks(Noted(l, EndScope(r, clean)), Apply(s, EndScope(r, clean)))
  {
    assert TracksRequest(l, r, s.requests[r]);
    CoveredIff(l, s);
    if r !in l.owing && |l.ended| <= l.through {
      IdleTracks(l, s, r);
    } else if CanJoin(l) {
      NoCallTracks(l, s, r, Some(|l.calls| - 1), Waiting(|s.ended|, |l.calls| - 1));
    } else {
      CallTracks(l, s, r, clean);
    }
  }

  lemma BeginTracks(l: Account, s: State, m: nat, scope: Option<nat>)
    requires Tracks(l, s) && Enabled(s, BeginMutation(m, scope))
    ensures Tracks(Noted(l, BeginMutation(m, scope)), Apply(s, BeginMutation(m, scope)))
  {
    var after, t := Noted(l, BeginMutation(m, scope)), Apply(s, BeginMutation(m, scope));
    if scope.Some? {
      assert TracksRequest(l, scope.value, s.requests[scope.value]);
      RequestsTracked(l, after, s.requests, t.requests, scope.value);
    }
  }

  lemma OpenTracks(l: Account, s: State, r: nat)
    requires Tracks(l, s) && Enabled(s, OpenScope(r))
    ensures Tracks(l, Apply(s, OpenScope(r)))
  {
    RequestsTracked(l, l, s.requests, Apply(s, OpenScope(r)).requests, r);
  }

  /** The turn at the head of the queue: taken, committed or failed. */
  lemma TurnExports(l: Account, s: State, step: Step)
    requires Tracks(l, s) && Enabled(s, step) && (step.TakeSnapshot? || step.CommitWrite? || step.FailExport?)
    ensures TracksExports(Noted(l, step), Apply(s, step).exports) && SameCalls(l, Noted(l, step))
  {
    var head := s.queue[0];
    assert head == l.turns;
    assert TracksExport(s.exports[head], l.calls[head], false, head in l.resolved);
    ExportMoves(l, Noted(l, step), s.exports, Apply(s, step).exports, head);
  }

  lemma TurnTracks(l: Account, s: State, step: Step)
    requires Tracks(l, s) && Enabled(s, step) && (step.TakeSnapshot? || step.CommitWrite? || step.FailExport?)
    ensures Tracks(Noted(l, step), Apply(s, step))
  {
    TurnExports(l, s, step);
    RequestsKept(l, Noted(l, step), s.requests);
    var after, t := Noted(l, step), Apply(s, step);
    assert TracksQueue(after, t.queue);
    assert TracksCells(after, t.cells);
  }

  lemma ResolveExports(l: Account, s: State, id: nat)
    requires Tracks(l, s) && Enabled(s, ResolveExport(id))
    ensures var after, t := Noted(l, ResolveExport(id)), Apply(s, ResolveExport(id));
            TracksExports(after, t.exports) && SameCalls(l, after)
  {
    var after, t := Noted(l, ResolveExport(id)), Apply(s, ResolveExport(id));
    assert TracksExport(s.exports[id], l.calls[id], id < l.turns, id in l.resolved);
    ExportMoves(l, after, s.exports, t.exports, id);
  }

  /** Seeing an outcome clears the slot if it is the last call's, and a success vouches for its mutations. */
  lemma ResolveCells(l: Account, c: Cells, id: nat)
    requires TracksCells(l, c) && id < |l.calls| && id !in l.resolved
    ensures TracksCells(Noted(l, ResolveExport(id)),
                        ExportResolved(c, id, l.calls[id].ended, Succeeded(l.calls[id])))
  {
  }

  lemma ResolveTracks(l: Account, s: State, id: nat)
    requires Tracks(l, s) && Enabled(s, ResolveExport(id))
    ensures Tracks(Noted(l, ResolveExport(id)), Apply(s, ResolveExport(id)))
  {
    assert TracksExport(s.exports[id], l.calls[id], id < l.turns, id in l.resolved);
    ResolveExports(l, s, id);
    ResolveCells(l, s.cells, id);
    RequestsKept(l, Noted(l, ResolveExport(id)), s.requests);
  }

  lemma AnswerTracks(l: Account, s: State, r: nat)
    requires Tracks(l, s) && Enabled(s, Answer(r))
    ensures Tracks(l, Apply(s, Answer(r)))
  {
    var id := s.requests[r].flush;
    assert TracksRequest(l, r, s.requests[r]);
    assert TracksExport(s.exports[id], l.calls[id], id < l.turns, id in l.resolved);
    RequestsTracked(l, l, s.requests, Apply(s, Answer(r)).requests, r);
  }

  lemma StepTracks(l: Account, s: State, step: Step)
    requires Tracks(l, s) && Enabled(s, step)
    ensures Tracks(Noted(l, step), Apply(s, step))
  {
    match step
    case EndMutation(m) => EndedTracks(l, s, m);
    case EndUnscoped(m, r, clean) =>
      EndedTracks(l, s, m);
      CallTracks(l.(ended := l.ended + [m]), Ended(s, m), r, clean);
    case EndScope(r, clean) => EndScopeTracks(l, s, r, clean);
    case TakeSnapshot => TurnTracks(l, s, step);
    case CommitWrite => TurnTracks(l, s, step);
    case FailExport => TurnTracks(l, s, step);
    case ResolveExport(id) => ResolveTracks(l, s, id);
    case Answer(r) => AnswerTracks(l, s, r);
    case OpenScope(r) => OpenTracks(l, s, r);
    case BeginMutation(m, scope) => BeginTracks(l, s, m, scope);
    case _ =>
  }

  lemma {:induction false} RunTracks(l: Account, s: State, run: seq<Step>)
    requires Tracks(l, s) && Allowed(s, run)
    ensures Tracks(History(l, run), Final(s, run))
    decreases |run|
  {
    if run != [] {
      StepTracks(l, s, run[0]);
      RunTracks(Noted(l, run[0]), Apply(s, run[0]), run[1..]);
    }
  }

  // ─── What every run comes to ────────────────────────────────────────────

  /**
   * Over every run: a request is answered `Ok` if and only if it had nothing
   * to wait for, or the export it waited for was called on a connection in no
   * transaction and its write was committed. In the steps' own terms: not by
   * what any cell or export says of itself.
   */
  lemma AnsweredIff(s0: State, run: seq<Step>, r: nat)
    requires Initial(s0) && Allowed(s0, run)
    requires var s := Final(s0, run); r in s.requests && s.requests[r].Answered?
    ensures var l := History(NOTHING_YET, run);
            && r in l.awaits
            && (l.awaits[r].Some? ==> l.awaits[r].value < |l.calls|)
            && (Final(s0, run).requests[r].ok <==>
                  l.awaits[r].None? || Succeeded(l.calls[l.awaits[r].value]))
  {
    RunTracks(NOTHING_YET, s0, run);
    assert TracksRequest(History(NOTHING_YET, run), r, Final(s0, run).requests[r]);
  }

  /** So `dispatch_request`, once the runtime is there, hands back the flow's own response exactly then. */
  lemma ReplyIff<T>(s0: State, run: seq<Step>, r: nat, response: T)
    requires Initial(s0) && Allowed(s0, run)
    requires var s := Final(s0, run); r in s.requests && s.requests[r].Answered?
    ensures var l := History(NOTHING_YET, run);
            && r in l.awaits
            && (l.awaits[r].Some? ==> l.awaits[r].value < |l.calls|)
            && Dispatch(true, response, Final(s0, run).requests[r].ok) ==
                 (if l.awaits[r].None? || Succeeded(l.calls[l.awaits[r].value]) then Flow(response) else NotSaved)
            && Dispatch(false, response, Final(s0, run).requests[r].ok) == NotInitialized
  {
    AnsweredIff(s0, run, r);
  }

  /**
   * Over every run, what the end of a scope decides. It is answered at once if
   * and only if no write began in it and every mutation ended so far is
   * vouched for; else it waits for the last call if that is unseen and no
   * mutation has ended since; else it makes a call of its own.
   */
  lemma EndScopeIff(s0: State, run: seq<Step>, r: nat, clean: bool)
    requires Initial(s0) && Allowed(s0, run) && Enabled(Final(s0, run), EndScope(r, clean))
    ensures var s, l := Final(s0, run), History(NOTHING_YET, run);
            var t, idle := Apply(s, EndScope(r, clean)), r !in l.owing && |l.ended| <= l.through;
            && (t.requests[r] == Answered(|l.ended|, true) <==> idle)
            && (!idle && CanJoin(l) ==> t.requests[r] == Waiting(|l.ended|, |l.calls| - 1) && t.queue == s.queue)
            && (!idle && !CanJoin(l) ==>
                  t.requests[r] == Waiting(|l.ended|, |l.calls|) && t.queue == s.queue + [|l.calls|])
  {
    var s, l := Final(s0, run), History(NOTHING_YET, run);
    RunTracks(NOTHING_YET, s0, run);
    assert TracksRequest(l, r, s.requests[r]);
    CoveredIff(l, s);
  }

  /** How often the run has `m` run a statement. */
  function Ran(run: seq<Step>, m: nat): nat
  {
    if run == [] then 0 else (if run[0] == RunStatement(m) then 1 else 0) + Ran(run[1..], m)
  }

  /** What an image must hold to hold `m` whole is every statement the run had it run, crashes or not. */
  lemma {:induction false} WholeIsEveryStatement(s: State, run: seq<Step>, m: nat)
    requires Allowed(s, run)
    ensures var before := if m in s.mutations then s.mutations[m].statements else 0;
            var t := Final(s, run);
            (if m in t.mutations then t.mutations[m].statements else 0) == before + Ran(run, m)
    decreases |run|
  {
    if run != [] {
      WholeIsEveryStatement(Apply(s, run[0]), run[1..], m);
    }
  }

  /** The statements in memory, in the snapshot being written and in the file, told by the steps alone. */
  datatype Images = Images(memory: seq<Stmt>, taken: seq<Stmt>, file: seq<Stmt>)

  /** `before` is how many statements each mutation has run. */
  function Imaged(i: Images, step: Step, before: nat): Images
  {
    match step
    case RunStatement(m) => i.(memory := i.memory + [Stmt(m, before)])
    case TakeSnapshot => i.(taken := i.memory)
    case CommitWrite => i.(file := i.taken)
    case Crash => i.(memory := i.file)
    case _ => i
  }

  function ImagesOf(i: Images, done: seq<Step>, run: seq<Step>): Images
    decreases |run|
  {
    if run == [] then i
    else
      var before := if run[0].RunStatement? then Ran(done, run[0].m) else 0;
      ImagesOf(Imaged(i, run[0], before), done + [run[0]], run[1..])
  }

  predicate TracksImages(i: Images, s: State)
  {
    && s.db == i.memory && s.disk == i.file
    && (s.queue != [] && s.queue[0] in s.exports && s.exports[s.queue[0]].phase.Writing? ==>
          s.exports[s.queue[0]].phase.snapshot == i.taken)
  }

  lemma ImageTracks(i: Images, s: State, step: Step, before: nat)
    requires TracksImages(i, s) && Inv(s) && Enabled(s, step)
    requires step.RunStatement? ==> before == s.mutations[step.m].statements
    ensures TracksImages(Imaged(i, step, before), Apply(s, step))
  {
    if step.CommitWrite? || step.FailExport? { HeadMoves(s, step); }
    if step.EndScope? { FlushQueues(s, step.r, step.clean); }
    if step.EndUnscoped? {
      EndedKeeps(s, step.m);
      FlushQueues(Ended(s, step.m), step.r, step.clean);
    }
  }

  lemma {:induction false} RanMore(done: seq<Step>, step: Step, m: nat)
    ensures Ran(done + [step], m) == Ran(done, m) + if step == RunStatement(m) then 1 else 0
  {
    if done == [] {
      assert done + [step] == [step] && [step][1..] == [];
    } else {
      assert (done + [step])[1..] == done[1..] + [step];
      RanMore(done[1..], step, m);
    }
  }

  /** Every mutation has run the statements the steps so far had it run. */
  ghost predicate Counted(s: State, done: seq<Step>)
  {
    forall m :: Ran(done, m) == if m in s.mutations then s.mutations[m].statements else 0
  }

  lemma StepCounts(s: State, done: seq<Step>, step: Step)
    requires Enabled(s, step) && Counted(s, done)
    ensures Counted(Apply(s, step), done + [step])
  {
    var t := Apply(s, step);
    forall m ensures Ran(done + [step], m) == if m in t.mutations then t.mutations[m].statements else 0 {
      RanMore(done, step, m);
    }
  }

  lemma {:induction false} ImagesTrack(i: Images, s: State, done: seq<Step>, run: seq<Step>)
    requires TracksImages(i, s) && Inv(s) && Allowed(s, run)
    requires Counted(s, done)
    ensures TracksImages(ImagesOf(i, done, run), Final(s, run))
    decreases |run|
  {
    if run != [] {
      var before := if run[0].RunStatement? then Ran(done, run[0].m) else 0;
      ImageTracks(i, s, run[0], before);
      StepKeeps(s, run[0]);
      StepCounts(s, done, run[0]);
      ImagesTrack(Imaged(i, run[0], before), Apply(s, run[0]), done + [run[0]], run[1..]);
    }
  }

  /**
   * Over every run: the file holds what memory held when the snapshot last
   * committed was taken, and a worker that reopens it has that and no more.
   */
  lemma ReopenedIsTheLastCommitted(s0: State, run: seq<Step>)
    requires Initial(s0) && Allowed(s0, run)
    ensures var t, i := Final(s0, run), ImagesOf(Images([], [], []), [], run);
            t.db == i.memory && t.disk == i.file && Apply(t, Crash).db == i.file && Apply(t, Crash).disk == i.file
  {
    ImagesTrack(Images([], [], []), s0, [], run);
  }

  // ─── Nothing waits for ever ─────────────────────────────────────────────

  /** What a waiting request can still hope for. */
  predicate Hopeful(e: Export)
  {
    match e.phase
    case Resolved(ok) => ok
    case Settled(written) => e.clean && written
    case _ => e.clean
  }

  /** The step that brings the export `id` nearer to its end, its turn or those before it. */
  function NextStep(s: State, id: nat): Step
    requires id in s.exports && !s.exports[id].phase.Resolved?
  {
    if s.exports[id].phase.Settled? then ResolveExport(id)
    else if s.queue != [] && s.queue[0] in s.exports && s.exports[s.queue[0]].phase.Queued? then TakeSnapshot
    else CommitWrite
  }

  function Work(s: State, id: nat): nat
  {
    2 * |s.queue|
    + (if s.queue != [] && s.queue[0] in s.exports && s.exports[s.queue[0]].phase.Queued? then 1 else 0)
    + (if id in s.exports && !s.exports[id].phase.Resolved? then 1 else 0)
  }

  lemma NextStepHelps(s: State, r: nat)
    requires Inv(s) && r in s.requests && s.requests[r].Waiting?
    requires !s.exports[s.requests[r].flush].phase.Resolved?
    ensures var id := s.requests[r].flush;
            var step := NextStep(s, id);
            && Enabled(s, step)
            && Apply(s, step).requests == s.requests && id in Apply(s, step).exports
            && Hopeful(Apply(s, step).exports[id]) == Hopeful(s.exports[id])
            && Work(Apply(s, step), id) < Work(s, id)
  {
    assert RequestInv(s, s.requests[r]);
  }

  lemma OneMore(s: State, step: Step, rest: seq<Step>)
    requires Enabled(s, step) && Allowed(Apply(s, step), rest)
    ensures Allowed(s, [step] + rest) && Final(s, [step] + rest) == Final(Apply(s, step), rest)
  {
    assert ([step] + rest)[1..] == rest;
  }

  /**
   * From any reachable state, whatever has failed so far, the exports' own
   * steps - no new request, no failure - lead every waiting request to its
   * answer, and to `Ok` unless its own export has failed or was not clean.
   */
  lemma {:induction false} WaitingIsAnswered(s: State, r: nat) returns (run: seq<Step>)
    requires Inv(s) && r in s.requests && s.requests[r].Waiting?
    ensures Allowed(s, run) && Crash !in run && FailExport !in run
    ensures var t, w := Final(s, run), s.requests[r];
            r in t.requests && t.requests[r] == Answered(w.ended, Hopeful(s.exports[w.flush]))
    decreases Work(s, s.requests[r].flush)
  {
    var id := s.requests[r].flush;
    assert RequestInv(s, s.requests[r]);
    if s.exports[id].phase.Resolved? {
      run := [Answer(r)] + [];
      OneMore(s, Answer(r), []);
    } else {
      var step := NextStep(s, id);
      NextStepHelps(s, r);
      StepKeeps(s, step);
      var rest := WaitingIsAnswered(Apply(s, step), r);
      run := [step] + rest;
      OneMore(s, step, rest);
    }
  }
}
