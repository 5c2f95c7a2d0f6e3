/**
 * Transaction framing and the write verdict on the one sql.js connection that
 * every task of the worker shares.
 */
module Transactions {
  import opened Prelude

  datatype Control = Begin | Commit | Rollback

  /** A statement: a write, known by its effect, or transaction control. */
  datatype Stmt = Write(effect: nat) | Ctl(control: Control)

  /** SQLite's text for a refused statement, as far as this code reads it. */
  datatype Refusal = NestedBegin | NoActiveTransaction | OtherText

  /** What the world does to a statement: nothing, refuse it, or refuse it and roll back. */
  datatype Fault = Accept | Refuse | RefuseAndRollBack

  type World = nat -> Fault

  datatype Sent = Sent(stmt: Stmt, verdict: Result<(), Refusal>)

  datatype Conn = Conn(inTx: bool, committed: seq<nat>, pending: seq<nat>, sent: seq<Sent>)

  /** Nothing is pending outside a transaction. */
  predicate Sound(c: Conn)
  {
    !c.inTx ==> c.pending == []
  }

  /** SQLite's own rule for a statement it does not refuse for outside reasons. */
  function Execute(c: Conn, stmt: Stmt): (r: (Conn, Result<(), Refusal>))
  {
    match stmt
    case Write(e) =>
      (if c.inTx then c.(pending := c.pending + [e]) else c.(committed := c.committed + [e]), Ok(()))
    case Ctl(Begin) =>
      if c.inTx then (c, Err(NestedBegin)) else (c.(inTx := true, pending := []), Ok(()))
    case Ctl(Commit) =>
      if c.inTx then (c.(inTx := false, committed := c.committed + c.pending, pending := []), Ok(()))
      else (c, Err(NoActiveTransaction))
    case Ctl(Rollback) =>
      if c.inTx then (c.(inTx := false, pending := []), Ok(())) else (c, Err(NoActiveTransaction))
  }

  /** The `n`-th statement sent meets the world's `n`-th fault. */
  function Send(c: Conn, world: World, stmt: Stmt): (r: (Conn, Result<(), Refusal>))
    ensures r.0.sent == c.sent + [Sent(stmt, r.1)]
    ensures Sound(c) ==> Sound(r.0)
  {
    var (after, verdict) :=
      match world(|c.sent|)
      case Accept => Execute(c, stmt)
      case Refuse => (c, Err(OtherText))
      case RefuseAndRollBack => (c.(inTx := false, pending := []), Err(OtherText));
    (after.(sent := c.sent + [Sent(stmt, verdict)]), verdict)
  }

  // ─── `in_transaction` ───────────────────────────────────────────────────

  datatype TxError = Refused(text: Refusal) | BodyFailed(index: nat) | Stuck(cause: TxError)

  /** `BEGIN`; one already open is rolled back, and refused all the same. */
  function BeginTx(c: Conn, world: World): (r: (Conn, Result<(), Refusal>))
  {
    var (begun, verdict) := Send(c, world, Ctl(Begin));
    if verdict == Err(NestedBegin) then (Send(begun, world, Ctl(Rollback)).0, verdict)
    else (begun, verdict)
  }

  /** The statements of a body, one at a time, up to the first refused. */
  function RunBody(c: Conn, world: World, body: seq<Stmt>, index: nat): (r: (Conn, Option<nat>))
    requires index <= |body|
    decreases |body| - index
  {
    if index == |body| then (c, None)
    else
      var (next, verdict) := Send(c, world, body[index]);
      if verdict.Err? then (next, Some(index)) else RunBody(next, world, body, index + 1)
  }

  predicate NoLongerOpen(verdict: Result<(), Refusal>)
  {
    verdict == Ok(()) || verdict == Err(NoActiveTransaction)
  }

  /** `ROLLBACK`, retried once; whether the transaction is known to be gone. */
  function RollbackTx(c: Conn, world: World): (r: (Conn, bool))
  {
    var (first, verdict) := Send(c, world, Ctl(Rollback));
    if NoLongerOpen(verdict) then (first, true)
    else
      var (second, again) := Send(first, world, Ctl(Rollback));
      (second, NoLongerOpen(again))
  }

  function InTransaction(c: Conn, world: World, body: seq<Stmt>): (r: (Conn, Result<(), TxError>))
  {
    var (begun, opening) := BeginTx(c, world);
    if opening.Err? then (begun, Err(Refused(opening.error)))
    else
      var (ran, failed) := RunBody(begun, world, body, 0);
      var (done, outcome) :=
        if failed.Some? then (ran, Err(BodyFailed(failed.value)))
        else
          var (ended, verdict) := Send(ran, world, Ctl(Commit));
          (ended, if verdict.Ok? then Ok(()) else Err(Refused(verdict.error)));
      if outcome.Ok? then (done, outcome)
      else
        var (after, gone) := RollbackTx(done, world);
        (after, if gone then outcome else Err(Stuck(outcome.error)))
  }

  function Effects(body: seq<Stmt>): seq<nat>
  {
    if body == [] then []
    else (if body[0].Write? then [body[0].effect] else []) + Effects(body[1..])
  }

  /** All of the body, or none of it. */
  predicate Atomic(c: Conn, world: World, body: seq<Stmt>)
  {
    var (after, result) := InTransaction(c, world, body);
    after.committed == c.committed + if result.Ok? then Effects(body) else []
  }

  // ─── When it is atomic ──────────────────────────────────────────────────

  /**
   * A body is arbitrary SQL, so it may itself hold transaction control. This
   * scan of its statements, with nothing run, finds the bodies whose writes
   * can part company: one commits on its own, or is rolled back out of a
   * transaction that then commits. `open` and `dirty` follow the transaction
   * the statements would be in and whether it has writes; `lost`, whether an
   * embedded `ROLLBACK` discarded some.
   */
  predicate Parts(body: seq<Stmt>, open: bool, dirty: bool, lost: bool)
  {
    if body == [] then open && lost
    else
      var rest := body[1..];
      match body[0]
      case Write(_) => !open || Parts(rest, open, true, lost)
      case Ctl(Begin) => !open && Parts(rest, true, false, lost)
      case Ctl(Commit) => open && (dirty || Parts(rest, false, false, lost))
      case Ctl(Rollback) => open && Parts(rest, false, false, lost || dirty)
  }

  predicate NoControl(body: seq<Stmt>)
  {
    forall i :: 0 <= i < |body| ==> body[i].Write?
  }

  lemma {:induction false} NoControlNeverParts(body: seq<Stmt>, dirty: bool)
    requires NoControl(body)
    ensures !Parts(body, true, dirty, false)
  {
    if body != [] {
      NoControlNeverParts(body[1..], true);
    }
  }

  /**
   * A body that does not part commits nothing on its own, and if it ends with
   * a transaction open, every write so far is pending in it.
   */
  lemma {:induction false} WholeBody(c: Conn, world: World, body: seq<Stmt>, index: nat, written: seq<nat>, lost: bool)
    requires index <= |body| && Sound(c)
    requires !Parts(body[index..], c.inTx, c.pending != [], lost)
    requires !lost ==> c.pending == written
    ensures var (after, failed) := RunBody(c, world, body, index);
            && Sound(after) && after.committed == c.committed
            && (failed.None? && after.inTx ==> after.pending == written + Effects(body[index..]))
    decreases |body| - index
  {
    var rest := body[index..];
    if index < |body| {
      var (next, verdict) := Send(c, world, body[index]);
      assert rest[0] == body[index] && rest[1..] == body[index + 1..];
      if verdict.Ok? {
        var more := written + if body[index].Write? then [body[index].effect] else [];
        var dropped := body[index] == Ctl(Rollback) && c.pending != [];
        WholeBody(next, world, body, index + 1, more, lost || dropped);
        assert written + Effects(rest) == more + Effects(rest[1..]);
      }
    } else {
      assert written + Effects(rest) == written;
    }
  }

  /** Whatever the world refuses, wherever, a body that does not part is atomic. */
  lemma AtomicUnlessParts(c: Conn, world: World, body: seq<Stmt>)
    requires Sound(c) && !Parts(body, true, false, false)
    ensures Atomic(c, world, body)
  {
    var (begun, opening) := BeginTx(c, world);
    assert c.committed + [] == c.committed;
    if opening.Ok? {
      assert body[0..] == body;
      WholeBody(begun, world, body, 0, [], false);
      assert [] + Effects(body) == Effects(body);
      var (ran, failed) := RunBody(begun, world, body, 0);
      if failed.None? {
        var (ended, verdict) := Send(ran, world, Ctl(Commit));
        assert ended.committed == c.committed + if verdict.Ok? then Effects(body) else [];
      }
    }
  }

  /** A world that accepts the body's statements runs a parting body into a parting. */
  lemma {:induction false} PartingRuns(
    c: Conn, world: World, body: seq<Stmt>, index: nat, written: seq<nat>, lost: bool)
    requires index <= |body| && Sound(c)
    requires Parts(body[index..], c.inTx, c.pending != [], lost)
    requires |c.pending| + (if lost then 1 else 0) <= |written|
    requires forall n :: |c.sent| <= n < |c.sent| + |body| - index ==> world(n) == Accept
    ensures var (after, failed) := RunBody(c, world, body, index);
            && c.committed <= after.committed
            && (failed.None? ==> |after.sent| == |c.sent| + |body| - index)
            && (after.committed != c.committed
                || (failed.None? && after.inTx && |after.pending| < |written + Effects(body[index..])|))
    decreases |body| - index
  {
    var rest := body[index..];
    if index < |body| {
      var (next, verdict) := Send(c, world, body[index]);
      assert rest[0] == body[index] && rest[1..] == body[index + 1..];
      if next.committed != c.committed {
        CommittedGrows(next, world, body, index + 1);
      } else {
        var more := written + if body[index].Write? then [body[index].effect] else [];
        var dropped := body[index] == Ctl(Rollback) && c.pending != [];
        PartingRuns(next, world, body, index + 1, more, lost || dropped);
        assert written + Effects(rest) == more + Effects(rest[1..]);
      }
    }
  }

  lemma {:induction false} CommittedGrows(c: Conn, world: World, body: seq<Stmt>, index: nat)
    requires index <= |body|
    ensures var (after, failed) := RunBody(c, world, body, index);
            && c.committed <= after.committed
            && (failed.None? ==> |after.sent| == |c.sent| + |body| - index)
    decreases |body| - index
  {
    if index < |body| {
      var (next, verdict) := Send(c, world, body[index]);
      CommittedGrows(next, world, body, index + 1);
    }
  }

  /** A parting body is torn by some world: one that accepts it and then all, or only it. */
  lemma TornIfParts(c: Conn, body: seq<Stmt>) returns (world: World)
    requires Sound(c) && !c.inTx && Parts(body, true, false, false)
    ensures !Atomic(c, world, body)
  {
    var last := |c.sent| + 1 + |body|;
    var all: World := n => Accept;
    var onlyBody: World := n => if n < last then Accept else Refuse;
    var begun := BeginTx(c, all).0;
    assert body[0..] == body;
    assert [] + Effects(body) == Effects(body);
    PartingRuns(begun, all, body, 0, [], false);
    PartingRuns(begun, onlyBody, body, 0, [], false);
    SameRun(begun, all, onlyBody, body, 0);
    var (ran, failed) := RunBody(begun, all, body, 0);
    if ran.committed == begun.committed {
      world := all;
    } else {
      world := onlyBody;
    }
  }

  lemma {:induction false} SameRun(c: Conn, w1: World, w2: World, body: seq<Stmt>, index: nat)
    requires index <= |body|
    requires forall n :: |c.sent| <= n < |c.sent| + |body| - index ==> w1(n) == w2(n)
    ensures RunBody(c, w1, body, index) == RunBody(c, w2, body, index)
    decreases |body| - index
  {
    if index < |body| {
      SameRun(Send(c, w1, body[index]).0, w1, w2, body, index + 1);
    }
  }

  /** Atomic under every pattern of refusals, exactly when the scan finds no parting. */
  lemma AtomicIff(c: Conn, body: seq<Stmt>)
    requires Sound(c) && !c.inTx
    ensures (forall world: World :: Atomic(c, world, body)) <==> !Parts(body, true, false, false)
  {
    if Parts(body, true, false, false) {
      var world := TornIfParts(c, body);
    } else {
      forall world: World ensures Atomic(c, world, body) {
        AtomicUnlessParts(c, world, body);
      }
    }
  }

  // ─── What it sends ──────────────────────────────────────────────────────

  /** The statements, each accepted. */
  function AllAccepted(body: seq<Stmt>): seq<Sent>
  {
    seq(|body|, i requires 0 <= i < |body| => Sent(body[i], Ok(())))
  }

  /** One or two `ROLLBACK`s: a second only after a refusal that left the transaction in doubt. */
  predicate Rollbacks(tail: seq<Sent>, gone: bool)
  {
    && 1 <= |tail| <= 2 && (forall i :: 0 <= i < |tail| ==> tail[i].stmt == Ctl(Rollback))
    && (|tail| == 1 ==> NoLongerOpen(tail[0].verdict) && gone)
    && (|tail| == 2 ==> !NoLongerOpen(tail[0].verdict) && (gone <==> NoLongerOpen(tail[1].verdict)))
  }

  /** How a failed transaction is reported: as itself, or as stuck because of itself. */
  predicate Reported(tail: seq<Sent>, failure: TxError, result: Result<(), TxError>)
  {
    || (Rollbacks(tail, true) && result == Err(failure))
    || (Rollbacks(tail, false) && result == Err(Stuck(failure)))
  }

  /**
   * The transcript of a transaction, and its answer. `Ok` is `BEGIN`, the whole
   * body and `COMMIT`, each accepted. A refused `BEGIN` is the end of it, but
   * for a `ROLLBACK` of what was open. After that the body stops at its first
   * refusal, or all of it is followed by a refused `COMMIT`; the rollbacks
   * come next, and say whether the failure is reported as it is or as stuck.
   */
  predicate Transcript(sent: seq<Sent>, body: seq<Stmt>, result: Result<(), TxError>)
  {
    && sent != [] && sent[0].stmt == Ctl(Begin)
    && if sent[0].verdict.Err? then
         && result == Err(Refused(sent[0].verdict.error))
         && if sent[0].verdict == Err(NestedBegin) then |sent| == 2 && sent[1].stmt == Ctl(Rollback) else |sent| == 1
       else if result.Ok? then
         sent[1..] == AllAccepted(body) + [Sent(Ctl(Commit), Ok(()))]
       else
         || CommitRefused(sent, body, result)
         || exists stopped :: 0 <= stopped < |body| && BodyRefused(sent, body, stopped, result)
  }

  predicate CommitRefused(sent: seq<Sent>, body: seq<Stmt>, result: Result<(), TxError>)
  {
    var n := |body| + 1;
    && |sent| > n && sent[1..n] == AllAccepted(body)
    && sent[n].stmt == Ctl(Commit) && sent[n].verdict.Err?
    && Reported(sent[n + 1..], Refused(sent[n].verdict.error), result)
  }

  predicate BodyRefused(sent: seq<Sent>, body: seq<Stmt>, stopped: nat, result: Result<(), TxError>)
    requires stopped < |body|
  {
    var n := stopped + 1;
    && |sent| > n && sent[1..n] == AllAccepted(body[..stopped])
    && sent[n].stmt == body[stopped] && sent[n].verdict.Err?
    && Reported(sent[n + 1..], BodyFailed(stopped), result)
  }

  /** A body's own part from `index` on: accepted throughout, or up to the refusal it reports. */
  predicate BodyPart(part: seq<Sent>, body: seq<Stmt>, index: nat, failed: Option<nat>)
    requires index <= |body|
  {
    if failed.None? then part == AllAccepted(body[index..])
    else
      && index <= failed.value < |body| && |part| == failed.value - index + 1
      && part[..failed.value - index] == AllAccepted(body[index..failed.value])
      && part[failed.value - index].stmt == body[failed.value] && part[failed.value - index].verdict.Err?
  }

  lemma OneMoreAccepted(part: seq<Sent>, body: seq<Stmt>, index: nat, failed: Option<nat>)
    requires index < |body| && BodyPart(part, body, index + 1, failed)
    ensures BodyPart([Sent(body[index], Ok(()))] + part, body, index, failed)
  {
    var first := Sent(body[index], Ok(()));
    if failed.None? {
      assert AllAccepted(body[index..]) == [first] + AllAccepted(body[index + 1..]);
    } else {
      assert AllAccepted(body[index..failed.value]) == [first] + AllAccepted(body[index + 1..failed.value]);
      assert ([first] + part)[..failed.value - index] == [first] + part[..failed.value - index - 1];
    }
  }

  lemma TailAfterOne<T>(before: seq<T>, x: T, after: seq<T>)
    requires before + [x] <= after
    ensures after[|before|..] == [x] + after[|before| + 1..]
  {
    assert after[|before|] == (before + [x])[|before|];
  }

  lemma OneRefused(body: seq<Stmt>, index: nat, why: Refusal)
    requires index < |body|
    ensures BodyPart([Sent(body[index], Err(why))], body, index, Some(index))
  {
  }

  lemma {:induction false} BodyTranscript(c: Conn, world: World, body: seq<Stmt>, index: nat)
    returns (part: seq<Sent>)
    requires index <= |body|
    ensures var (after, failed) := RunBody(c, world, body, index);
            after.sent == c.sent + part && BodyPart(part, body, index, failed)
    decreases |body| - index
  {
    if index == |body| {
      part := [];
    } else {
      var (next, verdict) := Send(c, world, body[index]);
      if verdict.Ok? {
        var rest := BodyTranscript(next, world, body, index + 1);
        part := [Sent(body[index], verdict)] + rest;
        OneMoreAccepted(rest, body, index, RunBody(next, world, body, index + 1).1);
        AppendInTurn(c.sent, [Sent(body[index], verdict)], rest);
      } else {
        part := [Sent(body[index], verdict)];
        OneRefused(body, index, verdict.error);
      }
    }
  }

  /** The rollbacks after a failure. */
  lemma RollbackTranscript(c: Conn, world: World)
    ensures var (after, gone) := RollbackTx(c, world);
            c.sent <= after.sent && Rollbacks(after.sent[|c.sent|..], gone)
  {
  }

  /** Whatever the world does, a transaction sends and answers by the transcript. */
  lemma SendsByTranscript(c: Conn, world: World, body: seq<Stmt>)
    ensures var (after, result) := InTransaction(c, world, body);
            c.sent <= after.sent && Transcript(after.sent[|c.sent|..], body, result)
  {
    if BeginTx(c, world).1.Ok? { BegunSends(c, world, body); }
  }

  lemma BegunSends(c: Conn, world: World, body: seq<Stmt>)
    requires BeginTx(c, world).1.Ok?
    ensures var (after, result) := InTransaction(c, world, body);
            c.sent <= after.sent && Transcript(after.sent[|c.sent|..], body, result)
  {
    var begun := BeginTx(c, world).0;
    var (ran, failed) := RunBody(begun, world, body, 0);
    var (after, result) := InTransaction(c, world, body);
    var part := BodyTranscript(begun, world, body, 0);
    assert ran.sent[|begun.sent|..] == part;
    if failed.Some? {
      BodyRefusedSends(c, begun, ran, world, body, failed.value);
      assert BodyRefused(after.sent[|c.sent|..], body, failed.value, result);
    } else {
      assert body[0..] == body;
      CommitSends(c, begun, ran, world, body);
    }
  }

  lemma BodyRefusedSends(c: Conn, begun: Conn, ran: Conn, world: World, body: seq<Stmt>, stopped: nat)
    requires begun.sent == c.sent + [Sent(Ctl(Begin), Ok(()))] && begun.sent <= ran.sent && stopped < |body|
    requires BodyPart(ran.sent[|begun.sent|..], body, 0, Some(stopped))
    ensures var (after, gone) := RollbackTx(ran, world);
            && c.sent <= after.sent && after.sent[|c.sent|..][0] == Sent(Ctl(Begin), Ok(()))
            && BodyRefused(after.sent[|c.sent|..], body, stopped,
                           Err(if gone then BodyFailed(stopped) else Stuck(BodyFailed(stopped))))
  {
    RollbackTranscript(ran, world);
    var after := RollbackTx(ran, world).0;
    var sent, n := after.sent[|c.sent|..], stopped + 1;
    TailAfterOne(c.sent, Sent(Ctl(Begin), Ok(())), after.sent);
    assert sent[1..n] == ran.sent[|begun.sent|..][..stopped];
    assert sent[n + 1..] == after.sent[|ran.sent|..];
  }

  lemma CommitSends(c: Conn, begun: Conn, ran: Conn, world: World, body: seq<Stmt>)
    requires begun.sent == c.sent + [Sent(Ctl(Begin), Ok(()))] && begun.sent <= ran.sent
    requires ran.sent[|begun.sent|..] == AllAccepted(body)
    ensures var (ended, verdict) := Send(ran, world, Ctl(Commit));
            && c.sent <= ended.sent
            && (verdict.Ok? ==>
                  && ended.sent[|c.sent|..][0] == Sent(Ctl(Begin), Ok(()))
                  && ended.sent[|c.sent|..][1..] == AllAccepted(body) + [Sent(Ctl(Commit), Ok(()))])
            && (verdict.Err? ==>
                  var (after, gone) := RollbackTx(ended, world);
                  && c.sent <= after.sent && after.sent[|c.sent|..][0] == Sent(Ctl(Begin), Ok(()))
                  && CommitRefused(after.sent[|c.sent|..], body,
                                   Err(if gone then Refused(verdict.error) else Stuck(Refused(verdict.error)))))
  {
    var (ended, verdict) := Send(ran, world, Ctl(Commit));
    if verdict.Ok? {
      assert ended.sent[|c.sent|..][1..] == ran.sent[|begun.sent|..] + [Sent(Ctl(Commit), Ok(()))];
    } else {
      RollbackTranscript(ended, world);
      var after := RollbackTx(ended, world).0;
      var sent, n := after.sent[|c.sent|..], |body| + 1;
      assert sent[1..n] == ran.sent[|begun.sent|..];
      assert sent[n + 1..] == after.sent[|ended.sent|..];
    }
  }

  // ─── Where it leaves the connection ─────────────────────────────────────

  /** No `ROLLBACK` among the statements `after` has beyond `before` got through. */
  predicate EveryRollbackRefused(before: Conn, after: Conn)
  {
    forall i :: |before.sent| <= i < |after.sent| && after.sent[i].stmt == Ctl(Rollback) ==>
      after.sent[i].verdict == Err(OtherText)
  }

  /** The last `n` statements sent were `ROLLBACK`s, each refused for a reason of its own. */
  predicate LastRollbacksRefused(c: Conn, n: nat)
  {
    && n <= |c.sent|
    && forall i :: |c.sent| - n <= i < |c.sent| ==> c.sent[i] == Sent(Ctl(Rollback), Err(OtherText))
  }

  /**
   * Whatever the body: `Ok` only from, and to, a connection in no transaction.
   * After a clean start a connection left in one is reported stuck, and stuck
   * means that the last two statements were `ROLLBACK`s refused for reasons of
   * their own. One found in a transaction
   * stays in it only when its `BEGIN` was refused for another reason, or the
   * `ROLLBACK` after it was.
   */
  lemma LeftOpenOnlyIfStuck(c: Conn, world: World, body: seq<Stmt>)
    requires Sound(c)
    ensures var (after, result) := InTransaction(c, world, body);
            && Sound(after)
            && (result.Ok? ==> !c.inTx && !after.inTx)
            && (result.Err? && result.error.Stuck? ==> LastRollbacksRefused(after, 2))
            && (after.inTx && !c.inTx ==> result.Err? && result.error.Stuck?)
            && (after.inTx && c.inTx ==>
                  || result == Err(Refused(OtherText))
                  || (result == Err(Refused(NestedBegin)) && LastRollbacksRefused(after, 1)))
  {
    var (begun, opening) := BeginTx(c, world);
    if opening.Ok? {
      BodySends(begun, world, body, 0);
    }
  }

  /**
   * And a connection left open, whatever the body: every `ROLLBACK` the framing
   * sent was refused for a reason of its own, so every `ROLLBACK` sent was
   * exactly when the body's own were; it has none when it is plain writes.
   */
  lemma LeftOpenMeansNoRollback(c: Conn, world: World, body: seq<Stmt>)
    requires Sound(c) && InTransaction(c, world, body).0.inTx
    ensures var (begun, opening) := BeginTx(c, world);
            var ran, after := RunBody(begun, world, body, 0).0, InTransaction(c, world, body).0;
            && EveryRollbackRefused(c, begun)
            && (opening.Ok? ==>
                  && EveryRollbackRefused(ran, after)
                  && (EveryRollbackRefused(c, after) <==> EveryRollbackRefused(begun, ran)))
            && (NoControl(body) ==> EveryRollbackRefused(c, after))
  {
    var (begun, opening) := BeginTx(c, world);
    if opening.Ok? {
      var (ran, failed) := RunBody(begun, world, body, 0);
      var done := if failed.Some? then ran else Send(ran, world, Ctl(Commit)).0;
      var after := RollbackTx(done, world).0;
      BodySends(begun, world, body, 0);
      RollbackRefusals(done, world);
      RefusedInTurn(ran, done, after);
      RefusedInTurn(begun, ran, after);
      RefusedInTurn(c, begun, after);
    }
  }

  lemma RollbackRefusals(c: Conn, world: World)
    ensures var after := RollbackTx(c, world).0;
            c.sent <= after.sent && (after.inTx ==> EveryRollbackRefused(c, after))
  {
  }

  lemma RefusedInTurn(a: Conn, b: Conn, c: Conn)
    requires a.sent <= b.sent <= c.sent
    ensures EveryRollbackRefused(a, c) <==> EveryRollbackRefused(a, b) && EveryRollbackRefused(b, c)
  {
    if EveryRollbackRefused(a, c) {
      forall i | |a.sent| <= i < |b.sent| ensures b.sent[i] == c.sent[i] {}
    }
  }

  lemma {:induction false} BodySends(c: Conn, world: World, body: seq<Stmt>, index: nat)
    requires index <= |body| && Sound(c)
    ensures var (after, failed) := RunBody(c, world, body, index);
            && Sound(after) && c.sent <= after.sent
            && (NoControl(body) ==> forall i :: |c.sent| <= i < |after.sent| ==> after.sent[i].stmt.Write?)
    decreases |body| - index
  {
    if index < |body| {
      BodySends(Send(c, world, body[index]).0, world, body, index + 1);
    }
  }

  // ─── The write verdict ──────────────────────────────────────────────────

  /** `ROLLBACK` as the question: was a transaction open, and is it gone now? */
  function EndOpen(c: Conn, world: World): (r: (Conn, Result<bool, Refusal>))
  {
    var (after, verdict) := Send(c, world, Ctl(Rollback));
    (after, if verdict.Ok? then Ok(true)
            else if verdict.error == NoActiveTransaction then Ok(false)
            else Err(verdict.error))
  }

  /** The connection after the check a write ends with, and whether it was clean. */
  function Settle(c: Conn, world: World): (r: (Conn, bool))
  {
    var (after, answer) := EndOpen(c, world);
    (after, answer == Ok(false))
  }

  datatype WriteError = OpFailed(reason: nat) | FlushFailed

  function Resolve<T>(op: Result<T, WriteError>, flush: Result<(), WriteError>): Result<T, WriteError>
  {
    match (op, flush)
    case (Ok(v), Ok(_)) => Ok(v)
    case (Ok(_), Err(e)) => Err(e)
    case (Err(e), _) => Err(e)
  }

  /** What a write's operation runs: lone statements, and whole transactions. */
  datatype Piece = Lone(stmt: Stmt) | Framed(body: seq<Stmt>)

  function RunPiece(c: Conn, world: World, piece: Piece): (r: (Conn, bool))
  {
    match piece
    case Lone(stmt) => var (after, verdict) := Send(c, world, stmt); (after, verdict.Ok?)
    case Framed(body) => var (after, result) := InTransaction(c, world, body); (after, result.Ok?)
  }

  /** The pieces in turn, up to the first that fails. */
  function RunOp(c: Conn, world: World, op: seq<Piece>): (r: (Conn, bool))
    decreases |op|
  {
    if op == [] then (c, true)
    else
      var (next, ok) := RunPiece(c, world, op[0]);
      if ok then RunOp(next, world, op[1..]) else (next, false)
  }

  /** No transaction control but the framing's own. */
  predicate PlainPiece(piece: Piece)
  {
    if piece.Lone? then piece.stmt.Write? else NoControl(piece.body)
  }

  predicate Plain(op: seq<Piece>)
  {
    op == [] || (PlainPiece(op[0]) && Plain(op[1..]))
  }

  function PieceEffects(piece: Piece): seq<nat>
  {
    if piece.Lone? then Effects([piece.stmt]) else Effects(piece.body)
  }

  function OpEffects(op: seq<Piece>): seq<nat>
  {
    if op == [] then [] else PieceEffects(op[0]) + OpEffects(op[1..])
  }

  /** From a connection in no transaction, an operation that succeeds commits all it wrote. */
  lemma {:induction false} OpCommits(c: Conn, world: World, op: seq<Piece>)
    requires Sound(c) && !c.inTx && Plain(op)
    ensures var (after, ok) := RunOp(c, world, op);
            ok ==> Sound(after) && !after.inTx && after.committed == c.committed + OpEffects(op)
    decreases |op|
  {
    if op == [] {
      assert c.committed + [] == c.committed;
    } else {
      var (next, ok) := RunPiece(c, world, op[0]);
      PieceCommits(c, world, op[0]);
      if ok {
        var mine, rest := PieceEffects(op[0]), OpEffects(op[1..]);
        OpCommits(next, world, op[1..]);
        AppendInTurn(c.committed, mine, rest);
      }
    }
  }

  lemma AppendInTurn<T>(a: seq<T>, b: seq<T>, c: seq<T>)
    ensures (a + b) + c == a + (b + c)
  {
  }

  lemma PieceCommits(c: Conn, world: World, piece: Piece)
    requires Sound(c) && !c.inTx && PlainPiece(piece)
    ensures var (after, ok) := RunPiece(c, world, piece);
            ok ==> Sound(after) && !after.inTx && after.committed == c.committed + PieceEffects(piece)
  {
    if piece.Framed? {
      NoControlNeverParts(piece.body, false);
      AtomicUnlessParts(c, world, piece.body);
      LeftOpenOnlyIfStuck(c, world, piece.body);
    } else {
      assert [piece.stmt][1..] == [];
      assert Effects([piece.stmt]) == [piece.stmt.effect];
    }
  }

  /** One logical write, stage by stage. */
  datatype Outcome<T> = Outcome(
    probed: Conn, probe: Result<bool, Refusal>, ran: Conn, succeeded: bool,
    after: Conn, clean: bool, result: Result<T, WriteError>)

  /**
   * `with_flush_mapped`: probe, operation, check, and outside a scope the
   * flush, whose OPFS write ends as `written`. The operation runs `op` and
   * answers `verdict`, which need not say how its statements fared.
   */
  function WithFlush<T>(c: Conn, world: World, op: seq<Piece>, verdict: Result<T, WriteError>,
                        scoped: bool, written: bool): Outcome<T>
  {
    var (probed, found) := EndOpen(c, world);
    var (ran, succeeded) := RunOp(probed, world, op);
    var (after, clean) := Settle(ran, world);
    var ending := if clean && (scoped || written) then Ok(()) else Err(FlushFailed);
    Outcome(probed, found, ran, succeeded, after, clean, Resolve(verdict, ending))
  }

  /**
   * What a write's answer means, and when it is `Ok`: exactly when the
   * operation said so, the closing `ROLLBACK` found no transaction, and outside
   * a scope the export was written. Then nothing of it was undone, and if the
   * opening probe settled the connection and the statements succeeded, all it
   * wrote is committed, on top of what was committed before. A transaction left
   * open is an error whatever the operation said, and its own error comes first.
   * That the export is attempted whatever happened is `LogicalWrite`'s contract;
   * what its `Ok` is worth after a crash, `WriteDurability.LogicalWriteIsDurable`.
   */
  lemma WriteVerdict<T>(c: Conn, world: World, op: seq<Piece>, verdict: Result<T, WriteError>,
                        scoped: bool, written: bool)
    requires Sound(c)
    ensures var o := WithFlush(c, world, op, verdict, scoped, written);
            && (o.probe.Ok? ==> !o.probed.inTx && o.probed.committed == c.committed)
            && (o.result.Ok? ==>
                  && verdict.Ok? && o.result == verdict
                  && !o.ran.inTx && !o.after.inTx && o.after.committed == o.ran.committed
                  && o.clean && (scoped || written)
                  && (o.probe.Ok? && o.succeeded && Plain(op) ==>
                        o.after.committed == c.committed + OpEffects(op)))
            && (o.result.Ok? <==>
                  && verdict.Ok? && (scoped || written)
                  && |o.after.sent| == |o.ran.sent| + 1
                  && o.after.sent[|o.ran.sent|] == Sent(Ctl(Rollback), Err(NoActiveTransaction)))
            && (o.ran.inTx ==> o.result.Err?)
            && (verdict.Err? ==> o.result == verdict)
            && (verdict.Ok? && o.result.Err? ==> o.result == Err(FlushFailed))
  {
    var (probed, found) := EndOpen(c, world);
    if found.Ok? && Plain(op) {
      OpCommits(probed, world, op);
    }
  }

  // ─── The ordinary write ─────────────────────────────────────────────────

  ghost predicate AcceptsAll(world: World)
  {
    forall n: nat :: world(n) == Accept
  }

  lemma {:induction false} AcceptedBody(c: Conn, world: World, body: seq<Stmt>, index: nat)
    requires index <= |body| && Sound(c) && AcceptsAll(world) && NoControl(body)
    ensures var (after, failed) := RunBody(c, world, body, index); failed.None? && after.inTx == c.inTx
    decreases |body| - index
  {
    if index < |body| {
      AcceptedBody(Send(c, world, body[index]).0, world, body, index + 1);
    }
  }

  lemma {:induction false} AcceptedOp(c: Conn, world: World, op: seq<Piece>)
    requires Sound(c) && !c.inTx && AcceptsAll(world) && Plain(op)
    ensures RunOp(c, world, op).1
    decreases |op|
  {
    if op != [] {
      if op[0].Framed? { AcceptedBody(BeginTx(c, world).0, world, op[0].body, 0); }
      PieceCommits(c, world, op[0]);
      AcceptedOp(RunPiece(c, world, op[0]).0, world, op[1..]);
    }
  }

  /**
   * Nothing refused, a plain operation that says it succeeded, and a written
   * export (or a scope that owes it): the write answers `Ok` and everything it
   * wrote is committed - even over a transaction someone left open, which the
   * opening probe ends.
   */
  lemma AcceptedWriteIsOk<T>(c: Conn, world: World, op: seq<Piece>, value: T, scoped: bool, written: bool)
    requires Sound(c) && AcceptsAll(world) && Plain(op) && (scoped || written)
    ensures var o := WithFlush(c, world, op, Ok(value), scoped, written);
            o.result == Ok(value) && !o.after.inTx && o.after.committed == c.committed + OpEffects(op)
  {
    var probed := EndOpen(c, world).0;
    AcceptedOp(probed, world, op);
    OpCommits(probed, world, op);
    WriteVerdict(c, world, op, Ok(value), scoped, written);
  }

  // ─── The connection, in place ───────────────────────────────────────────

  /** `bridge.dbFlush`: how many statements had been sent at each call, and how each call ends. */
  class Exporter {
    var calls: seq<nat>
    const answers: nat -> bool

    constructor (answers: nat -> bool)
      ensures calls == [] && this.answers == answers
    {
      calls := [];
      this.answers := answers;
    }

    method Call(statements: nat) returns (written: bool)
      modifies this`calls
      ensures calls == old(calls) + [statements] && written == answers(|old(calls)|)
    {
      calls := calls + [statements];
      written := answers(|calls| - 1);
    }
  }

  class Connection {
    var inTx: bool
    var committed: seq<nat>
    var pending: seq<nat>
    var sent: seq<Sent>
    const world: World

    ghost function State(): Conn
      reads this
    {
      Conn(inTx, committed, pending, sent)
    }

    constructor (world: World)
      ensures State() == Conn(false, [], [], []) && this.world == world
    {
      inTx, committed, pending, sent := false, [], [], [];
      this.world := world;
    }

    /** `bridge_control` and every other statement: the bridge and SQLite behind it. */
    method SendStatement(stmt: Stmt) returns (verdict: Result<(), Refusal>)
      modifies this
      ensures (State(), verdict) == Send(old(State()), world, stmt)
    {
      var (after, answer) := Send(Conn(inTx, committed, pending, sent), world, stmt);
      inTx, committed, pending, sent := after.inTx, after.committed, after.pending, after.sent;
      verdict := answer;
    }

    method BeginTransaction() returns (verdict: Result<(), Refusal>)
      modifies this
      ensures (State(), verdict) == BeginTx(old(State()), world)
    {
      verdict := SendStatement(Ctl(Begin));
      if verdict == Err(NestedBegin) {
        var _ := SendStatement(Ctl(Rollback));
      }
    }

    method RollbackTransaction() returns (gone: bool)
      modifies this
      ensures (State(), gone) == RollbackTx(old(State()), world)
    {
      var first := SendStatement(Ctl(Rollback));
      if NoLongerOpen(first) {
        return true;
      }
      var again := SendStatement(Ctl(Rollback));
      return NoLongerOpen(again);
    }

    method RunTransaction(body: seq<Stmt>) returns (result: Result<(), TxError>)
      modifies this
      ensures (State(), result) == InTransaction(old(State()), world, body)
    {
      var opening := BeginTransaction();
      if opening.Err? {
        return Err(Refused(opening.error));
      }
      ghost var begun := State();
      var failed: Option<nat> := None;
      var index := 0;
      while index < |body| && failed.None?
        invariant index <= |body|
        invariant failed.None? ==> RunBody(begun, world, body, 0) == RunBody(State(), world, body, index)
        invariant failed.Some? ==> RunBody(begun, world, body, 0) == (State(), failed)
        decreases |body| - index, failed.None?
      {
        var verdict := SendStatement(body[index]);
        if verdict.Err? {
          failed := Some(index);
        } else {
          index := index + 1;
        }
      }
      if failed.Some? {
        result := Err(BodyFailed(failed.value));
      } else {
        var verdict := SendStatement(Ctl(Commit));
        if verdict.Ok? {
          return Ok(());
        }
        result := Err(Refused(verdict.error));
      }
      var gone := RollbackTransaction();
      if !gone {
        result := Err(Stuck(result.error));
      }
    }

    method EndOpenTransaction() returns (answer: Result<bool, Refusal>)
      modifies this
      ensures (State(), answer) == EndOpen(old(State()), world)
    {
      var verdict := SendStatement(Ctl(Rollback));
      if verdict.Ok? {
        return Ok(true);
      }
      return if verdict.error == NoActiveTransaction then Ok(false) else Err(verdict.error);
    }

    method SettleTransaction() returns (clean: bool)
      modifies this
      ensures (State(), clean) == Settle(old(State()), world)
    {
      var answer := EndOpenTransaction();
      return answer == Ok(false);
    }

    /** The operation's own statements and transactions, up to the first that fails. */
    method RunOperation(op: seq<Piece>) returns (succeeded: bool)
      modifies this
      ensures (State(), succeeded) == RunOp(old(State()), world, op)
    {
      var index := 0;
      while index < |op|
        invariant index <= |op|
        invariant RunOp(old(State()), world, op) == RunOp(State(), world, op[index..])
      {
        match op[index] {
          case Lone(stmt) =>
            var verdict := SendStatement(stmt);
            succeeded := verdict.Ok?;
          case Framed(body) =>
            var result := RunTransaction(body);
            succeeded := result.Ok?;
        }
        if !succeeded {
          return;
        }
        index := index + 1;
      }
      return true;
    }

    /** `flush_through_bridge`: the check first, then the export, whatever the check found. */
    method FlushThroughBridge(exporter: Exporter) returns (flushed: bool)
      modifies this, exporter`calls
      ensures State() == Settle(old(State()), world).0
      ensures exporter.calls == old(exporter.calls) + [|sent|]
      ensures flushed == (Settle(old(State()), world).1 && exporter.answers(|old(exporter.calls)|))
    {
      var settled := SettleTransaction();
      var written := exporter.Call(|sent|);
      return settled && written;
    }

    /**
     * `with_flush_mapped`. Outside a scope exactly one export is called,
     * whatever the operation and the check answered, and only once every
     * statement of the write has been sent; in a scope, none.
     */
    method LogicalWrite<T>(op: seq<Piece>, verdict: Result<T, WriteError>, scoped: bool, exporter: Exporter)
      returns (result: Result<T, WriteError>)
      modifies this, exporter`calls
      ensures exporter.calls == old(exporter.calls) + if scoped then [] else [|sent|]
      ensures var written := exporter.answers(|old(exporter.calls)|);
              var o := WithFlush(old(State()), world, op, verdict, scoped, written);
              State() == o.after && result == o.result
    {
      var _ := EndOpenTransaction();
      var _ := RunOperation(op);
      var ended: bool;
      if scoped {
        ended := SettleTransaction();
      } else {
        ended := FlushThroughBridge(exporter);
      }
      result := Resolve(verdict, if ended then Ok(()) else Err(FlushFailed));
    }
  }
}
