/**
 * The thread-local cells behind one flush per request: which scope's owed
 * flag is current, the mutation epoch, the exported-through epoch and the
 * export in flight.
 */
module FlushScopes {
  import opened Prelude

  // ─── Epochs and exports ─────────────────────────────────────────────────

  datatype InFlight = InFlight(covers: nat, id: nat)

  datatype Cells = Cells(epoch: nat, exportedThrough: nat, inFlight: Option<InFlight>, nextFlushId: nat)

  const FRESH_CELLS := Cells(0, 0, None, 0)

  /** A logical mutation ended, completed or dropped half-way. */
  function MutationEnded(c: Cells): Cells
  {
    c.(epoch := c.epoch + 1)
  }

  function LoadedFromDisk(c: Cells): Cells
  {
    c.(exportedThrough := c.epoch)
  }

  predicate Unexported(c: Cells)
  {
    c.epoch > c.exportedThrough
  }

  /** An export in flight was called at or after the last mutation's end. */
  predicate Covered(c: Cells)
  {
    c.inFlight.Some? && c.inFlight.value.covers >= c.epoch
  }

  /** The export to await, and the cells once it is known to be under way. */
  function FlushCoveringNow(c: Cells): (r: (Cells, nat))
  {
    if Covered(c) then (c, c.inFlight.value.id)
    else (c.(inFlight := Some(InFlight(c.epoch, c.nextFlushId)), nextFlushId := c.nextFlushId + 1), c.nextFlushId)
  }

  /** The export `id`, called when the epoch was `covers`, has resolved. */
  function ExportResolved(c: Cells, id: nat, covers: nat, ok: bool): Cells
  {
    var through := if ok && c.exportedThrough < covers then covers else c.exportedThrough;
    var slot := if c.inFlight.Some? && c.inFlight.value.id == id then None else c.inFlight;
    c.(exportedThrough := through, inFlight := slot)
  }

  // ─── Scopes and polls ───────────────────────────────────────────────────

  /** What polling a future does: note a mutation, unwind, or poll a scope inside it. */
  datatype Act = Note | Panic | PollScope(scope: nat, body: seq<Act>)

  /** Who owns each opened scope's owed flag, and which owners owe a flush. */
  datatype Ledger = Ledger(owner: map<nat, nat>, owing: set<nat>)

  /** A scope opened while another is being polled joins it; else it owns itself. */
  function Opened(l: Ledger, within: Option<nat>, scope: nat): Ledger
  {
    if scope in l.owner then l
    else l.(owner := l.owner[scope := if within.Some? then within.value else scope])
  }

  /**
   * The acts of one poll, in which mutations are charged to `within`, with no
   * shared cell: the flag current inside a nested poll is passed down to it
   * and is simply not there any more when it returns. The boolean is whether
   * the poll unwound.
   */
  function Play(l: Ledger, within: Option<nat>, acts: seq<Act>): (r: (Ledger, bool))
    ensures forall s :: s in l.owner ==> s in r.0.owner && r.0.owner[s] == l.owner[s]
    ensures l.owing <= r.0.owing
    decreases acts
  {
    if acts == [] then (l, false)
    else
      match acts[0]
      case Panic => (l, true)
      case Note =>
        var noted := if within.Some? then l.(owing := l.owing + {within.value}) else l;
        Play(noted, within, acts[1..])
      case PollScope(scope, body) =>
        var joined := Opened(l, within, scope);
        var (polled, unwound) := Play(joined, Some(joined.owner[scope]), body);
        if unwound then (polled, true) else Play(polled, within, acts[1..])
  }

  /** The poll reaches a mutation, in itself or in a scope nested in it; and it unwinds. */
  function Notes(acts: seq<Act>): (r: (bool, bool))
  {
    if acts == [] then (false, false)
    else
      match acts[0]
      case Panic => (false, true)
      case Note => (true, Notes(acts[1..]).1)
      case PollScope(_, body) =>
        var (noted, unwound) := Notes(body);
        if unwound then (noted, true) else (noted || Notes(acts[1..]).0, Notes(acts[1..]).1)
  }

  /** Every scope polled is new or already joined to `outermost`. */
  predicate NestedIn(owner: map<nat, nat>, outermost: nat, acts: seq<Act>)
  {
    forall i | 0 <= i < |acts| && acts[i].PollScope? ::
      && (acts[i].scope in owner ==> owner[acts[i].scope] == outermost)
      && NestedIn(owner, outermost, acts[i].body)
  }

  /**
   * A request's poll charges every mutation in it, however deep, to its
   * outermost scope, and no other scope owes anything for it; a mutation
   * that the unwinding skipped is charged to nobody.
   */
  lemma {:induction false} OutermostOwes(l: Ledger, outermost: nat, acts: seq<Act>)
    requires NestedIn(l.owner, outermost, acts)
    ensures var (after, unwound) := Play(l, Some(outermost), acts);
            && after.owing == l.owing + (if Notes(acts).0 then {outermost} else {})
            && unwound == Notes(acts).1
            && (forall s :: s in after.owner && s !in l.owner ==> after.owner[s] == outermost)
    decreases acts
  {
    if acts != [] && !acts[0].Panic? {
      var rest := acts[1..];
      if acts[0].Note? {
        OutermostOwes(l.(owing := l.owing + {outermost}), outermost, rest);
      } else {
        var joined := Opened(l, Some(outermost), acts[0].scope);
        assert NestedIn(l.owner, outermost, acts[0].body);
        NestedInMore(l.owner, joined.owner, outermost, acts[0].body);
        OutermostOwes(joined, outermost, acts[0].body);
        var polled := Play(joined, Some(outermost), acts[0].body).0;
        NestedInMore(l.owner, polled.owner, outermost, rest);
        OutermostOwes(polled, outermost, rest);
      }
    }
  }

  lemma {:induction false} NestedInMore(owner: map<nat, nat>, more: map<nat, nat>, outermost: nat, acts: seq<Act>)
    requires NestedIn(owner, outermost, acts)
    requires forall s :: s in more && s !in owner ==> more[s] == outermost
    requires forall s :: s in owner && s in more ==> more[s] == owner[s]
    ensures NestedIn(more, outermost, acts)
    decreases acts
  {
    forall i | 0 <= i < |acts| && acts[i].PollScope? ensures NestedIn(more, outermost, acts[i].body) {
      NestedInMore(owner, more, outermost, acts[i].body);
    }
  }

  // ─── Any interleaving of polls ──────────────────────────────────────────

  /** The executor's polls, one after another: each an act outside every scope. */
  function PlayAll(l: Ledger, polls: seq<Act>): Ledger
    decreases |polls|
  {
    if polls == [] then l else PlayAll(Play(l, None, [polls[0]]).0, polls[1..])
  }

  /** Every scope polled in these acts, however deep, is request `r`'s. */
  predicate Belongs(request: map<nat, nat>, r: nat, acts: seq<Act>)
  {
    forall i | 0 <= i < |acts| && acts[i].PollScope? ::
      && acts[i].scope in request && request[acts[i].scope] == r
      && Belongs(request, r, acts[i].body)
  }

  /** Scopes belong to the request they were opened for, the top-level one by its own name. */
  predicate Known(request: map<nat, nat>, owner: map<nat, nat>)
  {
    forall s | s in owner :: s in request && owner[s] == request[s]
  }

  /** Each poll is of one request's future: its top-level scope, or a scope opened in it before. */
  predicate PolledInTurn(request: map<nat, nat>, l: Ledger, polls: seq<Act>)
    decreases |polls|
  {
    polls != [] ==>
      && (polls[0].PollScope? ==>
            && polls[0].scope in request
            && (polls[0].scope in l.owner || request[polls[0].scope] == polls[0].scope)
            && Belongs(request, request[polls[0].scope], polls[0].body))
      && PolledInTurn(request, Play(l, None, [polls[0]]).0, polls[1..])
  }

  /** The request of a poll that reaches a mutation. */
  function Charged(request: map<nat, nat>, poll: Act): set<nat>
  {
    if poll.PollScope? && poll.scope in request && Notes(poll.body).0 then {request[poll.scope]} else {}
  }

  function AllCharged(request: map<nat, nat>, polls: seq<Act>): set<nat>
  {
    if polls == [] then {} else Charged(request, polls[0]) + AllCharged(request, polls[1..])
  }

  lemma {:induction false} BelongsNests(request: map<nat, nat>, owner: map<nat, nat>, r: nat, acts: seq<Act>)
    requires Known(request, owner) && Belongs(request, r, acts)
    ensures NestedIn(owner, r, acts)
    decreases acts
  {
    forall i | 0 <= i < |acts| && acts[i].PollScope? ensures NestedIn(owner, r, acts[i].body) {
      BelongsNests(request, owner, r, acts[i].body);
    }
  }

  /** A poll opens only scopes of its own request, and they join its outermost one. */
  lemma {:induction false} PlayKnows(request: map<nat, nat>, l: Ledger, r: nat, acts: seq<Act>)
    requires Known(request, l.owner) && Belongs(request, r, acts)
    ensures Known(request, Play(l, Some(r), acts).0.owner)
    decreases acts
  {
    if acts != [] && !acts[0].Panic? {
      var rest := acts[1..];
      if acts[0].Note? {
        PlayKnows(request, l.(owing := l.owing + {r}), r, rest);
      } else {
        var joined := Opened(l, Some(r), acts[0].scope);
        assert Belongs(request, r, acts[0].body);
        PlayKnows(request, joined, r, acts[0].body);
        PlayKnows(request, Play(joined, Some(r), acts[0].body).0, r, rest);
      }
    }
  }

  /** One poll of the executor charges its own request, if it reaches a mutation, and no other. */
  lemma OnePollCharges(request: map<nat, nat>, l: Ledger, poll: Act)
    requires Known(request, l.owner) && PolledInTurn(request, l, [poll])
    ensures var after := Play(l, None, [poll]).0;
            Known(request, after.owner) && after.owing == l.owing + Charged(request, poll)
  {
    assert [poll][1..] == [];
    if poll.PollScope? {
      var joined, r := Opened(l, None, poll.scope), request[poll.scope];
      BelongsNests(request, joined.owner, r, poll.body);
      OutermostOwes(joined, r, poll.body);
      PlayKnows(request, joined, r, poll.body);
    }
  }

  lemma {:induction false} PollsCharge(request: map<nat, nat>, l: Ledger, polls: seq<Act>)
    requires Known(request, l.owner) && PolledInTurn(request, l, polls)
    ensures PlayAll(l, polls).owing == l.owing + AllCharged(request, polls)
    decreases |polls|
  {
    if polls != [] {
      assert [polls[0]][1..] == [];
      OnePollCharges(request, l, polls[0]);
      PollsCharge(request, Play(l, None, [polls[0]]).0, polls[1..]);
    }
  }

  lemma {:induction false} ChargedIff(request: map<nat, nat>, polls: seq<Act>, r: nat)
    ensures r in AllCharged(request, polls) <==> exists i :: 0 <= i < |polls| && r in Charged(request, polls[i])
  {
    if polls != [] {
      ChargedIff(request, polls[1..], r);
      if r in AllCharged(request, polls[1..]) {
        var i :| 0 <= i < |polls| - 1 && r in Charged(request, polls[1..][i]);
        assert r in Charged(request, polls[i + 1]);
      }
      forall i | 1 <= i < |polls| && r in Charged(request, polls[i]) ensures r in AllCharged(request, polls[1..]) {
        assert polls[1..][i - 1] == polls[i];
      }
    }
  }

  /**
   * Over any interleaving of the polls of any number of requests, unwinding
   * included, the scopes that owe a flush are exactly the top-level scopes of
   * the requests one of whose polls reached a mutation.
   */
  lemma RequestsOweTheirOwn(request: map<nat, nat>, polls: seq<Act>, r: nat)
    requires PolledInTurn(request, Ledger(map[], {}), polls)
    ensures r in PlayAll(Ledger(map[], {}), polls).owing <==>
              exists i :: 0 <= i < |polls| && r in Charged(request, polls[i])
  {
    PollsCharge(request, Ledger(map[], {}), polls);
    ChargedIff(request, polls, r);
  }

  /** A mutation is noted wherever it is reached: before any unwinding, in the poll or in a scope inside it. */
  lemma {:induction false} NotedIfReached(acts: seq<Act>, at: nat)
    requires at < |acts| && !Notes(acts[..at]).1
    requires acts[at].Note? || (acts[at].PollScope? && Notes(acts[at].body).0)
    ensures Notes(acts).0
  {
    if at > 0 {
      assert acts[..at][1..] == acts[1..][..at - 1];
      NotedIfReached(acts[1..], at - 1);
    }
  }

  /** Nothing is noted by a poll that reaches nothing. */
  lemma {:induction false} NotNotedIfNone(acts: seq<Act>)
    requires forall i :: 0 <= i < |acts| ==> !acts[i].Note? && (acts[i].PollScope? ==> !Notes(acts[i].body).0)
    ensures !Notes(acts).0
  {
    if acts != [] { NotNotedIfNone(acts[1..]); }
  }

  // ─── The end of a scope ─────────────────────────────────────────────────

  datatype Verdict =
    | Nothing                          // nothing to flush: `Ok(())` at once
    | Await(flush: nat, started: bool)

  /** The flush a top-level scope makes when its future has finished. */
  function ScopeEnd(c: Cells, owes: bool): (r: (Cells, Verdict))
  {
    if owes || Unexported(c)
    then var (after, id) := FlushCoveringNow(c); (after, Await(id, after != c))
    else (c, Nothing)
  }

  /**
   * A scope skips the flush exactly when it owes none and every ended mutation
   * is exported; it starts one of its own (never two) exactly when it must
   * flush and no export in flight covers the epoch; and what it awaits was
   * called no earlier than the last mutation's end.
   */
  lemma ScopeEndDecides(c: Cells, owes: bool)
    ensures var (after, verdict) := ScopeEnd(c, owes);
            && (verdict.Nothing? <==> !owes && c.epoch <= c.exportedThrough)
            && (verdict.Nothing? ==> after == c)
            && (verdict.Await? ==>
                  && (verdict.started <==> !Covered(c))
                  && after.nextFlushId == c.nextFlushId + (if verdict.started then 1 else 0)
                  && after.inFlight.Some? && after.inFlight.value.id == verdict.flush
                  && after.inFlight.value.covers >= c.epoch)
            && (after.epoch, after.exportedThrough) == (c.epoch, c.exportedThrough)
  {
  }

  /** A database just loaded from disk owes no flush, and a scope over it makes none. */
  lemma LoadedOwesNothing(c: Cells)
    ensures ScopeEnd(LoadedFromDisk(c), false) == (LoadedFromDisk(c), Nothing)
    ensures LoadedFromDisk(c).epoch == c.epoch && Covered(LoadedFromDisk(c)) == Covered(c)
  {
  }

  /** The flags that are set. */
  function Owing(owed: map<nat, bool>): set<nat>
  {
    set f | f in owed && owed[f]
  }

  lemma OwingAfter(owed: map<nat, bool>, flag: nat)
    ensures Owing(owed[flag := true]) == Owing(owed) + {flag}
    ensures flag !in owed ==> Owing(owed[flag := false]) == Owing(owed)
  {
  }

  /** Every scope's flag is there, as is the current one, and a flag bears the name of the scope that made it. */
  ghost predicate Flagged(owed: map<nat, bool>, flagOf: map<nat, nat>, current: Option<nat>)
  {
    && (forall s :: s in flagOf ==> flagOf[s] in owed)
    && (forall f :: f in owed ==> f in flagOf && flagOf[f] == f)
    && (current.Some? ==> current.value in owed)
  }

  /** A new scope's flag: its own when no scope is current, else the current one. */
  lemma OpenKeeps(owed: map<nat, bool>, flagOf: map<nat, nat>, current: Option<nat>, scope: nat)
    requires Flagged(owed, flagOf, current) && scope !in flagOf
    ensures current.None? ==>
              && Flagged(owed[scope := false], flagOf[scope := scope], current)
              && Owing(owed[scope := false]) == Owing(owed)
              && owed.Keys <= owed[scope := false].Keys
    ensures current.Some? ==> Flagged(owed, flagOf[scope := current.value], current)
  {
    if current.None? { OwingAfter(owed, scope); }
  }

  class FlushScope {
    var current: Option<nat>
    var owed: map<nat, bool>     // the owed-flush flags, each named by the scope that made it
    var flagOf: map<nat, nat>    // the flag every opened scope holds
    var epoch: nat
    var exportedThrough: nat
    var inFlight: Option<InFlight>
    var nextFlushId: nat

    ghost predicate Valid()
      reads this
    {
      Flagged(owed, flagOf, current)
    }

    ghost function State(): Cells
      reads this
    {
      Cells(epoch, exportedThrough, inFlight, nextFlushId)
    }

    ghost function Scopes(): Ledger
      reads this
    {
      Ledger(flagOf, Owing(owed))
    }

    constructor ()
      ensures Valid() && State() == FRESH_CELLS && Scopes() == Ledger(map[], {}) && current == None
    {
      current, owed, flagOf := None, map[], map[];
      epoch, exportedThrough, inFlight, nextFlushId := 0, 0, None, 0;
    }

    /** The drop of a `MutationEnds`. */
    method EndMutation()
      modifies this`epoch
      ensures State() == MutationEnded(old(State()))
    {
      epoch := epoch + 1;
    }

    method LoadDatabase()
      modifies this`exportedThrough
      ensures State() == LoadedFromDisk(old(State()))
    {
      exportedThrough := epoch;
    }

    method StartFlush() returns (id: nat)
      modifies this`inFlight, this`nextFlushId
      ensures (State(), id) == FlushCoveringNow(old(State()))
    {
      if inFlight.Some? && inFlight.value.covers >= epoch {
        return inFlight.value.id;
      }
      id := nextFlushId;
      nextFlushId := nextFlushId + 1;
      inFlight := Some(InFlight(epoch, id));
    }

    /** The rest of the export's future, once the bridge has answered. */
    method FinishFlush(id: nat, covers: nat, ok: bool)
      modifies this`exportedThrough, this`inFlight
      ensures State() == ExportResolved(old(State()), id, covers, ok)
    {
      if ok {
        exportedThrough := if exportedThrough < covers then covers else exportedThrough;
      }
      if inFlight.Some? && inFlight.value.id == id {
        inFlight := None;
      }
    }

    method NoteMutation() returns (scoped: bool)
      requires Valid()
      modifies this`owed
      ensures Valid() && scoped == current.Some? && old(owed).Keys <= owed.Keys
      ensures Scopes() == if scoped then old(Scopes()).(owing := old(Scopes()).owing + {current.value})
                          else old(Scopes())
    {
      if current.Some? {
        OwingAfter(owed, current.value);
        owed := owed[current.value := true];
      }
      return current.Some?;
    }

    /** `run` begins: join the scope being polled, or make a flag of one's own. */
    method OpenRun(scope: nat)
      requires Valid()
      modifies this`owed, this`flagOf
      ensures Valid() && old(owed).Keys <= owed.Keys
      ensures Scopes() == Opened(old(Scopes()), current, scope)
    {
      if scope in flagOf {
        return;
      }
      OpenKeeps(owed, flagOf, current, scope);
      if current.None? {
        owed, flagOf := owed[scope := false], flagOf[scope := scope];
      } else {
        flagOf := flagOf[scope := current.value];
      }
    }

    /**
     * One poll of a scoped future, opening its scope on the first. However the
     * inner poll ends, the previously current flag is current again.
     */
    method Poll(scope: nat, body: seq<Act>) returns (unwound: bool)
      requires Valid()
      modifies this`current, this`owed, this`flagOf
      ensures Valid() && current == old(current) && old(owed).Keys <= owed.Keys
      ensures var joined := Opened(old(Scopes()), old(current), scope);
              (Scopes(), unwound) == Play(joined, Some(joined.owner[scope]), body)
      decreases body, 1
    {
      OpenRun(scope);
      var previous := current;
      current := Some(flagOf[scope]);
      unwound := RunActs(body);
      current := previous;
    }

    /** The inner future's own code, up to its next await, its end or its panic. */
    method RunActs(acts: seq<Act>) returns (unwound: bool)
      requires Valid()
      modifies this`current, this`owed, this`flagOf
      ensures Valid() && current == old(current) && old(owed).Keys <= owed.Keys
      ensures (Scopes(), unwound) == Play(old(Scopes()), old(current), acts)
      decreases acts, 0
    {
      if acts == [] {
        return false;
      }
      match acts[0] {
        case Panic =>
          return true;
        case Note =>
          var _ := NoteMutation();
        case PollScope(scope, body) =>
          unwound := Poll(scope, body);
          if unwound {
            return true;
          }
      }
      unwound := RunActs(acts[1..]);
    }

    /** The end of `run`: a scope that joined another leaves the flush to it. */
    method FinishRun(scope: nat) returns (verdict: Verdict)
      requires Valid() && scope in flagOf
      modifies this`inFlight, this`nextFlushId
      ensures Scopes() == old(Scopes())
      ensures (State(), verdict) ==
              if flagOf[scope] != scope then (old(State()), Nothing)
              else ScopeEnd(old(State()), scope in Scopes().owing)
    {
      if flagOf[scope] != scope {
        return Nothing;
      }
      if owed[scope] || epoch > exportedThrough {
        var before := nextFlushId;
        var id := StartFlush();
        return Await(id, nextFlushId != before);
      }
      return Nothing;
    }
  }
}
