/**
 * The D1 calls one Worker invocation may send: a tally shared by every handle
 * of the invocation, and calls of its limit reserved for its audit row.
 */
module CallBudget {
  import opened Prelude

  const U64_MAX: nat := 0xFFFF_FFFF_FFFF_FFFF

  type u64 = n: nat | n <= U64_MAX

  function SaturatingAdd(a: u64, b: u64): u64
  {
    if a + b <= U64_MAX then a + b else U64_MAX
  }

  function SaturatingSub(a: u64, b: u64): u64
  {
    if a >= b then a - b else 0
  }

  /** Rows as D1's `meta` reports them; either figure may be absent. */
  datatype Meta = Meta(rowsRead: Option<u64>, rowsWritten: Option<u64>)

  datatype Tally = Tally(
    calls: u64, statements: u64, reserved: u64, metered: u64, rowsRead: u64, rowsWritten: u64)

  const FRESH_TALLY := Tally(0, 0, 0, 0, 0, 0)

  /** Statements sent whose rows D1 did not report. */
  function Unmetered(t: Tally): u64
  {
    SaturatingSub(t.statements, t.metered)
  }

  /** The limit a handle sees: the whole of it, or what the reservation leaves. */
  function Seen(t: Tally, limit: u64, spendsReservation: bool): u64
  {
    SaturatingSub(limit, if spendsReservation then 0 else t.reserved)
  }

  /** `spend_call`: count one call about to be sent, or refuse it. */
  function Spend(t: Tally, limit: u64, spendsReservation: bool, statements: u64): (r: (Tally, bool))
  {
    if t.calls >= Seen(t, limit, spendsReservation) then (t, false)
    else (t.(calls := SaturatingAdd(t.calls, 1), statements := SaturatingAdd(t.statements, statements)), true)
  }

  function RowsOf(n: Option<u64>): u64
  {
    if n.Some? then n.value else 0
  }

  /** One statement's result added to the cost, when it reported its meta. */
  function Metered(t: Tally, meta: Option<Meta>): Tally
  {
    if meta.None? || (meta.value.rowsRead.None? && meta.value.rowsWritten.None?) then t
    else t.(metered := SaturatingAdd(t.metered, 1),
            rowsRead := SaturatingAdd(t.rowsRead, RowsOf(meta.value.rowsRead)),
            rowsWritten := SaturatingAdd(t.rowsWritten, RowsOf(meta.value.rowsWritten)))
  }

  // ─── Runs of an invocation ──────────────────────────────────────────────

  /** A call is offered by a request handle, or by one for the reserved work. */
  datatype Step =
    | Call(reservedWork: bool, statements: u64)
    | Meter(meta: Option<Meta>)
    | Reserve(calls: u64)
    | Release

  /** The tally, the calls admitted of each kind, and what the cost should come to. */
  datatype Ledger = Ledger(
    tally: Tally, byRequest: nat, byReserved: nat, statements: nat, metered: nat, rowsRead: nat, rowsWritten: nat)

  const FRESH_LEDGER := Ledger(FRESH_TALLY, 0, 0, 0, 0, 0, 0)

  function Apply(l: Ledger, limit: u64, step: Step): Ledger
  {
    match step
    case Call(reservedWork, statements) =>
      var (tally, admitted) := Spend(l.tally, limit, reservedWork, statements);
      if !admitted then l
      else if reservedWork
      then l.(tally := tally, byReserved := l.byReserved + 1, statements := l.statements + statements)
      else l.(tally := tally, byRequest := l.byRequest + 1, statements := l.statements + statements)
    case Meter(meta) =>
      var tally := Metered(l.tally, meta);
      if meta.None? || (meta.value.rowsRead.None? && meta.value.rowsWritten.None?) then l
      else l.(tally := tally, metered := l.metered + 1,
              rowsRead := l.rowsRead + RowsOf(meta.value.rowsRead),
              rowsWritten := l.rowsWritten + RowsOf(meta.value.rowsWritten))
    case Reserve(calls) => l.(tally := l.tally.(reserved := calls))
    case Release => l.(tally := l.tally.(reserved := 0))
  }

  function Final(l: Ledger, limit: u64, run: seq<Step>): Ledger
    decreases |run|
  {
    if run == [] then l else Final(Apply(l, limit, run[0]), limit, run[1..])
  }

  predicate KeepsReservation(run: seq<Step>)
  {
    forall step | step in run :: !step.Reserve? && !step.Release?
  }

  function Capped(n: nat): u64
  {
    if n <= U64_MAX then n else U64_MAX
  }

  /** Never over the limit, whatever is reserved or released; and the cost is the true one. */
  predicate Accounted(l: Ledger, limit: u64)
  {
    && l.tally.calls == l.byRequest + l.byReserved <= limit
    && l.tally.statements == Capped(l.statements)
    && l.tally.metered == Capped(l.metered)
    && l.tally.rowsRead == Capped(l.rowsRead)
    && l.tally.rowsWritten == Capped(l.rowsWritten)
  }

  lemma {:induction false} AlwaysAccounted(l: Ledger, limit: u64, run: seq<Step>)
    requires Accounted(l, limit)
    ensures var after := Final(l, limit, run);
            && Accounted(after, limit)
            && (after.metered <= after.statements <= U64_MAX ==>
                  Unmetered(after.tally) == after.statements - after.metered)
    decreases |run|
  {
    if run != [] {
      AlwaysAccounted(Apply(l, limit, run[0]), limit, run[1..]);
    }
  }

  /** The most calls the request handles can bring the tally to: what they saw left, or what was already sent. */
  function Ceiling(l: Ledger, limit: u64): nat
  {
    var left := SaturatingSub(limit, l.tally.reserved);
    if l.tally.calls <= left then left else l.tally.calls
  }

  /**
   * While a reservation stands, however the two kinds of handle interleave,
   * the tally passes the request's ceiling only by calls of the reserved work.
   */
  lemma {:induction false} ReservationStands(l: Ledger, limit: u64, run: seq<Step>)
    requires Accounted(l, limit) && KeepsReservation(run)
    ensures var after := Final(l, limit, run);
            && after.tally.reserved == l.tally.reserved
            && l.byReserved <= after.byReserved && l.byRequest <= after.byRequest
            && after.tally.calls <= Ceiling(l, limit) + (after.byReserved - l.byReserved)
            && after.byRequest - l.byRequest <= Ceiling(l, limit) - l.tally.calls
    decreases |run|
  {
    if run != [] {
      var next := Apply(l, limit, run[0]);
      assert run[0] in run;
      assert KeepsReservation(run[1..]);
      ReservationStands(next, limit, run[1..]);
      AlwaysAccounted(l, limit, run[..1]);
      assert run[..1][1..] == [];
      assert Final(l, limit, run[..1]) == next;
    }
  }

  /**
   * The guarantee: with `r` calls reserved before any is sent, in every
   * interleaving the request handles send at most what the limit leaves, and
   * each of the reserved work's first `r` calls (or as many as the limit has)
   * is admitted when it is offered.
   */
  lemma ReservedCallsAdmitted(limit: u64, r: u64, run: seq<Step>, statements: u64)
    requires KeepsReservation(run)
    ensures var l := Final(FRESH_LEDGER, limit, [Reserve(r)] + run);
            && l.tally.calls <= SaturatingSub(limit, r) + l.byReserved
            && l.byRequest <= SaturatingSub(limit, r)
            && (l.byReserved < (if r <= limit then r else limit) ==> Spend(l.tally, limit, true, statements).1)
  {
    var reserved := Apply(FRESH_LEDGER, limit, Reserve(r));
    assert ([Reserve(r)] + run)[1..] == run;
    ReservationStands(reserved, limit, run);
  }

  /** `n` calls offered by handles of one kind, one after another. */
  function Calls(reservedWork: bool, n: nat): seq<Step>
  {
    seq(n, i => Call(reservedWork, 1))
  }

  /** What a handle has left to send: the reservation is held back from a request's. */
  function Left(l: Ledger, limit: u64, reservedWork: bool): nat
  {
    var held := l.byRequest + l.byReserved + if reservedWork then 0 else l.tally.reserved;
    if held <= limit then limit - held else 0
  }

  /**
   * In any state, of the calls a handle offers exactly as many are admitted as
   * it has left: all it offers, up to the limit, less what is reserved if it is
   * a request's.
   */
  lemma {:induction false} HandlesUseWhatIsLeft(l: Ledger, limit: u64, reservedWork: bool, n: nat)
    requires Accounted(l, limit)
    ensures var after, left := Final(l, limit, Calls(reservedWork, n)), Left(l, limit, reservedWork);
            var sent := if n <= left then n else left;
            && after.byRequest == l.byRequest + (if reservedWork then 0 else sent)
            && after.byReserved == l.byReserved + (if reservedWork then sent else 0)
            && after.tally.reserved == l.tally.reserved
    decreases n
  {
    if n > 0 {
      var next := Apply(l, limit, Call(reservedWork, 1));
      assert Calls(reservedWork, n)[1..] == Calls(reservedWork, n - 1);
      AlwaysAccounted(l, limit, [Call(reservedWork, 1)]);
      assert [Call(reservedWork, 1)][1..] == [];
      assert Final(l, limit, [Call(reservedWork, 1)]) == next;
      HandlesUseWhatIsLeft(next, limit, reservedWork, n - 1);
    }
  }

  /** Once released, whatever was reserved, the request handles can send exactly the rest of the limit. */
  lemma ReleasedHandlesUseTheRest(l: Ledger, limit: u64, n: nat)
    requires Accounted(l, limit)
    ensures var rest := limit - (l.byRequest + l.byReserved);
            var after := Final(l, limit, [Release] + Calls(false, n));
            after.byRequest == l.byRequest + (if n <= rest then n else rest) && after.byReserved == l.byReserved
  {
    var released := Apply(l, limit, Release);
    assert ([Release] + Calls(false, n))[1..] == Calls(false, n);
    HandlesUseWhatIsLeft(released, limit, false, n);
  }

  // ─── The shared tally, in place ─────────────────────────────────────────

  /** The state every handle of one invocation shares. */
  class InvocationTally {
    var calls: u64
    var statements: u64
    var reserved: u64
    var metered: u64
    var rowsRead: u64
    var rowsWritten: u64

    ghost function State(): Tally
      reads this
    {
      Tally(calls, statements, reserved, metered, rowsRead, rowsWritten)
    }

    constructor ()
      ensures State() == FRESH_TALLY
    {
      calls, statements, reserved, metered, rowsRead, rowsWritten := 0, 0, 0, 0, 0, 0;
    }
  }

  /** A handle: which tally it counts on, and whether it may use the reservation. */
  class D1CallCount {
    const tally: InvocationTally
    const spendsReservation: bool

    constructor (tally: InvocationTally, spendsReservation: bool)
      ensures this.tally == tally && this.spendsReservation == spendsReservation
    {
      this.tally, this.spendsReservation := tally, spendsReservation;
    }

    method ForReservedWork() returns (handle: D1CallCount)
      ensures fresh(handle) && handle.tally == tally && handle.spendsReservation
    {
      handle := new D1CallCount(tally, true);
    }

    method ReserveCalls(r: u64)
      modifies tally`reserved
      ensures tally.State() == old(tally.State()).(reserved := r)
    {
      tally.reserved := r;
    }

    method ReleaseReservation()
      modifies tally`reserved
      ensures tally.State() == old(tally.State()).(reserved := 0)
    {
      tally.reserved := 0;
    }

    function HeldBack(): u64
      reads tally
    {
      if spendsReservation then 0 else tally.reserved
    }

    method AddCall(statements: u64)
      modifies tally`calls, tally`statements
      ensures tally.calls == SaturatingAdd(old(tally.calls), 1)
      ensures tally.statements == SaturatingAdd(old(tally.statements), statements)
    {
      tally.calls := SaturatingAdd(tally.calls, 1);
      tally.statements := SaturatingAdd(tally.statements, statements);
    }

    method SpendCall(limit: u64, statements: u64) returns (admitted: bool)
      modifies tally`calls, tally`statements
      ensures (tally.State(), admitted) == Spend(old(tally.State()), limit, spendsReservation, statements)
    {
      if tally.calls >= SaturatingSub(limit, HeldBack()) {
        return false;
      }
      AddCall(statements);
      return true;
    }

    method MeterResult(meta: Option<Meta>)
      modifies tally`metered, tally`rowsRead, tally`rowsWritten
      ensures tally.State() == Metered(old(tally.State()), meta)
    {
      if meta.None? || (meta.value.rowsRead.None? && meta.value.rowsWritten.None?) {
        return;
      }
      tally.metered := SaturatingAdd(tally.metered, 1);
      tally.rowsRead := SaturatingAdd(tally.rowsRead, RowsOf(meta.value.rowsRead));
      tally.rowsWritten := SaturatingAdd(tally.rowsWritten, RowsOf(meta.value.rowsWritten));
    }
  }
}
