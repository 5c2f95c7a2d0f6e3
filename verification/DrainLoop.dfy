/**
 * Pumping a byte source into a consumer's sink, chunk by chunk, under a cap.
 */
module DrainLoop {
  import opened Prelude

  const USIZE_MAX: nat := 0xFFFF_FFFF

  /** What one turn of the loop meets: the pull raced with cancellation, then the send. */
  datatype Event =
    | Cancelled
    | Pulled(chunk: Bytes, taken: bool)   // `taken`: the consumer still accepts it
    | Ended
    | Failed

  datatype Terminal = Complete | ReadError | CapExceeded

  /** Where a run over a finite script of events stands. */
  datatype Exit = Suspended | ByCancel | ByDrop | ByEnd | ByFailure | ByCap

  function SaturatingAdd(a: nat, b: nat): nat
  {
    if a + b <= USIZE_MAX then a + b else USIZE_MAX
  }

  function Size(chunks: seq<Bytes>): nat
  {
    |Flatten(chunks)|
  }

  /** The chunks the source produced in the first `n` events. */
  function Produced(script: seq<Event>, n: nat): seq<Bytes>
    requires n <= |script|
  {
    if n == 0 then []
    else Produced(script, n - 1) + if script[n - 1].Pulled? then [script[n - 1].chunk] else []
  }

  /**
   * A chunk that would take the running total past the cap. The total
   * saturates, so a cap of `USIZE_MAX` is one nothing can pass.
   */
  predicate Breaches(script: seq<Event>, cap: Option<nat>, n: nat)
    requires n < |script|
  {
    && script[n].Pulled? && cap.Some? && cap.value < USIZE_MAX
    && Size(Produced(script, n + 1)) > cap.value
  }

  /** A turn after which the loop goes round again. */
  predicate GoesOn(script: seq<Event>, cap: Option<nat>, n: nat)
    requires n < |script|
  {
    script[n].Pulled? && script[n].taken && !Breaches(script, cap, n)
  }

  /** Whether the turn `n` ends the loop, and how. */
  function ExitAt(script: seq<Event>, cap: Option<nat>, n: nat): Exit
    requires n <= |script|
  {
    if n == |script| then Suspended
    else match script[n]
      case Cancelled => ByCancel
      case Ended => ByEnd
      case Failed => ByFailure
      case Pulled(_, _) => if Breaches(script, cap, n) then ByCap else ByDrop
  }

  /** A chunk that takes what was forwarded past the cap in force. */
  predicate PastCap(forwarded: seq<Bytes>, event: Event, cap: Option<nat>)
  {
    && event.Pulled? && cap.Some? && cap.value < USIZE_MAX
    && Size(forwarded) + |event.chunk| > cap.value
  }

  class Source {
    const script: seq<Event>
    var pulls: nat
    var releases: nat

    constructor (script: seq<Event>)
      ensures this.script == script && pulls == 0 && releases == 0
    {
      this.script := script;
      pulls, releases := 0, 0;
    }

    /** The next event, or `None` when the script has no more: the pull stays pending. */
    method NextChunk() returns (event: Option<Event>)
      requires pulls <= |script|
      modifies this`pulls
      ensures old(pulls) < |script| ==> pulls == old(pulls) + 1 && event == Some(script[old(pulls)])
      ensures old(pulls) == |script| ==> pulls == old(pulls) && event == None
    {
      if pulls == |script| {
        return None;
      }
      event := Some(script[pulls]);
      pulls := pulls + 1;
    }

    method Release()
      modifies this`releases
      ensures releases == old(releases) + 1
    {
      releases := releases + 1;
    }
  }

  class Sink {
    var chunks: seq<Bytes>
    var terminals: seq<Terminal>

    constructor ()
      ensures chunks == [] && terminals == []
    {
      chunks, terminals := [], [];
    }

    method Send(chunk: Bytes, taken: bool)
      modifies this`chunks
      ensures chunks == if taken then old(chunks) + [chunk] else old(chunks)
    {
      if taken {
        chunks := chunks + [chunk];
      }
    }

    method End(terminal: Terminal)
      modifies this`terminals
      ensures terminals == old(terminals) + [terminal]
    {
      terminals := terminals + [terminal];
    }
  }

  /**
   * `drain_into`. The chunks forwarded are the source's, in order, up to the
   * event that ended the loop, within the cap. What the consumer is told is
   * that event: `Complete` if the source reported its end, a read error if it
   * failed, the cap if a chunk would have passed it, and nothing after a
   * cancellation or a drop. The source is released exactly once unless it
   * reported its end, and never while the loop is suspended.
   */
  method DrainInto(source: Source, sink: Sink, cap: Option<nat>) returns (exit: Exit, ghost turns: nat)
    requires source.pulls == 0 && source.releases == 0 && sink.chunks == [] && sink.terminals == []
    requires cap.Some? ==> cap.value <= USIZE_MAX
    modifies source`pulls, source`releases, sink
    ensures turns <= |source.script| && exit == ExitAt(source.script, cap, turns)
    ensures forall n :: 0 <= n < turns ==> GoesOn(source.script, cap, n)
    ensures turns < |source.script| ==> !GoesOn(source.script, cap, turns)
    ensures sink.chunks == Produced(source.script, turns)
    ensures cap.Some? && cap.value < USIZE_MAX ==> Size(sink.chunks) <= cap.value
    ensures cap.None? || cap.value == USIZE_MAX ==> !exit.ByCap?
    ensures turns < |source.script| ==>
              var event := source.script[turns];
              && sink.terminals == (match event
                                    case Ended => [Complete]
                                    case Failed => [ReadError]
                                    case Cancelled => []
                                    case Pulled(_, _) =>
                                      if PastCap(sink.chunks, event, cap) then [CapExceeded] else [])
              && (event.Pulled? && event.taken ==> PastCap(sink.chunks, event, cap))
              && source.releases == if event.Ended? then 0 else 1
    ensures turns == |source.script| ==> sink.terminals == [] && source.releases == 0
  {
    var received: nat := 0;
    turns := 0;
    while true
      invariant turns == source.pulls <= |source.script|
      invariant forall n :: 0 <= n < turns ==> GoesOn(source.script, cap, n)
      invariant sink.chunks == Produced(source.script, turns)
      invariant cap.Some? ==> received == SaturatingAdd(0, Size(sink.chunks)) <= cap.value
      invariant sink.terminals == [] && source.releases == 0
      decreases |source.script| - turns
    {
      var pulled := source.NextChunk();
      if pulled.None? {
        return Suspended, turns;
      }
      var chunk: Bytes;
      match pulled.value {
        case Cancelled =>
          source.Release();
          return ByCancel, turns;
        case Ended =>
          break;
        case Failed =>
          sink.End(ReadError);
          source.Release();
          return ByFailure, turns;
        case Pulled(bytes, _) =>
          chunk := bytes;
      }
      FlattenAppend(sink.chunks, chunk);
      assert Produced(source.script, turns + 1) == sink.chunks + [chunk];
      if cap.Some? {
        received := SaturatingAdd(received, |chunk|);
        if received > cap.value {
          sink.End(CapExceeded);
          source.Release();
          return ByCap, turns;
        }
      }
      sink.Send(chunk, pulled.value.taken);
      if !pulled.value.taken {
        source.Release();
        return ByDrop, turns;
      }
      turns := turns + 1;
    }
    sink.End(Complete);
    return ByEnd, turns;
  }

  // ─── What a run's end says about its script ─────────────────────────────

  /** The first turn the loop does not go round after, if any. */
  ghost predicate StopsAt(script: seq<Event>, cap: Option<nat>, turns: nat)
  {
    && turns <= |script|
    && (forall n :: 0 <= n < turns ==> GoesOn(script, cap, n))
    && (turns < |script| ==> !GoesOn(script, cap, turns))
  }

  /** A source of these chunks that then ends, and a consumer that takes all and never cancels. */
  function WholeScript(chunks: seq<Bytes>): seq<Event>
  {
    seq(|chunks|, i requires 0 <= i < |chunks| => Pulled(chunks[i], true)) + [Ended]
  }

  /** The cap that is in force: one of `usize::MAX` is none. */
  function Effective(cap: Option<nat>): Option<nat>
  {
    if cap == Some(USIZE_MAX) then None else cap
  }

  /**
   * Such a source is delivered whole exactly when it fits the cap in force;
   * otherwise the consumer gets the longest prefix of chunks that fits, and an
   * error, never a `Complete`.
   */
  lemma WholeIffItFits(chunks: seq<Bytes>, cap: Option<nat>, turns: nat)
    requires cap.Some? ==> cap.value <= USIZE_MAX
    requires StopsAt(WholeScript(chunks), cap, turns)
    ensures var script, limit := WholeScript(chunks), Effective(cap);
            && turns <= |chunks| && Produced(script, turns) == chunks[..turns]
            && (limit.None? || Size(chunks) <= limit.value <==>
                  turns == |chunks| && ExitAt(script, cap, turns) == ByEnd)
            && (limit.Some? && Size(chunks) > limit.value ==>
                  && ExitAt(script, cap, turns) == ByCap
                  && Size(chunks[..turns]) <= limit.value < Size(chunks[..turns + 1]))
  {
    assert !GoesOn(WholeScript(chunks), cap, |chunks|);
    ProducedIsPrefix(chunks, WholeScript(chunks), turns);
    FitsSoFar(chunks, cap, turns);
    if turns < |chunks| {
      BreachIff(chunks, cap, turns);
      SizeGrows(chunks, turns + 1);
    } else {
      assert chunks[..turns] == chunks;
    }
  }

  lemma FitsSoFar(chunks: seq<Bytes>, cap: Option<nat>, turns: nat)
    requires turns <= |chunks| && (cap.Some? ==> cap.value <= USIZE_MAX)
    requires StopsAt(WholeScript(chunks), cap, turns)
    ensures Effective(cap).Some? ==> Size(chunks[..turns]) <= Effective(cap).value
  {
    if turns > 0 {
      assert GoesOn(WholeScript(chunks), cap, turns - 1);
      BreachIff(chunks, cap, turns - 1);
    }
  }

  /** The chunk that breaches the cap is the first whose prefix no longer fits. */
  lemma BreachIff(chunks: seq<Bytes>, cap: Option<nat>, n: nat)
    requires n < |chunks| && (cap.Some? ==> cap.value <= USIZE_MAX)
    ensures Breaches(WholeScript(chunks), cap, n) <==>
              Effective(cap).Some? && Size(chunks[..n + 1]) > Effective(cap).value
  {
    ProducedIsPrefix(chunks, WholeScript(chunks), n + 1);
  }

  /** Counterexample: with a cap of `usize::MAX`, a source one byte larger is delivered whole. */
  lemma LargestCapIsPassed(turns: nat)
    requires StopsAt(WholeScript(OverLargest()), Some(USIZE_MAX), turns)
    ensures var chunks, script := OverLargest(), WholeScript(OverLargest());
            && Size(chunks) == USIZE_MAX + 1
            && Produced(script, turns) == chunks && ExitAt(script, Some(USIZE_MAX), turns) == ByEnd
  {
    var full := seq(USIZE_MAX, i => 0 as byte);
    FlattenAppend([full], [0]);
    FlattenAppend([], full);
    assert [] + [full] == [full] && [full] + [[0]] == OverLargest();
    WholeIffItFits(OverLargest(), Some(USIZE_MAX), turns);
    assert OverLargest()[..2] == OverLargest();
  }

  function OverLargest(): seq<Bytes>
  {
    [seq(USIZE_MAX, i => 0 as byte), [0]]
  }

  lemma {:induction false} ProducedIsPrefix(chunks: seq<Bytes>, script: seq<Event>, n: nat)
    requires n <= |chunks| <= |script|
    requires forall i :: 0 <= i < |chunks| ==> script[i] == Pulled(chunks[i], true)
    ensures Produced(script, n) == chunks[..n]
  {
    if n > 0 {
      ProducedIsPrefix(chunks, script, n - 1);
      assert chunks[..n] == chunks[..n - 1] + [chunks[n - 1]];
    }
  }

  lemma {:induction false} SizeGrows(chunks: seq<Bytes>, n: nat)
    requires n <= |chunks|
    ensures Size(chunks[..n]) <= Size(chunks)
    decreases |chunks| - n
  {
    if n < |chunks| {
      SizeGrows(chunks, n + 1);
      assert chunks[..n + 1] == chunks[..n] + [chunks[n]];
      FlattenAppend(chunks[..n], chunks[n]);
    } else {
      assert chunks[..n] == chunks;
    }
  }
}
