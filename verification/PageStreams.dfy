/**
 * Frames from a page engine to the Rust side that pulls them: a queue and
 * waiters per stream, cancellation from one end, a vanishing page at the
 * other, and one timer that watches the pages of the requests in flight.
 */
module PageStreams {
  import opened Prelude

  datatype Frame = Data(payload: string) | Done(payload: string) | Error(reason: string)

  predicate Terminal(f: Frame)
  {
    f.Done? || f.Error?
  }

  /**
   * One stream. `queue` and `waiting` are its registered entry; `resolved` is
   * the frame a pull has been given but has not resumed with; `pushed` and
   * `delivered` record what went into the entry and what the consumer got.
   */
  datatype Line = Line(
    registered: bool, queue: seq<Frame>, waiting: bool, resolved: Option<Frame>,
    pushed: seq<Frame>, delivered: seq<Frame>)

  const NEW_LINE := Line(true, [], false, None, [], [])

  /** `push`: to the waiting pull, else to the queue. */
  function PushTo(l: Line, f: Frame): Line
  {
    var noted := l.(pushed := l.pushed + [f]);
    if l.waiting then noted.(waiting := false, resolved := Some(f)) else noted.(queue := l.queue + [f])
  }

  /** A frame handed to the consumer; a terminal one takes the entry with it. */
  function Deliver(l: Line, f: Frame): Line
  {
    var given := l.(delivered := l.delivered + [f]);
    if Terminal(f) then given.(registered := false, queue := [], waiting := false) else given
  }

  /** A pull on a registered stream. */
  function TakeNext(l: Line): Line
  {
    if l.queue != [] then Deliver(l.(queue := l.queue[1..]), l.queue[0]) else l.(waiting := true)
  }

  function Resume(l: Line): Line
    requires l.resolved.Some?
  {
    Deliver(l.(resolved := None), l.resolved.value)
  }

  /** `closeErr('cancelled')`, then the entry is gone. */
  function CancelLine(l: Line): Line
  {
    PushTo(l, Error("cancelled")).(registered := false, queue := [])
  }

  datatype Hub = Hub(lines: map<nat, Line>, inFlight: set<nat>, timer: bool)

  datatype Step =
    | OpenStream(id: nat)
    | FromPage(id: nat, frame: Frame)
    | Pull(id: nat)
    | ResumePull(id: nat)
    | PageLost(id: nat)
    | Cancel(id: nat)
    | OneShot(id: nat)
    | OneShotSettled(id: nat)

  /** `_watch` and `_unwatch`. */
  function Watch(h: Hub, id: nat): Hub
  {
    h.(inFlight := h.inFlight + {id}, timer := true)
  }

  function Unwatch(h: Hub, id: nat): Hub
  {
    h.(inFlight := h.inFlight - {id}, timer := h.timer && h.inFlight - {id} != {})
  }

  predicate Registered(h: Hub, id: nat)
  {
    id in h.lines && h.lines[id].registered
  }

  /** Ids are never reused; one consumer pulls each stream, one pull at a time. */
  predicate Enabled(h: Hub, step: Step)
  {
    match step
    case OpenStream(id) => id !in h.lines && id !in h.inFlight
    case Pull(id) => id in h.lines && !h.lines[id].waiting && h.lines[id].resolved.None?
    case ResumePull(id) => id in h.lines && h.lines[id].resolved.Some?
    case PageLost(id) => id in h.inFlight
    case OneShot(id) => id !in h.lines && id !in h.inFlight
    case OneShotSettled(id) => id !in h.lines
    case _ => true
  }

  /** A frame for a stream with no entry is dropped; a terminal one ends the watch. */
  function Route(h: Hub, id: nat, frame: Frame): Hub
  {
    if !Registered(h, id) then h
    else
      var watched := if Terminal(frame) then Unwatch(h, id) else h;
      watched.(lines := h.lines[id := PushTo(h.lines[id], frame)])
  }

  function Apply(h: Hub, step: Step): Hub
    requires Enabled(h, step)
  {
    match step
    case OpenStream(id) => Watch(h.(lines := h.lines[id := NEW_LINE]), id)
    case FromPage(id, frame) => Route(h, id, frame)
    case Pull(id) =>
      if !h.lines[id].registered then h else h.(lines := h.lines[id := TakeNext(h.lines[id])])
    case ResumePull(id) => h.(lines := h.lines[id := Resume(h.lines[id])])
    case PageLost(id) => Route(Unwatch(h, id), id, Error("the page was closed"))
    case Cancel(id) =>
      if !Registered(h, id) then h
      else Unwatch(h, id).(lines := h.lines[id := CancelLine(h.lines[id])])
    case OneShot(id) => Watch(h, id)
    case OneShotSettled(id) => Unwatch(h, id)
  }

  // ─── The invariant ──────────────────────────────────────────────────────

  function Held(l: Line): seq<Frame>
  {
    if l.resolved.Some? then [l.resolved.value] else []
  }

  predicate NoTerminal(frames: seq<Frame>)
  {
    forall f | f in frames :: !Terminal(f)
  }

  /** Only the last frame delivered can be terminal, and then nothing is left to come. */
  predicate OneTerminalLast(l: Line)
  {
    l.delivered != [] ==>
      && NoTerminal(l.delivered[..|l.delivered| - 1])
      && (Terminal(l.delivered[|l.delivered| - 1]) ==> !l.registered && l.resolved.None?)
  }

  ghost predicate LineInv(l: Line)
  {
    && (l.queue == [] || !l.waiting)
    && (l.waiting ==> l.registered && l.resolved.None?)
    && (!l.registered ==> l.queue == [])
    && l.delivered + Held(l) <= l.pushed
    && (l.registered ==> l.pushed == l.delivered + Held(l) + l.queue)
    && OneTerminalLast(l)
  }

  ghost predicate Inv(h: Hub)
  {
    && (forall id :: id in h.lines ==> LineInv(h.lines[id]))
    && (forall id :: id in h.lines && id in h.inFlight ==> h.lines[id].registered && NoTerminal(h.lines[id].pushed))
    && (h.timer <==> h.inFlight != {})
  }

  lemma PushKeeps(l: Line, f: Frame)
    requires LineInv(l) && l.registered
    ensures LineInv(PushTo(l, f))
  {
  }

  lemma DeliverKeeps(l: Line, f: Frame)
    requires l.resolved.None? && !l.waiting && NoTerminal(l.delivered)
    requires l.delivered + [f] <= l.pushed
    requires if l.registered then l.pushed == l.delivered + [f] + l.queue else l.queue == []
    ensures LineInv(Deliver(l, f))
  {
    var after := Deliver(l, f);
    assert after.delivered + Held(after) == l.delivered + [f];
    assert after.delivered[..|after.delivered| - 1] == l.delivered;
  }

  /** While a frame is still to come, none delivered was terminal. */
  lemma StillComing(l: Line)
    requires LineInv(l) && (l.registered || l.resolved.Some?)
    ensures NoTerminal(l.delivered)
  {
  }

  /** A terminal frame on its way to the consumer has already ended the watch. */
  lemma DeliveredWasUnwatched(h: Hub, id: nat, f: Frame)
    requires Inv(h) && id in h.lines && f in Held(h.lines[id]) + h.lines[id].queue
    ensures Terminal(f) ==> id !in h.inFlight
  {
  }

  lemma RouteKeeps(h: Hub, id: nat, frame: Frame)
    requires Inv(h)
    ensures Inv(Route(h, id, frame))
  {
    if Registered(h, id) {
      PushKeeps(h.lines[id], frame);
    }
  }

  lemma TakeNextKeeps(l: Line)
    requires LineInv(l) && l.registered && !l.waiting && l.resolved.None?
    ensures LineInv(TakeNext(l))
  {
    if l.queue != [] {
      StillComing(l);
      assert l.pushed == l.delivered + [l.queue[0]] + l.queue[1..];
      DeliverKeeps(l.(queue := l.queue[1..]), l.queue[0]);
    }
  }

  lemma ResumeKeeps(l: Line)
    requires LineInv(l) && l.resolved.Some?
    ensures LineInv(Resume(l))
  {
    StillComing(l);
    DeliverKeeps(l.(resolved := None), l.resolved.value);
  }

  /** One stream moved on, with nothing new pushed to it. */
  lemma LineMoves(h: Hub, id: nat, l: Line)
    requires Inv(h) && id in h.lines && LineInv(l) && l.pushed == h.lines[id].pushed
    requires id in h.inFlight ==> l.registered
    ensures Inv(h.(lines := h.lines[id := l]))
  {
  }

  lemma CancelKeeps(h: Hub, id: nat)
    requires Inv(h) && Registered(h, id)
    ensures Inv(Apply(h, Cancel(id)))
  {
    var pushed := PushTo(h.lines[id], Error("cancelled"));
    PushKeeps(h.lines[id], Error("cancelled"));
    assert pushed.delivered + Held(pushed) + pushed.queue == pushed.pushed;
  }

  lemma StepKeeps(h: Hub, step: Step)
    requires Inv(h) && Enabled(h, step)
    ensures Inv(Apply(h, step))
  {
    match step
    case FromPage(id, frame) => RouteKeeps(h, id, frame);
    case Pull(id) =>
      var l := h.lines[id];
      if l.registered {
        TakeNextKeeps(l);
        if l.queue != [] { DeliveredWasUnwatched(h, id, l.queue[0]); }
        LineMoves(h, id, TakeNext(l));
      }
    case ResumePull(id) =>
      var l := h.lines[id];
      ResumeKeeps(l);
      DeliveredWasUnwatched(h, id, l.resolved.value);
      LineMoves(h, id, Resume(l));
    case PageLost(id) => RouteKeeps(Unwatch(h, id), id, Error("the page was closed"));
    case Cancel(id) => if Registered(h, id) { CancelKeeps(h, id); }
    case _ =>
  }

  // ─── Every run ──────────────────────────────────────────────────────────

  predicate Allowed(h: Hub, run: seq<Step>)
    decreases |run|
  {
    run != [] ==> Enabled(h, run[0]) && Allowed(Apply(h, run[0]), run[1..])
  }

  function Final(h: Hub, run: seq<Step>): Hub
    requires Allowed(h, run)
    decreases |run|
  {
    if run == [] then h else Final(Apply(h, run[0]), run[1..])
  }

  lemma {:induction false} RunKeeps(h: Hub, run: seq<Step>)
    requires Inv(h) && Allowed(h, run)
    ensures Inv(Final(h, run))
    decreases |run|
  {
    if run != [] {
      StepKeeps(h, run[0]);
      RunKeeps(Apply(h, run[0]), run[1..]);
    }
  }

  /** The frames up to and including the first terminal one. */
  function UpToTerminal(frames: seq<Frame>): seq<Frame>
  {
    if frames == [] || Terminal(frames[0]) then frames[..if frames == [] then 0 else 1]
    else [frames[0]] + UpToTerminal(frames[1..])
  }

  lemma {:induction false} UpToTerminalIs(frames: seq<Frame>, n: nat)
    requires n < |frames| && Terminal(frames[n]) && NoTerminal(frames[..n])
    ensures UpToTerminal(frames) == frames[..n + 1]
  {
    if n > 0 {
      assert frames[0] in frames[..n];
      assert forall f :: f in frames[1..][..n - 1] ==> f in frames[..n];
      UpToTerminalIs(frames[1..], n - 1);
      assert frames[..n + 1] == [frames[0]] + frames[1..][..n];
    }
  }

  /** A consumer that got a terminal frame got everything up to the first one pushed. */
  lemma TerminalEnds(l: Line)
    requires LineInv(l) && !NoTerminal(l.delivered)
    ensures l.delivered == UpToTerminal(l.pushed)
    ensures !l.registered && !l.waiting && l.resolved.None?
  {
    var last := |l.delivered| - 1;
    assert l.delivered == l.delivered[..last] + [l.delivered[last]];
    assert l.pushed[..last] == l.delivered[..last];
    UpToTerminalIs(l.pushed, last);
  }

  // ─── A stream told by the steps of its run ──────────────────────────────

  /**
   * What a run says of one id, with no queue and no waiters: the frames sent
   * to it while it stood, how many of them its pulls have had, and whether a
   * pull is still out.
   */
  datatype Trace = Trace(begun: bool, cancelled: bool, sent: seq<Frame>, had: nat, pulling: bool, oneShot: bool)

  const UNHEARD_OF := Trace(false, false, [], 0, false, false)

  /** Opened, not cancelled, and its consumer not told yet that it is over. */
  predicate Standing(t: Trace)
  {
    t.begun && !t.cancelled && NoTerminal(t.sent[..if t.had <= |t.sent| then t.had else |t.sent|])
  }

  function SentTo(t: Trace, f: Frame): Trace
  {
    if Standing(t) then t.(sent := t.sent + [f]) else t
  }

  function Heard(t: Trace, step: Step, id: nat): Trace
  {
    match step
    case OpenStream(at) => if at == id then t.(begun := true) else t
    case FromPage(at, frame) => if at == id then SentTo(t, frame) else t
    case PageLost(at) => if at == id then SentTo(t, Error("the page was closed")).(oneShot := false) else t
    case Cancel(at) => if at == id && t.begun then SentTo(t, Error("cancelled")).(cancelled := true) else t
    case Pull(at) =>
      if at != id || !Standing(t) then t
      else if t.had < |t.sent| then t.(had := t.had + 1) else t.(pulling := true)
    case ResumePull(at) => if at == id then t.(had := t.had + 1, pulling := false) else t
    case OneShot(at) => if at == id then t.(oneShot := true) else t
    case OneShotSettled(at) => if at == id then t.(oneShot := false) else t
  }

  function TraceOf(t: Trace, run: seq<Step>, id: nat): Trace
    decreases |run|
  {
    if run == [] then t else TraceOf(Heard(t, run[0], id), run[1..], id)
  }

  /** The stream's entry is as its trace says. */
  predicate LineTraces(l: Line, t: Trace)
  {
    && l.pushed == t.sent && t.had <= |t.sent| && l.delivered == t.sent[..t.had]
    && (l.registered <==> Standing(t))
    && (t.pulling <==> l.waiting || l.resolved.Some?)
  }

  predicate Traces(h: Hub, id: nat, t: Trace)
  {
    && (id in h.lines <==> t.begun)
    && (if t.begun then LineTraces(h.lines[id], t) else t.sent == [] && t.had == 0 && !t.cancelled && !t.pulling)
    && (id in h.inFlight <==> if t.begun then Standing(t) && NoTerminal(t.sent) else t.oneShot)
  }

  lemma NoTerminalAppend(frames: seq<Frame>, f: Frame)
    ensures NoTerminal(frames + [f]) <==> NoTerminal(frames) && !Terminal(f)
  {
    assert f in frames + [f];
    assert forall g :: g in frames ==> g in frames + [f];
  }

  /** A frame sent to a standing stream. */
  lemma SendTraces(l: Line, t: Trace, f: Frame)
    requires LineInv(l) && LineTraces(l, t) && l.registered
    ensures LineTraces(PushTo(l, f), SentTo(t, f))
  {
    assert (t.sent + [f])[..t.had] == t.sent[..t.had];
  }

  /** A frame handed over: the next the stream was sent. */
  lemma HandOverTraces(l: Line, t: Trace, f: Frame)
    requires LineTraces(l, t) && t.had < |t.sent| && t.sent[t.had] == f && !t.pulling
    requires (l.registered <==> Standing(t)) && NoTerminal(t.sent[..t.had])
    ensures LineTraces(Deliver(l, f), t.(had := t.had + 1))
  {
    assert t.sent[..t.had + 1] == t.sent[..t.had] + [f];
    NoTerminalAppend(t.sent[..t.had], f);
  }

  lemma RouteTraces(h: Hub, id: nat, t: Trace, f: Frame)
    requires Inv(h) && id in h.lines && t.begun && LineTraces(h.lines[id], t)
    requires id in h.inFlight ==> Standing(t) && NoTerminal(t.sent)
    requires id !in h.inFlight && Standing(t) && NoTerminal(t.sent) ==> Terminal(f)
    ensures Traces(Route(h, id, f), id, SentTo(t, f))
  {
    NoTerminalAppend(t.sent, f);
    if Standing(t) { SendTraces(h.lines[id], t, f); }
  }

  /** A pull with no other pull out gets the next frame sent, if there is one. */
  lemma TakeTraces(l: Line, t: Trace)
    requires LineInv(l) && LineTraces(l, t) && l.registered && !l.waiting && l.resolved.None?
    ensures l.queue == t.sent[t.had..]
    ensures LineTraces(TakeNext(l), if l.queue != [] then t.(had := t.had + 1) else t.(pulling := true))
  {
    assert l.pushed == l.delivered + l.queue;
    if l.queue != [] {
      HandOverTraces(l.(queue := l.queue[1..]), t, l.queue[0]);
    }
  }

  /** A stream that moves on by a pull, nothing sent: it is watched as it was. */
  lemma MovedTraces(h: Hub, id: nat, t: Trace, l: Line, now: Trace)
    requires Traces(h, id, t) && t.begun && LineTraces(l, now)
    requires now == t.(had := now.had, pulling := now.pulling) && t.had <= now.had
    ensures Traces(h.(lines := h.lines[id := l]), id, now)
  {
    assert forall f :: f in t.sent[..t.had] ==> f in t.sent[..now.had];
    assert forall f :: f in t.sent[..now.had] ==> f in t.sent;
  }

  lemma PullTraces(h: Hub, id: nat, t: Trace)
    requires Inv(h) && Traces(h, id, t) && Enabled(h, Pull(id))
    ensures Traces(Apply(h, Pull(id)), id, Heard(t, Pull(id), id))
  {
    var l := h.lines[id];
    assert LineInv(l);
    if l.registered {
      TakeTraces(l, t);
      MovedTraces(h, id, t, TakeNext(l), Heard(t, Pull(id), id));
    }
  }

  lemma ResumeTraces(h: Hub, id: nat, t: Trace)
    requires Inv(h) && Traces(h, id, t) && Enabled(h, ResumePull(id))
    ensures Traces(Apply(h, ResumePull(id)), id, Heard(t, ResumePull(id), id))
  {
    var l := h.lines[id];
    var f := l.resolved.value;
    assert LineInv(l);
    StillComing(l);
    assert (l.delivered + [f])[t.had] == f;
    HandOverTraces(l.(resolved := None), t.(pulling := false), f);
    MovedTraces(h, id, t, Resume(l), Heard(t, ResumePull(id), id));
  }

  lemma CancelTraces(h: Hub, id: nat, t: Trace)
    requires Inv(h) && Traces(h, id, t) && Registered(h, id)
    ensures Traces(Apply(h, Cancel(id)), id, Heard(t, Cancel(id), id))
  {
    SendTraces(h.lines[id], t, Error("cancelled"));
  }

  /** The other streams' steps are nothing to this one. */
  lemma OthersTrace(h: Hub, id: nat, t: Trace, step: Step)
    requires Traces(h, id, t) && Enabled(h, step) && step.id != id
    ensures Traces(Apply(h, step), id, Heard(t, step, id))
  {
  }

  lemma StepTraces(h: Hub, id: nat, t: Trace, step: Step)
    requires Inv(h) && Traces(h, id, t) && Enabled(h, step)
    ensures Traces(Apply(h, step), id, Heard(t, step, id))
  {
    if step.id != id {
      OthersTrace(h, id, t, step);
    } else {
      match step
      case FromPage(_, frame) => if t.begun { RouteTraces(h, id, t, frame); }
      case PageLost(_) => if t.begun { RouteTraces(Unwatch(h, id), id, t, Error("the page was closed")); }
      case Cancel(_) => if Registered(h, id) { CancelTraces(h, id, t); }
      case Pull(_) => PullTraces(h, id, t);
      case ResumePull(_) => ResumeTraces(h, id, t);
      case _ =>
    }
  }

  lemma {:induction false} RunTraces(h: Hub, id: nat, t: Trace, run: seq<Step>)
    requires Inv(h) && Traces(h, id, t) && Allowed(h, run)
    ensures Traces(Final(h, run), id, TraceOf(t, run, id))
    decreases |run|
  {
    if run != [] {
      StepTraces(h, id, t, run[0]);
      StepKeeps(h, run[0]);
      RunTraces(Apply(h, run[0]), id, Heard(t, run[0], id), run[1..]);
    }
  }

  /**
   * Over every run, on every stream, whatever its queue and waiters did: the
   * consumer has had exactly the frames its pulls were due, of those the page
   * sent while the stream stood - and the error that a lost page or a cancel
   * adds - in order and without a gap; a pull that is out has its frame as soon
   * as there is one. Once it has had a terminal frame that
   * was the first one sent, nothing more comes and the entry is gone. Queue
   * and waiters are never both in use; and the watch timer is set exactly when
   * some request is in flight: a standing stream not yet told to end, or a
   * one-shot request not yet settled.
   */
  lemma FramesInOrder(run: seq<Step>, id: nat)
    requires Allowed(Hub(map[], {}, false), run)
    ensures var h, t := Final(Hub(map[], {}, false), run), TraceOf(UNHEARD_OF, run, id);
            && (id in h.lines <==> t.begun)
            && (id in h.inFlight <==> if t.begun then Standing(t) && NoTerminal(t.sent) else t.oneShot)
            && (h.timer <==> h.inFlight != {})
            && (t.begun ==>
                  var l := h.lines[id];
                  && t.had <= |t.sent| && l.delivered == t.sent[..t.had]
                  && (l.registered <==> Standing(t))
                  && (l.queue == [] || !l.waiting)
                  && (t.pulling && t.had < |t.sent| ==> l.resolved == Some(t.sent[t.had]))
                  && (t.pulling && t.had == |t.sent| ==> l.waiting)
                  && (!NoTerminal(l.delivered) ==>
                        l.delivered == UpToTerminal(t.sent) && !l.registered && !l.waiting && l.resolved.None?)
                  && (l.registered ==> t.sent == l.delivered + Held(l) + l.queue))
  {
    RunKeeps(Hub(map[], {}, false), run);
    RunTraces(Hub(map[], {}, false), id, UNHEARD_OF, run);
    var h := Final(Hub(map[], {}, false), run);
    if id in h.lines {
      var l := h.lines[id];
      assert LineInv(l);
      assert l.resolved.Some? ==> (l.delivered + Held(l))[|l.delivered|] == l.resolved.value;
      if !NoTerminal(h.lines[id].delivered) { TerminalEnds(h.lines[id]); }
    }
  }

  // ─── In place ───────────────────────────────────────────────────────────

  class PageHub {
    var lines: map<nat, Line>
    var inFlight: set<nat>
    var timer: bool

    ghost function State(): Hub
      reads this
    {
      Hub(lines, inFlight, timer)
    }

    constructor ()
      ensures State() == Hub(map[], {}, false)
    {
      lines, inFlight, timer := map[], {}, false;
    }

    method WatchPage(id: nat)
      modifies this`inFlight, this`timer
      ensures State() == Watch(old(State()), id)
    {
      inFlight := inFlight + {id};
      if !timer {
        timer := true;
      }
    }

    method UnwatchPage(id: nat)
      modifies this`inFlight, this`timer
      ensures State() == Unwatch(old(State()), id)
    {
      inFlight := inFlight - {id};
      if inFlight == {} && timer {
        timer := false;
      }
    }

    method Open(id: nat)
      requires Enabled(State(), OpenStream(id))
      modifies this
      ensures State() == Apply(old(State()), OpenStream(id))
    {
      lines := lines[id := NEW_LINE];
      WatchPage(id);
    }

    method CompleteStreamFrame(id: nat, frame: Frame)
      modifies this
      ensures State() == Route(old(State()), id, frame)
    {
      if id !in lines || !lines[id].registered {
        return;
      }
      if Terminal(frame) {
        UnwatchPage(id);
      }
      lines := lines[id := PushTo(lines[id], frame)];
    }

    /**
     * The frame at once, or `None` when the pull has to wait. A stream with no
     * entry answers an error of the caller's text, which is no frame of the stream.
     */
    method NextFrame(id: nat, unknown: string) returns (frame: Option<Frame>)
      requires id in lines ==> Enabled(State(), Pull(id))
      modifies this`lines
      ensures !Registered(old(State()), id) ==> frame == Some(Error(unknown)) && State() == old(State())
      ensures Registered(old(State()), id) ==>
                && State() == Apply(old(State()), Pull(id))
                && lines[id].delivered == old(lines[id].delivered) + (if frame.Some? then [frame.value] else [])
                && (frame.None? ==> lines[id].waiting)
    {
      if id !in lines || !lines[id].registered {
        return Some(Error(unknown));
      }
      var line := lines[id];
      if line.queue != [] {
        frame := Some(line.queue[0]);
        line := line.(queue := line.queue[1..], delivered := line.delivered + [line.queue[0]]);
        if Terminal(frame.value) {
          line := line.(registered := false, queue := [], waiting := false);
        }
      } else {
        frame := None;
        line := line.(waiting := true);
      }
      lines := lines[id := line];
    }

    /** A pull that had to wait goes on with the frame it was given. */
    method ResumeNextFrame(id: nat) returns (frame: Frame)
      requires Enabled(State(), ResumePull(id))
      modifies this`lines
      ensures State() == Apply(old(State()), ResumePull(id))
      ensures lines[id].delivered == old(lines[id].delivered) + [frame]
    {
      frame := lines[id].resolved.value;
      var line := lines[id].(resolved := None, delivered := lines[id].delivered + [frame]);
      if Terminal(frame) {
        line := line.(registered := false, queue := [], waiting := false);
      }
      lines := lines[id := line];
    }

    method CheckEngineHost(id: nat)
      requires Enabled(State(), PageLost(id))
      modifies this
      ensures State() == Apply(old(State()), PageLost(id))
    {
      UnwatchPage(id);
      CompleteStreamFrame(id, Error("the page was closed"));
    }

    method CancelStream(id: nat)
      modifies this
      ensures State() == Apply(old(State()), Cancel(id))
    {
      if id !in lines || !lines[id].registered {
        return;
      }
      UnwatchPage(id);
      lines := lines[id := PushTo(lines[id], Error("cancelled"))];
      lines := lines[id := lines[id].(registered := false, queue := [])];
    }
  }
}
