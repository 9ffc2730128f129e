/**
 * The host loop of main.go with the platform stripped away: each iteration
 * pumps the pending raw events (handing their translations to the game,
 * toggling fullscreen on an F11 release and resizing the camera on a
 * window size change), then runs the fixed-tick update gate.  Time is an
 * integer count of nanoseconds supplied by the caller.
 */
module MainLoop {
  import opened Wrappers
  import opened Input

  /** One second, in nanoseconds. */
  const Second := 1_000_000_000

  /** The update interval: one second divided by 65, in whole nanoseconds. */
  const FrameTime := Second / 65

  /** The character the user controls (the first one). */
  const CharIndex := 0

  /** The loop-local state: fullscreen flag, time of the last update, camera size. */
  datatype LoopState = LoopState(fullscreen: bool, lastUpdate: int, cameraWidth: int, cameraHeight: int)

  predicate IsResize(e: RawEvent)
  {
    e.WindowEvent? && e.sizeChanged
  }

  /**
   * What one raw event does to the loop-local state, besides the input event
   * it may produce: an F11 release flips fullscreen, a size change sets the
   * camera size; nothing else changes anything, and events never touch the
   * time of the last update.
   */
  function ApplyEvent(s: LoopState, e: RawEvent): (t: LoopState)
    ensures t.lastUpdate == s.lastUpdate
    ensures t.fullscreen != s.fullscreen <==> e == KeyUp(F11)
    ensures IsResize(e) ==> t.cameraWidth == e.data1 && t.cameraHeight == e.data2
    ensures !IsResize(e) ==> t.cameraWidth == s.cameraWidth && t.cameraHeight == s.cameraHeight
  {
    match e
    case KeyUp(F11) => s.(fullscreen := !s.fullscreen)
    case WindowEvent(sizeChanged, w, h) =>
      if sizeChanged then s.(cameraWidth := w, cameraHeight := h) else s
    case _ => s
  }

  /** The loop-local state after handling `events` in order. */
  function ApplyEvents(s: LoopState, events: seq<RawEvent>): LoopState
    decreases |events|
  {
    if events == [] then s
    else ApplyEvent(ApplyEvents(s, events[..|events| - 1]), events[|events| - 1])
  }

  /** The number of F11 releases among `events`. */
  function F11Releases(events: seq<RawEvent>): nat
    decreases |events|
  {
    if events == [] then 0
    else F11Releases(events[..|events| - 1]) + (if events[|events| - 1] == KeyUp(F11) then 1 else 0)
  }

  /** Fullscreen ends up flipped exactly when an odd number of F11 releases arrived. */
  lemma {:induction false} FullscreenParity(s: LoopState, events: seq<RawEvent>)
    ensures ApplyEvents(s, events).fullscreen == (s.fullscreen != (F11Releases(events) % 2 == 1))
    decreases |events|
  {
    if events != [] {
      FullscreenParity(s, events[..|events| - 1]);
    }
  }

  /** Two F11 releases restore the original fullscreen setting. */
  lemma DoubleF11Restores(s: LoopState)
    ensures ApplyEvents(s, [KeyUp(F11), KeyUp(F11)]) == s
  {
  }

  /** The camera has the size carried by the last size-change event. */
  lemma {:induction false} CameraFollowsLastResize(s: LoopState, events: seq<RawEvent>, j: nat)
    requires j < |events| && IsResize(events[j])
    requires forall i :: j < i < |events| ==> !IsResize(events[i])
    ensures ApplyEvents(s, events).cameraWidth == events[j].data1
    ensures ApplyEvents(s, events).cameraHeight == events[j].data2
    decreases |events|
  {
    if j < |events| - 1 {
      var prefix := events[..|events| - 1];
      assert forall i :: j < i < |prefix| ==> prefix[i] == events[i];
      CameraFollowsLastResize(s, prefix, j);
    }
  }

  /** Without a size change among `events` the camera keeps its size. */
  lemma {:induction false} EventsKeepCamera(s: LoopState, events: seq<RawEvent>)
    requires forall i :: 0 <= i < |events| ==> !IsResize(events[i])
    ensures ApplyEvents(s, events).cameraWidth == s.cameraWidth
    ensures ApplyEvents(s, events).cameraHeight == s.cameraHeight
    decreases |events|
  {
    if events != [] {
      EventsKeepCamera(s, events[..|events| - 1]);
    }
  }

  /** The gate: an update is due when strictly more than one frame time has elapsed. */
  predicate UpdateDue(lastUpdate: int, now: int)
  {
    now - lastUpdate > FrameTime
  }

  lemma FrameTimeValue()
    ensures FrameTime == 15384615
  {
  }

  /**
   * The first iteration, with the last update placed one frame time before
   * the start, updates exactly when the clock has advanced past the start.
   */
  lemma FirstIterationUpdates(start: int, now: int)
    ensures UpdateDue(start - FrameTime, now) <==> now > start
  {
  }

  /**
   * The clock readings at which the game is updated, over loop iterations
   * that read the clock values `nows` in turn: at most one update per
   * iteration, and the last update time moves only when one fires.
   */
  function UpdateTimes(lastUpdate: int, nows: seq<int>): seq<int>
    decreases |nows|
  {
    if nows == [] then []
    else if UpdateDue(lastUpdate, nows[0]) then [nows[0]] + UpdateTimes(nows[0], nows[1..])
    else UpdateTimes(lastUpdate, nows[1..])
  }

  /** One iteration of the gate, peeled off the front of the remaining clock values. */
  lemma UpdateTimesStep(lastUpdate: int, nows: seq<int>, i: nat)
    requires i < |nows|
    ensures UpdateTimes(lastUpdate, nows[i..])
      == if UpdateDue(lastUpdate, nows[i]) then [nows[i]] + UpdateTimes(nows[i], nows[i + 1..])
         else UpdateTimes(lastUpdate, nows[i + 1..])
  {
  }

  /**
   * Updates never come faster than one per frame time: there are at most as
   * many as iterations, consecutive ones are more than a frame time apart,
   * and `k` updates take more than `k` frame times since the last update.
   */
  lemma {:induction false} UpdatesAreSpaced(lastUpdate: int, nows: seq<int>)
    ensures var u := UpdateTimes(lastUpdate, nows);
      && |u| <= |nows|
      && (|u| > 0 ==> u[0] - lastUpdate > FrameTime)
      && (forall i :: 0 <= i < |u| - 1 ==> u[i + 1] - u[i] > FrameTime)
      && (|u| > 0 ==> u[|u| - 1] - lastUpdate > |u| * FrameTime)
    decreases |nows|
  {
    if nows != [] {
      UpdatesAreSpaced(lastUpdate, nows[1..]);
      UpdatesAreSpaced(nows[0], nows[1..]);
    }
  }

  /** The state owned by the body of the host loop. */
  class HostLoop {
    var fullscreen: bool
    var lastUpdate: int
    var cameraWidth: int
    var cameraHeight: int

    function State(): LoopState
      reads this
    {
      LoopState(fullscreen, lastUpdate, cameraWidth, cameraHeight)
    }

    /**
     * The loop starts in fullscreen with the window's size, and with the last
     * update one frame time before the start time `start`.
     */
    constructor (start: int, width: int, height: int)
      ensures State() == LoopState(true, start - FrameTime, width, height)
    {
      fullscreen := true;
      lastUpdate := start - FrameTime;
      cameraWidth, cameraHeight := width, height;
    }

    /** Handles one raw event; `input` is what goes to the game, if anything. */
    method HandleEvent(e: RawEvent) returns (input: Option<InputEvent>)
      modifies this
      ensures input == Translate(e, CharIndex)
      ensures State() == ApplyEvent(old(State()), e)
    {
      input := Translate(e, CharIndex);
      match e {
        case KeyUp(F11) =>
          fullscreen := !fullscreen;
        case WindowEvent(sizeChanged, w, h) =>
          if sizeChanged {
            cameraWidth, cameraHeight := w, h;
          }
        case _ =>
      }
    }

    /** Drains the pending `events` in order, collecting the game's input events. */
    method PollEvents(events: seq<RawEvent>) returns (inputs: seq<InputEvent>)
      modifies this
      ensures inputs == TranslateAll(events, CharIndex)
      ensures State() == ApplyEvents(old(State()), events)
    {
      inputs := [];
      var i := 0;
      while i < |events|
        invariant 0 <= i <= |events|
        invariant inputs == TranslateAll(events[..i], CharIndex)
        invariant State() == ApplyEvents(old(State()), events[..i])
      {
        var input := HandleEvent(events[i]);
        assert events[..i + 1][..i] == events[..i];
        inputs := inputs + AsSeq(input);
        i := i + 1;
      }
      assert events[..i] == events;
    }

    /** The update gate: `update` tells whether the game is updated at time `now`. */
    method UpdateGate(now: int) returns (update: bool)
      modifies this
      ensures update == UpdateDue(old(lastUpdate), now)
      ensures State() == old(State()).(lastUpdate := if update then now else old(lastUpdate))
    {
      var dt := now - lastUpdate;
      update := false;
      if dt > FrameTime {
        update := true;
        lastUpdate := now;
      }
    }

    /** One loop iteration: pump `events`, then run the gate at clock value `now`. */
    method Iterate(events: seq<RawEvent>, now: int) returns (inputs: seq<InputEvent>, update: bool)
      modifies this
      ensures inputs == TranslateAll(events, CharIndex)
      ensures update == UpdateDue(old(lastUpdate), now)
      ensures State() == ApplyEvents(old(State()), events).(lastUpdate := if update then now else old(lastUpdate))
    {
      inputs := PollEvents(events);
      EventsKeepClock(old(State()), events);
      update := UpdateGate(now);
    }

    /**
     * Runs iterations while the game is running: iteration `i` pumps
     * `batches[i]` and reads the clock value `nows[i]`.  `inputs` is what the
     * game received, in order, and `updates` lists the clock values at which
     * the game was updated; the last of them is the new last update time.
     */
    method RunLoop(batches: seq<seq<RawEvent>>, nows: seq<int>) returns (inputs: seq<InputEvent>, updates: seq<int>)
      requires |batches| == |nows|
      modifies this
      ensures inputs == TranslateAll(Flatten(batches), CharIndex)
      ensures updates == UpdateTimes(old(lastUpdate), nows)
      ensures lastUpdate == if updates == [] then old(lastUpdate) else updates[|updates| - 1]
      ensures State() == ApplyEvents(old(State()), Flatten(batches)).(lastUpdate := lastUpdate)
    {
      ghost var initial := State();
      inputs, updates := [], [];
      var i := 0;
      assert batches[..0] == [] && nows[0..] == nows;
      while i < |nows|
        invariant 0 <= i <= |nows|
        invariant LoopProgress(initial, batches, nows, i, inputs, updates, State())
      {
        ghost var before := State();
        var batchInputs, update := Iterate(batches[i], nows[i]);
        IterationStep(initial, batches, nows, i, inputs, updates, before, batchInputs, update, State());
        inputs := inputs + batchInputs;
        if update {
          updates := updates + [nows[i]];
        }
        i := i + 1;
      }
      assert batches[..i] == batches && nows[i..] == [];
    }
  }

  /**
   * After the first `i` iterations the game has received the translations of
   * the first `i` batches, has been updated at the times the gate fired so
   * far, and the loop state `current` follows the joined batches.
   */
  ghost predicate LoopProgress(initial: LoopState, batches: seq<seq<RawEvent>>, nows: seq<int>, i: nat,
                               inputs: seq<InputEvent>, updates: seq<int>, current: LoopState)
  {
    && i <= |batches| && i <= |nows|
    && inputs == TranslateAll(Flatten(batches[..i]), CharIndex)
    && updates + UpdateTimes(current.lastUpdate, nows[i..]) == UpdateTimes(initial.lastUpdate, nows)
    && current.lastUpdate == (if updates == [] then initial.lastUpdate else updates[|updates| - 1])
    && current == ApplyEvents(initial, Flatten(batches[..i])).(lastUpdate := current.lastUpdate)
  }

  /** One loop iteration (pump batch `i`, then the gate at `nows[i]`) keeps `LoopProgress`. */
  lemma IterationStep(initial: LoopState, batches: seq<seq<RawEvent>>, nows: seq<int>, i: nat,
                      inputs: seq<InputEvent>, updates: seq<int>, current: LoopState,
                      batchInputs: seq<InputEvent>, update: bool, next: LoopState)
    requires i < |batches| && i < |nows|
    requires LoopProgress(initial, batches, nows, i, inputs, updates, current)
    requires batchInputs == TranslateAll(batches[i], CharIndex)
    requires update == UpdateDue(current.lastUpdate, nows[i])
    requires next == ApplyEvents(current, batches[i]).(lastUpdate := if update then nows[i] else current.lastUpdate)
    ensures LoopProgress(initial, batches, nows, i + 1, inputs + batchInputs,
                         if update then updates + [nows[i]] else updates, next)
  {
    var done := Flatten(batches[..i]);
    assert batches[..i + 1][..i] == batches[..i];
    assert Flatten(batches[..i + 1]) == done + batches[i];
    TranslateAllAppend(done, batches[i], CharIndex);
    BatchAfterBatches(initial, done, batches[i], current.lastUpdate, next.lastUpdate);
    UpdateTimesStep(current.lastUpdate, nows, i);
  }

  /** The raw events of successive pumps, joined in order. */
  function Flatten(batches: seq<seq<RawEvent>>): seq<RawEvent>
    decreases |batches|
  {
    if batches == [] then []
    else Flatten(batches[..|batches| - 1]) + batches[|batches| - 1]
  }

  /** Handling two batches in turn is handling their concatenation. */
  lemma {:induction false} ApplyEventsAppend(s: LoopState, a: seq<RawEvent>, b: seq<RawEvent>)
    ensures ApplyEvents(s, a + b) == ApplyEvents(ApplyEvents(s, a), b)
    decreases |b|
  {
    if b == [] {
      assert a + b == a;
    } else {
      ApplyEventsAppend(s, a, b[..|b| - 1]);
      assert (a + b)[..|a + b| - 1] == a + b[..|b| - 1];
      assert (a + b)[|a + b| - 1] == b[|b| - 1];
    }
  }

  /**
   * One more batch, handled from the state reached after the earlier ones
   * (with whatever last update time the gate left), continues the state of
   * the joined events.
   */
  lemma BatchAfterBatches(s: LoopState, done: seq<RawEvent>, batch: seq<RawEvent>, clock: int, t: int)
    ensures ApplyEvents(ApplyEvents(s, done).(lastUpdate := clock), batch).(lastUpdate := t)
      == ApplyEvents(s, done + batch).(lastUpdate := t)
  {
    ApplyEventsAppend(s, done, batch);
    ApplyEventsIgnoreClock(ApplyEvents(s, done), batch, clock);
  }

  /** What events do to the loop state does not depend on the last update time. */
  lemma {:induction false} ApplyEventsIgnoreClock(s: LoopState, events: seq<RawEvent>, t: int)
    ensures ApplyEvents(s.(lastUpdate := t), events) == ApplyEvents(s, events).(lastUpdate := t)
    decreases |events|
  {
    if events != [] {
      ApplyEventsIgnoreClock(s, events[..|events| - 1], t);
    }
  }

  /** Events never move the time of the last update. */
  lemma {:induction false} EventsKeepClock(s: LoopState, events: seq<RawEvent>)
    ensures ApplyEvents(s, events).lastUpdate == s.lastUpdate
    decreases |events|
  {
    if events != [] {
      EventsKeepClock(s, events[..|events| - 1]);
    }
  }
}
