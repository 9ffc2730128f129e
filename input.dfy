/**
 * Translation of raw platform events into the game's semantic input events,
 * as done by the event switch of the host loop (main.go).  Only the part of
 * the switch that produces an `InputEvent` lives here; the loop-local
 * effects (fullscreen toggle, camera size) are in module MainLoop.
 */
module Input {
  import opened Wrappers

  /** The keys the switch distinguishes; every other key symbol is `OtherKey`. */
  datatype Key = Left | Right | Up | Space | LCtrl | Escape | F11 | OtherKey(sym: int)

  /**
   * A raw platform event: a key press with its repeat count, a key release,
   * a window event (only "size changed" matters, with its two data words),
   * the OS quit request, or anything else the pump delivers.
   */
  datatype RawEvent =
    | KeyDown(key: Key, repeat: int)
    | KeyUp(key: Key)
    | WindowEvent(sizeChanged: bool, data1: int, data2: int)
    | QuitEvent
    | OtherEvent

  datatype InputKind = GoLeft | GoRight | Jump | QuitGame

  /** A semantic press/release edge for the character `charIndex`. */
  datatype InputEvent = InputEvent(kind: InputKind, pressed: bool, charIndex: int)

  /**
   * Reference table of the keys bound to a game action: arrows move,
   * Up, Space and left Ctrl all jump, Escape quits; F11 and other keys are
   * not game actions.
   */
  function KeyAction(k: Key): (r: Option<InputKind>)
    ensures r == Some(Jump) <==> k == Up || k == Space || k == LCtrl
    ensures r == Some(GoLeft) <==> k == Left
    ensures r == Some(GoRight) <==> k == Right
    ensures r == Some(QuitGame) <==> k == Escape
    ensures r == None <==> k == F11 || k.OtherKey?
  {
    match k
    case Left => Some(GoLeft)
    case Right => Some(GoRight)
    case Up => Some(Jump)
    case Space => Some(Jump)
    case LCtrl => Some(Jump)
    case Escape => Some(QuitGame)
    case F11 => None
    case OtherKey(_) => None
  }

  /**
   * The event switch: zero or one `InputEvent` per raw event.  Repeated key
   * presses are dropped, releases mirror presses with `pressed = false`,
   * window events never become input events, and an OS quit request is a
   * `QuitGame` press.  Every event is tagged with `charIndex`.
   */
  function Translate(e: RawEvent, charIndex: int): (r: Option<InputEvent>)
    ensures r.Some? ==> r.value.charIndex == charIndex
    ensures r.Some? <==>
      || (e.KeyDown? && e.repeat == 0 && KeyAction(e.key).Some?)
      || (e.KeyUp? && KeyAction(e.key).Some?)
      || e.QuitEvent?
    ensures r.Some? && (e.KeyDown? || e.KeyUp?) ==>
      r.value.kind == KeyAction(e.key).value && r.value.pressed == e.KeyDown?
    ensures e.QuitEvent? ==> r == Some(InputEvent(QuitGame, true, charIndex))
  {
    match e
    case KeyDown(k, repeat) =>
      if repeat == 0 then
        (match k
         case Left => Some(InputEvent(GoLeft, true, charIndex))
         case Right => Some(InputEvent(GoRight, true, charIndex))
         case Up | Space | LCtrl => Some(InputEvent(Jump, true, charIndex))
         case Escape => Some(InputEvent(QuitGame, true, charIndex))
         case _ => None)
      else
        None
    case KeyUp(k) =>
      (match k
       case Left => Some(InputEvent(GoLeft, false, charIndex))
       case Right => Some(InputEvent(GoRight, false, charIndex))
       case Up | Space | LCtrl => Some(InputEvent(Jump, false, charIndex))
       // F11 toggles fullscreen in the host loop instead
       case Escape => Some(InputEvent(QuitGame, false, charIndex))
       case _ => None)
    case WindowEvent(_, _, _) => None
    case QuitEvent => Some(InputEvent(QuitGame, true, charIndex))
    case OtherEvent => None
  }

  function AsSeq<T>(o: Option<T>): seq<T>
  {
    if o.Some? then [o.value] else []
  }

  /** The input events one pump of `events` hands to the game, in order. */
  function TranslateAll(events: seq<RawEvent>, charIndex: int): (r: seq<InputEvent>)
    ensures |r| <= |events|
    ensures forall i :: 0 <= i < |r| ==> r[i].charIndex == charIndex
    decreases |events|
  {
    if events == [] then []
    else TranslateAll(events[..|events| - 1], charIndex) + AsSeq(Translate(events[|events| - 1], charIndex))
  }

  /**
   * Translation is per event: splitting a stream of raw events into
   * batches, as successive pumps do, does not change what the game receives.
   */
  lemma {:induction false} TranslateAllAppend(a: seq<RawEvent>, b: seq<RawEvent>, charIndex: int)
    ensures TranslateAll(a + b, charIndex) == TranslateAll(a, charIndex) + TranslateAll(b, charIndex)
    decreases |b|
  {
    if b == [] {
      assert a + b == a;
    } else {
      var last := b[|b| - 1];
      TranslateAllAppend(a, b[..|b| - 1], charIndex);
      assert (a + b)[..|a + b| - 1] == a + b[..|b| - 1];
      assert (a + b)[|a + b| - 1] == last;
    }
  }

  /** The three jump keys cannot be told apart, on press or on release. */
  lemma JumpKeysAlias(a: Key, b: Key, charIndex: int)
    requires a in {Up, Space, LCtrl} && b in {Up, Space, LCtrl}
    ensures Translate(KeyDown(a, 0), charIndex) == Translate(KeyDown(b, 0), charIndex)
      == Some(InputEvent(Jump, true, charIndex))
    ensures Translate(KeyUp(a), charIndex) == Translate(KeyUp(b), charIndex)
      == Some(InputEvent(Jump, false, charIndex))
  {
  }

  /** F11 is no game action: neither its press nor its release reaches the game. */
  lemma F11IsNoGameEvent(repeat: int, charIndex: int)
    ensures Translate(KeyDown(F11, repeat), charIndex) == None
    ensures Translate(KeyUp(F11), charIndex) == None
  {
  }

  /**
   * Key-repeat suppression: a key held down, delivered as one fresh press
   * followed by any number of repeated presses, yields exactly one press event.
   */
  lemma {:induction false} HeldKeyPressesOnce(k: Key, repeats: seq<int>, charIndex: int)
    requires KeyAction(k).Some?
    requires forall i :: 0 <= i < |repeats| ==> repeats[i] != 0
    ensures TranslateAll([KeyDown(k, 0)] + seq(|repeats|, i requires 0 <= i < |repeats| => KeyDown(k, repeats[i])), charIndex)
      == [InputEvent(KeyAction(k).value, true, charIndex)]
    decreases |repeats|
  {
    var held := seq(|repeats|, i requires 0 <= i < |repeats| => KeyDown(k, repeats[i]));
    var events := [KeyDown(k, 0)] + held;
    if repeats == [] {
      assert events == [KeyDown(k, 0)];
      assert TranslateAll(events, charIndex) == TranslateAll([], charIndex) + AsSeq(Translate(KeyDown(k, 0), charIndex));
    } else {
      var shorter := repeats[..|repeats| - 1];
      HeldKeyPressesOnce(k, shorter, charIndex);
      var heldShorter := seq(|shorter|, i requires 0 <= i < |shorter| => KeyDown(k, shorter[i]));
      assert events[..|events| - 1] == [KeyDown(k, 0)] + heldShorter;
      assert events[|events| - 1] == KeyDown(k, repeats[|repeats| - 1]);
    }
  }

  /**
   * The aliasing quirk: no per-key state is kept, so releasing Space while Up
   * is still held already releases Jump.
   */
  lemma JumpReleasedWhileAliasHeld(charIndex: int)
    ensures TranslateAll([KeyDown(Up, 0), KeyDown(Space, 0), KeyUp(Space)], charIndex)
      == [InputEvent(Jump, true, charIndex), InputEvent(Jump, true, charIndex), InputEvent(Jump, false, charIndex)]
  {
  }
}
