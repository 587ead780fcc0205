/** Keyboard input of src/Loader.js: `OnKeyDown_` and `OnKeyUp_` turn key codes
    into four held-key flags. Arrow keys and W/A/S/D are bound; every other code
    is ignored. */
module Controls {
  import opened Common

  datatype KeyState = KeyState(forward: bool, left: bool, backward: bool, right: bool)

  datatype Direction = Forward | Left | Backward | Right

  /** All four keys up. The source declares the flags with a single `= false`
      initialiser, which leaves three of them `undefined`; that value is falsy
      wherever the flags are read, so it is modelled as `false`. */
  const Released: KeyState := KeyState(false, false, false, false)

  function Held(s: KeyState, d: Direction): bool {
    match d
    case Forward => s.forward
    case Left => s.left
    case Backward => s.backward
    case Right => s.right
  }

  /** The key codes bound to each direction: an arrow key and a letter. */
  function Codes(d: Direction): set<int> {
    match d
    case Forward => {38, 87}   // up arrow, W
    case Left => {37, 65}      // left arrow, A
    case Backward => {40, 83}  // down arrow, S
    case Right => {39, 68}     // right arrow, D
  }

  predicate IsBound(code: int) {
    exists d :: code in Codes(d)
  }

  /** OnKeyDown_: the direction bound to `code` becomes held; nothing else changes. */
  function OnKeyDown(s: KeyState, code: int): (r: KeyState)
    ensures forall d :: Held(r, d) <==> code in Codes(d) || Held(s, d)
  {
    if code == 38 || code == 87 then s.(forward := true)
    else if code == 37 || code == 65 then s.(left := true)
    else if code == 40 || code == 83 then s.(backward := true)
    else if code == 39 || code == 68 then s.(right := true)
    else s
  }

  /** OnKeyUp_: the direction bound to `code` is released; nothing else changes. */
  function OnKeyUp(s: KeyState, code: int): (r: KeyState)
    ensures forall d :: Held(r, d) <==> code !in Codes(d) && Held(s, d)
  {
    if code == 38 || code == 87 then s.(forward := false)
    else if code == 37 || code == 65 then s.(left := false)
    else if code == 40 || code == 83 then s.(backward := false)
    else if code == 39 || code == 68 then s.(right := false)
    else s
  }

  /** A state is determined by its four flags. */
  lemma HeldExtensional(s: KeyState, t: KeyState)
    requires forall d :: Held(s, d) == Held(t, d)
    ensures s == t
  {
    assert Held(s, Forward) == Held(t, Forward);
    assert Held(s, Left) == Held(t, Left);
    assert Held(s, Backward) == Held(t, Backward);
    assert Held(s, Right) == Held(t, Right);
  }

  /** No key code is bound to two directions. */
  lemma CodesDisjoint(d1: Direction, d2: Direction)
    requires d1 != d2
    ensures Codes(d1) !! Codes(d2)
  {
  }

  /** Unbound codes leave the state exactly as it was, on press and on release. */
  lemma UnboundKeyIgnored(s: KeyState, code: int)
    requires !IsBound(code)
    ensures OnKeyDown(s, code) == s
    ensures OnKeyUp(s, code) == s
  {
    HeldExtensional(OnKeyDown(s, code), s);
    HeldExtensional(OnKeyUp(s, code), s);
  }

  /** Releasing a key undoes pressing it: the press leaves no trace, and a
      repeated press (keyboard auto-repeat) changes nothing. */
  lemma PressThenRelease(s: KeyState, code: int)
    ensures OnKeyUp(OnKeyDown(s, code), code) == OnKeyUp(s, code)
    ensures OnKeyDown(OnKeyDown(s, code), code) == OnKeyDown(s, code)
    ensures s == Released ==> OnKeyUp(OnKeyDown(s, code), code) == s
  {
    HeldExtensional(OnKeyUp(OnKeyDown(s, code), code), OnKeyUp(s, code));
    HeldExtensional(OnKeyDown(OnKeyDown(s, code), code), OnKeyDown(s, code));
    if s == Released {
      HeldExtensional(OnKeyUp(OnKeyDown(s, code), code), s);
    }
  }

  // ---------------------------------------------------------------------------
  // Event sequences

  datatype KeyEvent = KeyDown(code: int) | KeyUp(code: int)

  function Handle(s: KeyState, e: KeyEvent): KeyState {
    match e
    case KeyDown(c) => OnKeyDown(s, c)
    case KeyUp(c) => OnKeyUp(s, c)
  }

  /** The state after handling `events` in order, starting from `s`. */
  function Replay(s: KeyState, events: seq<KeyEvent>): KeyState
    decreases |events|
  {
    if events == [] then s
    else Handle(Replay(s, events[..|events| - 1]), events[|events| - 1])
  }

  /** The kind of the latest event whose code is bound to `d`: `Some(true)` for
      a press, `Some(false)` for a release, `None` if there is none. */
  function LastEventFor(d: Direction, events: seq<KeyEvent>): Option<bool>
    decreases |events|
  {
    if events == [] then None
    else
      var e := events[|events| - 1];
      if e.code in Codes(d) then Some(e.KeyDown?)
      else LastEventFor(d, events[..|events| - 1])
  }

  /** The latest relevant event decides each flag; a direction no event touched
      keeps its initial value. */
  lemma {:induction false} ReplayLastEventWins(s: KeyState, d: Direction, events: seq<KeyEvent>)
    ensures Held(Replay(s, events), d) ==
              match LastEventFor(d, events)
              case None => Held(s, d)
              case Some(pressed) => pressed
    decreases |events|
  {
    if events != [] {
      ReplayLastEventWins(s, d, events[..|events| - 1]);
    }
  }

  /** Events whose codes are bound to different directions commute. */
  lemma DistinctDirectionsCommute(s: KeyState, e1: KeyEvent, e2: KeyEvent, d1: Direction, d2: Direction)
    requires e1.code in Codes(d1) && e2.code in Codes(d2) && d1 != d2
    ensures Handle(Handle(s, e1), e2) == Handle(Handle(s, e2), e1)
  {
    HeldExtensional(Handle(Handle(s, e1), e2), Handle(Handle(s, e2), e1));
  }
}
