/** The edge-triggered pause toggle (src/input/pause.ts). The handler remembers whether
    P was already down, so holding the key toggles once. */
module Pause {
  import opened Types

  /** PLAYING and PAUSED swap; every other status stays. */
  function PauseToggle(s: Status): (r: Status)
    ensures s == PLAYING ==> r == PAUSED
    ensures s == PAUSED ==> r == PLAYING
    ensures s != PLAYING && s != PAUSED ==> r == s
  {
    if s == PLAYING then PAUSED else if s == PAUSED then PLAYING else s
  }

  /** Toggling twice gives back the status. */
  lemma PauseToggleInvolution(s: Status)
    ensures PauseToggle(PauseToggle(s)) == s
  {
  }

  predicate IsPauseKey(key: string) {
    key == "p" || key == "P"
  }

  /** The "P was down" flag together with the status it governs. */
  datatype Trigger = Trigger(pressed: bool, status: Status)

  /** A key press: only a fresh P toggles, and any P leaves the flag set. */
  function KeyDown(t: Trigger, key: string): (r: Trigger)
    ensures !IsPauseKey(key) ==> r == t
    ensures IsPauseKey(key) ==> r.pressed
    ensures IsPauseKey(key) && !t.pressed ==> r.status == PauseToggle(t.status)
    ensures t.pressed ==> r.status == t.status
  {
    if !IsPauseKey(key) then t
    else Trigger(true, if !t.pressed then PauseToggle(t.status) else t.status)
  }

  /** A key release: releasing P clears the flag and nothing else. */
  function KeyUp(t: Trigger, key: string): (r: Trigger)
    ensures !IsPauseKey(key) ==> r == t
    ensures IsPauseKey(key) ==> r == t.(pressed := false)
  {
    if IsPauseKey(key) then t.(pressed := false) else t
  }

  /** Auto-repeat: any number of further P presses while P is held change nothing. */
  lemma {:induction false} HoldingDoesNotRepeat(t: Trigger, keys: seq<string>)
    requires forall i :: 0 <= i < |keys| ==> IsPauseKey(keys[i])
    requires |keys| > 0
    ensures Presses(t, keys).status == KeyDown(t, keys[0]).status
    ensures Presses(t, keys).pressed
    decreases |keys|
  {
    if |keys| > 1 {
      HoldingDoesNotRepeat(t, keys[..|keys| - 1]);
    }
  }

  /** A run of key presses. */
  function Presses(t: Trigger, keys: seq<string>): Trigger
    decreases |keys|
  {
    if keys == [] then t else KeyDown(Presses(t, keys[..|keys| - 1]), keys[|keys| - 1])
  }

  /** Press, release, press: back where the game was. */
  lemma PressReleasePress(s: Status, key: string)
    requires IsPauseKey(key)
    ensures KeyDown(KeyUp(KeyDown(Trigger(false, s), key), key), key) == Trigger(true, s)
  {
    PauseToggleInvolution(s);
  }

  /** The handler keeps its flag; the key map and the game state are passed in and the
      updated ones handed back, as the setters of the host do. */
  class PauseHandler {
    var prevPKey: bool

    constructor ()
      ensures !prevPKey
    {
      prevPKey := false;
    }

    method HandleKeyDown(key: string, keys: Keys, state: GameState) returns (keys': Keys, state': GameState)
      modifies this
      ensures keys' == keys[key := true]
      ensures Trigger(prevPKey, state'.status) == KeyDown(Trigger(old(prevPKey), state.status), key)
      ensures state' == state.(status := state'.status)
    {
      keys' := keys[key := true];
      state' := state;
      if key == "p" || key == "P" {
        var currentPKey := Held(keys', "p") || Held(keys', "P");
        if currentPKey && !prevPKey {
          var newStatus := if state.status == PLAYING then PAUSED
                           else if state.status == PAUSED then PLAYING
                           else state.status;
          state' := state.(status := newStatus);
        }
        prevPKey := true;
      }
    }

    method HandleKeyUp(key: string, keys: Keys) returns (keys': Keys)
      modifies this
      ensures keys' == keys[key := false]
      ensures prevPKey == (old(prevPKey) && !IsPauseKey(key))
    {
      keys' := keys[key := false];
      if key == "p" || key == "P" {
        prevPKey := false;
      }
    }
  }
}
