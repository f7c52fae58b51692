/** The edge-triggered return to the title screen (src/input/title.ts). Like the pause
    handler it remembers whether T was already down. */
module Title {
  import opened Types

  /** A game in progress, running or paused, goes back to the title; any other status
      stays. */
  function ToTitle(s: Status): (r: Status)
    ensures s == PLAYING || s == PAUSED ==> r == START
    ensures s != PLAYING && s != PAUSED ==> r == s
  {
    if s == PLAYING || s == PAUSED then START else s
  }

  /** Returning twice is returning once. */
  lemma ToTitleIdempotent(s: Status)
    ensures ToTitle(ToTitle(s)) == ToTitle(s)
  {
  }

  predicate IsTitleKey(key: string) {
    key == "t" || key == "T"
  }

  /** The "T was down" flag together with the status it governs. */
  datatype Trigger = Trigger(pressed: bool, status: Status)

  /** A key press: only a fresh T acts, and any T leaves the flag set. */
  function KeyDown(t: Trigger, key: string): (r: Trigger)
    ensures !IsTitleKey(key) ==> r == t
    ensures IsTitleKey(key) ==> r.pressed
    ensures IsTitleKey(key) && !t.pressed ==> r.status == ToTitle(t.status)
    ensures t.pressed ==> r.status == t.status
  {
    if !IsTitleKey(key) then t
    else Trigger(true, if !t.pressed then ToTitle(t.status) else t.status)
  }

  /** A key release: releasing T clears the flag and nothing else. */
  function KeyUp(t: Trigger, key: string): (r: Trigger)
    ensures !IsTitleKey(key) ==> r == t
    ensures IsTitleKey(key) ==> r == t.(pressed := false)
  {
    if IsTitleKey(key) then t.(pressed := false) else t
  }

  /** A run of key presses. */
  function Presses(t: Trigger, keys: seq<string>): Trigger
    decreases |keys|
  {
    if keys == [] then t else KeyDown(Presses(t, keys[..|keys| - 1]), keys[|keys| - 1])
  }

  /** Auto-repeat: further T presses while T is held change nothing. */
  lemma {:induction false} HoldingDoesNotRepeat(t: Trigger, keys: seq<string>)
    requires forall i :: 0 <= i < |keys| ==> IsTitleKey(keys[i])
    requires |keys| > 0
    ensures Presses(t, keys).status == KeyDown(t, keys[0]).status
    ensures Presses(t, keys).pressed
    decreases |keys|
  {
    if |keys| > 1 {
      HoldingDoesNotRepeat(t, keys[..|keys| - 1]);
    }
  }

  /** The handler keeps its flag; the key map and the game state are passed in and the
      updated ones handed back, as the setters of the host do. */
  class TitleHandler {
    var prevTKey: bool

    constructor ()
      ensures !prevTKey
    {
      prevTKey := false;
    }

    method HandleKeyDown(key: string, keys: Keys, state: GameState) returns (keys': Keys, state': GameState)
      modifies this
      ensures keys' == keys[key := true]
      ensures Trigger(prevTKey, state'.status) == KeyDown(Trigger(old(prevTKey), state.status), key)
      ensures state' == state.(status := state'.status)
    {
      keys' := keys[key := true];
      state' := state;
      if key == "t" || key == "T" {
        var currentTKey := Held(keys', "t") || Held(keys', "T");
        if currentTKey && !prevTKey {
          if state.status == PLAYING || state.status == PAUSED {
            state' := state.(status := START);
          }
        }
        prevTKey := true;
      }
    }

    method HandleKeyUp(key: string, keys: Keys) returns (keys': Keys)
      modifies this
      ensures keys' == keys[key := false]
      ensures prevTKey == (old(prevTKey) && !IsTitleKey(key))
    {
      keys' := keys[key := false];
      if key == "t" || key == "T" {
        prevTKey := false;
      }
    }
  }
}
