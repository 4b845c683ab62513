/** The keyboard-to-intent mapping: the global `input` dictionary, `keytoggle`,
    `updateInput` and the `forPlayer` lookup a paddle uses to find its keys. */
module Input {
  import opened Config

  datatype Option<T> = None | Some(value: T)

  /** The four keys `keytoggle` knows (K_UP, K_DOWN, K_w, K_s); any other key code is OtherKey. */
  datatype Key = ArrowUp | ArrowDown | LetterW | LetterS | OtherKey(code: int)

  /** An event as `updateInput` sees it: QUIT, KEYDOWN and KEYUP, or any other event type. */
  datatype Event = Quit | KeyDown(key: Key) | KeyUp(key: Key) | OtherEvent(eventType: int)

  /** One player's entry of `input`: `dict(up = ..., down = ...)`. */
  datatype Intent = Intent(up: bool, down: bool)

  /** The outer key of `input` ('player1' or 'player2') and the inner one ('up' or 'down'). */
  datatype Owner = ForPlayer1 | ForPlayer2
  datatype Button = Up | Down
  datatype Slot = Slot(owner: Owner, button: Button)

  /** The value of the whole `input` dictionary. */
  datatype InputView = InputView(player1: Intent, player2: Intent, quit: bool)

  /** `input` as the program starts: nothing pressed, no quit request. */
  const Initial: InputView := InputView(Intent(false, false), Intent(false, false), false)

  /** The `lookup` table of `keytoggle`, after splitting 'playerN.field' at the dot. */
  function Lookup(key: Key): (r: Option<Slot>)
    ensures r.None? <==> key.OtherKey?
    ensures r.Some? ==> (r.value.owner == ForPlayer1 <==> key == ArrowUp || key == ArrowDown)
    ensures r.Some? ==> (r.value.button == Up <==> key == ArrowUp || key == LetterW)
  {
    match key
    case ArrowUp => Some(Slot(ForPlayer1, Up))
    case ArrowDown => Some(Slot(ForPlayer1, Down))
    case LetterW => Some(Slot(ForPlayer2, Up))
    case LetterS => Some(Slot(ForPlayer2, Down))
    case OtherKey(_) => None
  }

  function Pressed(intent: Intent, button: Button): bool
  {
    match button
    case Up => intent.up
    case Down => intent.down
  }

  function WithButton(intent: Intent, button: Button, isPressed: bool): (r: Intent)
    ensures Pressed(r, button) == isPressed
    ensures forall b :: b != button ==> Pressed(r, b) == Pressed(intent, b)
  {
    match button
    case Up => intent.(up := isPressed)
    case Down => intent.(down := isPressed)
  }

  function Entry(v: InputView, owner: Owner): Intent
  {
    match owner
    case ForPlayer1 => v.player1
    case ForPlayer2 => v.player2
  }

  /** `input[key1][key2]` */
  function Get(v: InputView, s: Slot): bool
  {
    Pressed(Entry(v, s.owner), s.button)
  }

  /** `input[key1][key2] = isPressed`: that one entry changes, nothing else does. */
  function Set(v: InputView, s: Slot, isPressed: bool): (r: InputView)
    ensures Get(r, s) == isPressed
    ensures forall t :: t != s ==> Get(r, t) == Get(v, t)
    ensures r.quit == v.quit
  {
    match s.owner
    case ForPlayer1 => v.(player1 := WithButton(v.player1, s.button, isPressed))
    case ForPlayer2 => v.(player2 := WithButton(v.player2, s.button, isPressed))
  }

  /** The four mapped keys reach four different entries. */
  lemma LookupInjective(k1: Key, k2: Key)
    requires Lookup(k1).Some? && Lookup(k1) == Lookup(k2)
    ensures k1 == k2
  {
  }

  /** `keytoggle(key, isPressed)` on the value of `input`: a mapped key sets exactly
      its own entry to `isPressed`; an unmapped key leaves everything as it was. */
  function Toggle(v: InputView, key: Key, isPressed: bool): (r: InputView)
    ensures key.OtherKey? ==> r == v
    ensures !key.OtherKey? ==> Lookup(key).Some? && Get(r, Lookup(key).value) == isPressed
    ensures forall t :: Lookup(key) != Some(t) ==> Get(r, t) == Get(v, t)
    ensures r.quit == v.quit
  {
    match Lookup(key)
    case None => v
    case Some(s) => Set(v, s, isPressed)
  }

  /** `input['forPlayer'](paddle)`: the entry of player 1 exactly when the paddle
      belongs to Player1, otherwise the entry of player 2. */
  function ForPlayer(v: InputView, player: int): (r: Intent)
    ensures player == Player1 ==> r == Entry(v, ForPlayer1)
    ensures player != Player1 ==> r == Entry(v, ForPlayer2)
  {
    if player == Player1 then v.player1 else v.player2
  }

  /** One iteration of the loop in `updateInput`: QUIT raises `quit`; every entry
      takes what the event writes into it, or keeps its value. */
  function ApplyEvent(v: InputView, e: Event): (r: InputView)
    ensures r.quit == (v.quit || e.Quit?)
    ensures forall s :: Get(r, s) == match Writes(e, s) case Some(b) => b case None => Get(v, s)
  {
    match e
    case Quit => v.(quit := true)
    case KeyDown(k) => Toggle(v, k, true)
    case KeyUp(k) => Toggle(v, k, false)
    case OtherEvent(_) => v
  }

  /** `updateInput(events, time)` on the value of `input`: the events applied in order.
      A raised quit flag stays raised, and events of other types change nothing. */
  function ApplyEvents(v: InputView, events: seq<Event>): (r: InputView)
    ensures v.quit ==> r.quit
    ensures (forall i :: 0 <= i < |events| ==> events[i].OtherEvent?) ==> r == v
    decreases |events|
  {
    if events == [] then v
    else ApplyEvent(ApplyEvents(v, events[..|events| - 1]), events[|events| - 1])
  }

  /** What one event writes into entry `s`, if anything. */
  function Writes(e: Event, s: Slot): Option<bool>
  {
    match e
    case KeyDown(k) => if Lookup(k) == Some(s) then Some(true) else None
    case KeyUp(k) => if Lookup(k) == Some(s) then Some(false) else None
    case _ => None
  }

  /** The value written into entry `s` by the LAST event that writes it. */
  function LastWrite(events: seq<Event>, s: Slot): Option<bool>
    decreases |events|
  {
    if events == [] then None
    else match Writes(events[|events| - 1], s)
      case Some(b) => Some(b)
      case None => LastWrite(events[..|events| - 1], s)
  }

  /** Later events override earlier ones: after `updateInput`, every entry holds what
      the last event for its key wrote, or its old value when no event touched it. */
  lemma {:induction false} ApplyEventsLastWriteWins(v: InputView, events: seq<Event>, s: Slot)
    ensures Get(ApplyEvents(v, events), s) ==
            match LastWrite(events, s)
            case Some(b) => b
            case None => Get(v, s)
    decreases |events|
  {
    if events != [] {
      var n := |events| - 1;
      ApplyEventsLastWriteWins(v, events[..n], s);
    }
  }

  /** The quit flag is set by the events exactly when one of them is QUIT, and it is never cleared. */
  lemma {:induction false} ApplyEventsQuit(v: InputView, events: seq<Event>)
    ensures ApplyEvents(v, events).quit <==> v.quit || Quit in events
    decreases |events|
  {
    if events != [] {
      var n := |events| - 1;
      ApplyEventsQuit(v, events[..n]);
      assert events == events[..n] + [events[n]];
    }
  }

  /** Handling a batch of events in two parts is the same as handling it at once. */
  lemma {:induction false} ApplyEventsAppend(v: InputView, first: seq<Event>, second: seq<Event>)
    ensures ApplyEvents(v, first + second) == ApplyEvents(ApplyEvents(v, first), second)
    decreases |second|
  {
    if second == [] {
      assert first + second == first;
    } else {
      var n := |second| - 1;
      ApplyEventsAppend(v, first, second[..n]);
      assert (first + second)[..|first + second| - 1] == first + second[..n];
    }
  }

  /** The global `input` dictionary, which `keytoggle` and `updateInput` change in place. */
  class InputState {
    var player1: Intent
    var player2: Intent
    var quit: bool

    function View(): InputView
      reads this
    {
      InputView(player1, player2, quit)
    }

    constructor ()
      ensures View() == Initial
    {
      player1 := Intent(false, false);
      player2 := Intent(false, false);
      quit := false;
    }

    /** `keytoggle(key, isPressed)` */
    method KeyToggle(key: Key, isPressed: bool)
      modifies this
      ensures View() == Toggle(old(View()), key, isPressed)
    {
      match Lookup(key)
      case None =>
      case Some(s) =>
        match s.owner
        case ForPlayer1 => player1 := WithButton(player1, s.button, isPressed);
        case ForPlayer2 => player2 := WithButton(player2, s.button, isPressed);
    }

    /** `updateInput(events, time)` */
    method UpdateInput(events: seq<Event>)
      modifies this
      ensures View() == ApplyEvents(old(View()), events)
    {
      var i := 0;
      while i < |events|
        invariant 0 <= i <= |events|
        invariant View() == ApplyEvents(old(View()), events[..i])
      {
        var e := events[i];
        match e {
          case Quit => quit := true;
          case KeyDown(k) => KeyToggle(k, true);
          case KeyUp(k) => KeyToggle(k, false);
          case OtherEvent(_) =>
        }
        assert events[..i + 1][..i] == events[..i];
        i := i + 1;
      }
      assert events[..i] == events;
    }
  }
}
