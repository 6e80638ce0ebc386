/**
 * The voice-call overlay of the dashboard
 * (dashboard/src/components/CallOverlay.jsx).
 *
 * `FormatTime` is the mm:ss text of the call timer. The class models the
 * component's state as the connect effect and its cleanup change it: the
 * call status, the elapsed seconds, the effect's `cancelled` flag, whether
 * a room is held and whether the one-second timer runs. The asynchronous
 * connect routine is cut at its two awaits whose outcome matters (getting
 * a token, joining the room); those outcomes, the timer's ticks, the hang-up
 * button and the unmount arrive as events in whatever order the browser
 * delivers them.
 */
module CallOverlay {
  import opened Base

  // ---------------------------------------------------------------------
  // Timer text
  // ---------------------------------------------------------------------

  /** `formatTime(s)`: minutes (at least two digits) and seconds (exactly two), colon-separated. */
  function FormatTime(s: nat): (r: string)
    ensures |r| >= 5 && r[|r| - 3] == ':'
    ensures r[..|r| - 3] == PadStart(NatToString(s / 60), 2, '0')
    ensures r[|r| - 2..] == PadStart(NatToString(s % 60), 2, '0')
  {
    SecondsWidth(s % 60);
    var minutes := PadStart(NatToString(s / 60), 2, '0');
    var seconds := PadStart(NatToString(s % 60), 2, '0');
    var r := minutes + ":" + seconds;
    assert r[..|r| - 3] == minutes;
    assert r[|r| - 2..] == seconds;
    r
  }

  /** A number below 100 has at most two decimal digits. */
  lemma {:induction false} SecondsWidth(n: nat)
    requires n < 100
    ensures |NatToString(n)| <= 2
  {
    if n >= 10 {
      assert NatToString(n) == NatToString(n / 10) + [DigitChar(n % 10)];
    }
  }

  /** Zero-padding decimal text keeps it decimal and keeps its value. */
  lemma {:induction false} ParsePadded(x: string, width: nat)
    requires AllDigits(x)
    ensures AllDigits(PadStart(x, width, '0'))
    ensures ParseNat(PadStart(x, width, '0')) == ParseNat(x)
  {
    if |x| < width {
      ParseNatLeadingZeros(width - |x|, x);
    }
  }

  /** Reading both parts of the timer text back gives the seconds: minutes * 60 + seconds == s. */
  lemma {:induction false} FormatTimeRoundTrip(s: nat)
    ensures var r := FormatTime(s);
      && AllDigits(r[..|r| - 3]) && AllDigits(r[|r| - 2..])
      && ParseNat(r[..|r| - 3]) * 60 + ParseNat(r[|r| - 2..]) == s
      && ParseNat(r[|r| - 2..]) < 60
  {
    ParsePadded(NatToString(s / 60), 2);
    ParsePadded(NatToString(s % 60), 2);
    ParseNatToString(s / 60);
    ParseNatToString(s % 60);
  }

  // ---------------------------------------------------------------------
  // Connection state
  // ---------------------------------------------------------------------

  datatype Status = Connecting | Connected | Error

  /** Where the connect routine is: awaiting the token, awaiting the room, or finished. */
  datatype Phase = FetchingToken | JoiningRoom | Done

  /** What can happen to the overlay. */
  datatype Event =
    | TokenFetched(ok: bool)   // import, fetch and JSON of the token request resolved (ok) or threw
    | RoomJoined(ok: bool)     // room.connect and the microphone resolved (ok) or threw
    | Tick                     // the one-second interval fired
    | HangUp                   // the hang-up button: cleanup, then onClose
    | Unmount                  // the effect's cleanup: cancelled = true, then cleanup

  datatype State = State(
    status: Status,
    elapsed: nat,
    cancelled: bool,
    phase: Phase,
    roomHeld: bool,
    timerRunning: bool)

  const INITIAL := State(Connecting, 0, false, FetchingToken, false, false)

  /** `cleanup()`: stop the timer and disconnect the room. */
  function CleanedUp(s: State): State {
    s.(timerRunning := false, roomHeld := false)
  }

  /** The effect of one event on the overlay's state. */
  function Step(s: State, e: Event): State {
    match e
    case TokenFetched(ok) =>
      if s.phase != FetchingToken then s
      else if !ok then s.(phase := Done, status := if s.cancelled then s.status else Error)
      else if s.cancelled then s.(phase := Done)
      else s.(phase := JoiningRoom, roomHeld := true)
    case RoomJoined(ok) =>
      if s.phase != JoiningRoom then s
      else if s.cancelled then s.(phase := Done)
      else if ok then s.(phase := Done, status := Connected, timerRunning := true)
      else s.(phase := Done, status := Error)
    case Tick => if s.timerRunning then s.(elapsed := s.elapsed + 1) else s
    case HangUp => CleanedUp(s)
    case Unmount => CleanedUp(s.(cancelled := true))
  }

  function Run(s: State, events: seq<Event>): State
    decreases |events|
  {
    if events == [] then s else Run(Step(s, events[0]), events[1..])
  }

  /**
   * Only a connected, uncancelled call runs the timer and counts time; a
   * decided status means the connect routine is finished; after unmounting
   * no timer and no room are left behind.
   */
  predicate Consistent(s: State) {
    && (s.timerRunning ==> s.status == Connected && !s.cancelled)
    && (s.elapsed > 0 ==> s.status == Connected)
    && (s.status != Connecting ==> s.phase == Done)
    && (s.cancelled ==> !s.timerRunning && !s.roomHeld)
  }

  lemma InitialConsistent()
    ensures Consistent(INITIAL)
  {
  }

  lemma {:induction false} StepConsistent(s: State, e: Event)
    requires Consistent(s)
    ensures Consistent(Step(s, e))
  {
  }

  lemma {:induction false} RunConsistent(s: State, events: seq<Event>)
    requires Consistent(s)
    ensures Consistent(Run(s, events))
    decreases |events|
  {
    if events != [] {
      StepConsistent(s, events[0]);
      RunConsistent(Step(s, events[0]), events[1..]);
    }
  }

  /** One event changes the status at most once, from connecting to connected or error, and never after cancellation. */
  lemma {:induction false} StepStatus(s: State, e: Event)
    requires Consistent(s)
    ensures var t := Step(s, e);
      && (t.status == s.status || (s.status == Connecting && (t.status == Connected || t.status == Error)))
      && (s.cancelled ==> t.status == s.status && t.cancelled)
  {
  }

  /** Once the status has left `connecting`, or once the effect is cancelled, no sequence of events changes it. */
  lemma {:induction false} RunStatusFrozen(s: State, events: seq<Event>)
    requires Consistent(s) && (s.status != Connecting || s.cancelled)
    ensures Run(s, events).status == s.status
    decreases |events|
  {
    if events != [] {
      StepStatus(s, events[0]);
      StepConsistent(s, events[0]);
      RunStatusFrozen(Step(s, events[0]), events[1..]);
    }
  }

  /** The component: its state hooks and the effect's local flag and refs. */
  class CallOverlay {
    var status: Status
    var elapsed: nat
    var cancelled: bool
    var phase: Phase
    var roomHeld: bool
    var timerRunning: bool

    function Snapshot(): State
      reads this
    {
      State(status, elapsed, cancelled, phase, roomHeld, timerRunning)
    }

    /** Mounting: `useState('connecting')`, `useState(0)`, and the effect starts `connect()`. */
    constructor()
      ensures Snapshot() == INITIAL
    {
      status := Connecting;
      elapsed := 0;
      cancelled := false;
      phase := FetchingToken;
      roomHeld := false;
      timerRunning := false;
    }

    method Cleanup()
      modifies this
      ensures Snapshot() == CleanedUp(old(Snapshot()))
    {
      timerRunning := false;
      roomHeld := false;
    }

    /** The token request settled: on failure the catch block sets `error`; on success the room is created unless cancelled. */
    method TokenFetched(ok: bool)
      modifies this
      ensures Snapshot() == Step(old(Snapshot()), Event.TokenFetched(ok))
    {
      if phase != FetchingToken {
        return;
      }
      if !ok {
        phase := Done;
        if !cancelled {
          status := Error;
        }
      } else if cancelled {
        phase := Done;
      } else {
        phase := JoiningRoom;
        roomHeld := true;
      }
    }

    /** Joining the room settled: `connected` and the timer on success, `error` on failure, nothing if cancelled. */
    method RoomJoined(ok: bool)
      modifies this
      ensures Snapshot() == Step(old(Snapshot()), Event.RoomJoined(ok))
    {
      if phase != JoiningRoom {
        return;
      }
      phase := Done;
      if !cancelled {
        if ok {
          status := Connected;
          timerRunning := true;
        } else {
          status := Error;
        }
      }
    }

    /** The interval callback `setElapsed(e => e + 1)`. */
    method Tick()
      modifies this
      ensures Snapshot() == Step(old(Snapshot()), Event.Tick)
    {
      if timerRunning {
        elapsed := elapsed + 1;
      }
    }

    /** `handleHangup`: cleanup; closing is left to the parent. */
    method HangUp()
      modifies this
      ensures Snapshot() == Step(old(Snapshot()), Event.HangUp)
    {
      Cleanup();
    }

    /** The effect's cleanup function. */
    method Unmount()
      modifies this
      ensures Snapshot() == Step(old(Snapshot()), Event.Unmount)
    {
      cancelled := true;
      Cleanup();
    }
  }
}
