/** The look-ahead camera controller (MAC_Camera_Look_Ahead.js): start-up configuration,
    the four plugin commands, `restoreCamera`, and the logic `Game_Player.prototype.update`
    adds to every frame, as pure functions from a controller state and a frame snapshot to a
    new state plus the scroll requests handed to `$gameMap.startScroll`. */
module CameraLookAhead {
  import opened Directions
  import opened MapScroll
  import Wrappers

  /** Configured speeds above this are clamped to it. */
  const MaxSpeed: real := 8.0

  /** Every camera scroll moves the viewport by one tile. */
  const ScrollDistance: int := 1

  /** Why start-up is aborted: the only configuration error is a negative speed. */
  datatype ConfigError = NegativeSpeed

  /** The plugin's state: the closure variables `enabled`, `speed` and `restoringInProgress`,
      and the fields `cameraOffset` and `offsetNextFrame` it adds to the player. */
  datatype State = State(
    enabled: bool,
    speed: real,
    cameraOffset: Direction,
    offsetNextFrame: bool,
    restoringInProgress: bool)

  /** What one frame reads from the player (after the engine's own update) and from the map. */
  datatype Frame = Frame(
    facing: Direction,
    moving: bool,
    moveSpeed: real,
    scrolling: bool,
    geometry: Geometry)

  /** One call `$gameMap.startScroll(direction, distance, speed)`. */
  datatype ScrollRequest = ScrollRequest(direction: Direction, distance: int, speed: real)

  /** A new state and the scroll requests issued while producing it, in order. */
  datatype Outcome = Outcome(state: State, scrolls: seq<ScrollRequest>)

  /** `restoreCamera`'s success flag, together with the state and requests it leaves. */
  datatype RestoreOutcome = RestoreOutcome(done: bool, state: State, scrolls: seq<ScrollRequest>)

  /** Between frames, a pending offset check is only ever armed while the camera is centred. */
  predicate Valid(s: State)
  {
    s.offsetNextFrame ==> s.cameraOffset == None
  }

  /** Validation of the configured `Speed` parameter: negative aborts start-up, anything above
      8 becomes 8, the rest is kept. */
  function InitSpeed(configured: real): (r: Wrappers.Result<real, ConfigError>)
    ensures r.Failure? <==> configured < 0.0
    ensures r.Success? ==> 0.0 <= r.value <= MaxSpeed
    ensures r.Success? ==> r.value == if configured > MaxSpeed then MaxSpeed else configured
  {
    if configured < 0.0 then Wrappers.Failure(NegativeSpeed)
    else if configured > MaxSpeed then Wrappers.Success(MaxSpeed)
    else Wrappers.Success(configured)
  }

  /** An accepted speed is a fixed point of the validation. */
  lemma InitSpeedIdempotent(configured: real)
    requires InitSpeed(configured).Success?
    ensures InitSpeed(InitSpeed(configured).value) == InitSpeed(configured)
  {
  }

  /** The state the plugin starts a session with. `Enable by default` is on only when the
      parameter is the exact text "true"; the player's offset starts centred. */
  function Init(enableParameter: string, configuredSpeed: real): (r: Wrappers.Result<State, ConfigError>)
    ensures r.Failure? <==> configuredSpeed < 0.0
    ensures r.Success? ==> Valid(r.value)
    ensures r.Success? ==> r.value.enabled == (enableParameter == "true")
    ensures r.Success? ==> 0.0 <= r.value.speed <= MaxSpeed
    ensures r.Success? ==> r.value.speed == InitSpeed(configuredSpeed).value
    ensures r.Success? ==> r.value.cameraOffset == None && !r.value.offsetNextFrame && !r.value.restoringInProgress
  {
    match InitSpeed(configuredSpeed)
    case Failure(e) => Wrappers.Failure(e)
    case Success(v) => Wrappers.Success(State(enableParameter == "true", v, None, false, false))
  }

  /** The pluginCommand switch. `argument` is `Number(args[0])`; only SetLookAheadSpeed reads it,
      and it is stored without clamping. Any other command name leaves the state alone. */
  function ApplyCommand(s: State, command: string, argument: real): (r: State)
    ensures r.cameraOffset == s.cameraOffset && r.offsetNextFrame == s.offsetNextFrame
    ensures r.enabled != s.enabled ==> command == "EnableLookAhead" || command == "DisableLookAhead"
    ensures r.speed != s.speed ==> command == "SetLookAheadSpeed"
    ensures r.restoringInProgress != s.restoringInProgress ==> command == "RestoreCamera"
    ensures command == "EnableLookAhead" ==> r.enabled
    ensures command == "DisableLookAhead" ==> !r.enabled
    ensures command == "RestoreCamera" ==> r.restoringInProgress
    ensures command == "SetLookAheadSpeed" ==> r.speed == argument
  {
    match command
    case "EnableLookAhead" => s.(enabled := true)
    case "DisableLookAhead" => s.(enabled := false)
    case "RestoreCamera" => s.(restoringInProgress := true)
    case "SetLookAheadSpeed" => s.(speed := argument)
    case _ => s
  }

  /** Repeating a command has no further effect. */
  lemma ApplyCommandIdempotent(s: State, command: string, argument: real)
    ensures ApplyCommand(ApplyCommand(s, command, argument), command, argument) == ApplyCommand(s, command, argument)
  {
  }

  /** `speed || this.moveSpeed()`: a zero speed setting follows the player's own speed. */
  function ResolveSpeed(speed: real, moveSpeed: real): (r: real)
    ensures speed != 0.0 ==> r == speed
    ensures speed == 0.0 ==> r == moveSpeed
  {
    if speed != 0.0 then speed else moveSpeed
  }

  /** restoreCamera: if the camera is offset and the map is not mid-scroll, centre it again and
      report success; the reverse scroll is skipped when the player is already walking in the
      offset direction. Otherwise report failure and change nothing. */
  function Restore(s: State, f: Frame): (r: RestoreOutcome)
    ensures r.done <==> s.cameraOffset != None && !f.scrolling
    ensures !r.done ==> r.state == s && r.scrolls == []
    ensures r.done ==> r.state == s.(cameraOffset := None)
    ensures r.done ==> (r.scrolls == [] <==> s.cameraOffset == f.facing && f.moving)
    ensures r.scrolls != [] ==>
              r.scrolls == [Backward(s, f)]
    ensures Valid(s) ==> Valid(r.state)
  {
    if s.cameraOffset != None && !f.scrolling then
      var scrolls :=
        if s.cameraOffset != f.facing || !f.moving
        then [Backward(s, f)]
        else [];
      RestoreOutcome(true, s.(cameraOffset := None), scrolls)
    else
      RestoreOutcome(false, s, [])
  }

  /** The debounced offset check, run only when the map is not mid-scroll: an idle player with
      room on both sides gets the forward scroll and the offset; in every case the pending flag
      is cleared. Returns the state, the requests, and the frame as later reads of
      `isScrolling()` see it. */
  function PendingCheck(s: State, f: Frame): (r: (Outcome, Frame))
    requires s.offsetNextFrame && !f.scrolling
    ensures r.0.state == s.(cameraOffset := r.0.state.cameraOffset, offsetNextFrame := false)
    ensures r.0.scrolls != [] <==>
              !f.moving && CanScroll(f.geometry, f.facing) && CanScroll(f.geometry, Reverse(f.facing))
    ensures r.0.scrolls != [] ==>
              r.0.scrolls == [Forward(s, f)] && r.0.state.cameraOffset == f.facing && r.1.scrolling
    ensures r.0.scrolls == [] ==> r.0.state.cameraOffset == s.cameraOffset && r.1 == f
  {
    if !f.moving && CanScroll(f.geometry, f.facing) && CanScroll(f.geometry, Reverse(f.facing)) then
      (Outcome(s.(cameraOffset := f.facing, offsetNextFrame := false),
               [Forward(s, f)]),
       f.(scrolling := true))
    else
      (Outcome(s.(offsetNextFrame := false), []), f)
  }

  /** The end of every enabled frame: an idle player arms the debounce if the camera is centred
      and otherwise leaves the offset where it is; a moving player gets `restoreCamera`, which
      recentres the camera unless the map is mid-scroll. */
  function IdleOrMoving(s: State, f: Frame): (r: Outcome)
    ensures r.state.enabled == s.enabled && r.state.speed == s.speed
    ensures r.state.restoringInProgress == s.restoringInProgress
    ensures !f.moving ==>
              && r.scrolls == []
              && r.state.cameraOffset == s.cameraOffset
              && (r.state.offsetNextFrame <==> s.offsetNextFrame || s.cameraOffset == None)
    ensures f.moving ==>
              && r.state.offsetNextFrame == s.offsetNextFrame
              && |r.scrolls| <= 1
              && (r.state.cameraOffset == None || (f.scrolling && r.state == s && r.scrolls == []))
    ensures f.moving && s.cameraOffset == None ==> r == Outcome(s, [])
    ensures f.moving && f.scrolling ==> r == Outcome(s, [])
    ensures f.moving && s.cameraOffset != None && !f.scrolling ==>
              && r.state == s.(cameraOffset := None)
              && r.scrolls == if s.cameraOffset == f.facing then [] else [Backward(s, f)]
  {
    if !f.moving && s.cameraOffset == None then
      Outcome(s.(offsetNextFrame := true), [])
    else if f.moving then
      var r := Restore(s, f);
      Outcome(r.state, r.scrolls)
    else
      Outcome(s, [])
  }

  /** One frame of the patched `Game_Player.prototype.update`. */
  function Step(s: State, f: Frame): (r: Outcome)
    ensures |r.scrolls| <= 1
    ensures r.state.enabled == s.enabled && r.state.speed == s.speed
    ensures r.state.restoringInProgress ==> s.restoringInProgress
    ensures Valid(s) ==> Valid(r.state)
  {
    if s.restoringInProgress then
      var r := Restore(s, f);
      Outcome(r.state.(restoringInProgress := !r.done), r.scrolls)
    else if !s.enabled then
      Outcome(s, [])
    else if s.offsetNextFrame && f.scrolling then
      Outcome(s, [])
    else
      var (checked, f') := if s.offsetNextFrame then PendingCheck(s, f) else (Outcome(s, []), f);
      var tail := IdleOrMoving(checked.state, f');
      Outcome(tail.state, checked.scrolls + tail.scrolls)
  }

  /** While a restore is in progress a frame does nothing but the restore attempt; the flag is
      cleared exactly when the attempt succeeds and the debounce flag is left alone. */
  lemma RestorePreempts(s: State, f: Frame)
    requires s.restoringInProgress
    ensures var r := Step(s, f);
            var a := Restore(s, f);
            && r.scrolls == a.scrolls
            && r.state.restoringInProgress == !a.done
            && r.state.offsetNextFrame == s.offsetNextFrame
            && r.state.cameraOffset == a.state.cameraOffset
  {
  }

  /** A disabled controller, with no restore pending, does nothing at all. */
  lemma DisabledIsQuiet(s: State, f: Frame)
    requires !s.restoringInProgress && !s.enabled
    ensures Step(s, f) == Outcome(s, [])
  {
  }

  /** The first idle, centred frame only arms the debounce; no scroll is requested yet. */
  lemma FirstIdleFrameOnlyArms(s: State, f: Frame)
    requires !s.restoringInProgress && s.enabled && !s.offsetNextFrame
    requires !f.moving && s.cameraOffset == None
    ensures Step(s, f) == Outcome(s.(offsetNextFrame := true), [])
  {
  }

  /** While the map is mid-scroll, a frame with a pending check waits: nothing changes, and the
      idle/moving logic is skipped for that frame. */
  lemma PendingWaitsForScroll(s: State, f: Frame)
    requires !s.restoringInProgress && s.enabled && s.offsetNextFrame && f.scrolling
    ensures Step(s, f) == Outcome(s, [])
  {
  }

  /** The forward look-ahead scroll. */
  function Forward(s: State, f: Frame): ScrollRequest
  {
    ScrollRequest(f.facing, ScrollDistance, ResolveSpeed(s.speed, f.moveSpeed))
  }

  /** The scroll back that undoes the recorded offset. */
  function Backward(s: State, f: Frame): ScrollRequest
  {
    ScrollRequest(Reverse(s.cameraOffset), ScrollDistance, ResolveSpeed(s.speed, f.moveSpeed))
  }

  /** Conditions under which a frame offsets the camera towards the player's facing direction. */
  predicate OffsetsAhead(s: State, f: Frame)
  {
    && !s.restoringInProgress && s.enabled
    && s.offsetNextFrame && !f.scrolling && !f.moving
    && CanScroll(f.geometry, f.facing) && CanScroll(f.geometry, Reverse(f.facing))
  }

  /** A frame leaves the camera offset after starting from a valid state exactly when the
      debounced check fires; it then requests exactly the forward scroll and records the facing
      direction as the offset. Every other frame ends with the offset it began with or centred. */
  lemma OffsetExactlyWhenChecked(s: State, f: Frame)
    requires Valid(s)
    ensures var r := Step(s, f);
            OffsetsAhead(s, f) <==> r.state.cameraOffset != None && r.state.cameraOffset != s.cameraOffset
    ensures OffsetsAhead(s, f) ==>
              Step(s, f) == Outcome(s.(cameraOffset := f.facing, offsetNextFrame := false), [Forward(s, f)])
    ensures !OffsetsAhead(s, f) ==>
              Step(s, f).state.cameraOffset in {s.cameraOffset, None}
  {
    var r := Step(s, f);
    if OffsetsAhead(s, f) {
      assert s.cameraOffset == None;
      assert f.facing != None;
    }
  }

  /** Any scroll that is not a restore (the offset did not end centred) was the forward scroll
      of a debounced, idle frame with room on both sides. */
  lemma ScrollWhileOffsetIsForward(s: State, f: Frame)
    requires Valid(s)
    requires Step(s, f).scrolls != [] && Step(s, f).state.cameraOffset != None
    ensures OffsetsAhead(s, f)
    ensures Step(s, f).scrolls == [Forward(s, f)]
  {
    OffsetExactlyWhenChecked(s, f);
  }

  /** Starting to move while offset (and not mid-scroll) recentres the camera in the same frame,
      with a reverse scroll unless the player already walks in the offset direction. */
  lemma MovingCancelsOffset(s: State, f: Frame)
    requires !s.restoringInProgress && s.enabled && Valid(s)
    requires f.moving && s.cameraOffset != None && !f.scrolling
    ensures Step(s, f).state == s.(cameraOffset := None)
    ensures Step(s, f).scrolls ==
              if s.cameraOffset == f.facing then []
              else [Backward(s, f)]
  {
  }

  /** The usual walking frame: with the camera centred and no check pending, nothing changes
      and nothing scrolls (`restoreCamera` fails on a centred camera). */
  lemma WalkingCentredIsQuiet(s: State, f: Frame)
    requires !s.restoringInProgress && s.enabled && !s.offsetNextFrame
    requires f.moving && s.cameraOffset == None
    ensures Step(s, f) == Outcome(s, [])
  {
  }

  /** Walking disarms the debounce: after a frame in which the player moves (map not scrolling),
      no offset check is pending, so the first idle frame afterwards only arms it again. */
  lemma WalkingDisarms(s: State, f: Frame)
    requires Valid(s) && !s.restoringInProgress && s.enabled
    requires f.moving && !f.scrolling
    ensures !Step(s, f).state.offsetNextFrame
  {
  }

  /** No scroll is ever requested while the map is still scrolling, on any branch. */
  lemma NoScrollWhileScrolling(s: State, f: Frame)
    requires f.scrolling
    ensures Step(s, f).scrolls == []
  {
  }

  /** The look-ahead holds: once offset, an idle player's frames change nothing and issue nothing,
      so the camera stays one tile ahead. */
  lemma IdleKeepsOffset(s: State, f: Frame)
    requires !s.restoringInProgress && s.enabled && Valid(s)
    requires !f.moving && s.cameraOffset != None
    ensures Step(s, f) == Outcome(s, [])
  {
  }

  /** A pending check that does not fire still lets the rest of the frame run: the flag is
      cleared and, if the player is idle, armed again at once; nothing scrolls. */
  lemma FailedCheckRearms(s: State, f: Frame)
    requires !s.restoringInProgress && s.enabled && Valid(s)
    requires s.offsetNextFrame && !f.scrolling && !OffsetsAhead(s, f)
    ensures Step(s, f) == Outcome(s.(offsetNextFrame := !f.moving), [])
  {
  }

  /** Moving while offset during a map scroll waits: `restoreCamera` fails, nothing changes. */
  lemma MovingWhileScrollingWaits(s: State, f: Frame)
    requires !s.restoringInProgress && s.enabled
    requires f.moving && f.scrolling && s.cameraOffset != None
    ensures Step(s, f) == Outcome(s, [])
  {
  }

  /** `restoreCamera` as evidently intended by the RestoreCamera command: a camera that is
      already centred has nothing to restore, so the restore is complete at once. */
  function RestoreCorrected(s: State, f: Frame): (r: RestoreOutcome)
    ensures r.done <==> s.cameraOffset == None || !f.scrolling
    ensures s.cameraOffset == None ==> r.state == s && r.scrolls == []
    ensures s.cameraOffset != None ==> r == Restore(s, f)
  {
    if s.cameraOffset == None then RestoreOutcome(true, s, []) else Restore(s, f)
  }

  /** A frame with the corrected restore: a restore requested while the camera is centred ends
      on the next frame, without a scroll; every other frame is exactly `Step`. */
  function StepCorrected(s: State, f: Frame): (r: Outcome)
    ensures s.restoringInProgress ==>
              (!r.state.restoringInProgress <==> s.cameraOffset == None || !f.scrolling)
    ensures s.restoringInProgress && s.cameraOffset == None ==>
              r == Outcome(s.(restoringInProgress := false), [])
    ensures !(s.restoringInProgress && s.cameraOffset == None) ==> r == Step(s, f)
  {
    if s.restoringInProgress then
      var a := RestoreCorrected(s, f);
      Outcome(a.state.(restoringInProgress := !a.done), a.scrolls)
    else
      Step(s, f)
  }

  /** Net tile displacement of a list of scroll requests along x. */
  function NetX(scrolls: seq<ScrollRequest>): int
  {
    if |scrolls| == 0 then 0 else scrolls[0].distance * DeltaX(scrolls[0].direction) + NetX(scrolls[1..])
  }

  /** Net tile displacement of a list of scroll requests along y. */
  function NetY(scrolls: seq<ScrollRequest>): int
  {
    if |scrolls| == 0 then 0 else scrolls[0].distance * DeltaY(scrolls[0].direction) + NetY(scrolls[1..])
  }

  /** The one case in which a restore recentres the offset without scrolling back. */
  predicate SkipsReverseScroll(s: State, f: Frame)
  {
    s.cameraOffset != None && f.moving && f.facing == s.cameraOffset
  }

  /** Unless a restore is skipped, the plugin's scroll requests add up to the change of the
      recorded offset; scrolls started by the engine or by other events are not counted. */
  lemma StepTracksDisplacement(s: State, f: Frame)
    requires Valid(s) && !SkipsReverseScroll(s, f)
    ensures var r := Step(s, f);
            && NetX(r.scrolls) == DeltaX(r.state.cameraOffset) - DeltaX(s.cameraOffset)
            && NetY(r.scrolls) == DeltaY(r.state.cameraOffset) - DeltaY(s.cameraOffset)
  {
    var r := Step(s, f);
    if r.scrolls != [] {
      assert |r.scrolls| == 1;
      assert NetX(r.scrolls) == r.scrolls[0].distance * DeltaX(r.scrolls[0].direction);
      assert NetY(r.scrolls) == r.scrolls[0].distance * DeltaY(r.scrolls[0].direction);
      if r.state.cameraOffset != None && r.state.cameraOffset != s.cameraOffset {
        OffsetExactlyWhenChecked(s, f);
      }
    }
  }
}
