/** A session of the look-ahead camera: frames interleaved with plugin commands, all delivered
    on the game's single update thread, and what holds across any number of them. */
module CameraRun {
  import opened Directions
  import opened MapScroll
  import opened CameraLookAhead

  /** One thing that reaches the controller: a frame update or a plugin command. */
  datatype Input = Tick(frame: Frame) | Plugin(command: string, argument: real)

  /** The effect of a single input. */
  function Apply(s: State, i: Input): Outcome
  {
    match i
    case Tick(f) => Step(s, f)
    case Plugin(c, a) => Outcome(ApplyCommand(s, c, a), [])
  }

  /** Feeds the inputs in order; the scroll requests are collected in the order issued. */
  function Run(s: State, inputs: seq<Input>): (r: Outcome)
    ensures |inputs| == 0 ==> r == Outcome(s, [])
    ensures |inputs| == 1 ==> r == Apply(s, inputs[0])
    decreases |inputs|
  {
    if |inputs| == 0 then Outcome(s, [])
    else
      var first := Apply(s, inputs[0]);
      var rest := Run(first.state, inputs[1..]);
      Outcome(rest.state, first.scrolls + rest.scrolls)
  }

  /** Number of frame updates among the inputs. */
  function Ticks(inputs: seq<Input>): nat
  {
    if |inputs| == 0 then 0 else (if inputs[0].Tick? then 1 else 0) + Ticks(inputs[1..])
  }

  /** The debounce is only ever armed while the camera is centred, whatever arrives. */
  lemma {:induction false} RunKeepsValid(s: State, inputs: seq<Input>)
    requires Valid(s)
    ensures Valid(Run(s, inputs).state)
    decreases |inputs|
  {
    if |inputs| > 0 {
      RunKeepsValid(Apply(s, inputs[0]).state, inputs[1..]);
    }
  }

  /** Every frame issues at most one scroll request; commands issue none. */
  lemma {:induction false} RunScrollsAtMostTicks(s: State, inputs: seq<Input>)
    ensures |Run(s, inputs).scrolls| <= Ticks(inputs)
    decreases |inputs|
  {
    if |inputs| > 0 {
      RunScrollsAtMostTicks(Apply(s, inputs[0]).state, inputs[1..]);
    }
  }

  /** Only frames: a sequence of frame updates. */
  predicate OnlyTicks(inputs: seq<Input>)
  {
    forall k :: 0 <= k < |inputs| ==> inputs[k].Tick?
  }

  /** Frames alone never turn the controller on: a disabled controller with no restore pending
      requests no scroll and keeps its state over any number of frames. */
  lemma {:induction false} DisabledRunIsQuiet(s: State, inputs: seq<Input>)
    requires !s.enabled && !s.restoringInProgress && OnlyTicks(inputs)
    ensures Run(s, inputs) == Outcome(s, [])
    decreases |inputs|
  {
    if |inputs| > 0 {
      DisabledIsQuiet(s, inputs[0].frame);
      assert OnlyTicks(inputs[1..]) by {
        forall k | 0 <= k < |inputs[1..]| ensures inputs[1..][k].Tick? {
          assert inputs[1..][k] == inputs[k + 1];
        }
      }
      DisabledRunIsQuiet(s, inputs[1..]);
    }
  }

  /** Running one list of inputs after another is running their concatenation. */
  lemma {:induction false} RunConcat(s: State, a: seq<Input>, b: seq<Input>)
    ensures var first := Run(s, a);
            var second := Run(first.state, b);
            Run(s, a + b) == Outcome(second.state, first.scrolls + second.scrolls)
    decreases |a|
  {
    if |a| == 0 {
      assert a + b == b;
    } else {
      var head := Apply(s, a[0]);
      assert (a + b)[0] == a[0];
      assert (a + b)[1..] == a[1..] + b;
      RunConcat(head.state, a[1..], b);
      var first := Run(head.state, a[1..]);
      var second := Run(first.state, b);
      assert head.scrolls + (first.scrolls + second.scrolls) == (head.scrolls + first.scrolls) + second.scrolls;
    }
  }

  /** RestoreCamera issued while the camera is centred never completes: `restoreCamera` keeps
      failing on a centred camera, so the flag stays set and every later frame, whatever the
      commands in between (EnableLookAhead included), does nothing but that failing attempt. */
  lemma {:induction false} StuckRestore(s: State, inputs: seq<Input>)
    requires s.restoringInProgress && s.cameraOffset == None
    ensures var r := Run(s, inputs);
            && r.state.restoringInProgress
            && r.state.cameraOffset == None
            && r.scrolls == []
    decreases |inputs|
  {
    if |inputs| > 0 {
      var first := Apply(s, inputs[0]);
      StuckRestore(first.state, inputs[1..]);
    }
  }

  /** Along a run, no restore recentres the camera without scrolling back. */
  predicate NoSkippedRestore(s: State, inputs: seq<Input>)
    decreases |inputs|
  {
    |inputs| == 0 ||
    (!(inputs[0].Tick? && SkipsReverseScroll(s, inputs[0].frame))
     && NoSkippedRestore(Apply(s, inputs[0]).state, inputs[1..]))
  }

  lemma {:induction false} NetXAppend(a: seq<ScrollRequest>, b: seq<ScrollRequest>)
    ensures NetX(a + b) == NetX(a) + NetX(b)
    decreases |a|
  {
    if |a| == 0 {
      assert a + b == b;
    } else {
      assert (a + b)[0] == a[0];
      assert (a + b)[1..] == a[1..] + b;
      NetXAppend(a[1..], b);
    }
  }

  lemma {:induction false} NetYAppend(a: seq<ScrollRequest>, b: seq<ScrollRequest>)
    ensures NetY(a + b) == NetY(a) + NetY(b)
    decreases |a|
  {
    if |a| == 0 {
      assert a + b == b;
    } else {
      assert (a + b)[0] == a[0];
      assert (a + b)[1..] == a[1..] + b;
      NetYAppend(a[1..], b);
    }
  }

  /** As long as every restore scrolls back, the plugin's scroll requests over a whole run add up
      to the change of the recorded offset; scrolls started by the engine or by other events are
      not counted. */
  lemma {:induction false} RunTracksDisplacement(s: State, inputs: seq<Input>)
    requires Valid(s) && NoSkippedRestore(s, inputs)
    ensures var r := Run(s, inputs);
            && NetX(r.scrolls) == DeltaX(r.state.cameraOffset) - DeltaX(s.cameraOffset)
            && NetY(r.scrolls) == DeltaY(r.state.cameraOffset) - DeltaY(s.cameraOffset)
    decreases |inputs|
  {
    if |inputs| > 0 {
      var first := Apply(s, inputs[0]);
      if inputs[0].Tick? {
        StepTracksDisplacement(s, inputs[0].frame);
      }
      assert Valid(first.state);
      RunTracksDisplacement(first.state, inputs[1..]);
      var rest := Run(first.state, inputs[1..]);
      NetXAppend(first.scrolls, rest.scrolls);
      NetYAppend(first.scrolls, rest.scrolls);
    }
  }

  /** A three-frame walk-through: facing right, idle, room both ways, speed 4.
      Frame 1 arms the debounce, frame 2 scrolls right and records the offset, frame 3 (now
      walking up) scrolls back left at once and recentres. */
  lemma LookAheadScenario(g: Geometry)
    requires CanScroll(g, Right) && CanScroll(g, Left)
    ensures var s0 := State(true, 4.0, None, false, false);
            var idle := Frame(Right, false, 4.0, false, g);
            var walkUp := Frame(Up, true, 4.0, false, g);
            var r1 := Step(s0, idle);
            var r2 := Step(r1.state, idle);
            var r3 := Step(r2.state, walkUp);
            && r1 == Outcome(s0.(offsetNextFrame := true), [])
            && r2 == Outcome(s0.(cameraOffset := Right), [ScrollRequest(Right, 1, 4.0)])
            && r3 == Outcome(s0, [ScrollRequest(Left, 1, 4.0)])
  {
  }
}
