/** The Arduino command handler: the firmware side of the serial link. Every
    call takes one text line, updates the handler's step position and its four
    motion flags, prints lines on the serial port and drives the steppers and
    the buzzer. */
module Firmware {
  import opened Text
  import opened Options

  datatype Axis = AxisX | AxisY

  /** One thing the handler does to the outside world, in the order it does it:
      a line printed on the serial port (`Serial.println`; a line assembled from
      several `Serial.print` calls is one `Println`) or a driver call. */
  datatype Effect =
    | Println(text: string)
    | Step(axis: Axis, forward: bool, count: nat, delayUs: nat)
    | Enable(axis: Axis)
    | Disable(axis: Axis)
    | Beep(ms: nat)

  /** What the hardware answers while one line is handled: `limitX(k)` is what
      the k-th call of `limitX.isPressed()` during that line returns (likewise
      for Y), and `clock` is the text the real-time clock prints. */
  datatype Board = Board(limitX: nat -> bool, limitY: nat -> bool, clock: string)

  /** The float part of `handleGcode`: the step count a numeric token stands for
      on each axis (`lround(token.toFloat() * stepsPerMM)`). */
  datatype Scale = Scale(stepsX: string -> int, stepsY: string -> int)

  /** The handler's state as a value, with everything it has done so far. */
  datatype Machine = Machine(posX: int, posY: int,
                             feedHold: bool, paused: bool, homing: bool, resetting: bool,
                             out: seq<Effect>)

  // The messages the handler prints.
  const JogIgnored := "Motion paused/held/homing/reset. Jog ignored."
  const MoveIgnored := "Motion paused/held/homing/reset. Move ignored."
  const Interrupted := "Motion interrupted by feed hold/pause/reset/homing."
  const JogUnknown := "Unknown command. Use X+/X-/Y+/Y-/LIM?/BUZ/CLOCK"
  const LineUnknown := "Unknown command. Use X+/X-/Y+/Y-/LIM?/BUZ/CLOCK/FEEDHOLD/PAUSE/CYCLE/RESET/HOME or G-code"
  const HomingInterrupted := "Homing interrupted."
  const XBlocked := "X limit reached! Move blocked."
  const YBlocked := "Y limit reached! Move blocked."
  const NoMove := "No move"
  const Ok := "ok"
  const GcodeUnknown := "Unknown or unsupported G-code"
  const HoldMessage := "Feed hold activated. Motion paused."
  const PauseMessage := "Pause activated. Motion paused."
  const Resumed := "Cycle start. Motion resumed."
  const NothingToResume := "Not paused or held. Nothing to resume."
  const ResetMessage := "Resetting system. All motion stopped. State reset."
  const AlreadyHoming := "Already homing."
  const HomingStarted := "Homing started..."
  const HomingComplete := "Homing complete."
  const XPlusBlocked := "X+ limit reached! Movement blocked."
  const JogXPlus := "Jog X+"
  const JogXMinus := "Jog X-"
  const YPlusBlocked := "Y+ limit reached! Movement blocked."
  const JogYPlus := "Jog Y+"
  const JogYMinus := "Jog Y-"
  const BuzzerTest := "Buzzer test"

  function Emit(m: Machine, effects: seq<Effect>): Machine
  {
    m.(out := m.out + effects)
  }

  /** Any of the four flags that make the handler refuse motion. */
  predicate Gated(m: Machine)
  {
    m.feedHold || m.paused || m.resetting || m.homing
  }

  /** Between two lines the handler is neither homing nor resetting: both flags
      are only raised inside the handler that lowers them again. */
  predicate Quiet(m: Machine)
  {
    !m.homing && !m.resetting
  }

  function Abs(n: int): nat
  {
    if n < 0 then -n else n
  }

  function Max(a: nat, b: nat): nat
  {
    if a >= b then a else b
  }

  /** A position moved `n` steps forwards or backwards. */
  function Advance(p: int, forward: bool, n: nat): int
  {
    if forward then p + n else p - n
  }

  // ---------------------------------------------------------------- lines

  /** `trim()` then `toUpperCase()`. */
  function Normalize(line: string): string
  {
    ToUpper(Strip(line, IsCSpace))
  }

  /** Normalising twice is normalising once, so `handleGcode` normalising the
      line `handleLine` already normalised changes nothing. */
  lemma NormalizeIdempotent(line: string)
    ensures Normalize(Normalize(line)) == Normalize(line)
  {
    var s := Strip(line, IsCSpace);
    var u := ToUpper(s);
    StripShape(line, IsCSpace);
    UpperCaseShape(s);
    StripUnchanged(u, IsCSpace);
    UpperCaseShape(u);
    assert ToUpper(u) == u;
  }

  predicate IsJogWord(l: string)
  {
    l == "X+" || l == "X-" || l == "Y+" || l == "Y-" || l == "LIM?" || l == "BUZ" || l == "CLOCK"
  }

  /** The handler `handleLine` hands a normalised line to. */
  datatype Route = ToJog | ToFeedHold | ToPause | ToCycleStart | ToReset | ToHome | ToGcode | ToUnknown

  function RouteOf(l: string): Route
  {
    if IsJogWord(l) then ToJog
    else if l == "FEEDHOLD" || l == "HOLD" then ToFeedHold
    else if l == "PAUSE" then ToPause
    else if l == "CYCLE" || l == "START" || l == "RESUME" then ToCycleStart
    else if l == "RESET" then ToReset
    else if l == "HOME" then ToHome
    else if StartsWith(l, "G") then ToGcode
    else ToUnknown
  }

  /** No command word starts with `G`, so a line goes to the G-code handler
      exactly when it starts with `G`. */
  lemma RouteGcode(l: string)
    ensures RouteOf(l) == ToGcode <==> StartsWith(l, "G")
  {
    if StartsWith(l, "G") {
      assert l[0] == 'G';
    }
  }

  // ---------------------------------------------------------------- jog

  function PressedText(pressed: bool): string
  {
    if pressed then "PRESSED" else "OPEN"
  }

  /** `jogCommand(cmd)`. */
  function JogSpec(m: Machine, cmd: string, b: Board): Machine
  {
    if Gated(m) then Emit(m, [Println(JogIgnored)])
    else if cmd == "X+" then
      if b.limitX(0) then Emit(m, [Println(XPlusBlocked)])
      else Emit(m, [Println(JogXPlus), Step(AxisX, true, 200, 500)]).(posX := m.posX + 200)
    else if cmd == "X-" then
      Emit(m, [Println(JogXMinus), Step(AxisX, false, 200, 500)]).(posX := m.posX - 200)
    else if cmd == "Y+" then
      if b.limitY(0) then Emit(m, [Println(YPlusBlocked)])
      else Emit(m, [Println(JogYPlus), Step(AxisY, true, 200, 500)]).(posY := m.posY + 200)
    else if cmd == "Y-" then
      Emit(m, [Println(JogYMinus), Step(AxisY, false, 200, 500)]).(posY := m.posY - 200)
    else if cmd == "LIM?" then
      Emit(m, [Println("X limit: " + PressedText(b.limitX(0)) + " | Y limit: " + PressedText(b.limitY(0)))])
    else if cmd == "BUZ" then Emit(m, [Println(BuzzerTest), Beep(200)])
    else if cmd == "CLOCK" then Emit(m, [Println("Current time: " + b.clock)])
    else Emit(m, [Println(JogUnknown)])
  }

  /** A refused jog changes nothing but the output. */
  lemma JogGated(m: Machine, cmd: string, b: Board)
    requires Gated(m)
    ensures JogSpec(m, cmd, b) == m.(out := m.out + [Println(JogIgnored)])
  {
  }

  /** An accepted jog moves X by +200 (only with the X switch open) or -200,
      moves Y likewise, never both, and never for the other words; only the
      out log and the positions change. */
  lemma JogMoves(m: Machine, cmd: string, b: Board)
    requires !Gated(m)
    ensures var r := JogSpec(m, cmd, b);
            r.posX == m.posX + (if cmd == "X+" && !b.limitX(0) then 200 else if cmd == "X-" then -200 else 0) &&
            r.posY == m.posY + (if cmd == "Y+" && !b.limitY(0) then 200 else if cmd == "Y-" then -200 else 0) &&
            r.(out := m.out, posX := m.posX, posY := m.posY) == m
  {
  }

  // ---------------------------------------------------------------- flags

  function FeedHoldSpec(m: Machine): Machine
  {
    Emit(m, [Println(HoldMessage)]).(feedHold := true)
  }

  function PauseSpec(m: Machine): Machine
  {
    Emit(m, [Println(PauseMessage)]).(paused := true)
  }

  function CycleStartSpec(m: Machine): Machine
  {
    if m.feedHold || m.paused then
      Emit(m, [Println(Resumed)]).(feedHold := false, paused := false)
    else Emit(m, [Println(NothingToResume)])
  }

  /** The reset handler raises `isResetting` only until it returns. */
  function ResetSpec(m: Machine): Machine
  {
    Emit(m, [Println(ResetMessage)])
      .(feedHold := false, paused := false, resetting := false, posX := 0, posY := 0)
  }

  /** Cycle start lowers hold and pause when either is raised and otherwise
      leaves every flag as it was; only the position survives unchanged either way. */
  lemma CycleStartFlags(m: Machine)
    ensures var r := CycleStartSpec(m);
            (m.feedHold || m.paused ==> !r.feedHold && !r.paused) &&
            (!(m.feedHold || m.paused) ==> r.feedHold == m.feedHold && r.paused == m.paused) &&
            r.homing == m.homing && r.resetting == m.resetting && r.posX == m.posX && r.posY == m.posY
  {
  }

  /** Feed hold and pause each raise their own flag and nothing else. */
  lemma HoldAndPauseOwnFlag(m: Machine)
    ensures FeedHoldSpec(m).feedHold && FeedHoldSpec(m).(feedHold := m.feedHold, out := m.out) == m
    ensures PauseSpec(m).paused && PauseSpec(m).(paused := m.paused, out := m.out) == m
  {
  }

  // ---------------------------------------------------------------- homing

  /** The switch ends up pressed at some reading. */
  ghost predicate Reaches(l: nat -> bool)
  {
    exists n: nat :: l(n)
  }

  /** Any pressed reading has a first pressed reading at or before it. */
  lemma {:induction false} FirstPressAtOrBefore(l: nat -> bool, w: nat)
    requires l(w)
    ensures exists n: nat :: n <= w && l(n) && forall k: nat :: k < n ==> !l(k)
    decreases w
  {
    if exists k: nat :: k < w && l(k) {
      var k: nat :| k < w && l(k);
      FirstPressAtOrBefore(l, k);
    } else {
      assert forall k: nat :: k < w ==> !l(k);
    }
  }

  /** The index of the first pressed reading. */
  ghost function FirstPressed(l: nat -> bool): (n: nat)
    requires Reaches(l)
    ensures l(n) && forall k: nat :: k < n ==> !l(k)
  {
    var w: nat :| l(w);
    FirstPressAtOrBefore(l, w);
    var n: nat :| n <= w && l(n) && forall k: nat :: k < n ==> !l(k);
    n
  }

  /** `n` copies of `e`. */
  function Repeat(e: Effect, n: nat): seq<Effect>
  {
    if n == 0 then [] else Repeat(e, n - 1) + [e]
  }

  function HomeStep(axis: Axis): Effect
  {
    Step(axis, false, 1, 500)
  }

  /** One of the two `doHome` loops: single backward steps until the switch
      reads pressed, or one interruption message when a hold, pause or reset
      flag is raised and the switch is still open. */
  ghost function HomingRun(axis: Axis, l: nat -> bool, stopped: bool): seq<Effect>
    requires stopped || Reaches(l)
  {
    if stopped && !l(0) then [Println(HomingInterrupted)]
    else
      assert Reaches(l) by { assert l(0) || Reaches(l); }
      Repeat(HomeStep(axis), FirstPressed(l))
  }

  /** What `handleHome` needs to return: the switches close eventually unless
      the run is interrupted at once or does not start. */
  ghost predicate HomeCanEnd(m: Machine, b: Board)
  {
    m.homing || m.feedHold || m.paused || m.resetting || (Reaches(b.limitX) && Reaches(b.limitY))
  }

  /** What `doHome()` drives and prints: both axes in turn, each between its
      driver's enable and the final disables. */
  ghost function HomingTrail(b: Board, stopped: bool): seq<Effect>
    requires stopped || (Reaches(b.limitX) && Reaches(b.limitY))
  {
    [Enable(AxisX)] + HomingRun(AxisX, b.limitX, stopped) +
    [Enable(AxisY)] + HomingRun(AxisY, b.limitY, stopped) +
    [Disable(AxisX), Disable(AxisY)]
  }

  /** `handleHome()` with `doHome()` inside it. */
  ghost function HomeSpec(m: Machine, b: Board): Machine
    requires HomeCanEnd(m, b)
  {
    if m.homing then Emit(m, [Println(AlreadyHoming)])
    else
      var stopped := m.feedHold || m.paused || m.resetting;
      Emit(m, [Println(HomingStarted)] + HomingTrail(b, stopped) + [Println(HomingComplete)])
        .(posX := 0, posY := 0)
  }

  /** Reset always ends with hold, pause and resetting lowered and the origin
      at the current place; a homing run that starts ends with `isHoming` lowered
      and the origin set, interrupted or not. */
  lemma ResetAndHomeZero(m: Machine, b: Board)
    requires HomeCanEnd(m, b)
    ensures var r := ResetSpec(m);
            !r.feedHold && !r.paused && !r.resetting && r.posX == 0 && r.posY == 0
    ensures !m.homing ==> var r := HomeSpec(m, b);
            !r.homing && r.posX == 0 && r.posY == 0 &&
            r.feedHold == m.feedHold && r.paused == m.paused
  {
  }

  /** When a hold or pause is raised, homing takes no step at all, though it
      still sets both positions to zero. */
  lemma HomeWhileHeldTakesNoStep(m: Machine, b: Board)
    requires !m.homing && (m.feedHold || m.paused)
    ensures var r := HomeSpec(m, b);
            r.posX == 0 && r.posY == 0 &&
            forall i :: |m.out| <= i < |r.out| ==> !r.out[i].Step?
  {
    var r := HomeSpec(m, b);
    var runX := HomingRun(AxisX, b.limitX, true);
    var runY := HomingRun(AxisY, b.limitY, true);
    assert runX == [] || runX == [Println(HomingInterrupted)];
    assert runY == [] || runY == [Println(HomingInterrupted)];
  }

  // ---------------------------------------------------------------- moveTo

  /** A move's fixed data: the distance on each axis, the direction of each
      axis, and how many readings of each switch the pre-move check took. */
  datatype Geometry = Geometry(adx: nat, ady: nat, fx: bool, fy: bool, xRead: nat, yRead: nat)

  /** The variables of the stepping loop: how often `x` and `y` were advanced,
      the error term, the driver calls so far and the axis whose limit switch
      ended the loop, if any. */
  datatype Cursor = Cursor(nx: nat, ny: nat, err: int, out: seq<Effect>, blocked: Option<Axis>)

  function Start(g: Geometry): Cursor
  {
    Cursor(0, 0, g.adx - g.ady, [], None)
  }

  /** The `x` half of one loop iteration, for the doubled error `e2` taken at
      the start of the iteration. */
  function TickX(g: Geometry, b: Board, c: Cursor, e2: int): Cursor
  {
    if e2 > -(g.ady as int) then
      var c1 := c.(nx := c.nx + 1, err := c.err - g.ady);
      if b.limitX(g.xRead + c.nx) then c1.(blocked := Some(AxisX))
      else c1.(out := c.out + [Step(AxisX, g.fx, 1, 0)])
    else c
  }

  /** The `y` half, likewise. */
  function TickY(g: Geometry, b: Board, c: Cursor, e2: int): Cursor
  {
    if e2 < g.adx then
      var c1 := c.(ny := c.ny + 1, err := c.err + g.adx);
      if b.limitY(g.yRead + c.ny) then c1.(blocked := Some(AxisY))
      else c1.(out := c.out + [Step(AxisY, g.fy, 1, 0)])
    else c
  }

  /** One iteration of the stepping loop. Each axis advances at most once, and
      its position counter advances before its switch is read: a pressed switch
      ends the loop with that advance counted but not stepped. */
  function Tick(g: Geometry, b: Board, c: Cursor): (r: Cursor)
    ensures c.nx <= r.nx <= c.nx + 1 && c.ny <= r.ny <= c.ny + 1
  {
    var e2 := 2 * c.err;
    var c1 := TickX(g, b, c, e2);
    if c1.blocked.Some? then c1 else TickY(g, b, c1, e2)
  }

  /** The loop's variables after `n` iterations (fewer when a switch ended it). */
  function Walk(g: Geometry, b: Board, n: nat): Cursor
  {
    if n == 0 then Start(g)
    else
      var w := Walk(g, b, n - 1);
      if w.blocked.Some? then w else Tick(g, b, w)
  }

  /** An iteration that runs is one `Tick`. */
  lemma WalkNext(g: Geometry, b: Board, n: nat)
    requires Walk(g, b, n).blocked == None
    ensures Walk(g, b, n + 1) == Tick(g, b, Walk(g, b, n))
  {
  }

  /** Once a switch ended the loop nothing changes any more. */
  lemma {:induction false} WalkStays(g: Geometry, b: Board, n: nat, k: nat)
    requires n <= k && Walk(g, b, n).blocked.Some?
    ensures Walk(g, b, k) == Walk(g, b, n)
    decreases k - n
  {
    if n < k {
      WalkStays(g, b, n, k - 1);
    }
  }

  /** `a * c <= b * c` for `a <= b` and `c >= 0`. */
  lemma MulMono(a: int, b: int, c: int)
    requires a <= b && c >= 0
    ensures a * c <= b * c
  {
    assert b * c - a * c == (b - a) * c;
  }

  /** The switches read open for the first `n` readings from `from` on. */
  predicate Clear(l: nat -> bool, from: nat, n: nat)
  {
    forall k: nat :: from <= k < from + n ==> !l(k)
  }

  /** The Bresenham window when X is the long axis, after `t` iterations with
      `ny` advances of Y: the error term is the running difference of the two
      advances and stays where Y cannot overtake its target. */
  predicate WindowX(adx: int, ady: int, t: int, ny: int, err: int)
  {
    ny <= ady && err == adx - ady + ny * adx - t * ady && -ady < 2 * err < 3 * adx - 2 * ady
  }

  /** One iteration keeps the X window: X always advances, and Y advances only
      while it is short of its target. */
  lemma StepWindowX(adx: int, ady: int, t: int, ny: int, err: int)
    requires 0 < adx && 0 <= ady <= adx && 0 <= t < adx && 0 <= ny && WindowX(adx, ady, t, ny, err)
    ensures 2 * err > -ady
    ensures 2 * err < adx ==> ny < ady && WindowX(adx, ady, t + 1, ny + 1, err - ady + adx)
    ensures 2 * err >= adx ==> WindowX(adx, ady, t + 1, ny, err - ady)
  {
    assert (t + 1) * ady == t * ady + ady;
    assert (ny + 1) * adx == ny * adx + adx;
    if 2 * err < adx {
      // 2 * ny * adx < 2 * (t + 1) * ady - adx <= 2 * adx * ady - adx
      MulMono(t + 1, adx, ady);
      if ny >= ady {
        MulMono(ady, ny, adx);
      }
    }
  }

  /** After all `adx` iterations the window leaves Y exactly on its target. */
  lemma EndWindowX(adx: int, ady: int, ny: int, err: int)
    requires 0 < adx && 0 <= ady <= adx && WindowX(adx, ady, adx, ny, err)
    ensures ny == ady
  {
    // err == adx * (1 + ny - ady) - ady, and 2 * err > -ady rules out ny < ady.
    assert err == adx * (1 + ny - ady) - ady;
    if ny < ady {
      MulMono(1 + ny - ady, 0, adx);
    }
  }

  /** The mirrored window when Y is the long axis, with `nx` advances of X. */
  predicate WindowY(adx: int, ady: int, t: int, nx: int, err: int)
  {
    nx <= adx && err == adx - ady + t * adx - nx * ady && 2 * adx - 3 * ady < 2 * err < adx
  }

  lemma StepWindowY(adx: int, ady: int, t: int, nx: int, err: int)
    requires 0 <= adx < ady && 0 <= t < ady && 0 <= nx && WindowY(adx, ady, t, nx, err)
    ensures 2 * err < adx
    ensures 2 * err > -ady ==> nx < adx && WindowY(adx, ady, t + 1, nx + 1, err - ady + adx)
    ensures 2 * err <= -ady ==> WindowY(adx, ady, t + 1, nx, err + adx)
  {
    assert (t + 1) * adx == t * adx + adx;
    assert (nx + 1) * ady == nx * ady + ady;
    if 2 * err > -ady {
      // 2 * nx * ady < 2 * (t + 1) * adx - ady <= 2 * ady * adx - ady
      MulMono(t + 1, ady, adx);
      if nx >= adx {
        MulMono(adx, nx, ady);
      }
    }
  }

  lemma EndWindowY(adx: int, ady: int, nx: int, err: int)
    requires 0 <= adx < ady && WindowY(adx, ady, ady, nx, err)
    ensures nx == adx
  {
    // err == adx - ady * (1 + nx - adx), and 2 * err < adx rules out nx < adx.
    assert err == adx - ady * (1 + nx - adx);
    if nx < adx {
      MulMono(1 + nx - adx, 0, ady);
    }
  }

  /** One unblocked iteration with the long axis X and open switches. */
  lemma TickMajorX(g: Geometry, b: Board, c: Cursor)
    requires 0 < g.adx && g.ady <= g.adx && c.nx < g.adx && c.blocked == None
    requires WindowX(g.adx, g.ady, c.nx, c.ny, c.err)
    requires Clear(b.limitX, g.xRead, g.adx) && Clear(b.limitY, g.yRead, g.ady)
    ensures var r := Tick(g, b, c);
            r.blocked == None && r.nx == c.nx + 1 && WindowX(g.adx, g.ady, r.nx, r.ny, r.err)
  {
    StepWindowX(g.adx, g.ady, c.nx, c.ny, c.err);
    assert !b.limitX(g.xRead + c.nx);
    if 2 * c.err < g.adx {
      assert !b.limitY(g.yRead + c.ny);
    }
  }

  /** The X window holds through the first `t` iterations. */
  lemma {:induction false} WalkMajorX(g: Geometry, b: Board, t: nat)
    requires 0 < g.adx && g.ady <= g.adx && t <= g.adx
    requires Clear(b.limitX, g.xRead, g.adx) && Clear(b.limitY, g.yRead, g.ady)
    ensures var w := Walk(g, b, t);
            w.blocked == None && w.nx == t && WindowX(g.adx, g.ady, t, w.ny, w.err)
  {
    if t > 0 {
      WalkMajorX(g, b, t - 1);
      TickMajorX(g, b, Walk(g, b, t - 1));
    }
  }

  /** One unblocked iteration with the long axis Y and open switches. */
  lemma TickMajorY(g: Geometry, b: Board, c: Cursor)
    requires g.adx < g.ady && c.ny < g.ady && c.blocked == None
    requires WindowY(g.adx, g.ady, c.ny, c.nx, c.err)
    requires Clear(b.limitX, g.xRead, g.adx) && Clear(b.limitY, g.yRead, g.ady)
    ensures var r := Tick(g, b, c);
            r.blocked == None && r.ny == c.ny + 1 && WindowY(g.adx, g.ady, r.ny, r.nx, r.err)
  {
    StepWindowY(g.adx, g.ady, c.ny, c.nx, c.err);
    if 2 * c.err > -(g.ady as int) {
      assert !b.limitX(g.xRead + c.nx);
    }
    assert !b.limitY(g.yRead + c.ny);
  }

  /** The Y window holds through the first `t` iterations. */
  lemma {:induction false} WalkMajorY(g: Geometry, b: Board, t: nat)
    requires g.adx < g.ady && t <= g.ady
    requires Clear(b.limitX, g.xRead, g.adx) && Clear(b.limitY, g.yRead, g.ady)
    ensures var w := Walk(g, b, t);
            w.blocked == None && w.ny == t && WindowY(g.adx, g.ady, t, w.nx, w.err)
  {
    if t > 0 {
      WalkMajorY(g, b, t - 1);
      TickMajorY(g, b, Walk(g, b, t - 1));
    }
  }

  /** With both switches open while the move runs, `max(adx, ady)` iterations
      advance X exactly `adx` times and Y exactly `ady` times. */
  lemma WalkReachesTarget(g: Geometry, b: Board)
    requires 0 < Max(g.adx, g.ady)
    requires Clear(b.limitX, g.xRead, g.adx) && Clear(b.limitY, g.yRead, g.ady)
    ensures var w := Walk(g, b, Max(g.adx, g.ady));
            w.blocked == None && w.nx == g.adx && w.ny == g.ady
  {
    if g.ady <= g.adx {
      WalkMajorX(g, b, g.adx);
      var w := Walk(g, b, g.adx);
      EndWindowX(g.adx, g.ady, w.ny, w.err);
    } else {
      WalkMajorY(g, b, g.ady);
      var w := Walk(g, b, g.ady);
      EndWindowY(g.adx, g.ady, w.nx, w.err);
    }
  }

  /** An axis with nothing to travel never advances, whatever the switches
      read: its error share keeps it from ever being chosen. */
  lemma {:induction false} WalkIdleAxis(g: Geometry, b: Board, n: nat)
    ensures g.adx == 0 ==> Walk(g, b, n).nx == 0 && Walk(g, b, n).err == -(g.ady as int)
    ensures g.ady == 0 ==> Walk(g, b, n).ny == 0 && Walk(g, b, n).err == g.adx
  {
    if n > 0 {
      WalkIdleAxis(g, b, n - 1);
    }
  }

  /** How many single steps `out` drives on `axis`. */
  function Issued(out: seq<Effect>, axis: Axis): nat
  {
    multiset(out)[Step(axis, false, 1, 0)] + multiset(out)[Step(axis, true, 1, 0)]
  }

  /** The `x` half issues one X step per advance, except an advance its
      switch stopped, and no Y step. */
  lemma TickXIssued(g: Geometry, b: Board, c: Cursor, e2: int)
    requires c.blocked == None
    ensures var r := TickX(g, b, c, e2);
            Issued(r.out, AxisX) + (if r.blocked == Some(AxisX) then 1 else 0) == Issued(c.out, AxisX) + r.nx - c.nx &&
            Issued(r.out, AxisY) == Issued(c.out, AxisY) && r.ny == c.ny && r.blocked != Some(AxisY)
  {
  }

  /** The `y` half, likewise with the axes exchanged. */
  lemma TickYIssued(g: Geometry, b: Board, c: Cursor, e2: int)
    requires c.blocked == None
    ensures var r := TickY(g, b, c, e2);
            Issued(r.out, AxisY) + (if r.blocked == Some(AxisY) then 1 else 0) == Issued(c.out, AxisY) + r.ny - c.ny &&
            Issued(r.out, AxisX) == Issued(c.out, AxisX) && r.nx == c.nx && r.blocked != Some(AxisX)
  {
  }

  /** Every advance of a position counter is matched by one driven step, except
      the last advance on the axis whose switch ended the loop: the counter, and
      so the position written back, runs one step ahead of the motor there. */
  lemma {:induction false} WalkIssued(g: Geometry, b: Board, n: nat)
    ensures var w := Walk(g, b, n);
            Issued(w.out, AxisX) + (if w.blocked == Some(AxisX) then 1 else 0) == w.nx &&
            Issued(w.out, AxisY) + (if w.blocked == Some(AxisY) then 1 else 0) == w.ny
  {
    if n > 0 {
      WalkIssued(g, b, n - 1);
      var w := Walk(g, b, n - 1);
      if w.blocked.None? {
        var e2 := 2 * w.err;
        TickXIssued(g, b, w, e2);
        var c1 := TickX(g, b, w, e2);
        if c1.blocked.None? {
          TickYIssued(g, b, c1, e2);
        }
      }
    }
  }

  /** The stepping geometry of a move from the machine's position: the
      distances, the directions and which switches are read first (one whose
      axis has nothing to travel is read from index 0 on). */
  function MoveGeometry(m: Machine, tx: int, ty: int): Geometry
  {
    var dx := tx - m.posX;
    var dy := ty - m.posY;
    Geometry(Abs(dx), Abs(dy), dx > 0, dy > 0, if dx != 0 then 1 else 0, if dy != 0 then 1 else 0)
  }

  /** `moveTo(targetX, targetY, feedrate)`. */
  function MoveSpec(m: Machine, tx: int, ty: int, b: Board): Machine
  {
    if Gated(m) then Emit(m, [Println(MoveIgnored)])
    else
      var dx := tx - m.posX;
      var dy := ty - m.posY;
      if dx != 0 && b.limitX(0) then Emit(m, [Println(XBlocked)])
      else if dy != 0 && b.limitY(0) then Emit(m, [Println(YBlocked)])
      else if dx == 0 && dy == 0 then Emit(m, [Println(NoMove), Println(Ok)])
      else
        var g := MoveGeometry(m, tx, ty);
        var w := Walk(g, b, Max(g.adx, g.ady));
        Emit(m, w.out + [Println(Ok)])
          .(posX := Advance(m.posX, g.fx, w.nx), posY := Advance(m.posY, g.fy, w.ny))
  }

  /** A move refused by a flag or by a pressed switch on an axis that has to
      travel prints one message, keeps the position and prints no `ok`. */
  lemma MoveRefused(m: Machine, tx: int, ty: int, b: Board)
    requires Gated(m) || (tx != m.posX && b.limitX(0)) || (ty != m.posY && b.limitY(0))
    ensures var r := MoveSpec(m, tx, ty, b);
            r.(out := m.out) == m && |r.out| == |m.out| + 1 && r.out[|m.out|] != Println(Ok)
  {
  }

  /** Both switches read open at every reading a move takes: index 0 and the
      `adx` readings after it on X when X travels, likewise on Y. */
  predicate OpenDuring(b: Board, m: Machine, tx: int, ty: int)
  {
    var g := MoveGeometry(m, tx, ty);
    Clear(b.limitX, 0, g.xRead + g.adx) && Clear(b.limitY, 0, g.yRead + g.ady)
  }

  /** Those readings are the start checks and the stepping loop's window. */
  lemma OpenDuringWindow(b: Board, m: Machine, tx: int, ty: int)
    requires OpenDuring(b, m, tx, ty)
    ensures var g := MoveGeometry(m, tx, ty);
            (tx != m.posX ==> !b.limitX(0)) && (ty != m.posY ==> !b.limitY(0)) &&
            Clear(b.limitX, g.xRead, g.adx) && Clear(b.limitY, g.yRead, g.ady)
  {
    var g := MoveGeometry(m, tx, ty);
    if tx != m.posX {
      assert 0 < g.xRead + g.adx;
    }
    if ty != m.posY {
      assert 0 < g.yRead + g.ady;
    }
  }

  /** With both switches open while it runs, a move ends exactly on its target
      and prints `ok` last; only the position and the out log change. */
  lemma MoveReachesTarget(m: Machine, tx: int, ty: int, b: Board)
    requires !Gated(m) && OpenDuring(b, m, tx, ty)
    ensures var r := MoveSpec(m, tx, ty, b);
            r.posX == tx && r.posY == ty && r.(out := m.out, posX := m.posX, posY := m.posY) == m &&
            |r.out| > |m.out| && r.out[|r.out| - 1] == Println(Ok)
  {
    OpenDuringWindow(b, m, tx, ty);
    if tx != m.posX || ty != m.posY {
      var g := MoveGeometry(m, tx, ty);
      MoveGeometryDistance(m, tx, ty);
      WalkReachesTarget(g, b);
    }
  }

  /** Such a move adds exactly `|dx|` single X steps and `|dy|` single Y
      steps to the output. */
  lemma MoveIssuesDistance(m: Machine, tx: int, ty: int, b: Board)
    requires !Gated(m) && OpenDuring(b, m, tx, ty)
    ensures var r := MoveSpec(m, tx, ty, b);
            Issued(r.out, AxisX) == Issued(m.out, AxisX) + Abs(tx - m.posX) &&
            Issued(r.out, AxisY) == Issued(m.out, AxisY) + Abs(ty - m.posY)
  {
    if tx == m.posX && ty == m.posY {
      var w := [Println(NoMove)];
      assert MoveSpec(m, tx, ty, b).out == m.out + (w + [Println(Ok)]);
      IssuedAround(m.out, w, MoveSpec(m, tx, ty, b).out, 0, 0);
    } else {
      var g := MoveGeometry(m, tx, ty);
      MoveGeometryDistance(m, tx, ty);
      OpenDuringWindow(b, m, tx, ty);
      WalkIssuesDistance(g, b);
      TravelOut(m, tx, ty, b);
      IssuedAround(m.out, Walk(g, b, Max(g.adx, g.ady)).out, MoveSpec(m, tx, ty, b).out, g.adx, g.ady);
    }
  }

  /** The distances of a move are those of its geometry. */
  lemma MoveGeometryDistance(m: Machine, tx: int, ty: int)
    ensures var g := MoveGeometry(m, tx, ty);
            g.adx == Abs(tx - m.posX) && g.ady == Abs(ty - m.posY) &&
            (0 < Max(g.adx, g.ady) <==> tx != m.posX || ty != m.posY)
  {
  }

  /** With the switches open over the travel, the walk drives `adx` X steps
      and `ady` Y steps. */
  lemma WalkIssuesDistance(g: Geometry, b: Board)
    requires 0 < Max(g.adx, g.ady)
    requires Clear(b.limitX, g.xRead, g.adx) && Clear(b.limitY, g.yRead, g.ady)
    ensures var w := Walk(g, b, Max(g.adx, g.ady));
            Issued(w.out, AxisX) == g.adx && Issued(w.out, AxisY) == g.ady
  {
    WalkReachesTarget(g, b);
    WalkIssued(g, b, Max(g.adx, g.ady));
  }

  /** What a travelling move with open start switches prints. */
  lemma TravelOut(m: Machine, tx: int, ty: int, b: Board)
    requires !Gated(m) && (tx != m.posX || ty != m.posY)
    requires (tx != m.posX ==> !b.limitX(0)) && (ty != m.posY ==> !b.limitY(0))
    ensures var g := MoveGeometry(m, tx, ty);
            MoveSpec(m, tx, ty, b).out == m.out + (Walk(g, b, Max(g.adx, g.ady)).out + [Println(Ok)])
  {
  }

  /** Appending a part and a closing `ok` adds the part's steps. */
  lemma IssuedAround(a: seq<Effect>, w: seq<Effect>, s: seq<Effect>, nx: nat, ny: nat)
    requires s == a + (w + [Println(Ok)])
    requires Issued(w, AxisX) == nx && Issued(w, AxisY) == ny
    ensures Issued(s, AxisX) == Issued(a, AxisX) + nx && Issued(s, AxisY) == Issued(a, AxisY) + ny
  {
  }

  /** An axis whose target is its current position does not move, whatever
      the switches read. */
  lemma MoveKeepsIdleAxis(m: Machine, tx: int, ty: int, b: Board)
    ensures tx == m.posX ==> MoveSpec(m, tx, ty, b).posX == m.posX
    ensures ty == m.posY ==> MoveSpec(m, tx, ty, b).posY == m.posY
  {
    var dx := tx - m.posX;
    var dy := ty - m.posY;
    var g := MoveGeometry(m, tx, ty);
    WalkIdleAxis(g, b, Max(g.adx, g.ady));
  }

  // ---------------------------------------------------------------- G-code

  predicate NumChar(c: char)
  {
    '0' <= c <= '9' || c == '.' || c == '-'
  }

  /** The end of the run of digits, `.` and `-` starting at `k`. */
  function RunEnd(s: string, k: nat): (e: nat)
    requires k <= |s|
    ensures k <= e <= |s|
    decreases |s| - k
  {
    if k < |s| && NumChar(s[k]) then RunEnd(s, k + 1) else k
  }

  /** The run found by `RunEnd` is made of numeric characters and cannot be
      extended. */
  lemma {:induction false} RunEndShape(s: string, k: nat)
    requires k <= |s|
    ensures var e := RunEnd(s, k);
            (forall i :: k <= i < e ==> NumChar(s[i])) && (e == |s| || !NumChar(s[e]))
    decreases |s| - k
  {
    if k < |s| && NumChar(s[k]) {
      RunEndShape(s, k + 1);
    }
  }

  /** The text `parseGcodeValue(line, code, fallback)` hands to `toFloat`, or
      `None` where it returns the fallback. */
  function Token(line: string, code: char): Option<string>
  {
    var i := FirstIndex(line, code);
    if i == -1 then None else Some(line[i + 1..RunEnd(line, i + 1)])
  }

  /** The token is absent exactly when the letter is. */
  lemma TokenAbsent(line: string, code: char)
    ensures Token(line, code) == None <==> code !in line
  {
  }

  /** Otherwise it is the longest run of digits, `.` and `-` right after the
      letter's first occurrence. */
  lemma TokenExtent(line: string, code: char)
    requires code in line
    ensures var i := FirstIndex(line, code);
            var t := Token(line, code).value;
            0 <= i && line[i] == code && code !in line[..i] &&
            i + 1 + |t| <= |line| && t == line[i + 1..i + 1 + |t|] &&
            (forall j :: 0 <= j < |t| ==> NumChar(t[j])) &&
            (i + 1 + |t| == |line| || !NumChar(line[i + 1 + |t|]))
  {
    var i := FirstIndex(line, code);
    RunEndShape(line, i + 1);
    var e := RunEnd(line, i + 1);
    var t := line[i + 1..e];
    assert Token(line, code).value == t;
    assert forall j :: 0 <= j < |t| ==> t[j] == line[i + 1 + j];
  }

  /** `handleGcode(line)`. */
  function GcodeSpec(m: Machine, line: string, b: Board, sc: Scale): Machine
  {
    var l := Normalize(line);
    if StartsWith(l, "G0") || StartsWith(l, "G1") then
      var tx := match Token(l, 'X') case None => m.posX case Some(t) => sc.stepsX(t);
      var ty := match Token(l, 'Y') case None => m.posY case Some(t) => sc.stepsY(t);
      MoveSpec(m, tx, ty, b)
    else Emit(m, [Println(GcodeUnknown), Println(Ok)])
  }

  /** A line that is not G0/G1 only prints a notice and `ok`; in a G0/G1 line an
      axis whose letter is absent keeps its position. */
  lemma GcodeAxes(m: Machine, line: string, b: Board, sc: Scale)
    ensures var l := Normalize(line);
            !(StartsWith(l, "G0") || StartsWith(l, "G1")) ==>
              GcodeSpec(m, line, b, sc) == m.(out := m.out + [Println(GcodeUnknown), Println(Ok)])
    ensures 'X' !in Normalize(line) ==> GcodeSpec(m, line, b, sc).posX == m.posX
    ensures 'Y' !in Normalize(line) ==> GcodeSpec(m, line, b, sc).posY == m.posY
  {
    var l := Normalize(line);
    TokenAbsent(l, 'X');
    TokenAbsent(l, 'Y');
    if StartsWith(l, "G0") || StartsWith(l, "G1") {
      var tx := match Token(l, 'X') case None => m.posX case Some(t) => sc.stepsX(t);
      var ty := match Token(l, 'Y') case None => m.posY case Some(t) => sc.stepsY(t);
      MoveKeepsIdleAxis(m, tx, ty, b);
    }
  }

  // ---------------------------------------------------------------- handleLine

  /** What a line needs for `handleLine` to return (see `HomeCanEnd`). */
  ghost predicate LineCanEnd(m: Machine, line: string, b: Board)
  {
    RouteOf(Normalize(line)) == ToHome ==> HomeCanEnd(m, b)
  }

  /** `handleLine(line)`. */
  ghost function LineSpec(m: Machine, line: string, b: Board, sc: Scale): Machine
    requires LineCanEnd(m, line, b)
  {
    if |line| == 0 then m
    else
      var l := Normalize(line);
      match RouteOf(l)
      case ToJog => JogSpec(m, l, b)
      case ToFeedHold => FeedHoldSpec(m)
      case ToPause => PauseSpec(m)
      case ToCycleStart => CycleStartSpec(m)
      case ToReset => ResetSpec(m)
      case ToHome => HomeSpec(m, b)
      case ToGcode => GcodeSpec(m, l, b, sc)
      case ToUnknown => Emit(m, [Println(LineUnknown)])
  }

  /** An empty line is ignored outright, while a non-empty line of nothing but
      whitespace trims to the empty string and draws the unknown-command reply. */
  lemma BlankLines(m: Machine, line: string, b: Board, sc: Scale)
    requires AllSpace(line, IsCSpace)
    ensures LineCanEnd(m, line, b)
    ensures LineSpec(m, line, b, sc) == if line == [] then m else m.(out := m.out + [Println(LineUnknown)])
  {
    StripShape(line, IsCSpace);
    assert Normalize(line) == [];
  }

  /** Upper and lower case and surrounding whitespace do not matter: a line is
      handled as its normalised form is. */
  lemma LineNormalized(m: Machine, line: string, b: Board, sc: Scale)
    requires |Normalize(line)| > 0 && LineCanEnd(m, line, b)
    ensures LineCanEnd(m, Normalize(line), b)
    ensures LineSpec(m, Normalize(line), b, sc) == LineSpec(m, line, b, sc)
  {
    NormalizeIdempotent(line);
    var l := Normalize(line);
    if RouteOf(l) == ToGcode {
      NormalizeIdempotent(l);
    }
  }

  /** A move changes only the position and the out log. */
  lemma MoveKeepsFlags(m: Machine, tx: int, ty: int, b: Board)
    ensures MoveSpec(m, tx, ty, b).(out := m.out, posX := m.posX, posY := m.posY) == m
  {
  }

  /** So does a G-code line. */
  lemma GcodeKeepsFlags(m: Machine, line: string, b: Board, sc: Scale)
    ensures GcodeSpec(m, line, b, sc).(out := m.out, posX := m.posX, posY := m.posY) == m
  {
    var l := Normalize(line);
    if StartsWith(l, "G0") || StartsWith(l, "G1") {
      var tx := match Token(l, 'X') case None => m.posX case Some(t) => sc.stepsX(t);
      var ty := match Token(l, 'Y') case None => m.posY case Some(t) => sc.stepsY(t);
      MoveKeepsFlags(m, tx, ty, b);
    }
  }

  /** Every line keeps the handler quiet between lines: a homing or reset flag
      raised by a handler is lowered before the next line. */
  lemma LineKeepsQuiet(m: Machine, line: string, b: Board, sc: Scale)
    requires Quiet(m) && LineCanEnd(m, line, b)
    ensures Quiet(LineSpec(m, line, b, sc))
  {
    if |line| > 0 {
      var l := Normalize(line);
      match RouteOf(l)
      case ToJog => assert Quiet(JogSpec(m, l, b));
      case ToHome => assert Quiet(HomeSpec(m, b));
      case ToGcode => GcodeKeepsFlags(m, l, b, sc);
      case _ =>
    }
  }

  // ---------------------------------------------------------------- the handler

  /** `GCodeHandler`: the step position, the four motion flags and what the
      handler has printed and driven so far. */
  class GCodeHandler {
    const scale: Scale
    var posX: int
    var posY: int
    var isFeedHold: bool
    var isPaused: bool
    var isHoming: bool
    var isResetting: bool
    var out: seq<Effect>

    /** The handler's fields as a value. */
    function State(): Machine
      reads this
    {
      Machine(posX, posY, isFeedHold, isPaused, isHoming, isResetting, out)
    }

    /** A new handler stands at the origin with every flag lowered. */
    constructor (scale: Scale)
      ensures this.scale == scale
      ensures State() == Machine(0, 0, false, false, false, false, [])
    {
      this.scale := scale;
      posX := 0;
      posY := 0;
      isFeedHold := false;
      isPaused := false;
      isHoming := false;
      isResetting := false;
      out := [];
    }

    /** `handleLine(line)`. */
    method HandleLine(line: string, b: Board)
      requires LineCanEnd(State(), line, b)
      modifies this
      ensures State() == LineSpec(old(State()), line, b, scale)
    {
      if |line| == 0 {
        return;
      }
      var l := Normalize(line);
      if l == "X+" || l == "X-" || l == "Y+" || l == "Y-" || l == "LIM?" || l == "BUZ" || l == "CLOCK" {
        JogCommand(l, b);
      } else if l == "FEEDHOLD" || l == "HOLD" {
        HandleFeedHold();
      } else if l == "PAUSE" {
        HandlePause();
      } else if l == "CYCLE" || l == "START" || l == "RESUME" {
        HandleCycleStart();
      } else if l == "RESET" {
        HandleReset();
      } else if l == "HOME" {
        HandleHome(b);
      } else if StartsWith(l, "G") {
        HandleGcode(l, b);
      } else {
        out := out + [Println(LineUnknown)];
      }
    }

    /** `jogCommand(cmd)`. */
    method JogCommand(cmd: string, b: Board)
      modifies this
      ensures State() == JogSpec(old(State()), cmd, b)
    {
      if isFeedHold || isPaused || isResetting || isHoming {
        out := out + [Println(JogIgnored)];
        return;
      }
      if cmd == "X+" {
        if b.limitX(0) {
          out := out + [Println(XPlusBlocked)];
        } else {
          out := out + [Println(JogXPlus), Step(AxisX, true, 200, 500)];
          posX := posX + 200;
        }
      } else if cmd == "X-" {
        out := out + [Println(JogXMinus), Step(AxisX, false, 200, 500)];
        posX := posX - 200;
      } else if cmd == "Y+" {
        if b.limitY(0) {
          out := out + [Println(YPlusBlocked)];
        } else {
          out := out + [Println(JogYPlus), Step(AxisY, true, 200, 500)];
          posY := posY + 200;
        }
      } else if cmd == "Y-" {
        out := out + [Println(JogYMinus), Step(AxisY, false, 200, 500)];
        posY := posY - 200;
      } else if cmd == "LIM?" {
        var x := PressedText(b.limitX(0));
        var y := PressedText(b.limitY(0));
        out := out + [Println("X limit: " + x + " | Y limit: " + y)];
      } else if cmd == "BUZ" {
        out := out + [Println(BuzzerTest), Beep(200)];
      } else if cmd == "CLOCK" {
        out := out + [Println("Current time: " + b.clock)];
      } else {
        out := out + [Println(JogUnknown)];
      }
    }

    /** `parseGcodeValue(line, code, fallback)`, up to the numeric value: the
        token it converts, or `None` where it returns the fallback. */
    method ParseGcodeValue(line: string, code: char) returns (token: Option<string>)
      ensures token == Token(line, code)
    {
      var idx := FirstIndex(line, code);
      if idx == -1 {
        return None;
      }
      var start := idx + 1;
      var end := start;
      while end < |line| && NumChar(line[end])
        invariant start <= end <= |line|
        invariant RunEnd(line, end) == RunEnd(line, start)
        decreases |line| - end
      {
        end := end + 1;
      }
      token := Some(line[start..end]);
    }

    /** `moveTo(targetX, targetY, feedrate)`. */
    method MoveTo(targetX: int, targetY: int, b: Board)
      modifies this
      ensures State() == MoveSpec(old(State()), targetX, targetY, b)
    {
      if isFeedHold || isPaused || isResetting || isHoming {
        out := out + [Println(MoveIgnored)];
        return;
      }
      var dx := targetX - posX;
      var dy := targetY - posY;
      var adx := Abs(dx);
      var ady := Abs(dy);
      // Readings taken so far; each pre-move check reads its switch once, and
      // only when its axis has to travel.
      var rx: nat, ry: nat := 0, 0;
      if dx != 0 {
        var pressed := b.limitX(rx);
        rx := rx + 1;
        if pressed {
          out := out + [Println(XBlocked)];
          return;
        }
      }
      if dy != 0 {
        var pressed := b.limitY(ry);
        ry := ry + 1;
        if pressed {
          out := out + [Println(YBlocked)];
          return;
        }
      }
      if dx == 0 && dy == 0 {
        out := out + [Println(NoMove), Println(Ok)];
        return;
      }
      var g := Geometry(adx, ady, dx > 0, dy > 0, rx, ry);
      var x, y, log := StepLoop(g, b, posX, posY);
      posX := x;
      posY := y;
      out := out + (log + [Println(Ok)]);
    }

    /** The `x` half of one iteration of `moveTo`'s loop: advance `x` and its
        reading counter, then read the switch; step only when it is open. */
    method StepX(g: Geometry, b: Board, ghost c: Cursor, e2: int, x0: int,
                 x: int, err: int, rx: nat, log: seq<Effect>)
      returns (x': int, err': int, rx': nat, log': seq<Effect>, pressed: bool)
      requires c.blocked == None && c.err == err && c.out == log && rx == g.xRead + c.nx
      requires x == Advance(x0, g.fx, c.nx)
      ensures var r := TickX(g, b, c, e2);
              pressed == r.blocked.Some? && r.err == err' && r.out == log' &&
              rx' == g.xRead + r.nx && r.ny == c.ny && x' == Advance(x0, g.fx, r.nx)
    {
      x', err', rx', log', pressed := x, err, rx, log, false;
      if e2 > -(g.ady as int) {
        err' := err - g.ady;
        x' := x + (if g.fx then 1 else -1);
        pressed := b.limitX(rx);
        rx' := rx + 1;
        if !pressed {
          log' := log + [Step(AxisX, g.fx, 1, 0)];
        }
      }
    }

    /** The `y` half, likewise. */
    method StepY(g: Geometry, b: Board, ghost c: Cursor, e2: int, y0: int,
                 y: int, err: int, ry: nat, log: seq<Effect>)
      returns (y': int, err': int, ry': nat, log': seq<Effect>, pressed: bool)
      requires c.blocked == None && c.err == err && c.out == log && ry == g.yRead + c.ny
      requires y == Advance(y0, g.fy, c.ny)
      ensures var r := TickY(g, b, c, e2);
              pressed == r.blocked.Some? && r.err == err' && r.out == log' &&
              ry' == g.yRead + r.ny && r.nx == c.nx && y' == Advance(y0, g.fy, r.ny)
    {
      y', err', ry', log', pressed := y, err, ry, log, false;
      if e2 < g.adx {
        err' := err + g.adx;
        y' := y + (if g.fy then 1 else -1);
        pressed := b.limitY(ry);
        ry' := ry + 1;
        if !pressed {
          log' := log + [Step(AxisY, g.fy, 1, 0)];
        }
      }
    }

    /** The stepping loop of `moveTo`, from `(x0, y0)`: the position it writes
        back and the steps it drives are those of `max(adx, ady)` iterations
        of `Tick`, or fewer when a switch ends the loop. */
    method StepLoop(g: Geometry, b: Board, x0: int, y0: int) returns (x: int, y: int, log: seq<Effect>)
      requires !(isFeedHold || isPaused || isResetting || isHoming)
      ensures var w := Walk(g, b, Max(g.adx, g.ady));
              log == w.out &&
              x == Advance(x0, g.fx, w.nx) && y == Advance(y0, g.fy, w.ny)
    {
      var total := Max(g.adx, g.ady);
      x, y := x0, y0;
      var err: int := g.adx - g.ady;
      var rx, ry := g.xRead, g.yRead;
      log := [];
      var i := 0;
      ghost var cur := Start(g);
      while i < total
        invariant 0 <= i <= total && cur == Walk(g, b, i)
        invariant rx == g.xRead + cur.nx && ry == g.yRead + cur.ny
        invariant cur.err == err && cur.out == log && cur.blocked == None
        invariant x == Advance(x0, g.fx, cur.nx) && y == Advance(y0, g.fy, cur.ny)
      {
        if isFeedHold || isPaused || isResetting || isHoming {
          log := log + [Println(Interrupted)];
          break;
        }
        WalkNext(g, b, i);
        var e2 := 2 * err;
        var pressed;
        ghost var c1 := TickX(g, b, cur, e2);
        x, err, rx, log, pressed := StepX(g, b, cur, e2, x0, x, err, rx, log);
        if pressed {
          cur := c1;
          WalkStays(g, b, i + 1, total);
          break;
        }
        ghost var c2 := TickY(g, b, c1, e2);
        y, err, ry, log, pressed := StepY(g, b, c1, e2, y0, y, err, ry, log);
        cur := c2;
        if pressed {
          WalkStays(g, b, i + 1, total);
          break;
        }
        i := i + 1;
      }
    }

    /** `handleGcode(line)`. */
    method HandleGcode(line: string, b: Board)
      modifies this
      ensures State() == GcodeSpec(old(State()), line, b, scale)
    {
      var l := Normalize(line);
      if StartsWith(l, "G0") || StartsWith(l, "G1") {
        var xToken := ParseGcodeValue(l, 'X');
        var yToken := ParseGcodeValue(l, 'Y');
        var targetX := if FirstIndex(l, 'X') >= 0 then scale.stepsX(xToken.value) else posX;
        var targetY := if FirstIndex(l, 'Y') >= 0 then scale.stepsY(yToken.value) else posY;
        MoveTo(targetX, targetY, b);
      } else {
        out := out + [Println(GcodeUnknown), Println(Ok)];
      }
    }

    /** `handleFeedHold()`. */
    method HandleFeedHold()
      modifies this
      ensures State() == FeedHoldSpec(old(State()))
    {
      isFeedHold := true;
      out := out + [Println(HoldMessage)];
    }

    /** `handlePause()`. */
    method HandlePause()
      modifies this
      ensures State() == PauseSpec(old(State()))
    {
      isPaused := true;
      out := out + [Println(PauseMessage)];
    }

    /** `handleCycleStart()`. */
    method HandleCycleStart()
      modifies this
      ensures State() == CycleStartSpec(old(State()))
    {
      if isFeedHold || isPaused {
        isFeedHold := false;
        isPaused := false;
        out := out + [Println(Resumed)];
      } else {
        out := out + [Println(NothingToResume)];
      }
    }

    /** `handleReset()`. */
    method HandleReset()
      modifies this
      ensures State() == ResetSpec(old(State()))
    {
      isFeedHold := false;
      isPaused := false;
      isResetting := true;
      out := out + [Println(ResetMessage)];
      posX := 0;
      posY := 0;
      isResetting := false;
    }

    /** `handleHome()`. */
    method HandleHome(b: Board)
      requires HomeCanEnd(State(), b)
      modifies this
      ensures State() == HomeSpec(old(State()), b)
    {
      if isHoming {
        out := out + [Println(AlreadyHoming)];
        return;
      }
      isHoming := true;
      out := out + [Println(HomingStarted)];
      DoHome(b);
      isHoming := false;
      out := out + [Println(HomingComplete)];
      assert out == old(out) + ([Println(HomingStarted)] + HomingTrail(b, old(isFeedHold || isPaused || isResetting)) +
                                [Println(HomingComplete)]);
    }

    /** One homing loop of `doHome()`: step `axis` backwards while its switch
        `l` reads open, unless a hold, pause or reset flag interrupts. */
    method HomeAxis(axis: Axis, l: nat -> bool) returns (log: seq<Effect>)
      requires isFeedHold || isPaused || isResetting || Reaches(l)
      ensures log == HomingRun(axis, l, isFeedHold || isPaused || isResetting)
    {
      ghost var stopped := isFeedHold || isPaused || isResetting;
      var k: nat := 0;
      ghost var n: nat := 0;
      if !stopped {
        n := FirstPressed(l);
      }
      log := [];
      while !l(k)
        invariant k <= n
        invariant stopped ==> k == 0 && log == []
        invariant !stopped ==> n == FirstPressed(l) && log == Repeat(HomeStep(axis), k)
        decreases n - k
      {
        if isFeedHold || isPaused || isResetting {
          log := log + [Println(HomingInterrupted)];
          break;
        }
        log := log + [HomeStep(axis)];
        k := k + 1;
      }
    }

    /** `doHome()`: each axis steps backwards until its switch reads pressed,
        unless a hold, pause or reset flag interrupts it; either way the axis
        position becomes 0. */
    method DoHome(b: Board)
      requires isFeedHold || isPaused || isResetting || (Reaches(b.limitX) && Reaches(b.limitY))
      modifies this
      ensures State() == old(State()).(posX := 0, posY := 0,
                           out := old(out) + HomingTrail(b, old(isFeedHold || isPaused || isResetting)))
    {
      var logX := HomeAxis(AxisX, b.limitX);
      posX := 0;
      var logY := HomeAxis(AxisY, b.limitY);
      posY := 0;
      out := out + ([Enable(AxisX)] + logX + [Enable(AxisY)] + logY + [Disable(AxisX), Disable(AxisY)]);
    }
  }
}
