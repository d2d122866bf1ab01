/** What the penguin's handlers guarantee, stated over the functions of PenguinMachine. */
module PenguinProperties {
  import opened PenguinTypes
  import opened PenguinLoader
  import opened PenguinMachine

  // ---------------------------------------------------------------- setState

  /** `setState(s)` selects `s`'s list or idle's, sets the state, resets the index and touches nothing else. */
  lemma EnterStateEffect(c: Counts, p: Penguin, s: AnimState)
    requires Valid(c, p)
    ensures var r := EnterState(c, p, s);
      r.state == s && r.index == 0 &&
      (s in c ==> r.count == c[s]) &&
      (s !in c ==> r.count == c[Idle]) &&
      r.facing == p.facing && r.pos == p.pos &&
      r.movingRight == p.movingRight && r.movingLeft == p.movingLeft &&
      r.dragPosition == p.dragPosition
    ensures EntryOutcome(c, s) == Raised(IndexError) <==> EnterState(c, p, s).count == 0
    ensures EntryOutcome(c, Idle) == Completed
  {
  }

  /** `setState` keeps the penguin valid, whatever list it selects. */
  lemma EnterStateValid(c: Counts, p: Penguin, s: AnimState)
    requires Valid(c, p)
    ensures Valid(c, EnterState(c, p, s))
  {
  }

  /** Entering the same state twice is the same as entering it once: no index drift. */
  lemma EnterStateIdempotent(c: Counts, p: Penguin, s: AnimState)
    requires Valid(c, p)
    ensures EnterState(c, EnterState(c, p, s), s) == EnterState(c, p, s)
  {
  }

  // ------------------------------------------------------------ one timer tick

  /** A tick that ends an action: the advanced index is the last one and the state is jump, atack or slide. */
  predicate EndsAction(p: Penguin) {
    p.count > 0 && IsAction(p.state) && (p.index + 1) % p.count == p.count - 1
  }

  /** A tick keeps the penguin valid: in particular the index stays in range of the current list. */
  lemma TickValid(c: Counts, p: Penguin)
    requires Valid(c, p)
    ensures Valid(c, Tick(c, p))
  {
  }

  /** With no frames a tick changes nothing. */
  lemma TickEmpty(c: Counts, p: Penguin)
    requires Valid(c, p) && p.count == 0
    ensures Tick(c, p) == p
  {
  }

  /**
   * A tick advances the index modulo the list's length, so it stays in range;
   * the state goes back to idle (index 0, idle's list) exactly when an action
   * reaches its last frame, and is kept otherwise.
   */
  lemma TickIndex(c: Counts, p: Penguin)
    requires Valid(c, p) && p.count > 0
    ensures var r := Tick(c, p);
      r.index < r.count &&
      (EndsAction(p) ==> r.state == Idle && r.index == 0 && r.count == Selected(c, Idle)) &&
      (!EndsAction(p) ==> r.state == p.state && r.count == p.count && r.index == (p.index + 1) % p.count)
  {
  }

  /** A tick never changes the facing, the held flags, or the drag offset. */
  lemma TickKeeps(c: Counts, p: Penguin)
    requires Valid(c, p)
    ensures var r := Tick(c, p);
      r.facing == p.facing &&
      r.movingRight == p.movingRight && r.movingLeft == p.movingLeft &&
      r.dragPosition == p.dragPosition
  {
  }

  /**
   * The position change of a tick: walking moves x by SPEED toward the facing
   * side; a jump rises when the advanced index is 0 and otherwise falls when
   * it is the last index; idle, atack and slide never move.
   */
  lemma TickMoves(c: Counts, p: Penguin)
    requires Valid(c, p) && p.count > 0
    ensures var r := Tick(c, p); var i := (p.index + 1) % p.count;
      (p.state == Walk ==> r.pos == Point(p.pos.x + WalkStep(p.facing), p.pos.y)) &&
      (p.state == Idle || p.state == Atack || p.state == Slide ==> r.pos == p.pos) &&
      (p.state == Jump ==> r.pos.x == p.pos.x) &&
      (p.state == Jump && i == 0 ==> r.pos.y == p.pos.y - SPEED) &&
      (p.state == Jump && i != 0 && i == p.count - 1 ==> r.pos.y == p.pos.y + SPEED) &&
      (p.state == Jump && i != 0 && i != p.count - 1 ==> r.pos.y == p.pos.y)
  {
  }

  // ---------------------------------------------------------- runs of ticks

  /** Before its last frame an action only advances the index, one step per tick. */
  lemma {:induction false} ActionClimbs(c: Counts, p: Penguin, k: nat)
    requires Valid(c, p) && IsAction(p.state) && p.count >= 2 && p.index + k <= p.count - 2
    ensures Ticks(c, p, k) == p.(index := p.index + k)
    decreases k
  {
    if k > 0 {
      ActionClimbs(c, p, k - 1);
      ActionStep(c, p.(index := p.index + k - 1));
    }
  }

  /** One tick of an action that has not yet reached its second-to-last frame. */
  lemma ActionStep(c: Counts, p: Penguin)
    requires Valid(c, p) && IsAction(p.state) && p.count >= 2 && p.index + 1 <= p.count - 2
    ensures Tick(c, p) == p.(index := p.index + 1)
  {
    assert (p.index + 1) % p.count == p.index + 1;
  }

  /** Where an action of `n` >= 2 frames leaves the window when it ends: a jump ends SPEED lower (the rise never fires). */
  function ActionEnd(p: Penguin, s: AnimState): Point {
    if s == Jump then Point(p.pos.x, p.pos.y + SPEED) else p.pos
  }

  /**
   * From `setState(s)` for jump, atack or slide with `n` >= 2 frames, each of
   * the first `n - 2` ticks only advances the index.
   */
  lemma ActionPrefix(c: Counts, p: Penguin, s: AnimState, k: nat)
    requires Valid(c, p) && IsAction(s) && Selected(c, s) >= 2 && k < Selected(c, s) - 1
    ensures Ticks(c, EnterState(c, p, s), k) == EnterState(c, p, s).(index := k)
  {
    ActionClimbs(c, EnterState(c, p, s), k);
  }

  /**
   * From `setState(s)` for jump, atack or slide with `n` >= 2 frames, tick
   * `n - 1` returns to idle; only a jump moves the window, and it ends SPEED
   * pixels lower.
   */
  lemma ActionRun(c: Counts, p: Penguin, s: AnimState)
    requires Valid(c, p) && IsAction(s) && Selected(c, s) >= 2
    ensures Ticks(c, EnterState(c, p, s), Selected(c, s) - 1) == EnterState(c, p, Idle).(pos := ActionEnd(p, s))
  {
    var e := EnterState(c, p, s);
    ActionEnds(c, e);
    assert EnterState(c, e, Idle) == EnterState(c, p, Idle);
  }

  /** An action at frame 0 with `n` >= 2 frames is over after `n - 1` ticks. */
  lemma ActionEnds(c: Counts, e: Penguin)
    requires Valid(c, e) && IsAction(e.state) && e.count >= 2 && e.index == 0
    ensures Ticks(c, e, e.count - 1) == EnterState(c, e, Idle).(pos := ActionEnd(e, e.state))
  {
    var m := e.count - 2;
    var q := e.(index := m);
    ActionClimbs(c, e, m);
    ActionLastTick(c, q);
  }

  /** The tick from the second-to-last frame ends the action. */
  lemma ActionLastTick(c: Counts, q: Penguin)
    requires Valid(c, q) && IsAction(q.state) && q.count >= 2 && q.index == q.count - 2
    ensures Tick(c, q) == EnterState(c, q, Idle).(pos := ActionEnd(q, q.state))
  {
    assert (q.index + 1) % q.count == q.count - 1;
  }

  /** With a single frame the first tick ends the action; a one-frame jump rises and never falls. */
  lemma ActionSingleFrame(c: Counts, p: Penguin, s: AnimState)
    requires Valid(c, p) && IsAction(s) && Selected(c, s) == 1
    ensures Tick(c, EnterState(c, p, s)) ==
              EnterState(c, p.(pos := if s == Jump then Point(p.pos.x, p.pos.y - SPEED) else p.pos), Idle)
  {
  }

  /** Advancing a reduced index is advancing the unreduced one (used for runs of idle and walk). */
  lemma ModSucc(a: nat, n: nat)
    requires n > 0
    ensures (a % n + 1) % n == (a + 1) % n
  {
    var q, r := a / n, a % n;
    assert a == q * n + r;
    if r + 1 < n {
      DivModUnique(a + 1, n, q, r + 1);
    } else {
      assert a + 1 == (q + 1) * n;
      DivModUnique(a + 1, n, q + 1, 0);
    }
  }

  /** A remainder is determined by any quotient-remainder decomposition with `0 <= r < n`. */
  lemma DivModUnique(a: int, n: int, q: int, r: int)
    requires n > 0 && 0 <= r < n && a == q * n + r
    ensures a % n == r
  {
    MulBounds(q - a / n, n);
  }

  /** A non-zero multiple of `n` is at least `n` away from 0. */
  lemma MulBounds(d: int, n: int)
    requires n > 0
    ensures d >= 1 ==> d * n >= n
    ensures d <= -1 ==> d * n <= -n
  {
  }

  /**
   * Idle and walk never end by themselves: after `k` ticks the index is the
   * start index plus `k` modulo the list's length, and a walk has moved
   * `k * SPEED` pixels toward the facing side.
   */
  lemma {:induction false} LoopsInPlace(c: Counts, p: Penguin, k: nat)
    requires Valid(c, p) && p.count > 0 && (p.state == Idle || p.state == Walk)
    ensures Ticks(c, p, k) == Looped(p, k)
    decreases k
  {
    if k == 0 {
      LoopedZero(p);
    } else {
      LoopsInPlace(c, p, k - 1);
      LoopedStep(c, p, k);
    }
  }

  /** Where idle or walk is after `k` ticks if nothing else happens. */
  function Looped(p: Penguin, k: nat): Penguin
    requires p.count > 0
  {
    p.(index := (p.index + k) % p.count,
       pos := if p.state == Walk then Point(p.pos.x + k * WalkStep(p.facing), p.pos.y) else p.pos)
  }

  /** No ticks, no change. */
  lemma LoopedZero(p: Penguin)
    requires p.count > 0 && p.index < p.count
    ensures Looped(p, 0) == p
  {
    assert p.index % p.count == p.index;
  }

  /** One more tick of idle or walk extends the closed form by one step. */
  lemma LoopedStep(c: Counts, p: Penguin, k: nat)
    requires Valid(c, p) && p.count > 0 && (p.state == Idle || p.state == Walk) && k >= 1
    ensures Valid(c, Looped(p, k - 1)) && Tick(c, Looped(p, k - 1)) == Looped(p, k)
  {
    var r := Looped(p, k - 1);
    LoopTick(c, r);
    ModSucc(p.index + (k - 1), p.count);
    var w := WalkStep(p.facing);
    assert (k - 1) * w + w == k * w;
  }

  /** One tick of idle or walk. */
  lemma LoopTick(c: Counts, p: Penguin)
    requires Valid(c, p) && p.count > 0 && (p.state == Idle || p.state == Walk)
    ensures Tick(c, p) ==
              p.(index := (p.index + 1) % p.count,
                 pos := if p.state == Walk then Point(p.pos.x + WalkStep(p.facing), p.pos.y) else p.pos)
  {
  }



  // ------------------------------------------------------------------- keys

  /**
   * A press of Right or Left sets its flag and the facing and enters walk
   * whatever the state was (so a repeated press restarts the walk at frame 0);
   * Up, Down and A enter jump, slide and atack; any other key changes nothing.
   */
  lemma PressKeyEffect(c: Counts, p: Penguin, k: Key)
    requires Valid(c, p)
    ensures var r := PressKey(c, p, k);
      (PressTarget(k).Some? ==>
         r.state == PressTarget(k).value && r.index == 0 &&
         r.count == Selected(c, PressTarget(k).value)) &&
      (k == KeyRight ==> r.movingRight && r.facing == Right && r.movingLeft == p.movingLeft) &&
      (k == KeyLeft ==> r.movingLeft && r.facing == Left && r.movingRight == p.movingRight) &&
      (k != KeyRight && k != KeyLeft ==>
         r.facing == p.facing && r.movingRight == p.movingRight && r.movingLeft == p.movingLeft) &&
      r.pos == p.pos && r.dragPosition == p.dragPosition &&
      (k == OtherKey ==> r == p)
    ensures PressOutcome(c, k) == Raised(IndexError) <==> PressTarget(k).Some? && PressKey(c, p, k).count == 0
  {
  }

  /** A key press keeps the penguin valid. */
  lemma PressKeyValid(c: Counts, p: Penguin, k: Key)
    requires Valid(c, p)
    ensures Valid(c, PressKey(c, p, k))
  {
  }

  /** A key release keeps the penguin valid. */
  lemma ReleaseKeyValid(c: Counts, p: Penguin, k: Key)
    requires Valid(c, p)
    ensures Valid(c, ReleaseKey(c, p, k))
  {
  }

  /**
   * A release clears only the released arrow's flag; the state becomes idle
   * exactly when it was walk and no arrow is held afterwards, and otherwise
   * state, list and index are kept. Facing and position never change.
   */
  lemma ReleaseKeyEffect(c: Counts, p: Penguin, k: Key)
    requires Valid(c, p)
    ensures var r := ReleaseKey(c, p, k);
      r.movingRight == (p.movingRight && k != KeyRight) &&
      r.movingLeft == (p.movingLeft && k != KeyLeft) &&
      r.facing == p.facing && r.pos == p.pos && r.dragPosition == p.dragPosition &&
      (p.state == Walk && !r.movingRight && !r.movingLeft ==>
         r.state == Idle && r.index == 0 && r.count == Selected(c, Idle)) &&
      (!(p.state == Walk && !r.movingRight && !r.movingLeft) ==>
         r.state == p.state && r.index == p.index && r.count == p.count)
  {
  }

  /**
   * Hold Right, then Left, release Right: still walking, facing left (the
   * last press); release Left as well: idle.
   */
  lemma WalkRelease(c: Counts, p: Penguin)
    requires Valid(c, p)
    ensures var both := PressKey(c, PressKey(c, p, KeyRight), KeyLeft);
      var leftOnly := ReleaseKey(c, both, KeyRight);
      leftOnly.state == Walk && leftOnly.facing == Left && leftOnly.movingLeft &&
      ReleaseKey(c, leftOnly, KeyLeft).state == Idle
  {
  }

  // ------------------------------------------------------------------- mouse

  /**
   * After a left press at `press`, a drag to `cursor` puts the window at
   * `cursor - (press - topLeft)`; dragging back to `press` restores it exactly.
   * Neither the press nor the drag touches the animation, the facing or the
   * arrow flags: the press sets only the offset, the drag only the position.
   */
  lemma DragFollowsCursor(p: Penguin, press: Point, buttons: set<MouseButton>, cursor: Point)
    requires LeftButton in buttons
    ensures var q := PressMouse(p, LeftButton, press);
      q == p.(dragPosition := Some(press.Minus(p.pos))) &&
      MoveMouse(q, buttons, cursor) == q.(pos := cursor.Minus(press.Minus(p.pos))) &&
      MoveMouse(q, buttons, press) == q &&
      MoveOutcome(q, buttons) == Completed
  {
  }

  /** Where a drag puts the window depends only on the latest cursor position. */
  lemma DragForgetsPath(p: Penguin, buttons: set<MouseButton>, c1: Point, c2: Point)
    ensures MoveMouse(MoveMouse(p, buttons, c1), buttons, c2) == MoveMouse(p, buttons, c2)
  {
  }

  /** Other buttons, and moves without the left button, change nothing. */
  lemma MouseIgnoresOthers(p: Penguin, button: MouseButton, buttons: set<MouseButton>, cursor: Point)
    ensures button != LeftButton ==> PressMouse(p, button, cursor) == p
    ensures LeftButton !in buttons ==> MoveMouse(p, buttons, cursor) == p && MoveOutcome(p, buttons) == Completed
  {
  }

  // ------------------------------------------------------ event sequences

  /** The callbacks the host delivers to the widget, one at a time. */
  datatype Event =
    | TimerTick
    | Press(key: Key)
    | Release(key: Key)
    | MouseDown(button: MouseButton, cursor: Point)
    | MouseDrag(buttons: set<MouseButton>, cursor: Point)

  /** The handler one event runs. */
  function Step(c: Counts, p: Penguin, e: Event): Penguin
    requires Idle in c
  {
    match e
    case TimerTick => Tick(c, p)
    case Press(k) => PressKey(c, p, k)
    case Release(k) => ReleaseKey(c, p, k)
    case MouseDown(b, cursor) => PressMouse(p, b, cursor)
    case MouseDrag(bs, cursor) => MoveMouse(p, bs, cursor)
  }

  /** The handlers of a sequence of events, run in order. */
  function Run(c: Counts, p: Penguin, events: seq<Event>): Penguin
    requires Idle in c
    decreases |events|
  {
    if events == [] then p else Run(c, Step(c, p, events[0]), events[1..])
  }

  /** Walking always has an arrow held. */
  ghost predicate WalkHeld(p: Penguin) {
    p.state == Walk ==> p.movingRight || p.movingLeft
  }

  /** Every event keeps the penguin valid and keeps WalkHeld. */
  lemma StepKeepsWalkHeld(c: Counts, p: Penguin, e: Event)
    requires Valid(c, p) && WalkHeld(p)
    ensures Valid(c, Step(c, p, e)) && WalkHeld(Step(c, p, e))
  {
    match e
    case TimerTick => TickValid(c, p);
    case Press(k) => PressKeyValid(c, p, k);
    case Release(k) => ReleaseKeyValid(c, p, k);
    case MouseDown(b, cursor) =>
    case MouseDrag(bs, cursor) =>
  }

  /**
   * Whatever events arrive, a valid penguin in which walking comes with a
   * held arrow stays so: the index stays in range of the current list.
   */
  lemma {:induction false} RunKeepsWalkHeld(c: Counts, p: Penguin, events: seq<Event>)
    requires Valid(c, p) && WalkHeld(p)
    ensures Valid(c, Run(c, p, events)) && WalkHeld(Run(c, p, events))
    decreases |events|
  {
    if events != [] {
      StepKeepsWalkHeld(c, p, events[0]);
      RunKeepsWalkHeld(c, Step(c, p, events[0]), events[1..]);
    }
  }

  /** Since walking always has an arrow held, releasing any other key never changes the state. */
  lemma ReleaseOtherKeyInert(c: Counts, p: Penguin, k: Key)
    requires Valid(c, p) && WalkHeld(p) && k != KeyRight && k != KeyLeft
    ensures ReleaseKey(c, p, k) == p
  {
  }

  /** The penguin `__init__` builds satisfies WalkHeld, so every penguin reachable from it is valid and satisfies it. */
  lemma ReachableWalkHeld(load: SpriteFile -> Frame, idleRetry: Frame, events: seq<Event>)
    requires !StartupRaises(load, idleRetry)
    ensures Valid(LoadedCounts(load, idleRetry), Run(LoadedCounts(load, idleRetry), Startup(load, idleRetry), events))
    ensures WalkHeld(Run(LoadedCounts(load, idleRetry), Startup(load, idleRetry), events))
  {
    RunKeepsWalkHeld(LoadedCounts(load, idleRetry), Startup(load, idleRetry), events);
  }
}
