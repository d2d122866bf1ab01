/**
 * The penguin's animation state machine as values. The widget's changing
 * fields form one record, and each event handler is a function from the
 * fields before the event to the fields after it. The handlers only ever look
 * at the LENGTH of a frame list, so the record carries the current list's
 * length, and the loaded lists, which never change after loading, enter as a
 * fixed map from state to length. The class in widget.dfy holds the lists
 * themselves and is proved against these functions.
 */
module PenguinMachine {
  import opened PenguinTypes
  import opened PenguinLoader

  /** How many frames the loaded list of each state holds. */
  type Counts = map<AnimState, nat>

  /** The lengths of the loaded lists. */
  function CountsOf(animations: map<AnimState, seq<Frame>>): (c: Counts)
    ensures c.Keys == animations.Keys
    ensures forall s :: s in c ==> c[s] == |animations[s]|
  {
    map s | s in animations :: |animations[s]|
  }

  /** The fields of `PenguinCharacter` that the handlers change; `count` is `len(current_frames)`. */
  datatype Penguin = Penguin(
    state: AnimState,
    count: nat,
    index: nat,
    facing: Facing,
    pos: Point,
    movingRight: bool,
    movingLeft: bool,
    dragPosition: Option<Point>)

  /**
   * What holds of every penguin that `__init__` produces and that the
   * handlers keep: the idle list exists and is non-empty, the current list is
   * the one selected for the current state, and the index points into it (it
   * is 0 when the list is empty).
   */
  ghost predicate Valid(counts: Counts, p: Penguin) {
    Idle in counts && counts[Idle] > 0 &&
    p.count == Selected(counts, p.state) &&
    (p.count == 0 ==> p.index == 0) &&
    (p.count > 0 ==> p.index < p.count)
  }

  /** `setState`'s choice of list: the state's own, or idle's when the state has none. */
  function Selected<T>(lists: map<AnimState, T>, s: AnimState): T
    requires Idle in lists
  {
    if s in lists then lists[s] else lists[Idle]
  }

  /** The penguin right after `__init__`, given the lengths of the loaded lists. */
  function Initial(counts: Counts): (p: Penguin)
    requires Idle in counts && counts[Idle] > 0
    ensures Valid(counts, p)
    ensures p.state == Idle && p.index == 0 && p.pos == START && p.facing == Right
    ensures !p.movingRight && !p.movingLeft && p.dragPosition.None?
  {
    Penguin(Idle, counts[Idle], 0, Right, START, false, false, None)
  }

  /** The lengths of the lists `loadAnimations` builds. */
  function LoadedCounts(load: SpriteFile -> Frame, idleRetry: Frame): Counts {
    CountsOf(Animations(load, idleRetry))
  }

  /** The penguin `__init__` builds from the loader's results, when it does not raise. */
  function Startup(load: SpriteFile -> Frame, idleRetry: Frame): (p: Penguin)
    requires !StartupRaises(load, idleRetry)
    ensures Valid(LoadedCounts(load, idleRetry), p)
    ensures p.state == Idle && p.index == 0 && p.pos == START && p.facing == Right
    ensures !p.movingRight && !p.movingLeft && p.dragPosition.None?
  {
    Initial(LoadedCounts(load, idleRetry))
  }

  /** The fields after `setState(s)` has assigned them (it raises right after if the list is empty). */
  function EnterState(counts: Counts, p: Penguin, s: AnimState): Penguin
    requires Idle in counts
  {
    p.(state := s, count := Selected(counts, s), index := 0)
  }

  /** `setState(s)` raises IndexError exactly when the selected list is empty. */
  function EntryOutcome(counts: Counts, s: AnimState): Outcome
    requires Idle in counts
  {
    if Selected(counts, s) == 0 then Raised(IndexError) else Completed
  }

  /** The horizontal step of one walking tick. */
  function WalkStep(f: Facing): int {
    if f == Right then SPEED else -SPEED
  }

  /** The states that return to idle when their last frame is reached. */
  predicate IsAction(s: AnimState) {
    s == Jump || s == Atack || s == Slide
  }

  /**
   * Where a tick leaves the window, given the advanced index `i`: a walking
   * penguin moves SPEED pixels toward the side it faces; a jumping one rises
   * on frame 0, or else falls on the last frame; every other state stays put.
   */
  function Moved(p: Penguin, i: nat): Point {
    if p.state == Walk then Point(p.pos.x + WalkStep(p.facing), p.pos.y)
    else if p.state != Jump then p.pos
    else if i == 0 then Point(p.pos.x, p.pos.y - SPEED)
    else if i == p.count - 1 then Point(p.pos.x, p.pos.y + SPEED)
    else p.pos
  }

  /**
   * One timer tick (`updateAnimation`). With no frames nothing happens.
   * Otherwise the index advances modulo the list's length, the window moves
   * as `Moved` says, and a jump, attack or slide whose advanced index is the
   * last one goes back to idle as `setState(IDLE)` does. (The handler's two
   * separate end checks cannot both fire: after the jump's check the state is
   * idle.)
   */
  function Tick(counts: Counts, p: Penguin): Penguin
    requires Idle in counts
  {
    if p.count == 0 then p
    else
      var i := (p.index + 1) % p.count;
      var ends := IsAction(p.state) && i == p.count - 1;
      p.(state := if ends then Idle else p.state,
         count := if ends then Selected(counts, Idle) else p.count,
         index := if ends then 0 else i,
         pos := Moved(p, i))
  }

  /** `k` timer ticks in a row. */
  function Ticks(counts: Counts, p: Penguin, k: nat): Penguin
    requires Idle in counts
  {
    if k == 0 then p else Tick(counts, Ticks(counts, p, k - 1))
  }

  /** `keyPressEvent`: the fields after the handler, whether or not its `setState` raised. */
  function PressKey(counts: Counts, p: Penguin, k: Key): Penguin
    requires Idle in counts
  {
    match k
    case KeyRight => EnterState(counts, p.(movingRight := true, facing := Right), Walk)
    case KeyLeft => EnterState(counts, p.(movingLeft := true, facing := Left), Walk)
    case KeyUp => EnterState(counts, p, Jump)
    case KeyDown => EnterState(counts, p, Slide)
    case KeyA => EnterState(counts, p, Atack)
    case OtherKey => p
  }

  /** The state a key press enters, if any. */
  function PressTarget(k: Key): Option<AnimState> {
    match k
    case KeyRight => Some(Walk)
    case KeyLeft => Some(Walk)
    case KeyUp => Some(Jump)
    case KeyDown => Some(Slide)
    case KeyA => Some(Atack)
    case OtherKey => None
  }

  /** `keyPressEvent` raises exactly when the state it enters has an empty list. */
  function PressOutcome(counts: Counts, k: Key): Outcome
    requires Idle in counts
  {
    match PressTarget(k)
    case Some(s) => EntryOutcome(counts, s)
    case None => Completed
  }

  /** The flags after a key release: the released arrow's flag is cleared. */
  function ClearFlag(p: Penguin, k: Key): Penguin {
    if k == KeyRight then p.(movingRight := false)
    else if k == KeyLeft then p.(movingLeft := false)
    else p
  }

  /** `keyReleaseEvent`: clear the released arrow's flag, then go idle if walking with no arrow held. */
  function ReleaseKey(counts: Counts, p: Penguin, k: Key): Penguin
    requires Idle in counts
  {
    var cleared := ClearFlag(p, k);
    if !(cleared.movingRight || cleared.movingLeft) && cleared.state == Walk
    then EnterState(counts, cleared, Idle)
    else cleared
  }

  /** `mousePressEvent`: a left press records the cursor's offset from the window's top-left corner. */
  function PressMouse(p: Penguin, button: MouseButton, cursor: Point): Penguin {
    if button == LeftButton then p.(dragPosition := Some(cursor.Minus(p.pos))) else p
  }

  /** `mouseMoveEvent`: while the left button is held, put the window at the cursor minus the offset. */
  function MoveMouse(p: Penguin, buttons: set<MouseButton>, cursor: Point): Penguin {
    if LeftButton in buttons && p.dragPosition.Some? then p.(pos := cursor.Minus(p.dragPosition.value))
    else p
  }

  /** A move with the left button held before any left press reads the unset `drag_position`. */
  function MoveOutcome(p: Penguin, buttons: set<MouseButton>): Outcome {
    if LeftButton in buttons && p.dragPosition.None? then Raised(AttributeError) else Completed
  }
}
