# Virtual pet penguin: the animation state machine

The penguin is a frameless, always-on-top window, `PenguinCharacter` in
`penguin.py`. It loads five lists of sprite frames (idle, walk, jump, atack,
slide) and shows one frame at a time. A timer advances the frame and moves the
window. Key presses switch the animation, and a left-button drag moves the
window. This project models that widget in Dafny:

- `types.dfy` (module `PenguinTypes`): states, facing, keys, mouse buttons,
  points, frames (a pixmap or None), the speed constant and the start position.
  It also has `Outcome`, which says whether a handler returned normally or
  raised a Python exception part-way.
- `loader.dfy` (module `PenguinLoader`): `loadAnimations`. The image loader is
  a parameter: `load(f)` is what the first `loadImage` call for file `f`
  returns, and `idleRetry` is what the second call for `penguin_idle_01`
  returns. The pure functions `Attempts`, `Kept`, `IdleFrames` and `Animations`
  say which frames end up in which list and in what order. The methods
  `LoadFrameSet`, `LoadIdle`, `LoadSlide` and `LoadAnimations` are the code's
  loops, proved equal to those functions.
- `machine.dfy` (module `PenguinMachine`): the fields the handlers change, as
  one record `Penguin`. Each handler is a function on that record:
  `EnterState` (`setState`), `Tick` (`updateAnimation`), `PressKey`,
  `ReleaseKey`, `PressMouse` and `MoveMouse`. A handler only ever uses the
  length of a frame list, so the record holds the current list's length,
  and the loaded lists enter as a fixed map from state to length. The record
  is "valid" when the idle list is non-empty, the current list is the one the
  state selects, and the index is inside it.
- `properties.dfy` (module `PenguinProperties`): the guarantees, as lemmas:
  - per-tick behaviour: the index, the motion, and the return to idle;
  - whole runs of an action (a jump of n frames ends after n - 1 ticks, SPEED
    pixels lower);
  - idle and walk loop forever;
  - key bookkeeping;
  - drag arithmetic;
  - an invariant over any sequence of events: walking always has an arrow
    key held.
- `widget.dfy` (module `PenguinWidget`): the class `PenguinCharacter` with the
  source's fields, including the frame lists themselves. Its handlers are
  written statement by statement as in the source. Each is proved to keep
  `Valid()` and to leave `Model()` equal to the matching function of
  `PenguinMachine` applied to the state before.

Python exceptions are part of the model, not excluded by preconditions:

- `setState` on a state whose list is empty raises IndexError (`penguin.py`
  line 141). By then it has already set the state, the list and the index.
  `Outcome` reports the exception, and the fields stay as updated.
- A mouse move with the left button held before any left press reads
  `drag_position`, which is not set yet. That raises AttributeError.
- If every idle frame fails to load and the retry fails too, the idle list is
  `[None]`. That list is non-empty, so `__init__` passes None to `setPixmap`
  at line 87, which raises TypeError. No widget then exists, so the
  constructor requires `!StartupRaises(load, idleRetry)`.
  `StartupRaisesIff` states exactly when that happens.

The model follows the code, including its quirks:

- Key presses have no guard: a repeated press restarts the animation at
  frame 0.
- A jump of two or more frames never takes the "rise" branch. `setState`
  resets the index to 0, and the tick advances the index before it checks for
  0. So the jump ends SPEED pixels lower than it began; `ActionRun` states
  this.
- The slide list starts with the pre-slide frame, and the slide goes back to
  idle at its last frame.

The code has none of the following, so neither does the model:

- a separate pre-slide state;
- a bounce at the screen edge;
- a slide velocity;
- "only if not already in this state" guards;
- filtering of auto-repeated keys.

A state whose list is empty does not fall back to idle: `setState` falls back
to idle's list only when the state is missing from the dictionary. Loading
always creates all five keys, so an empty list ends in the IndexError above.

## Model

| member | source | states |
|---|---|---|
| PenguinLoader.Pad2 | penguin.py:43 | `{i:02d}` gives two digits, zero-padded, for `i < 100`, and at least two digits otherwise |
| PenguinLoader.PathPattern | penguin.py:43-78 | frame n (1 to 9) of every sprite is named `images/penguin_<name>_0<n>.png` |
| PenguinLoader.PathExamples | penguin.py:43-74 | concrete names of files tried, e.g. `penguin_idle_01`, `penguin_walk_08`, `penguin_preslide_01` |
| PenguinLoader.Attempts | penguin.py:42-43 | the load results of one loop: one per file, result k belongs to file number k + 1 |
| PenguinLoader.Kept | penguin.py:44-45 | definition of the `if pix:` filter: keeps the successful loads in order, never more entries than results; pinned down by KeptAppend, KeptMembers, KeptLoaded, KeptAllLoaded and KeptEmpty |
| PenguinLoader.KeptAppend | penguin.py:42-45 | keeping only the successful loads preserves file order: results that come earlier keep their frames earlier |
| PenguinLoader.KeptMembers | penguin.py:44-45 | a pixmap is in the kept list exactly when it was among the load results |
| PenguinLoader.KeptLoaded | penguin.py:44-45 | every kept entry is a successful load |
| PenguinLoader.KeptAllLoaded | penguin.py:44-45 | when every load succeeds nothing is dropped |
| PenguinLoader.KeptEmpty | penguin.py:44-46 | the kept list is empty exactly when every load failed |
| PenguinLoader.IdleFrames | penguin.py:41-46 | the idle list has between 1 and 4 entries |
| PenguinLoader.Animations | penguin.py:37-81 | all five keys are present; idle has 1..4 frames, walk at most 8, jump and atack at most 3, slide at most 1 + 3 |
| PenguinLoader.IdleFallback | penguin.py:46 | when all four idle loads fail the idle list is the single retry result |
| PenguinLoader.IdleLoaded | penguin.py:41-46 | when some idle load succeeds there is no retry, and the idle list holds only successful loads |
| PenguinLoader.SlideStartsWithPreslide | penguin.py:73-81 | a loaded pre-slide frame is element 0 of the slide list, followed by the slide frames that loaded |
| PenguinLoader.StartupRaises | penguin.py:84-88 | definition: `__init__` shows a None first idle frame; characterised by StartupRaisesIff |
| PenguinLoader.StartupRaisesIff | penguin.py:41-88 | `__init__` raises exactly when all four idle loads fail and the retry fails too |
| PenguinLoader.StartupLoaded | penguin.py:37-88 | when start-up succeeds, every entry of every list is a pixmap |
| PenguinLoader.LoadFrameSet | penguin.py:49-54 | one `for`/`append` loop builds exactly the successful loads of frames 1..count, in order |
| PenguinLoader.LoadIdle | penguin.py:41-46 | the idle loop plus the fallback builds `IdleFrames` |
| PenguinLoader.LoadSlide | penguin.py:73-81 | the pre-slide load, then the slide loop, builds the kept pre-slide-then-slide results |
| PenguinLoader.LoadAnimations | penguin.py:37-81 | the dictionary built is `Animations(load, idleRetry)` |
| PenguinMachine.Initial | penguin.py:13-18 | after `__init__` the state is idle, index 0, facing right, no arrow held, no drag offset, and the record is valid |
| PenguinMachine.Startup | penguin.py:7-19 | the widget `__init__` builds from the loader's lists is valid, idle, at (100, 100), facing right |
| PenguinMachine.EnterState | penguin.py:132-140 | definition of `setState`'s assignments; specified by EnterStateEffect, EnterStateValid and EnterStateIdempotent |
| PenguinMachine.EntryOutcome | penguin.py:141 | definition of `setState`'s IndexError; specified by EnterStateEffect |
| PenguinMachine.Tick | penguin.py:95-130 | definition of `updateAnimation`; specified by TickValid, TickEmpty, TickIndex, TickKeeps and TickMoves |
| PenguinMachine.PressKey | penguin.py:149-167 | definition of `keyPressEvent`; specified by PressKeyEffect and PressKeyValid |
| PenguinMachine.PressOutcome | penguin.py:149-167 | definition of whether `keyPressEvent` raises; specified by PressKeyEffect |
| PenguinMachine.ReleaseKey | penguin.py:169-179 | definition of `keyReleaseEvent`; specified by ReleaseKeyEffect and ReleaseKeyValid |
| PenguinMachine.PressMouse | penguin.py:182-187 | definition of `mousePressEvent`; specified by DragFollowsCursor and MouseIgnoresOthers |
| PenguinMachine.MoveMouse | penguin.py:189-194 | definition of `mouseMoveEvent`; specified by DragFollowsCursor, DragForgetsPath and MouseIgnoresOthers |
| PenguinMachine.MoveOutcome | penguin.py:189-191 | definition of `mouseMoveEvent`'s AttributeError; specified by DragFollowsCursor and MouseIgnoresOthers |
| PenguinProperties.EnterStateEffect | penguin.py:132-141 | `setState(s)` sets the state to `s` and the index to 0, selects `s`'s list or else idle's, and changes nothing else; it raises IndexError exactly when that list is empty, and never for idle |
| PenguinProperties.EnterStateValid | penguin.py:132-140 | `setState` keeps the record valid, even when it raises |
| PenguinProperties.EnterStateIdempotent | penguin.py:132-140 | `setState(s)` twice equals `setState(s)` once |
| PenguinProperties.TickValid | penguin.py:95-130 | a tick keeps the record valid |
| PenguinProperties.TickEmpty | penguin.py:99-100 | with an empty list a tick changes nothing |
| PenguinProperties.TickIndex | penguin.py:102-130 | a tick makes the index `(old + 1) mod len`, which is in range; it goes back to idle (index 0, idle's list) exactly when jump, atack or slide reaches its last index, and keeps the state and list otherwise |
| PenguinProperties.TickKeeps | penguin.py:95-130 | a tick never changes facing, the held-arrow flags or the drag offset |
| PenguinProperties.TickMoves | penguin.py:111-125 | walking moves x by +SPEED facing right and -SPEED facing left, y unchanged; a jump rises when the advanced index is 0, else falls on the last index, never both; idle, atack and slide never move |
| PenguinProperties.ActionStep | penguin.py:102-130 | before the second-to-last frame, an action's tick only advances the index |
| PenguinProperties.ActionClimbs | penguin.py:102-130 | k such ticks advance the index by k and change nothing else |
| PenguinProperties.ActionLastTick | penguin.py:119-140 | the tick from the second-to-last frame returns to idle; only a jump moves, falling SPEED |
| PenguinProperties.ActionEnds | penguin.py:119-140 | an action at frame 0 with n >= 2 frames is back in idle after exactly n - 1 ticks |
| PenguinProperties.ActionPrefix | penguin.py:102-140 | after `setState(s)` for an action with n >= 2 frames, tick k < n - 1 leaves index k and nothing else changed |
| PenguinProperties.ActionRun | penguin.py:119-140 | after `setState(s)` for jump, atack or slide with n >= 2 frames, n - 1 ticks give idle at index 0; x never changes, and y is SPEED larger for a jump (the rise never fires) and unchanged otherwise |
| PenguinProperties.ActionSingleFrame | penguin.py:102-130 | with a single frame, the first tick returns to idle; a one-frame jump rises and never falls |
| PenguinProperties.LoopTick | penguin.py:102-116 | one tick of idle or walk advances the index and moves a walk one step |
| PenguinProperties.LoopedStep | penguin.py:102-116 | one more tick of idle or walk extends the closed form by one step |
| PenguinProperties.LoopsInPlace | penguin.py:102-116 | idle and walk never end by themselves: after k ticks the index is `(start + k) mod len`, and a walk has moved k * SPEED toward its facing side |
| PenguinProperties.PressKeyEffect | penguin.py:149-167 | Right and Left set their own flag and the facing and enter walk, whatever the prior state; Up, Down and A enter jump, slide and atack with index 0; other keys change nothing; a press raises exactly when the entered list is empty |
| PenguinProperties.PressKeyValid | penguin.py:149-167 | a key press keeps the record valid |
| PenguinProperties.ReleaseKeyValid | penguin.py:169-179 | a key release keeps the record valid |
| PenguinProperties.ReleaseKeyEffect | penguin.py:169-179 | a release clears only the released arrow's flag; the state becomes idle exactly when it was walk and no arrow is held afterwards; otherwise state, list and index are unchanged; facing and position never change |
| PenguinProperties.WalkRelease | penguin.py:149-179 | Right, then Left, then releasing Right: still walking, facing left; releasing Left as well gives idle |
| PenguinProperties.DragFollowsCursor | penguin.py:182-191 | after a left press at `p` with the window at `t`, a move to `c` puts the window at `c - (p - t)`, and a move back to `p` restores `t` exactly; the press changes only the offset and the move only the position |
| PenguinProperties.DragForgetsPath | penguin.py:189-191 | where a drag puts the window depends only on the latest cursor position |
| PenguinProperties.MouseIgnoresOthers | penguin.py:182-194 | presses of other buttons, and moves without the left button held, change nothing and never raise |
| PenguinProperties.StepKeepsWalkHeld | penguin.py:95-194 | every event keeps the record valid and keeps "walking implies an arrow is held" |
| PenguinProperties.RunKeepsWalkHeld | penguin.py:95-194 | any sequence of events keeps both |
| PenguinProperties.ReleaseOtherKeyInert | penguin.py:169-179 | in a reachable state, releasing a key other than Right or Left changes nothing |
| PenguinProperties.ReachableWalkHeld | penguin.py:7-194 | every record reachable from start-up by any events is valid, and walks only with an arrow held |
| PenguinWidget.PenguinCharacter.constructor | penguin.py:7-19 | `__init__` places the window, loads the lists, and starts idle at frame 0 facing right; the object is valid and its fields are `Startup(load, idleRetry)` |
| PenguinWidget.PenguinCharacter.SetState | penguin.py:132-147 | the fields become `EnterState` of the old ones, the current list is the selected list, and the outcome is IndexError exactly when that list is empty |
| PenguinWidget.PenguinCharacter.UpdateAnimation | penguin.py:95-130 | the statement-by-statement tick leaves the fields as `Tick` of the old ones |
| PenguinWidget.PenguinCharacter.KeyPressEvent | penguin.py:149-167 | the fields become `PressKey` of the old ones, with the outcome of its `setState` |
| PenguinWidget.PenguinCharacter.KeyReleaseEvent | penguin.py:169-179 | the fields become `ReleaseKey` of the old ones |
| PenguinWidget.PenguinCharacter.MousePressEvent | penguin.py:182-187 | the fields become `PressMouse` of the old ones |
| PenguinWidget.PenguinCharacter.MouseMoveEvent | penguin.py:189-194 | the fields become `MoveMouse` of the old ones, and the outcome is AttributeError exactly when the left button is held before any left press |

## Left out

- Drawing and image work are not modelled: `QPixmap` decoding, the 50 % scaling, the left-facing mirror transform, `setPixmap`, `resize`, `setFocus` and the window flags. These are calls into Qt. A load result is a given pixmap-or-None: `load(f)` is None whenever `if pix:` would reject the result, and `idleRetry` is the retry's result, which the source never tests.
- `loadImage`'s error message is not modelled; it is console output only.
- Timer scheduling is not modelled: the 200 ms period, and the fact that Qt delivers one callback at a time. A tick is a plain call, and an event sequence is a list.
- `contextMenuEvent` is not modelled: it only prints a greeting or closes the window.
- The `super()` forwarding of unhandled keys and mouse events is not modelled; it changes no field of this class.
- main.py is not part of this model: it only starts the Qt application.
- What happens after an exception escapes a handler is not modelled. Under PyQt the process may abort. The model reports the exception as `Outcome` and keeps the fields as the handler left them.
- Positions are unbounded integers; Qt's 32-bit coordinates and the screen size are not modelled.
- The drag offset is computed from the window position (`pos`). For this frameless window that equals `frameGeometry().topLeft()`.
- The machine tracks each frame list by its length only. Which pixmap is shown is visible only in the widget class, through `currentFrames`.
- The machine's tick function is written as one combined update. The class method `UpdateAnimation` keeps the source's sequence of statements (advance, walk move, jump move, jump end, atack/slide end) and is proved equal to it.
