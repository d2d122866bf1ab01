/**
 * The `PenguinCharacter` widget: the fields its handlers update in place and
 * the handlers themselves, statement by statement. Each handler is proved to
 * leave the fields as the matching function of PenguinMachine says, and to
 * keep the widget valid. Drawing (`setPixmap`, `resize`, mirroring) and the
 * calls forwarded to the base class are not modelled.
 */
module PenguinWidget {
  import opened PenguinTypes
  import opened PenguinLoader
  import opened PenguinMachine

  /** `setState`'s list has as many frames as the count map says. */
  lemma SelectedCount(animations: map<AnimState, seq<Frame>>, s: AnimState)
    requires Idle in animations
    ensures Idle in CountsOf(animations)
    ensures Selected(CountsOf(animations), s) == |Selected(animations, s)|
  {
  }

  class PenguinCharacter {
    /** `self.animations`: the lists loaded at start-up, never changed afterwards. */
    var animations: map<AnimState, seq<Frame>>
    var currentState: AnimState
    var currentFrames: seq<Frame>
    var currentFrameIndex: nat
    var facing: Facing
    /** The window's top-left corner on the screen (`self.x()`, `self.y()`). */
    var position: Point
    var movingRight: bool
    var movingLeft: bool
    /** `self.drag_position`, which does not exist until the first left press. */
    var dragPosition: Option<Point>

    /** The lengths of the loaded lists. */
    function Lengths(): Counts
      reads this
    {
      CountsOf(animations)
    }

    /** The fields as the state machine's record. */
    function Model(): Penguin
      reads this
    {
      Penguin(currentState, |currentFrames|, currentFrameIndex, facing, position,
              movingRight, movingLeft, dragPosition)
    }

    /**
     * The idle list is non-empty and every loaded frame is a pixmap (so
     * drawing never meets None), the current list is the one the current
     * state selects, and the record is valid for the loaded lengths.
     */
    ghost predicate Valid()
      reads this
    {
      Idle in animations && animations[Idle] != [] && AllLoaded(animations) &&
      currentFrames == Selected(animations, currentState) &&
      PenguinMachine.Valid(Lengths(), Model())
    }

    /**
     * `__init__` for the image loader `load` (and `idleRetry`, the second
     * attempt at the first idle frame); it exists only when start-up does not
     * raise. `initUI` places the window, `loadAnimations` fills the lists and
     * shows the first idle frame, then the remaining fields are set.
     */
    constructor (load: SpriteFile -> Frame, idleRetry: Frame)
      requires !StartupRaises(load, idleRetry)
      ensures Valid()
      ensures animations == Animations(load, idleRetry)
      ensures Lengths() == LoadedCounts(load, idleRetry)
      ensures Model() == Startup(load, idleRetry)
    {
      position := START;
      var loaded := LoadAnimations(load, idleRetry);
      animations := loaded;
      currentFrames := loaded[Idle];
      currentFrameIndex := 0;
      currentState := Idle;
      facing := Right;
      movingRight := false;
      movingLeft := false;
      dragPosition := None;
      new;
      StartupLoaded(load, idleRetry);
    }

    /**
     * `setState(s)`: set the state, select `s`'s list (idle's if `s` has
     * none) and reset the index; then reading frame 0 raises IndexError
     * when the selected list is empty.
     */
    method SetState(s: AnimState) returns (outcome: Outcome)
      requires Valid()
      modifies this
      ensures Valid()
      ensures animations == old(animations)
      ensures currentFrames == Selected(animations, s)
      ensures Model() == EnterState(Lengths(), old(Model()), s)
      ensures outcome == EntryOutcome(Lengths(), s)
    {
      SelectedCount(animations, s);
      currentState := s;
      if s in animations {
        currentFrames := animations[s];
      } else {
        currentFrames := animations[Idle];
      }
      currentFrameIndex := 0;
      if |currentFrames| == 0 {
        return Raised(IndexError);
      }
      outcome := Completed;
    }

    /** `updateAnimation`, the timer's handler: one tick of the state machine. */
    method UpdateAnimation()
      requires Valid()
      modifies this
      ensures Valid()
      ensures animations == old(animations)
      ensures Model() == Tick(Lengths(), old(Model()))
    {
      if |currentFrames| == 0 {
        return;
      }
      ghost var before := Model();
      currentFrameIndex := (currentFrameIndex + 1) % |currentFrames|;
      ghost var i := currentFrameIndex;
      if currentState == Walk {
        if facing == Right {
          position := Point(position.x + SPEED, position.y);
        } else {
          position := Point(position.x - SPEED, position.y);
        }
      }
      if currentState == Jump {
        if currentFrameIndex == 0 {
          position := Point(position.x, position.y - SPEED);
        } else if currentFrameIndex == |currentFrames| - 1 {
          position := Point(position.x, position.y + SPEED);
        }
        if currentFrameIndex == |currentFrames| - 1 {
          var o := SetState(Idle);
        }
      }
      assert position == Moved(before, i);
      if currentState == Atack || currentState == Slide {
        if currentFrameIndex == |currentFrames| - 1 {
          var o := SetState(Idle);
        }
      }
    }

    /**
     * `keyPressEvent`: Right and Left set their flag and the facing and enter
     * walk; Up, Down and A enter jump, slide and atack; other keys are
     * forwarded and change nothing here. The outcome is that of `setState`.
     */
    method KeyPressEvent(k: Key) returns (outcome: Outcome)
      requires Valid()
      modifies this
      ensures Valid()
      ensures animations == old(animations)
      ensures Model() == PressKey(Lengths(), old(Model()), k)
      ensures outcome == PressOutcome(Lengths(), k)
    {
      if k == KeyRight {
        movingRight := true;
        facing := Right;
        outcome := SetState(Walk);
      } else if k == KeyLeft {
        movingLeft := true;
        facing := Left;
        outcome := SetState(Walk);
      } else if k == KeyUp {
        outcome := SetState(Jump);
      } else if k == KeyDown {
        outcome := SetState(Slide);
      } else if k == KeyA {
        outcome := SetState(Atack);
      } else {
        outcome := Completed;
      }
    }

    /** `keyReleaseEvent`: clear the released arrow's flag; with no arrow held a walk ends in idle. */
    method KeyReleaseEvent(k: Key)
      requires Valid()
      modifies this
      ensures Valid()
      ensures animations == old(animations)
      ensures Model() == ReleaseKey(Lengths(), old(Model()), k)
    {
      if k == KeyRight {
        movingRight := false;
      } else if k == KeyLeft {
        movingLeft := false;
      }
      if !(movingRight || movingLeft) && currentState == Walk {
        var o := SetState(Idle);
      }
    }

    /** `mousePressEvent`: a left press records where in the window it was made. */
    method MousePressEvent(button: MouseButton, globalPos: Point)
      requires Valid()
      modifies this
      ensures Valid()
      ensures animations == old(animations) && currentFrames == old(currentFrames)
      ensures Model() == PressMouse(old(Model()), button, globalPos)
    {
      if button == LeftButton {
        dragPosition := Some(globalPos.Minus(position));
      }
    }

    /**
     * `mouseMoveEvent`: with the left button held, move the window so that
     * the recorded point stays under the cursor; before any left press,
     * reading `drag_position` raises AttributeError and nothing moves.
     */
    method MouseMoveEvent(buttons: set<MouseButton>, globalPos: Point) returns (outcome: Outcome)
      requires Valid()
      modifies this
      ensures Valid()
      ensures animations == old(animations) && currentFrames == old(currentFrames)
      ensures Model() == MoveMouse(old(Model()), buttons, globalPos)
      ensures outcome == MoveOutcome(old(Model()), buttons)
    {
      outcome := Completed;
      if LeftButton in buttons {
        if dragPosition.None? {
          return Raised(AttributeError);
        }
        position := globalPos.Minus(dragPosition.value);
      }
    }
  }
}
