/** Values shared by the penguin's loader, state machine and widget. */
module PenguinTypes {

  datatype Option<+T> = None | Some(value: T)

  /** A handle on an image the host toolkit loaded and scaled; the model never looks inside. */
  datatype Pixmap = Pixmap(handle: nat)

  /** One entry of a frame list: what `loadImage` returned, a pixmap or None. */
  type Frame = Option<Pixmap>

  /** The five animation states, named as the source names them (including "atack"). */
  datatype AnimState = Idle | Walk | Jump | Atack | Slide

  datatype Facing = Right | Left

  /** A screen position or offset in pixels, as QPoint carries it. */
  datatype Point = Point(x: int, y: int) {
    function Plus(o: Point): Point { Point(x + o.x, y + o.y) }
    function Minus(o: Point): Point { Point(x - o.x, y - o.y) }
  }

  /** Pixels moved per timer tick while walking or jumping. */
  const SPEED: int := 50

  /** Where `initUI` places the window. */
  const START: Point := Point(100, 100)

  /** The keys the widget reacts to; every other key is forwarded to the host. */
  datatype Key = KeyRight | KeyLeft | KeyUp | KeyDown | KeyA | OtherKey

  datatype MouseButton = LeftButton | RightButton | MiddleButton | OtherButton

  /** The Python exceptions the handlers can raise. */
  datatype PyError = IndexError | AttributeError

  /** How a handler ends: normally, or by raising after the field updates made so far. */
  datatype Outcome = Completed | Raised(error: PyError)
}
