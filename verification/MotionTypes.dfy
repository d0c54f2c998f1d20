/** The data that Motion Studio passes around.  Time is counted in 20 ms ticks from
    the start of the motion; values are degrees as exact reals. */
module MotionTypes {

  datatype Option<+T> = None | Some(value: T)

  /** A value, or the reason the program refuses. */
  datatype Result<+T> = Ok(value: T) | Err(reason: string)

  /** Motion IDs, numbered in the order in which the program sorts their names. */
  type Axis = nat

  /** One 20 ms frame: the axes that have a value at this tick. */
  datatype Frame = Frame(tick: nat, values: map<Axis, real>)

  datatype TangentMode = Auto | Smooth | Broken | Linear

  /** A tangent handle; a part that a caller left out is `None`. */
  datatype Handle = Handle(dt: Option<real>, dv: Option<real>)

  datatype CurvePoint = CurvePoint(
    id: string, tick: nat, value: real, mode: TangentMode, inHandle: Handle, outHandle: Handle)

  datatype Curve = Curve(id: string, axis: Axis, order: int, points: seq<CurvePoint>)

  datatype Layer = Layer(id: string, name: string, enabled: bool, frames: seq<Frame>, curves: seq<Curve>)
}
