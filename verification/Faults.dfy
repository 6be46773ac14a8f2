/** Failures of awaited calls. Every await of an operation has a named point; a plan says what happens
    at each. A call that crashes stops for good, so its final state is a state between two awaits. */
module Faults {

  datatype Mode =
    | Works
    | Throws     // rejected, without effect
    | LosesReply // takes effect, then rejected
    | Crashes    // the whole call stops, without effect

  type Plan<Point(==)> = map<Point, Mode>

  /** Points a plan does not mention work. */
  function At<Point(==)>(plan: Plan<Point>, point: Point): Mode {
    if point in plan then plan[point] else Works
  }

  predicate TakesEffect(mode: Mode) {
    mode.Works? || mode.LosesReply?
  }

  /** How control leaves an await or an operation. */
  datatype Control<+E> = Go | Threw(error: E) | Crashed

  function Leaves<E>(mode: Mode, error: E): Control<E> {
    match mode
    case Works => Go
    case Throws => Threw(error)
    case LosesReply => Threw(error)
    case Crashes => Crashed
  }
}
