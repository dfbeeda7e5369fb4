/**
 * Signals: the single-writer, many-reader cells through which behaviours
 * publish their state. A signal holds one value and the time stamp of the
 * write that put it there.
 */
module Signals {
  import opened Base
  import opened Events

  /** A creep's position signal paired with the sink through which that creep is reached. */
  datatype Pipe = Pipe(signal: Signal, sink: Sink)

  /**
   * The Copyable values signals hold. A datatype value is immutable, so the
   * defensive copies that write and read take are implicit.
   */
  datatype Value =
    | LongValue(n: int)                        // CopyableLong
    | BoolValue(b: bool)                       // CopyableBoolean
    | FloatValue(x: real)                      // CopyableFloat
    | VectorValue(v: Vector2)                  // CopyableVector2f
    | DimensionValue(width: int, height: int)  // CopyableDimension
    | CheckPointValue(cp: CheckPoint)          // CheckPoint
    | CheckPointsValue(cps: seq<CheckPoint>)   // CopyableList<CheckPoint>
    | PointsValue(points: seq<Point>)          // CopyableList<CopyablePoint>
    | PipesValue(pipes: seq<Pipe>)             // CopyableList<Pipe<CopyableVector2f>>

  class Signal {
    var buffer: Value
    var timeStamp: int

    /** Signal(value, timeStamp); the one-argument form passes the current clock reading as `timeStamp`. */
    constructor (value: Value, timeStamp: int)
      ensures Read() == value && TimeStamp() == timeStamp
    {
      buffer := value;
      this.timeStamp := timeStamp;
    }

    /**
     * write(value, timeStamp); the one-argument form passes the current clock
     * reading. Any time stamp is accepted, an earlier one included.
     */
    method Write(value: Value, timeStamp: int)
      modifies this
      ensures Read() == value && TimeStamp() == timeStamp
    {
      buffer := value;
      this.timeStamp := timeStamp;
    }

    /** read: the value of the last write. */
    function Read(): Value
      reads this
    {
      buffer
    }

    /** getTimeStamp: the time stamp of the last write. */
    function TimeStamp(): int
      reads this
    {
      timeStamp
    }
  }
}
