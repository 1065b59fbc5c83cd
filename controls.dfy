/** The control interface every car polls once per tick: four independent signals. */
module Controls {

  /** The values of `forward()`, `left()`, `right()` and `reverse()` at one moment. */
  datatype Flags = Flags(forward: bool, left: bool, right: bool, reverse: bool)

  /** No signal is set. */
  const Idle := Flags(false, false, false, false)
}
