/** The scripted control of traffic cars: always accelerating, never steering or braking, and without state. */
module ComputerControls {
  import opened Controls

  function Forward(): (r: bool)
    ensures r
  {
    true
  }

  function Left(): (r: bool)
    ensures !r
  {
    false
  }

  function Right(): (r: bool)
    ensures !r
  {
    false
  }

  function Reverse(): (r: bool)
    ensures !r
  {
    false
  }

  /** The four signals together: forward only. */
  function Signals(): (f: Flags)
    ensures f.forward && !f.left && !f.right && !f.reverse
  {
    Flags(Forward(), Left(), Right(), Reverse())
  }
}
