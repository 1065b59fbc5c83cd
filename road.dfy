/**
 * The road a car drives on, as the kernel sees it. Its geometry is computed elsewhere, so it enters the
 * model as given values: the border polylines, the number of lanes and the lane-centre function.
 */
module Road {
  import opened Helpers

  /** `road.borders`, `road.laneCount` and `road.getLaneCenter`. */
  datatype Road = Road(borders: seq<seq<Point>>, laneCount: nat, laneCenter: int -> real)
}
