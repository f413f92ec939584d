/** The breakpoint selectors that size the camera and the blob geometry to the
    viewport width: narrow screens (up to 480 pixels), medium ones (up to 768)
    and wide ones. */
module Responsive {

  const MobileBreakpoint: int := 480
  const TabletBreakpoint: int := 768

  /** Vertical field of view of the camera, in degrees. */
  function GetFOV(width: int): (r: int)
    ensures r == 90 <==> width <= MobileBreakpoint
    ensures r == 80 <==> MobileBreakpoint < width <= TabletBreakpoint
    ensures r == 75 <==> TabletBreakpoint < width
  {
    if width <= MobileBreakpoint then 90
    else if width <= TabletBreakpoint then 80
    else 75
  }

  /** Distance of the camera from the blob along the z axis. */
  function GetZPosition(width: int): (r: real)
    ensures r == 4.0 <==> width <= MobileBreakpoint
    ensures r == 3.5 <==> MobileBreakpoint < width <= TabletBreakpoint
    ensures r == 3.0 <==> TabletBreakpoint < width
  {
    if width <= MobileBreakpoint then 4.0
    else if width <= TabletBreakpoint then 3.5
    else 3.0
  }

  /** Subdivision detail of the icosahedron the blob is built from. */
  function GetGeometryDetail(width: int): (r: int)
    ensures r == 40 <==> width <= MobileBreakpoint
    ensures r == 55 <==> MobileBreakpoint < width <= TabletBreakpoint
    ensures r == 70 <==> TabletBreakpoint < width
  {
    if width <= MobileBreakpoint then 40
    else if width <= TabletBreakpoint then 55
    else 70
  }

  /** Wider viewports never widen the field of view, never move the camera
      further out and never coarsen the geometry. */
  lemma Monotone(narrow: int, wide: int)
    requires narrow <= wide
    ensures GetFOV(wide) <= GetFOV(narrow)
    ensures GetZPosition(wide) <= GetZPosition(narrow)
    ensures GetGeometryDetail(narrow) <= GetGeometryDetail(wide)
  {
  }

  /** The three selectors switch at the same two widths: whenever one of them
      gives the same answer for two widths, so do the others. */
  lemma SameBreakpoints(w1: int, w2: int)
    ensures GetFOV(w1) == GetFOV(w2) <==> GetZPosition(w1) == GetZPosition(w2)
    ensures GetFOV(w1) == GetFOV(w2) <==> GetGeometryDetail(w1) == GetGeometryDetail(w2)
  {
  }
}
