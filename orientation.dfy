/** How a monitor is classified from its resolution. */
module MonitorOrientation {
  /** Rust's `u32`, the type of the resolution's width and height. */
  type u32 = n: nat | n < 0x1_0000_0000

  datatype Resolution = Resolution(width: u32, height: u32)

  datatype Orientation = Landscape | Portrait | Square

  /** `from_resolution`: compares width with height. */
  function FromResolution(res: Resolution): (o: Orientation)
    ensures o == Landscape <==> res.width > res.height
    ensures o == Portrait <==> res.width < res.height
    ensures o == Square <==> res.width == res.height
  {
    if res.width > res.height then Landscape
    else if res.width < res.height then Portrait
    else Square
  }

  /** Turning the monitor a quarter turn: landscape and portrait swap, square stays. */
  function Rotated(o: Orientation): (r: Orientation)
    ensures (r == Square) == (o == Square) && (o != Square ==> r != o)
  {
    match o
    case Landscape => Portrait
    case Portrait => Landscape
    case Square => Square
  }

  /** Swapping width and height rotates the classification. */
  lemma SwapRotates(res: Resolution)
    ensures FromResolution(Resolution(res.height, res.width)) == Rotated(FromResolution(res))
  {
  }

  /** The `Display` text: the variant's name. */
  function OrientationName(o: Orientation): (s: string)
    ensures |s| >= 6 && 'A' <= s[0] <= 'Z'
  {
    match o
    case Landscape => "Landscape"
    case Portrait => "Portrait"
    case Square => "Square"
  }

  /** The names tell the orientations apart. */
  lemma OrientationNameInjective(a: Orientation, b: Orientation)
    ensures OrientationName(a) == OrientationName(b) <==> a == b
  {
    if a != b {
      assert OrientationName(a)[0] != OrientationName(b)[0];
    }
  }
}
