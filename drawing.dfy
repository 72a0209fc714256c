/** The part of System.Drawing the core touches: a fixed grid of ARGB pixels. */
module Drawing {
  import opened Errors

  type byte = x: int | 0 <= x < 256

  datatype Color = Color(A: byte, R: byte, G: byte, B: byte)

  datatype BitmapData = BitmapData(Width: nat, Height: nat, Pixels: seq<seq<Color>>)

  /** Pixels[x][y] is the pixel in column x, row y. */
  predicate WellShaped(b: BitmapData)
  {
    |b.Pixels| == b.Width && forall x :: 0 <= x < b.Width ==> |b.Pixels[x]| == b.Height
  }

  type Bitmap = b: BitmapData | WellShaped(b) witness BitmapData(0, 0, [])

  /** Bitmap.GetPixel: coordinates outside the image raise ArgumentOutOfRangeException. */
  function GetPixel(b: Bitmap, x: int, y: int): (r: Result<Color>)
    ensures r.Ok? <==> 0 <= x < b.Width && 0 <= y < b.Height
    ensures r.Ok? ==> r.value == b.Pixels[x][y]
    ensures r.Fail? ==> r.error == ArgumentOutOfRange
  {
    if 0 <= x < b.Width && 0 <= y < b.Height then Ok(b.Pixels[x][y]) else Fail(ArgumentOutOfRange)
  }
}
