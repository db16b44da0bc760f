/**
 * One line of monospaced label text: a stream of bytes interleaved with colour
 * changes. Colour components are 32-bit floats; the model keeps each as its
 * bit pattern and never computes with it.
 */
module LabelLine {
  newtype u8 = x: int | 0 <= x < 256

  /** An f32, kept as its IEEE 754 bit pattern. */
  datatype F32 = F32(bits: bv32)

  /** An RGBA colour, [f32; 4] in the source. */
  datatype Color = Color(r: F32, g: F32, b: F32, a: F32)

  /** [1.0; 4]: opaque white, the colour every line starts with. */
  const White: Color := Color(F32(0x3F80_0000), F32(0x3F80_0000), F32(0x3F80_0000), F32(0x3F80_0000))

  /** A byte to draw, or a change of the current colour. */
  datatype Char = Byte(b: u8) | SetColor(c: Color)

  datatype Line = Line(data: seq<Char>)

  /** The number of colour changes in a stream. */
  function SetColorCount(data: seq<Char>): nat
  {
    if data == [] then 0
    else SetColorCount(data[..|data| - 1]) + (if data[|data| - 1].SetColor? then 1 else 0)
  }

  /** Line::default: no characters at all. */
  function Default(): (line: Line)
    ensures |line.data| == 0 && SetColorCount(line.data) == 0
  {
    Line([])
  }

  /**
   * Line::new_colored: one colour change to `color`, then every byte of `text`
   * in order; so exactly one colour change, at the front.
   */
  method NewColored(text: seq<u8>, color: Color) returns (line: Line)
    ensures |line.data| == |text| + 1
    ensures line.data[0] == SetColor(color)
    ensures forall i :: 0 <= i < |text| ==> line.data[i + 1] == Byte(text[i])
    ensures SetColorCount(line.data) == 1
  {
    var data := [SetColor(color)];
    var i := 0;
    while i < |text|
      invariant 0 <= i <= |text|
      invariant |data| == i + 1 && data[0] == SetColor(color)
      invariant forall j :: 0 <= j < i ==> data[j + 1] == Byte(text[j])
      invariant SetColorCount(data) == 1
    {
      ghost var prev := data;
      data := data + [Byte(text[i])];
      assert data[..|data| - 1] == prev;
      i := i + 1;
    }
    line := Line(data);
  }
}
