/**
 * The label stack of the monospaced text layer: named lines of text, each drawn
 * on its own row, turned into six vertices (two triangles) per byte. A byte is
 * looked up in a 1024 x 1024 font atlas holding cells of the font size, row
 * by row.
 *
 * Vertex coordinates are floats in the source: position
 * -1 + numerator / viewport * scaler and texture coordinate numerator / 1024.
 * The model keeps the integer numerators, which decide where every vertex
 * lands, and leaves the float division, the viewport and the scaler out.
 */
module LabelStack {
  import opened LabelLine

  newtype u32 = x: int | 0 <= x < 0x1_0000_0000

  /** The font's cell size in pixels, [u32; 2] in the source. */
  datatype FontSize = FontSize(w: u32, h: u32)

  /** A pair of integers: a cell of a grid or the numerators of a coordinate. */
  datatype Num2 = Num2(x: int, y: int)

  /**
   * One vertex: its colour, the pixel numerators of its position
   * ((column + corner) * width, (row + corner) * height) and of its
   * texture coordinate ((atlas cell + corner) * cell size).
   */
  datatype Vertex = Vertex(color: Color, pos: Num2, tex: Num2)

  /** What to_vertices produces: the vertex list, or a panic on a division by zero. */
  datatype Vertices = Drawn(vertices: seq<Vertex>) | DivisionByZero

  /** The side of the font atlas, in pixels. */
  const AtlasSide := 1024

  /** The corners of a glyph's two triangles, in the order they are emitted. */
  const Corners: seq<Num2> := [Num2(0, 0), Num2(0, 1), Num2(1, 1), Num2(0, 0), Num2(1, 0), Num2(1, 1)]

  /** The atlas cell holding byte `ch` when a row of the atlas holds `sizeX` cells. */
  function AtlasCell(ch: u8, sizeX: nat): (cell: Num2)
    requires sizeX > 0
    ensures 0 <= cell.x < sizeX && 0 <= cell.y
    ensures cell.y * sizeX + cell.x == ch as int
  {
    Num2(ch as int % sizeX, ch as int / sizeX)
  }

  /** The six vertices of byte `ch` drawn in column `col` of row `row`. */
  function GlyphQuad(color: Color, col: nat, row: nat, ch: u8, sizeX: nat, fs: FontSize): seq<Vertex>
    requires sizeX > 0
  {
    var cell := AtlasCell(ch, sizeX);
    seq(6, q requires 0 <= q < 6 =>
      Vertex(color,
             Num2((col + Corners[q].x) * fs.w as int, (row + Corners[q].y) * fs.h as int),
             Num2((cell.x + Corners[q].x) * fs.w as int, (cell.y + Corners[q].y) * fs.h as int)))
  }

  /** The colour in force after `prefix`: the last colour change in it, or white. */
  function ColorOf(prefix: seq<Char>): Color
  {
    if prefix == [] then White
    else if prefix[|prefix| - 1].SetColor? then prefix[|prefix| - 1].c
    else ColorOf(prefix[..|prefix| - 1])
  }

  /** The number of bytes (not colour changes) in `prefix`: the column of the next byte. */
  function ByteCount(prefix: seq<Char>): nat
  {
    if prefix == [] then 0
    else ByteCount(prefix[..|prefix| - 1]) + (if prefix[|prefix| - 1].Byte? then 1 else 0)
  }

  /** The vertices of one line drawn on row `row`. */
  function LineVertices(data: seq<Char>, row: nat, sizeX: nat, fs: FontSize): seq<Vertex>
    requires sizeX > 0
  {
    if data == [] then []
    else
      var init := data[..|data| - 1];
      LineVertices(init, row, sizeX, fs) +
      match data[|data| - 1] {
        case SetColor(_) => []
        case Byte(ch) => GlyphQuad(ColorOf(init), ByteCount(init), row, ch, sizeX, fs)
      }
  }

  /** The vertices of every line, line i on row i, in order. */
  function StackVertices(lines: seq<Line>, sizeX: nat, fs: FontSize): seq<Vertex>
    requires sizeX > 0
  {
    if lines == [] then []
    else
      StackVertices(lines[..|lines| - 1], sizeX, fs) +
      LineVertices(lines[|lines| - 1].data, |lines| - 1, sizeX, fs)
  }

  /** The number of bytes over all lines. */
  function TotalBytes(lines: seq<Line>): nat
  {
    if lines == [] then 0
    else TotalBytes(lines[..|lines| - 1]) + ByteCount(lines[|lines| - 1].data)
  }

  /**
   * What to_vertices yields: a width of zero divides by zero before anything
   * else; a width above the atlas side leaves zero cells per row, which divides
   * by zero at the first byte.
   */
  function VerticesOf(lines: seq<Line>, fs: FontSize): Vertices
  {
    if fs.w == 0 then DivisionByZero
    else
      var sizeX := AtlasSide / fs.w as int;
      if sizeX == 0 then (if TotalBytes(lines) == 0 then Drawn([]) else DivisionByZero)
      else Drawn(StackVertices(lines, sizeX, fs))
  }

  /** Every key maps to a distinct line index, and every line has a key. */
  ghost predicate IndexBijection(names: map<string, nat>, n: nat)
  {
    (forall k :: k in names ==> names[k] < n) &&
    (forall k1, k2 :: k1 in names && k2 in names && names[k1] == names[k2] ==> k1 == k2) &&
    (forall i :: 0 <= i < n ==> i in names.Values)
  }

  /** `keys` lists the keys of `names` in the order their lines were pushed. */
  ghost predicate KeyOrder(names: map<string, nat>, keys: seq<string>)
  {
    (forall i, j :: 0 <= i < j < |keys| ==> keys[i] != keys[j]) &&
    (forall k :: k in names <==> k in keys) &&
    (forall i :: 0 <= i < |keys| ==> keys[i] in names && names[keys[i]] == i)
  }

  class LabelStack {
    var lines: seq<Line>
    var names: map<string, nat>
    var scaler: F32
    const fontSize: FontSize
    /** The keys in push order: line i was added under keys[i]. */
    ghost var keys: seq<string>

    ghost predicate Valid()
      reads this
    {
      |keys| == |lines| && KeyOrder(names, keys)
    }

    /** The text currently drawn under each key. */
    ghost function Labels(): map<string, Line>
      requires Valid()
      reads this
    {
      map k | k in names :: lines[names[k]]
    }

    /** LabelStack::new: no lines, no names, scaler 1.0. */
    constructor (fontSize: FontSize)
      ensures Valid() && lines == [] && names == map[] && Labels() == map[]
      ensures scaler == F32(0x3F80_0000) && this.fontSize == fontSize
    {
      lines := [];
      names := map[];
      scaler := F32(0x3F80_0000);
      this.fontSize := fontSize;
      keys := [];
    }

    /** set_scaler: replace the position scale factor; the lines are untouched. */
    method SetScaler(k: F32)
      modifies this`scaler
      ensures scaler == k
    {
      scaler := k;
    }

    /**
     * add_text: a known key has its line replaced in place and keeps its row;
     * a new key gets a new line at the bottom. Either way the key now shows
     * `line` and every other key keeps its text.
     */
    method AddText(key: string, line: Line)
      requires Valid()
      modifies this`lines, this`names, this`keys
      ensures Valid()
      ensures old(key in names) ==>
        names == old(names) && lines == old(lines)[old(names[key]) := line]
      ensures old(key !in names) ==>
        names == old(names)[key := old(|lines|)] && lines == old(lines) + [line]
      ensures Labels() == old(Labels())[key := line]
    {
      if key in names {
        var idx := names[key];
        KeyAt(names, keys, key);
        lines := lines[idx := line];
        LabelsOnReplace(old(lines), lines, names, keys, key, line);
        return;
      }
      // The source asserts that the insertion finds no previous entry; the lookup just failed, so it never fires.
      assert key !in names;
      KeyOrderPush(names, keys, key);
      LabelsOnPush(lines, names, keys, key, line, lines + [line], names[key := |lines|]);
      names := names[key := |lines|];
      keys := keys + [key];
      lines := lines + [line];
    }

    /** The innermost loop of to_vertices: the six corners of one glyph, in order. */
    method PushGlyph(result: seq<Vertex>, color: Color, idx: nat, idy: nat, ch: u8, sizeX: nat)
      returns (pushed: seq<Vertex>)
      requires sizeX > 0
      ensures pushed == result + GlyphQuad(color, idx, idy, ch, sizeX, fontSize)
    {
      var ux := ch as int % sizeX;
      var uy := ch as int / sizeX;
      ghost var quad := GlyphQuad(color, idx, idy, ch, sizeX, fontSize);
      pushed := result;
      var q := 0;
      while q < |Corners|
        invariant 0 <= q <= 6
        invariant pushed == result + quad[..q]
      {
        var upos := Corners[q];
        pushed := pushed + [Vertex(color,
                                   Num2((idx + upos.x) * fontSize.w as int, (idy + upos.y) * fontSize.h as int),
                                   Num2((ux + upos.x) * fontSize.w as int, (uy + upos.y) * fontSize.h as int))];
        q := q + 1;
      }
      assert quad[..6] == quad;
    }

    /** to_vertices: every line in order, every byte of a line in order, six vertices each. */
    method ToVertices() returns (r: Vertices)
      ensures r == VerticesOf(lines, fontSize)
    {
      if fontSize.w == 0 {
        return DivisionByZero;
      }
      var sizeX := AtlasSide / fontSize.w as int;
      var all := lines;
      var result: seq<Vertex> := [];
      var idy := 0;
      while idy < |all|
        invariant 0 <= idy <= |all|
        invariant sizeX == 0 ==> TotalBytes(all[..idy]) == 0 && result == []
        invariant sizeX > 0 ==> result == StackVertices(all[..idy], sizeX, fontSize)
      {
        var data := all[idy].data;
        var color := White;
        var idx: int := -1;
        ghost var before := result;
        var j := 0;
        while j < |data|
          invariant 0 <= j <= |data|
          invariant color == ColorOf(data[..j]) && idx + 1 == ByteCount(data[..j])
          invariant sizeX == 0 ==> ByteCount(data[..j]) == 0 && result == before
          invariant sizeX > 0 ==> result == before + LineVertices(data[..j], idy, sizeX, fontSize)
        {
          PrefixStep(data, j);
          match data[j] {
            case SetColor(c) =>
              color := c;
              if sizeX > 0 {
                LineVerticesPush(before, data, j, idy, sizeX, fontSize);
              }
            case Byte(ch) =>
              idx := idx + 1;
              if sizeX == 0 {
                BytesReachTotal(all, idy, j);
                return DivisionByZero;
              }
              LineVerticesPush(before, data, j, idy, sizeX, fontSize);
              result := PushGlyph(result, color, idx, idy, ch, sizeX);
          }
          j := j + 1;
        }
        assert data[..|data|] == data;
        assert all[..idy + 1][..idy] == all[..idy];
        idy := idy + 1;
      }
      assert all[..|all|] == all;
      return Drawn(result);
    }

  }

  /** Colour, column and byte count after one more character. */
  lemma PrefixStep(data: seq<Char>, j: nat)
    requires j < |data|
    ensures data[..j + 1][..j] == data[..j]
    ensures ColorOf(data[..j + 1]) == if data[j].SetColor? then data[j].c else ColorOf(data[..j])
    ensures ByteCount(data[..j + 1]) == ByteCount(data[..j]) + if data[j].Byte? then 1 else 0
  {
    assert data[..j + 1][..j] == data[..j];
  }

  /** The vertices of a line after one more character, behind what came before. */
  lemma LineVerticesPush(before: seq<Vertex>, data: seq<Char>, j: nat, row: nat, sizeX: nat, fs: FontSize)
    requires sizeX > 0 && j < |data|
    ensures data[j].SetColor? ==>
      before + LineVertices(data[..j + 1], row, sizeX, fs) == before + LineVertices(data[..j], row, sizeX, fs)
    ensures data[j].Byte? ==>
      before + LineVertices(data[..j + 1], row, sizeX, fs) ==
      before + LineVertices(data[..j], row, sizeX, fs) +
      GlyphQuad(ColorOf(data[..j]), ByteCount(data[..j]), row, data[j].b, sizeX, fs)
  {
    assert data[..j + 1][..j] == data[..j];
  }

  /** In a valid key order, a key in the map indexes a line, and only it indexes that line. */
  lemma KeyAt(names: map<string, nat>, keys: seq<string>, key: string)
    requires KeyOrder(names, keys) && key in names
    ensures names[key] < |keys| && keys[names[key]] == key
  {
    var i :| 0 <= i < |keys| && keys[i] == key;
  }

  /** A key order makes the map a bijection between keys and line indices. */
  lemma KeyOrderBijection(names: map<string, nat>, keys: seq<string>)
    requires KeyOrder(names, keys)
    ensures IndexBijection(names, |keys|)
  {
    forall k | k in names
      ensures names[k] < |keys|
    {
      KeyAt(names, keys, k);
    }
    forall k1, k2 | k1 in names && k2 in names && names[k1] == names[k2]
      ensures k1 == k2
    {
      KeyAt(names, keys, k1);
      KeyAt(names, keys, k2);
    }
    forall i | 0 <= i < |keys|
      ensures i in names.Values
    {
      assert keys[i] in names && names[keys[i]] == i;
    }
  }

  /** Replacing the line of `key` changes what `key` shows and nothing else. */
  lemma LabelsOnReplace(before: seq<Line>, after: seq<Line>, names: map<string, nat>, keys: seq<string>,
                        key: string, line: Line)
    requires |keys| == |before| && KeyOrder(names, keys) && key in names
    requires names[key] < |before| && after == before[names[key] := line]
    ensures (map k | k in names :: after[names[k]]) == (map k | k in names :: before[names[k]])[key := line]
  {
    KeyOrderBijection(names, keys);
  }

  /** Pushing a new key at the next index keeps the key order. */
  lemma KeyOrderPush(names: map<string, nat>, keys: seq<string>, key: string)
    requires KeyOrder(names, keys) && key !in names
    ensures KeyOrder(names[key := |keys|], keys + [key])
  {
    var names', keys' := names[key := |keys|], keys + [key];
    forall k
      ensures k in names' <==> k in keys'
    {
      assert k in keys ==> k in keys';
    }
    forall i | 0 <= i < |keys'|
      ensures keys'[i] in names' && names'[keys'[i]] == i
    {
      if i < |keys| {
        assert keys'[i] == keys[i] && keys[i] != key;
      }
    }
  }

  /** Pushing a line under a new key shows it under that key and changes no other key. */
  lemma LabelsOnPush(lines: seq<Line>, names: map<string, nat>, keys: seq<string>, key: string, line: Line,
                     lines': seq<Line>, names': map<string, nat>)
    requires |keys| == |lines| && KeyOrder(names, keys) && key !in names
    requires lines' == lines + [line] && names' == names[key := |lines|]
    ensures (map k | k in names' :: lines'[names'[k]]) == (map k | k in names :: lines[names[k]])[key := line]
  {
    KeyOrderBijection(names, keys);
  }

  /** A byte at position j of line i means the stack has at least one byte. */
  lemma BytesReachTotal(lines: seq<Line>, i: nat, j: nat)
    requires i < |lines| && j < |lines[i].data| && lines[i].data[j].Byte?
    ensures TotalBytes(lines) > 0
  {
    ByteAtCounts(lines[i].data, j);
    LineBytesInTotal(lines, i);
  }

  lemma {:induction false} ByteAtCounts(data: seq<Char>, j: nat)
    requires j < |data| && data[j].Byte?
    ensures ByteCount(data) > ByteCount(data[..j])
  {
    if j < |data| - 1 {
      assert data[..|data| - 1][..j] == data[..j];
      ByteAtCounts(data[..|data| - 1], j);
    }
  }

  lemma {:induction false} LineBytesInTotal(lines: seq<Line>, i: nat)
    requires i < |lines|
    ensures ByteCount(lines[i].data) <= TotalBytes(lines)
  {
    if i < |lines| - 1 {
      LineBytesInTotal(lines[..|lines| - 1], i);
    }
  }

  /** Six vertices for every byte of a line, none for a colour change. */
  lemma {:induction false} LineVertexCount(data: seq<Char>, row: nat, sizeX: nat, fs: FontSize)
    requires sizeX > 0
    ensures |LineVertices(data, row, sizeX, fs)| == 6 * ByteCount(data)
  {
    if data != [] {
      LineVertexCount(data[..|data| - 1], row, sizeX, fs);
    }
  }

  /** Six vertices for every byte of the stack. */
  lemma {:induction false} StackVertexCount(lines: seq<Line>, sizeX: nat, fs: FontSize)
    requires sizeX > 0
    ensures |StackVertices(lines, sizeX, fs)| == 6 * TotalBytes(lines)
  {
    if lines != [] {
      StackVertexCount(lines[..|lines| - 1], sizeX, fs);
      LineVertexCount(lines[|lines| - 1].data, |lines| - 1, sizeX, fs);
    }
  }

  /**
   * The byte at position p of a line is drawn by the six vertices after those of
   * the bytes before it, in the colour in force there, in the column that
   * counts the bytes before it, from the atlas cell of that byte.
   */
  lemma {:induction false} LineVertexAt(data: seq<Char>, p: nat, row: nat, sizeX: nat, fs: FontSize)
    requires sizeX > 0 && p < |data| && data[p].Byte?
    ensures 6 * ByteCount(data[..p]) + 6 <= |LineVertices(data, row, sizeX, fs)|
    ensures LineVertices(data, row, sizeX, fs)[6 * ByteCount(data[..p]) .. 6 * ByteCount(data[..p]) + 6] ==
            GlyphQuad(ColorOf(data[..p]), ByteCount(data[..p]), row, data[p].b, sizeX, fs)
  {
    var init := data[..|data| - 1];
    LineVertexCount(init, row, sizeX, fs);
    if p < |data| - 1 {
      assert init[..p] == data[..p];
      LineVertexAt(init, p, row, sizeX, fs);
      var lv := LineVertices(data, row, sizeX, fs);
      var li := LineVertices(init, row, sizeX, fs);
      assert lv[..|li|] == li;
    }
  }

  /** The colour in force is that of the last colour change... */
  lemma {:induction false} ColorOfLast(prefix: seq<Char>, j: nat)
    requires j < |prefix| && prefix[j].SetColor?
    requires forall k :: j < k < |prefix| ==> prefix[k].Byte?
    ensures ColorOf(prefix) == prefix[j].c
  {
    if j < |prefix| - 1 {
      ColorOfLast(prefix[..|prefix| - 1], j);
    }
  }

  /** ...or white when there was none. */
  lemma {:induction false} ColorOfNone(prefix: seq<Char>)
    requires forall k :: 0 <= k < |prefix| ==> prefix[k].Byte?
    ensures ColorOf(prefix) == White
  {
    if prefix != [] {
      ColorOfNone(prefix[..|prefix| - 1]);
    }
  }

  /**
   * Line i of the stack is drawn on row i by the vertices right after those of
   * the lines above it.
   */
  lemma {:induction false} StackLineAt(lines: seq<Line>, i: nat, sizeX: nat, fs: FontSize)
    requires sizeX > 0 && i < |lines|
    ensures 6 * TotalBytes(lines[..i + 1]) <= |StackVertices(lines, sizeX, fs)|
    ensures 6 * TotalBytes(lines[..i]) + 6 * ByteCount(lines[i].data) == 6 * TotalBytes(lines[..i + 1])
    ensures StackVertices(lines, sizeX, fs)[6 * TotalBytes(lines[..i]) .. 6 * TotalBytes(lines[..i + 1])] ==
            LineVertices(lines[i].data, i, sizeX, fs)
  {
    var n := |lines| - 1;
    var init := lines[..n];
    var si := StackVertices(init, sizeX, fs);
    var lv := LineVertices(lines[n].data, n, sizeX, fs);
    assert StackVertices(lines, sizeX, fs) == si + lv;
    StackVertexCount(init, sizeX, fs);
    LineVertexCount(lines[n].data, n, sizeX, fs);
    assert lines[..i + 1][..i] == lines[..i];
    if i < n {
      assert init[..i] == lines[..i] && init[..i + 1] == lines[..i + 1];
      StackLineAt(init, i, sizeX, fs);
      SliceOfFront(si, lv, 6 * TotalBytes(lines[..i]), 6 * TotalBytes(lines[..i + 1]));
    } else {
      assert lines[..i] == init && lines[..i + 1] == lines;
      assert (si + lv)[|si|..] == lv;
    }
  }

  lemma SliceOfFront(a: seq<Vertex>, b: seq<Vertex>, lo: nat, hi: nat)
    requires lo <= hi <= |a|
    ensures (a + b)[lo..hi] == a[lo..hi]
  {
  }


  /** A line made by new_colored draws every byte in its colour. */
  lemma ColoredLineVertices(text: seq<u8>, c: Color, line: Line, row: nat, sizeX: nat, fs: FontSize)
    requires sizeX > 0
    requires |line.data| == |text| + 1 && line.data[0] == SetColor(c)
    requires forall i :: 0 <= i < |text| ==> line.data[i + 1] == Byte(text[i])
    ensures ByteCount(line.data) == |text|
    ensures |LineVertices(line.data, row, sizeX, fs)| == 6 * |text|
    ensures forall v :: v in LineVertices(line.data, row, sizeX, fs) ==> v.color == c
  {
    forall k | 0 < k < |line.data|
      ensures line.data[k].Byte?
    {
      assert line.data[(k - 1) + 1] == Byte(text[k - 1]);
    }
    assert line.data[..|line.data|] == line.data;
    ColoredPrefix(line.data, c, |line.data|, row, sizeX, fs);
    LineVertexCount(line.data, row, sizeX, fs);
  }

  lemma {:induction false} ColoredPrefix(data: seq<Char>, c: Color, n: nat, row: nat, sizeX: nat, fs: FontSize)
    requires sizeX > 0 && 0 < n <= |data| && data[0] == SetColor(c)
    requires forall k :: 0 < k < |data| ==> data[k].Byte?
    ensures |LineVertices(data[..n], row, sizeX, fs)| == 6 * (n - 1)
    ensures forall v :: v in LineVertices(data[..n], row, sizeX, fs) ==> v.color == c
  {
    var pre := data[..n];
    if n == 1 {
      assert pre == [SetColor(c)] && pre[..0] == [];
    } else {
      assert pre[..n - 1] == data[..n - 1];
      ColoredPrefix(data, c, n - 1, row, sizeX, fs);
      ColorOfLast(data[..n - 1], 0);
    }
  }

  /**
   * With the atlas font_texgen.py generates (16 x 32 cells), a row holds 64
   * cells, every byte falls into one of its 32 rows, and the glyph it draws in
   * cell (x, y), character y * 64 + x, is the byte itself, at pixel (16x, 32y).
   */
  lemma TexgenAgreement(ch: u8, color: Color, col: nat, row: nat)
    ensures var sizeX := AtlasSide / 16;
            var cell := AtlasCell(ch, sizeX);
            sizeX == 64 && cell.x < AtlasSide / 16 && cell.y < AtlasSide / 32 &&
            cell.y * sizeX + cell.x == ch as int &&
            GlyphQuad(color, col, row, ch, sizeX, FontSize(16, 32))[0].tex == Num2(cell.x * 16, cell.y * 32)
  {
  }

  /**
   * A key added twice keeps its row: the second text for "fps" replaces the
   * first in row 0, above the line added for "name", and the stack draws the
   * three bytes it now holds.
   */
  method TwoLabelsScenario()
  {
    var red := Color(F32(0x3F80_0000), F32(0), F32(0), F32(0x3F80_0000));
    var s := new LabelStack(FontSize(16, 32));
    var a := NewColored([65 as u8], red);
    s.AddText("fps", a);
    var plain := Line([Byte(66 as u8)]);
    assert "name" != "fps";
    s.AddText("name", plain);
    var b := NewColored([67 as u8, 68 as u8], red);
    s.AddText("fps", b);
    assert s.lines == [b, plain];
    assert s.Labels()["fps"] == b && s.Labels()["name"] == plain;
    var r := s.ToVertices();
    TwoLinesVertices([67 as u8, 68 as u8], red, b, plain);
    assert r.Drawn? && |r.vertices| == 18;
  }

  /** A new_colored line of two bytes above a line of one byte: eighteen vertices at font size 16 x 32. */
  lemma TwoLinesVertices(text: seq<u8>, c: Color, b: Line, plain: Line)
    requires |text| == 2 && |b.data| == |text| + 1 && b.data[0] == SetColor(c)
    requires forall i :: 0 <= i < |text| ==> b.data[i + 1] == Byte(text[i])
    requires plain.data == [Byte(66 as u8)]
    ensures VerticesOf([b, plain], FontSize(16, 32)).Drawn?
    ensures |VerticesOf([b, plain], FontSize(16, 32)).vertices| == 18
  {
    ColoredLineVertices(text, c, b, 0, 64, FontSize(16, 32));
    TwoLinesBytes(b, plain, 2);
    StackVertexCount([b, plain], 64, FontSize(16, 32));
  }

  lemma TwoLinesBytes(first: Line, second: Line, n: nat)
    requires ByteCount(first.data) == n && second.data == [Byte(66 as u8)]
    ensures TotalBytes([first, second]) == n + 1
  {
    var both := [first, second];
    assert both[..1] == [first] && [first][..0] == [];
    assert TotalBytes([first]) == n;
    assert second.data[..0] == [];
    assert ByteCount(second.data) == 1;
  }
}
