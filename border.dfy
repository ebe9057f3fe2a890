/** The frame both proxies paint around every icon they receive
    (src/bin/sni-daemon.rs:173-196, src/bin/client.rs:206-229): the two
    outermost rows and columns of pixels become [255, 255, 0, 0], so a tray
    icon that came from a qube cannot pass for one drawn by the host. */
module Border {
  import opened Wrappers
  import opened Ints
  import opened Messages

  /** The four bytes of one frame pixel. */
  const BORDER_PIXEL: seq<u8> := [255, 255, 0, 0]

  /** The pixel (column, row) that byte `i` belongs to, in a bitmap `w`
      pixels wide with four bytes per pixel. */
  function PixelOf(i: nat, w: nat): (nat, nat)
    requires w > 0
  {
    ((i / 4) % w, (i / 4) / w)
  }

  /** Pixel (x, y) of a w×h bitmap lies on its two-pixel frame. */
  predicate OnFrame(x: int, y: int, w: int, h: int) {
    x < 2 || x >= w - 2 || y < 2 || y >= h - 2
  }

  /** The bitmap `data` once its frame is painted: every byte of a frame
      pixel inside the w×h area takes its place in BORDER_PIXEL, every other
      byte is kept. */
  function Framed(w: nat, h: nat, data: seq<u8>): (r: seq<u8>)
    requires w > 0
    ensures |r| == |data|
  {
    seq(|data|, i requires 0 <= i < |data| =>
      if PixelOf(i, w).1 < h && OnFrame(PixelOf(i, w).0, PixelOf(i, w).1, w, h)
      then BORDER_PIXEL[i % 4] else data[i])
  }

  lemma DivModUnique(a: int, d: int, q: int, r: int)
    requires d > 0 && 0 <= r < d && a == q * d + r
    ensures a / d == q && a % d == r
  {
    var q', r' := a / d, a % d;
    assert (q - q') * d == r' - r;
    if q > q' {
      MulAtLeast(q - q', d);
    } else if q < q' {
      MulAtLeast(q' - q, d);
    }
  }

  lemma MulAtLeast(k: int, d: int)
    requires k >= 1 && d > 0
    ensures k * d >= d
  {
    assert k * d == (k - 1) * d + d;
    assert (k - 1) * d >= 0;
  }

  lemma MulMono(a: int, b: int, c: int)
    requires 0 <= a <= b && c >= 0
    ensures a * c <= b * c
  {
    assert b * c - a * c == (b - a) * c;
  }

  /** Byte `i` belongs to pixel (x, y) exactly when it is one of the four
      bytes starting at 4·(y·w + x), and then it is byte `i % 4` of it. */
  lemma PixelOfIff(i: nat, w: nat, x: nat, y: nat)
    requires x < w
    ensures PixelOf(i, w) == (x, y) <==> 4 * (y * w + x) <= i < 4 * (y * w + x) + 4
    ensures PixelOf(i, w) == (x, y) ==> i % 4 == i - 4 * (y * w + x)
  {
    var q := y * w + x;
    if 4 * q <= i < 4 * q + 4 {
      DivModUnique(i, 4, q, i - 4 * q);
      DivModUnique(q, w, y, x);
    }
    if PixelOf(i, w) == (x, y) {
      assert i / 4 == (i / 4) / w * w + (i / 4) % w;
      assert i / 4 == q;
    }
  }

  /** The bytes of pixel (x, y) lie below 4·w·h when (x, y) is in the bitmap. */
  lemma PixelInBounds(x: nat, y: nat, w: nat, h: nat)
    requires x < w && y < h
    ensures 4 * (y * w + x) + 4 <= 4 * w * h
  {
    MulMono(y, h - 1, w);
    assert (h - 1) * w == h * w - w;
  }

  /** A frame pixel inside the bitmap is painted in full. */
  lemma {:induction false} FramePixelPainted(w: nat, h: nat, data: seq<u8>, x: nat, y: nat, k: nat)
    requires x < w && y < h && OnFrame(x, y, w, h) && k < 4
    requires 4 * (y * w + x) + k < |data|
    ensures Framed(w, h, data)[4 * (y * w + x) + k] == BORDER_PIXEL[k]
  {
    PixelOfIff(4 * (y * w + x) + k, w, x, y);
  }

  /** A pixel off the frame keeps all four bytes. */
  lemma {:induction false} InteriorPixelKept(w: nat, h: nat, data: seq<u8>, x: nat, y: nat, k: nat)
    requires x < w && y < h && !OnFrame(x, y, w, h) && k < 4
    requires 4 * (y * w + x) + k < |data|
    ensures Framed(w, h, data)[4 * (y * w + x) + k] == data[4 * (y * w + x) + k]
  {
    PixelOfIff(4 * (y * w + x) + k, w, x, y);
  }

  /** Bytes past the w×h pixels are never touched. */
  lemma {:induction false} TailKept(w: nat, h: nat, data: seq<u8>, i: nat)
    requires w > 0 && 4 * w * h <= i < |data|
    ensures Framed(w, h, data)[i] == data[i]
  {
    var p := PixelOf(i, w);
    if p.1 < h {
      PixelOfIff(i, w, p.0, p.1);
      PixelInBounds(p.0, p.1, w, h);
      assert false;
    }
  }

  /** Painting the frame twice paints it once. */
  lemma FramedIdempotent(w: nat, h: nat, data: seq<u8>)
    requires w > 0
    ensures Framed(w, h, Framed(w, h, data)) == Framed(w, h, data)
  {
  }

  /** Pixel (x, y) done by the first pair of loops after `x` full columns
      from each side, and `y` rows of the next column pair. */
  predicate ColumnsDone(p: (nat, nat), w: nat, h: nat, x: nat, y: nat) {
    p.1 < h && (p.0 < x || p.0 >= w - x || ((p.0 == x || p.0 == w - 1 - x) && p.1 < y))
  }

  /** Pixel (x, y) done by the second pair of loops after `y` full rows from
      top and bottom, and `x` pixels of the next row pair. */
  predicate RowsDone(p: (nat, nat), w: nat, h: nat, y: nat, x: nat) {
    p.1 < h && (p.0 < 2 || p.0 >= w - 2 || p.1 < y || p.1 >= h - y
                || ((p.1 == y || p.1 == h - 1 - y) && p.0 < x))
  }

  /** `set_pixel`: the four bytes of pixel (x, y) become BORDER_PIXEL. */
  method SetPixel(a: array<u8>, w: nat, x: nat, y: nat)
    requires x < w && 4 * (y * w + x) + 4 <= a.Length
    modifies a
    ensures forall i | 0 <= i < a.Length ::
      a[i] == if PixelOf(i, w) == (x, y) then BORDER_PIXEL[i % 4] else old(a[i])
  {
    var base := 4 * (y * w + x);
    a[base] := 255;
    a[base + 1] := 255;
    a[base + 2] := 0;
    a[base + 3] := 0;
    forall i | 0 <= i < a.Length
      ensures a[i] == if PixelOf(i, w) == (x, y) then BORDER_PIXEL[i % 4] else old(a[i])
    {
      PixelOfIff(i, w, x, y);
    }
  }

  /** The proxies' painting loops: first the two outer columns on each side,
      top to bottom, then the two outer rows at top and bottom, left to right. */
  method PaintFrame(w: nat, h: nat, a: array<u8>)
    requires w >= 2 && h >= 2 && 4 * w * h <= a.Length
    modifies a
    ensures a[..] == Framed(w, h, old(a[..]))
  {
    ghost var orig := a[..];
    for x := 0 to 2
      invariant forall i | 0 <= i < a.Length ::
        a[i] == if ColumnsDone(PixelOf(i, w), w, h, x, 0) then BORDER_PIXEL[i % 4] else orig[i]
    {
      for y := 0 to h
        invariant forall i | 0 <= i < a.Length ::
          a[i] == if ColumnsDone(PixelOf(i, w), w, h, x, y) then BORDER_PIXEL[i % 4] else orig[i]
      {
        PixelInBounds(x, y, w, h);
        SetPixel(a, w, x, y);
        PixelInBounds(w - 1 - x, y, w, h);
        SetPixel(a, w, w - 1 - x, y);
      }
    }
    for y := 0 to 2
      invariant forall i | 0 <= i < a.Length ::
        a[i] == if RowsDone(PixelOf(i, w), w, h, y, 0) then BORDER_PIXEL[i % 4] else orig[i]
    {
      for x := 0 to w
        invariant forall i | 0 <= i < a.Length ::
          a[i] == if RowsDone(PixelOf(i, w), w, h, y, x) then BORDER_PIXEL[i % 4] else orig[i]
      {
        PixelInBounds(x, y, w, h);
        SetPixel(a, w, x, y);
        PixelInBounds(x, h - 1 - y, w, h);
        SetPixel(a, w, x, h - 1 - y);
      }
    }
    assert a[..] == Framed(w, h, orig);
  }

  /** A bitmap the loops paint without a panic: at least 2×2 pixels, all of
      them inside the data, and every byte offset `(y * width + x) * 4`
      representable in the `u32` arithmetic it is computed in. Any other
      size but 0×0 makes the loops subtract below zero, index past the
      data or overflow, each a panic in a debug build. */
  predicate Paintable(d: IconData) {
    && d.width >= 2 && d.height >= 2
    && 4 * (d.width as int) * (d.height as int) <= |d.data|
    && 4 * ((d.width as int) * (d.height as int) - 1) < U32_LIMIT
  }

  /** One received bitmap after painting: unchanged when it is 0×0, framed
      when it is paintable, a panic (None) otherwise. */
  function FramedIcon(d: IconData): (r: Option<IconData>)
    ensures r.None? <==> !(d.width == 0 && d.height == 0) && !Paintable(d)
    ensures r.Some? ==> r.value.width == d.width && r.value.height == d.height
                        && |r.value.data| == |d.data|
  {
    if d.width == 0 && d.height == 0 then Some(d)
    else if Paintable(d) then Some(d.(data := Framed(d.width as nat, d.height as nat, d.data)))
    else None
  }

  /** Every bitmap of an Icon event, painted in order; None when one of them
      makes the painting panic. */
  function FramedIcons(icons: seq<IconData>): (r: Option<seq<IconData>>)
    ensures r.Some? <==> forall k | 0 <= k < |icons| :: FramedIcon(icons[k]).Some?
    ensures r.Some? ==> |r.value| == |icons|
                        && forall k | 0 <= k < |icons| :: r.value[k] == FramedIcon(icons[k]).value
  {
    if icons == [] then Some([])
    else
      match FramedIcon(icons[0])
      case None => None
      case Some(f) =>
        match FramedIcons(icons[1..])
        case None => None
        case Some(rest) => Some([f] + rest)
  }

  /** A bitmap that already carries its frame: framing it changes nothing. */
  predicate HasFrame(d: IconData) {
    FramedIcon(d) == Some(d)
  }

  /** Every bitmap of a stored list carries the frame. */
  predicate AllFramed(o: Option<seq<IconData>>) {
    o.Some? ==> forall k | 0 <= k < |o.value| :: HasFrame(o.value[k])
  }

  /** Every bitmap that comes out of the painting carries the frame. */
  lemma FramedIconHasFrame(d: IconData)
    requires FramedIcon(d).Some?
    ensures HasFrame(FramedIcon(d).value)
  {
    if Paintable(d) {
      FramedIdempotent(d.width as nat, d.height as nat, d.data);
    }
  }

  /** Every bitmap of a painted list carries the frame. */
  lemma FramedIconsHaveFrame(icons: seq<IconData>)
    requires FramedIcons(icons).Some?
    ensures AllFramed(FramedIcons(icons))
  {
    var framed := FramedIcons(icons).value;
    forall k | 0 <= k < |framed| ensures HasFrame(framed[k]) {
      FramedIconHasFrame(icons[k]);
    }
  }

  /** One bitmap of an Icon event, painted in place in its own buffer. */
  method FrameIcon(d: IconData) returns (r: Option<IconData>)
    ensures r == FramedIcon(d)
  {
    if d.width == 0 && d.height == 0 {
      return Some(d);
    }
    if !Paintable(d) {
      return None;
    }
    var a := new u8[|d.data|](i requires 0 <= i < |d.data| => d.data[i]);
    assert a[..] == d.data;
    PaintFrame(d.width as nat, d.height as nat, a);
    r := Some(d.(data := a[..]));
  }

  /** `out` followed by the painted rest, if the rest paints. */
  function PrependTo(out: seq<IconData>, rest: Option<seq<IconData>>): Option<seq<IconData>> {
    match rest
    case None => None
    case Some(r) => Some(out + r)
  }

  lemma FramedIconsStep(out: seq<IconData>, icons: seq<IconData>, k: nat)
    requires k < |icons|
    ensures FramedIcon(icons[k]).None? ==> FramedIcons(icons[k..]).None?
    ensures FramedIcon(icons[k]).Some? ==>
      PrependTo(out, FramedIcons(icons[k..])) == PrependTo(out + [FramedIcon(icons[k]).value], FramedIcons(icons[k + 1..]))
  {
    assert icons[k..][1..] == icons[k + 1..];
    assert icons[k..][0] == icons[k];
    if FramedIcon(icons[k]).Some? && FramedIcons(icons[k + 1..]).Some? {
      var f, rest := FramedIcon(icons[k]).value, FramedIcons(icons[k + 1..]).value;
      assert out + ([f] + rest) == out + [f] + rest;
    }
  }

  /** The loop over an Icon event's bitmaps. */
  method FrameIcons(icons: seq<IconData>) returns (r: Option<seq<IconData>>)
    ensures r == FramedIcons(icons)
  {
    var out: seq<IconData> := [];
    assert icons[0..] == icons;
    if FramedIcons(icons).Some? {
      assert [] + FramedIcons(icons).value == FramedIcons(icons).value;
    }
    for k := 0 to |icons|
      invariant FramedIcons(icons) == PrependTo(out, FramedIcons(icons[k..]))
    {
      FramedIconsStep(out, icons, k);
      var f := FrameIcon(icons[k]);
      if f.None? {
        return None;
      }
      out := out + [f.value];
    }
    assert icons[|icons|..] == [];
    assert out + [] == out;
    r := Some(out);
  }
}
