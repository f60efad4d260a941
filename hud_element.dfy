/**
 * A HUD element (`src/components/HudElement/index.js`): a named group
 * holding one plane whose texture is either an image placed on a canvas
 * by edge rules when it loads, or text drawn one line per `\n`-piece.
 */
module HudElements {
  import opened Js

  /** A canvas coordinate: a number, the string `'center'`, or a value the canvas reads as `NaN`. */
  datatype Coord = At(v: real) | Center | NotANumber

  /** `c + d` in JavaScript: adding to `'center'` concatenates strings, which the canvas reads as `NaN`. */
  function Offset(c: Coord, d: real): (r: Coord)
    ensures c.At? <==> r.At?
    ensures c.At? ==> r.v - c.v == d
  {
    match c
    case At(v) => At(v + d)
    case _ => NotANumber
  }

  /** One drawing call on a canvas context. */
  datatype Draw = DrawText(text: string, x: Coord, y: Coord) | DrawImage(src: string, x: Coord, y: Coord)

  /** A canvas the size of the window with its 2D context. */
  class Canvas {
    const width: real
    const height: real
    var fillStyle: string
    var textAlign: string
    /** The size in `${fontSize}px Arial`. */
    var fontSize: real
    var drawn: seq<Draw>

    constructor (w: real, h: real)
      ensures width == w && height == h && drawn == []
    {
      width, height := w, h;
      fillStyle, textAlign, fontSize := "#000000", "start", 10.0;
      drawn := [];
    }

    method Add(d: Draw)
      modifies this
      ensures drawn == old(drawn) + [d]
      ensures fillStyle == old(fillStyle) && textAlign == old(textAlign) && fontSize == old(fontSize)
    {
      drawn := drawn + [d];
    }
  }

  /** The position of the first `c` in `s`. */
  function IndexOf(s: string, c: char): (k: nat)
    requires c in s
    ensures k < |s| && s[k] == c && c !in s[..k]
  {
    if s[0] == c then 0 else 1 + IndexOf(s[1..], c)
  }

  /** `s.split('\n')`. */
  function Split(s: string): (parts: seq<string>)
    ensures |parts| >= 1
    ensures forall i :: 0 <= i < |parts| ==> '\n' !in parts[i]
    ensures '\n' !in s ==> parts == [s]
    decreases |s|
  {
    if '\n' !in s then [s]
    else
      var k := IndexOf(s, '\n');
      [s[..k]] + Split(s[k + 1..])
  }

  /** `parts.join('\n')`. */
  function Join(parts: seq<string>): string
    requires |parts| >= 1
  {
    if |parts| == 1 then parts[0] else parts[0] + "\n" + Join(parts[1..])
  }

  /** Splitting at `\n` loses nothing: joining the pieces gives the text back. */
  lemma {:induction false} JoinSplit(s: string)
    ensures Join(Split(s)) == s
    decreases |s|
  {
    if '\n' in s {
      var k := IndexOf(s, '\n');
      JoinSplit(s[k + 1..]);
      assert s == s[..k] + "\n" + s[k + 1..];
    }
  }

  /**
   * The reference layout of `createTextTexture`: with a `\n` in the text,
   * piece i is drawn at `y + (i + 1) * fontSize * 1.2`; otherwise the whole
   * text is drawn once at exactly `(x, y)`.
   */
  function TextDraws(text: string, x: Coord, y: Coord, fontSize: real): (ops: seq<Draw>)
    ensures '\n' !in text ==> ops == [DrawText(text, x, y)]
    ensures '\n' in text ==> |ops| == |Split(text)| >= 2
    ensures '\n' in text ==> forall i :: 0 <= i < |ops| ==>
      ops[i] == DrawText(Split(text)[i], x, Offset(y, PieceOffset(i, fontSize)))
  {
    if '\n' in text then
      var parts := Split(text);
      seq(|parts|, i requires 0 <= i < |parts| => DrawText(parts[i], x, Offset(y, PieceOffset(i, fontSize))))
    else [DrawText(text, x, y)]
  }

  /** With a numeric `y` and a positive font size, each piece is drawn below the previous one. */
  lemma PiecesDescend(text: string, x: Coord, y: real, fontSize: real, i: nat, j: nat)
    requires '\n' in text && fontSize > 0.0
    requires i < j < |TextDraws(text, x, At(y), fontSize)|
    ensures TextDraws(text, x, At(y), fontSize)[i].y.v < TextDraws(text, x, At(y), fontSize)[j].y.v
  {
    PieceOffsetGrows(i, j, fontSize);
  }

  /** How far below `y` piece i of a multi-line text is drawn: `(i + 1) * fontSize * 1.2`. */
  function PieceOffset(i: nat, fontSize: real): real {
    ((i + 1) as real) * fontSize * 1.2
  }

  /** With a positive font size, later pieces are offset strictly further. */
  lemma PieceOffsetGrows(i: nat, j: nat, fontSize: real)
    requires i < j && fontSize > 0.0
    ensures PieceOffset(i, fontSize) < PieceOffset(j, fontSize)
  {
    var a, b := (i + 1) as real, (j + 1) as real;
    assert (b - a) * fontSize > 0.0;
    assert (b - a) * fontSize * 1.2 > 0.0;
  }

  /**
   * One axis of the `onload` placement: the near edge (`top`/`left`) sets
   * the coordinate, then the far edge (`bottom`/`right`) overrides it, and
   * only a coordinate still equal to `'center'` is centred.
   */
  function Place(start: Coord, near: Option<real>, far: Option<real>, inner: real, extent: real): (r: Coord)
    ensures far.Some? ==> r == At(inner - (far.value + extent))
    ensures far.None? && near.Some? ==> r == At(near.value)
    ensures far.None? && near.None? && start == Center ==> r == At((inner - extent) / 2.0)
    ensures far.None? && near.None? && start != Center ==> r == start
  {
    var afterNear := if near.Some? then At(0.0 + near.value) else start;
    var afterFar := if far.Some? then At(inner - (far.value + extent)) else afterNear;
    if afterFar == Center then At((inner - extent) / 2.0) else afterFar
  }

  /** A placed coordinate is always a number unless it started as `NaN` with no edge given. */
  lemma PlaceIsNumeric(start: Coord, near: Option<real>, far: Option<real>, inner: real, extent: real)
    requires start != NotANumber || near.Some? || far.Some?
    ensures Place(start, near, far, inner, extent).At?
  {
  }

  /** `this.image ? createImageTexture() : createTextTexture()` tests truthiness: an empty source counts as none. */
  predicate ImageGiven(image: Option<string>) {
    image.Some? && image.value != ""
  }

  class HudElement {
    const name: string
    /** `this.mesh.name`. */
    const meshName: string
    const text: Option<string>
    const fontSize: real
    const textAlign: string
    const color: string
    /** The image source; `None` when `undefined`. */
    const image: Option<string>
    const top: Option<real>
    const bottom: Option<real>
    const left: Option<real>
    const right: Option<real>
    var x: Coord
    var y: Coord
    /** The canvas behind the texture of the single plane in `this.mesh`. */
    var panel: Canvas

    /**
     * `new HudElement({...})` with the source's defaults: font size 32,
     * `start` alignment, white, at (0, 0). A text element needs its text:
     * `this.text.includes` throws on `undefined`.
     */
    constructor (name: string, text: Option<string>, image: Option<string>,
                 innerWidth: real, innerHeight: real,
                 top: Option<real> := None, bottom: Option<real> := None,
                 left: Option<real> := None, right: Option<real> := None,
                 fontSize: real := 32.0, textAlign: string := "start", color: string := "#FFFFFF",
                 x: Coord := At(0.0), y: Coord := At(0.0))
      requires ImageGiven(image) || text.Some?
      ensures this.name == name && meshName == name && this.text == text && this.image == image
      ensures this.fontSize == fontSize && this.textAlign == textAlign && this.color == color
      ensures this.top == top && this.bottom == bottom && this.left == left && this.right == right
      ensures this.x == x && this.y == y
      ensures fresh(panel) && panel.width == innerWidth && panel.height == innerHeight
      ensures ImageGiven(image) ==> panel.drawn == []
      ensures !ImageGiven(image) ==> panel.drawn == TextDraws(text.value, x, y, fontSize)
      ensures !ImageGiven(image) ==> panel.fillStyle == color && panel.textAlign == textAlign && panel.fontSize == fontSize
    {
      this.name, meshName := name, name;
      this.text, this.image := text, image;
      this.fontSize, this.textAlign, this.color := fontSize, textAlign, color;
      this.top, this.bottom, this.left, this.right := top, bottom, left, right;
      this.x, this.y := x, y;
      var texture: Canvas;
      if ImageGiven(image) {
        // createImageTexture: an empty canvas; the image is drawn when it loads.
        texture := new Canvas(innerWidth, innerHeight);
      } else {
        texture := CreateTextTexture(text.value, x, y, fontSize, textAlign, color, innerWidth, innerHeight);
      }
      panel := texture;
    }

    /**
     * `image.onload`: apply the edge rules in the source's order, then draw
     * the image at the resulting position.
     */
    method OnImageLoad(innerWidth: real, innerHeight: real, imageWidth: real, imageHeight: real)
      requires ImageGiven(image)
      modifies this, panel
      ensures panel == old(panel)
      ensures y == Place(old(y), top, bottom, innerHeight, imageHeight)
      ensures x == Place(old(x), left, right, innerWidth, imageWidth)
      ensures panel.drawn == old(panel.drawn) + [DrawImage(image.value, x, y)]
      ensures panel.fillStyle == old(panel.fillStyle) && panel.textAlign == old(panel.textAlign)
      ensures panel.fontSize == old(panel.fontSize)
    {
      if top.Some? { y := At(0.0 + top.value); }
      if bottom.Some? { y := At(innerHeight - (bottom.value + imageHeight)); }
      if left.Some? { x := At(0.0 + left.value); }
      if right.Some? { x := At(innerWidth - (right.value + imageWidth)); }
      if x == Center { x := At((innerWidth - imageWidth) / 2.0); }
      if y == Center { y := At((innerHeight - imageHeight) / 2.0); }
      panel.Add(DrawImage(image.value, x, y));
    }
  }

  /** `createTextTexture()`: style the context, then draw the text whole or piece by piece. */
  method CreateTextTexture(text: string, x: Coord, y: Coord, fontSize: real, textAlign: string, color: string,
                           innerWidth: real, innerHeight: real) returns (c: Canvas)
    ensures fresh(c) && c.width == innerWidth && c.height == innerHeight
    ensures c.fillStyle == color && c.textAlign == textAlign && c.fontSize == fontSize
    ensures c.drawn == TextDraws(text, x, y, fontSize)
  {
    c := new Canvas(innerWidth, innerHeight);
    c.fillStyle, c.textAlign, c.fontSize := color, textAlign, fontSize;
    if '\n' in text {
      var parts := Split(text);
      for index := 0 to |parts|
        invariant c.fillStyle == color && c.textAlign == textAlign && c.fontSize == fontSize
        invariant c.drawn == TextDraws(text, x, y, fontSize)[..index]
      {
        c.Add(DrawText(parts[index], x, Offset(y, PieceOffset(index, fontSize))));
      }
    } else {
      c.Add(DrawText(text, x, y));
    }
  }
}
