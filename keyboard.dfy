/**
 * The keyboard view of keyboard.js: a fixed table of key positions, a set of
 * pressed keys shared by every keyboard renderer, and a render that draws
 * each key once, in the table's order. GL calls are recorded as a log of
 * draw records; each record carries the texture set that was bound for it.
 */
module Keyboard {
  import opened Wrappers
  import opened Emotions
  import opened TextureBank
  import opened KeyCase

  /** A key and where its centre sits, as a fraction of the canvas. */
  datatype KeyPosition = KeyPosition(key: string, x: real, y: real)

  /** POSITIONS, in declaration order: the QWERTY rows Q..P, A..L, Z..M. */
  const POSITIONS: seq<KeyPosition> := [
    KeyPosition("Q", 0.206, 0.303), KeyPosition("W", 0.258, 0.303),
    KeyPosition("E", 0.310, 0.303), KeyPosition("R", 0.365, 0.303),
    KeyPosition("T", 0.418, 0.303), KeyPosition("Y", 0.473, 0.303),
    KeyPosition("U", 0.527, 0.303), KeyPosition("I", 0.580, 0.303),
    KeyPosition("O", 0.635, 0.303), KeyPosition("P", 0.688, 0.303),
    KeyPosition("A", 0.220, 0.480), KeyPosition("S", 0.275, 0.480),
    KeyPosition("D", 0.330, 0.480), KeyPosition("F", 0.385, 0.480),
    KeyPosition("G", 0.442, 0.480), KeyPosition("H", 0.497, 0.480),
    KeyPosition("J", 0.554, 0.480), KeyPosition("K", 0.609, 0.480),
    KeyPosition("L", 0.666, 0.480),
    KeyPosition("Z", 0.237, 0.670), KeyPosition("X", 0.292, 0.670),
    KeyPosition("C", 0.351, 0.670), KeyPosition("V", 0.410, 0.670),
    KeyPosition("B", 0.469, 0.670), KeyPosition("N", 0.528, 0.670),
    KeyPosition("M", 0.587, 0.670)
  ]

  /** What the renderer draws, in order. */
  datatype Call =
    | Clear
      /** One key quad at offset (x, y) with the given scale and key_down flag. */
    | KeyQuad(key: string, textures: seq<Texture>, x: real, y: real,
              scaleX: real, scaleY: real, keyDown: bool, weights: seq<real>)

  /** A canvas fraction (px, py) in device coordinates; y is flipped. */
  function ToDevice(px: real, py: real): (p: (real, real))
    ensures 0.0 <= px <= 1.0 ==> -1.0 <= p.0 <= 1.0
    ensures 0.0 <= py <= 1.0 ==> -1.0 <= p.1 <= 1.0
    ensures 0.0 < px < 1.0 ==> -1.0 < p.0 < 1.0
    ensures 0.0 < py < 1.0 ==> -1.0 < p.1 < 1.0
    ensures (p.0 + 1.0) / 2.0 == px && (1.0 - p.1) / 2.0 == py
  {
    (px * 2.0 - 1.0, 1.0 - py * 2.0)
  }

  /** The pressed set after keyDown(key). */
  function Press(keys: set<string>, key: string): (r: set<string>)
    ensures ToUpper(key) in r
    ensures forall k :: k != ToUpper(key) ==> (k in r <==> k in keys)
  {
    keys + {ToUpper(key)}
  }

  /** The pressed set after keyUp(key). */
  function Release(keys: set<string>, key: string): (r: set<string>)
    ensures ToUpper(key) !in r
    ensures forall k :: k != ToUpper(key) ==> (k in r <==> k in keys)
  {
    keys - {ToUpper(key)}
  }

  /** Pressing a key that is already down changes nothing. */
  lemma PressIdempotent(keys: set<string>, key: string)
    ensures Press(Press(keys, key), key) == Press(keys, key)
    ensures ToUpper(key) in keys ==> Press(keys, key) == keys
  {
  }

  /** Releasing a key that is not down changes nothing. */
  lemma ReleaseUnpressed(keys: set<string>, key: string)
    requires ToUpper(key) !in keys
    ensures Release(keys, key) == keys
  {
  }

  /** Pressing and releasing the same key, in any letter case, undoes the press. */
  lemma PressReleaseCaseInsensitive(keys: set<string>, down: string, up: string)
    requires ToUpper(down) == ToUpper(up) && ToUpper(down) !in keys
    ensures Release(Press(keys, down), up) == keys
  {
  }

  /** keyDown('a'); keyUp('A') leaves 'A' unpressed. */
  lemma LowerDownUpperUp()
    ensures "A" !in Release(Press({}, "a"), "A")
    ensures Release(Press({}, "a"), "A") == {}
  {
  }

  /** The draw for one table entry. */
  function KeyDraw(bank: Bank, pressed: set<string>, weights: seq<real>,
                   scaleX: real, scaleY: real, p: KeyPosition): (c: Call)
    requires Ready(bank)
    ensures c.KeyQuad? && c.key == p.key && (c.keyDown <==> p.key in pressed) && c.weights == weights
    ensures c.scaleX == scaleX && c.scaleY == scaleY && |c.textures| == CHANNELS
    ensures 0.0 < p.x < 1.0 && 0.0 < p.y < 1.0 ==> -1.0 < c.x < 1.0 && -1.0 < c.y < 1.0
  {
    var d := ToDevice(p.x, p.y);
    KeyQuad(p.key, Bind(bank, p.key), d.0, d.1, scaleX, scaleY, p.key in pressed, weights)
  }

  /** The draws of the first n iterations of render's loop over POSITIONS. */
  function KeyDraws(bank: Bank, pressed: set<string>, weights: seq<real>,
                    scaleX: real, scaleY: real, n: nat): (d: seq<Call>)
    requires Ready(bank) && n <= |POSITIONS|
    ensures |d| == n
    ensures forall c :: c in d ==> c.KeyQuad? && c.weights == weights
  {
    if n == 0 then []
    else KeyDraws(bank, pressed, weights, scaleX, scaleY, n - 1)
         + [KeyDraw(bank, pressed, weights, scaleX, scaleY, POSITIONS[n - 1])]
  }

  /** All the draws of one `render(expressions)`. */
  function Frame(bank: Bank, pressed: set<string>, weights: seq<real>, scaleX: real, scaleY: real): (f: seq<Call>)
    requires Ready(bank)
    ensures |f| == |POSITIONS| + 1 && f[0] == Clear
  {
    [Clear] + KeyDraws(bank, pressed, weights, scaleX, scaleY, |POSITIONS|)
  }

  /** Every key sits strictly inside the canvas. */
  lemma PositionsInsideCanvas()
    ensures |POSITIONS| == 26
    ensures forall j :: 0 <= j < |POSITIONS| ==>
      0.0 < POSITIONS[j].x < 1.0 && 0.0 < POSITIONS[j].y < 1.0
  {
  }

  /** No key appears twice in the table, so a frame draws each key exactly once. */
  lemma PositionKeysDistinct()
    ensures forall i, j :: 0 <= i < j < |POSITIONS| ==> POSITIONS[i].key != POSITIONS[j].key
  {
  }

  /** The loop's j-th draw is the draw of the table's j-th entry. */
  lemma {:induction false} KeyDrawsInOrder(bank: Bank, pressed: set<string>, weights: seq<real>,
                                          scaleX: real, scaleY: real, n: nat)
    requires Ready(bank) && n <= |POSITIONS|
    ensures |KeyDraws(bank, pressed, weights, scaleX, scaleY, n)| == n
    ensures forall j :: 0 <= j < n ==>
      KeyDraws(bank, pressed, weights, scaleX, scaleY, n)[j] == KeyDraw(bank, pressed, weights, scaleX, scaleY, POSITIONS[j])
  {
    if n > 0 {
      KeyDrawsInOrder(bank, pressed, weights, scaleX, scaleY, n - 1);
      var prev := KeyDraws(bank, pressed, weights, scaleX, scaleY, n - 1);
      var all := KeyDraws(bank, pressed, weights, scaleX, scaleY, n);
      assert all == prev + [KeyDraw(bank, pressed, weights, scaleX, scaleY, POSITIONS[n - 1])];
      forall j | 0 <= j < n
        ensures all[j] == KeyDraw(bank, pressed, weights, scaleX, scaleY, POSITIONS[j])
      {
        if j < n - 1 {
          assert all[j] == prev[j];
        }
      }
    }
  }

  /**
   * One frame clears, then draws each of the 26 keys once, in table order:
   * the key_down flag is its membership in the pressed set, every draw has
   * the same weights and scale, lies strictly inside the canvas, and keys
   * outside A..H use the 'A' texture set.
   */
  lemma FrameDrawsEveryKey(bank: Bank, pressed: set<string>, weights: seq<real>, scaleX: real, scaleY: real)
    requires Ready(bank)
    ensures var f := Frame(bank, pressed, weights, scaleX, scaleY);
      |f| == |POSITIONS| + 1 && f[0] == Clear &&
      forall j :: 0 <= j < |POSITIONS| ==>
        var p := POSITIONS[j];
        f[j + 1].KeyQuad? && f[j + 1].key == p.key &&
        (f[j + 1].keyDown <==> p.key in pressed) &&
        f[j + 1].weights == weights && f[j + 1].scaleX == scaleX && f[j + 1].scaleY == scaleY &&
        (p.key in LETTERS ==> f[j + 1].textures == bank[p.key]) &&
        (p.key !in LETTERS ==> f[j + 1].textures == bank[DEFAULT_KEY]) &&
        -1.0 < f[j + 1].x < 1.0 && -1.0 < f[j + 1].y < 1.0
  {
    KeyDrawsInOrder(bank, pressed, weights, scaleX, scaleY, |POSITIONS|);
    PositionsInsideCanvas();
  }

  /** PRESSED_KEYS: one mutable set, shared by every keyboard renderer. */
  class PressedKeys {
    var keys: set<string>

    constructor ()
      ensures keys == {}
    {
      keys := {};
    }
  }

  /** The keyboard renderer returned by setupKeyboardRenderer. */
  class Renderer {
    const bank: Bank
    const pressed: PressedKeys
    /** Canvas size in device pixels and the key size in pixels. */
    const width: nat
    const height: nat
    const gridSize: real
    var log: seq<Call>

    ghost predicate Valid()
      reads this
    {
      Ready(bank) && width > 0 && height > 0
    }

    constructor (bank: Bank, pressed: PressedKeys, width: nat, height: nat, gridSize: real := 45.0)
      requires Ready(bank) && width > 0 && height > 0
      ensures Valid() && this.bank == bank && this.pressed == pressed
      ensures this.width == width && this.height == height && this.gridSize == gridSize
      ensures log == []
    {
      this.bank := bank;
      this.pressed := pressed;
      this.width := width;
      this.height := height;
      this.gridSize := gridSize;
      log := [];
    }

    /** The quad's half-width in device units: it spans gridSize pixels of the canvas. */
    function ScaleX(): (s: real)
      requires Valid()
      reads this
      ensures s * (width as real) == gridSize
    {
      gridSize / (width as real)
    }

    /** The quad's half-height in device units: it spans gridSize pixels of the canvas. */
    function ScaleY(): (s: real)
      requires Valid()
      reads this
      ensures s * (height as real) == gridSize
    {
      gridSize / (height as real)
    }

    /** keyDown: mark the upper-cased key as pressed; draws nothing. */
    method KeyDown(key: string)
      modifies pressed
      ensures pressed.keys == Press(old(pressed.keys), key)
      ensures log == old(log)
    {
      pressed.keys := pressed.keys + {ToUpper(key)};
    }

    /** keyUp: unmark the upper-cased key; draws nothing. */
    method KeyUp(key: string)
      modifies pressed
      ensures pressed.keys == Release(old(pressed.keys), key)
      ensures log == old(log)
    {
      pressed.keys := pressed.keys - {ToUpper(key)};
    }

    /**
     * drawSymbol: one quad at the key's device position with the fixed scale.
     * The key, its bound textures and the key_down flag are GL state set by
     * render just before the call; here they are passed in explicitly.
     */
    method DrawSymbol(key: string, textures: seq<Texture>, keyDown: bool, position: KeyPosition, weights: seq<real>)
      requires Valid()
      modifies this`log
      ensures var d := ToDevice(position.x, position.y);
        log == old(log) + [KeyQuad(key, textures, d.0, d.1, ScaleX(), ScaleY(), keyDown, weights)]
    {
      var x := position.x * 2.0 - 1.0;
      var y := 1.0 - position.y * 2.0;
      var scaleX := gridSize / (width as real);
      var scaleY := gridSize / (height as real);
      log := log + [KeyQuad(key, textures, x, y, scaleX, scaleY, keyDown, weights)];
    }

    /** render: clear, then draw every key of POSITIONS with one shared weight vector. */
    method Render(expressions: Option<map<string, real>>)
      requires Valid()
      modifies this`log
      ensures log == old(log) + Frame(bank, pressed.keys, Weights(expressions), ScaleX(), ScaleY())
    {
      log := log + [Clear];
      var weights := Weights(expressions);
      ghost var keys, sx, sy := pressed.keys, ScaleX(), ScaleY();
      var i := 0;
      while i < |POSITIONS|
        invariant i <= |POSITIONS|
        invariant log == old(log) + [Clear] + KeyDraws(bank, keys, weights, sx, sy, i)
      {
        var p := POSITIONS[i];
        var textures := Bind(bank, p.key);
        var down := p.key in pressed.keys;
        DrawSymbol(p.key, textures, down, p, weights);
        assert KeyDraws(bank, keys, weights, sx, sy, i + 1)
            == KeyDraws(bank, keys, weights, sx, sy, i) + [KeyDraw(bank, keys, weights, sx, sy, p)];
        i := i + 1;
      }
    }
  }

  /**
   * Two keyboard renderers sharing one pressed set: a key pressed through the
   * first is drawn pressed by the second, and released through the second it
   * is drawn released by the first.
   */
  method SharedPressedKeys(bank: Bank) returns (seenBySecond: bool, releasedForFirst: bool)
    requires Ready(bank)
    ensures seenBySecond && releasedForFirst
  {
    var keys := new PressedKeys();
    var first := new Renderer(bank, keys, 1158, 642);
    var second := new Renderer(bank, keys, 1158, 642);
    SingleLetter();
    assert POSITIONS[10].key == "A";
    first.KeyDown("a");
    second.Render(None);
    FrameDrawsEveryKey(bank, keys.keys, NEUTRAL_WEIGHTS, second.ScaleX(), second.ScaleY());
    seenBySecond := second.log[11].keyDown;
    second.KeyUp("A");
    first.Render(None);
    FrameDrawsEveryKey(bank, keys.keys, NEUTRAL_WEIGHTS, first.ScaleX(), first.ScaleY());
    releasedForFirst := !first.log[11].keyDown;
  }
}
