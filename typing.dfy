/**
 * The typing view of blendSDF.js: a bounded history of typed symbols, each
 * with the emotion weights it was typed with, redrawn in full after every
 * accepted key. GL calls are recorded as a log of draw records; each record
 * carries the texture set that was bound for it.
 */
module Typing {
  import opened Wrappers
  import opened Emotions
  import opened TextureBank
  import opened GridLayout

  const BACKSPACE: string := "BACKSPACE"
  const SPACE: string := " "

  /** The keys `trigger` appends: A..H and the space. */
  const ALPHABET: set<string> := LETTERS + {SPACE}

  /** One visible symbol. */
  datatype Entry = Entry(key: string, weights: seq<real>)

  /** What the renderer draws, in order. */
  datatype Call =
    | Clear
      /** The full-screen translucent background plate. */
    | Background
      /** One glyph quad at offset (x, y), blended with `weights` over `textures`. */
    | Glyph(key: string, textures: seq<Texture>, x: real, y: real, weights: seq<real>)

  /** The invariant of the symbol list: within capacity, only accepted keys. */
  predicate WellFormed(symbols: seq<Entry>)
  {
    |symbols| <= CAPACITY && forall k :: 0 <= k < |symbols| ==> symbols[k].key in ALPHABET
  }

  /** The symbol list after `trigger(key, …)` with weight vector `weights`. */
  function Triggered(symbols: seq<Entry>, key: string, weights: seq<real>): (r: seq<Entry>)
    ensures key == BACKSPACE && symbols != [] ==> symbols == r + [symbols[|symbols| - 1]]
    ensures key == BACKSPACE && symbols == [] ==> r == []
    ensures key != BACKSPACE && key !in ALPHABET ==> r == symbols
    ensures key in ALPHABET && |symbols| < CAPACITY ==> r == symbols + [Entry(key, weights)]
    ensures key in ALPHABET && |symbols| == CAPACITY ==>
      |r| == CAPACITY - COLS + 1 && r == symbols[COLS..] + [Entry(key, weights)]
    ensures |symbols| <= CAPACITY ==> |r| <= CAPACITY
    ensures WellFormed(symbols) ==> WellFormed(r)
  {
    if key == BACKSPACE then
      if symbols == [] then [] else symbols[..|symbols| - 1]
    else if key !in ALPHABET then
      symbols
    else
      var pushed := symbols + [Entry(key, weights)];
      if |pushed| > CAPACITY then pushed[COLS..] else pushed
  }

  /** The draws of `drawSymbol(idx, idy, num, key, weights)`: none for a space. */
  function SymbolDraw(bank: Bank, idx: nat, idy: nat, num: nat, key: string, weights: seq<real>): (d: seq<Call>)
    requires Ready(bank)
    ensures |d| == if key == SPACE then 0 else 1
    ensures forall c :: c in d ==>
      c.Glyph? && c.key == key && c.weights == weights && |c.textures| == CHANNELS &&
      c.x == X(idx, idy, num) && c.y == Y(idy, num)
  {
    if key == SPACE then []
    else [Glyph(key, Bind(bank, key), X(idx, idy, num), Y(idy, num), weights)]
  }

  /** The draws of the first n iterations of render's loop over `symbols`. */
  function GlyphDraws(bank: Bank, symbols: seq<Entry>, n: nat): (d: seq<Call>)
    requires Ready(bank) && n <= |symbols|
    ensures |d| == |NonSpaceCells(symbols, n)| <= n
    ensures forall c :: c in d ==> c.Glyph? && c.key != SPACE
  {
    if n == 0 then []
    else
      var i := n - 1;
      GlyphDraws(bank, symbols, i) + SymbolDraw(bank, i % COLS, i / COLS, |symbols|, symbols[i].key, symbols[i].weights)
  }

  /** All the draws of one `render()`. */
  function Frame(bank: Bank, symbols: seq<Entry>): (f: seq<Call>)
    requires Ready(bank)
    ensures 2 <= |f| <= 2 + |symbols| && f[0] == Clear && f[1] == Background
    ensures forall j :: 2 <= j < |f| ==> f[j].Glyph?
  {
    [Clear, Background] + GlyphDraws(bank, symbols, |symbols|)
  }

  /** The indices below n of the symbols that are not spaces, in order. */
  function NonSpaceCells(symbols: seq<Entry>, n: nat): (cells: seq<nat>)
    requires n <= |symbols|
    ensures |cells| <= n
  {
    if n == 0 then []
    else NonSpaceCells(symbols, n - 1) + (if symbols[n - 1].key == SPACE then [] else [n - 1])
  }

  /** Reference definition: the glyph for symbol i, placed in cell i. */
  function GlyphAt(bank: Bank, symbols: seq<Entry>, i: nat): Call
    requires Ready(bank) && i < |symbols|
  {
    var e := symbols[i];
    Glyph(e.key, Bind(bank, e.key), X(i % COLS, i / COLS, |symbols|), Y(i / COLS, |symbols|), e.weights)
  }

  /** NonSpaceCells lists exactly the non-space indices below n, increasing. */
  lemma {:induction false} NonSpaceCellsExact(symbols: seq<Entry>, n: nat)
    requires n <= |symbols|
    ensures var cells := NonSpaceCells(symbols, n);
      (forall j :: 0 <= j < |cells| ==> cells[j] < n && symbols[cells[j]].key != SPACE) &&
      (forall j, k :: 0 <= j < k < |cells| ==> cells[j] < cells[k]) &&
      (forall i :: 0 <= i < n && symbols[i].key != SPACE ==> i in cells)
  {
    if n > 0 {
      NonSpaceCellsExact(symbols, n - 1);
    }
  }

  /**
   * Render's loop draws, in list order, exactly one glyph per non-space
   * symbol, each in the cell of its own index: spaces draw nothing but keep
   * their cell.
   */
  lemma {:induction false} GlyphDrawsFollowCells(bank: Bank, symbols: seq<Entry>, n: nat)
    requires Ready(bank) && n <= |symbols|
    ensures var cells := NonSpaceCells(symbols, n);
      |GlyphDraws(bank, symbols, n)| == |cells| &&
      forall j :: 0 <= j < |cells| ==> cells[j] < |symbols| && GlyphDraws(bank, symbols, n)[j] == GlyphAt(bank, symbols, cells[j])
  {
    if n > 0 {
      var i := n - 1;
      GlyphDrawsFollowCells(bank, symbols, i);
      NonSpaceCellsExact(symbols, i);
      var prev, cells := GlyphDraws(bank, symbols, i), NonSpaceCells(symbols, i);
      var step := SymbolDraw(bank, i % COLS, i / COLS, |symbols|, symbols[i].key, symbols[i].weights);
      assert GlyphDraws(bank, symbols, n) == prev + step;
      if symbols[i].key == SPACE {
        assert NonSpaceCells(symbols, n) == cells;
      } else {
        assert NonSpaceCells(symbols, n) == cells + [i];
        assert step == [GlyphAt(bank, symbols, i)];
      }
    }
  }

  /**
   * A frame of a well-formed list clears, draws the background, then one
   * glyph per non-space symbol, each strictly inside the canvas and with its
   * own key's texture set: the 'A' fallback is never needed.
   */
  lemma FrameOfWellFormed(bank: Bank, symbols: seq<Entry>)
    requires Ready(bank) && WellFormed(symbols)
    ensures var f := Frame(bank, symbols);
      |f| == 2 + |NonSpaceCells(symbols, |symbols|)| && f[0] == Clear && f[1] == Background &&
      forall j :: 2 <= j < |f| ==>
        f[j].Glyph? && f[j].key in LETTERS && f[j].textures == bank[f[j].key] &&
        -1.0 < f[j].x < 1.0 && -1.0 < f[j].y < 1.0
  {
    var cells := NonSpaceCells(symbols, |symbols|);
    GlyphDrawsFollowCells(bank, symbols, |symbols|);
    NonSpaceCellsExact(symbols, |symbols|);
    forall j | 0 <= j < |cells|
      ensures -1.0 < X(cells[j] % COLS, cells[j] / COLS, |symbols|) < 1.0
      ensures -1.0 < Y(cells[j] / COLS, |symbols|) < 1.0
    {
      CellInsideCanvas(cells[j], |symbols|);
    }
  }

  /** The typing renderer returned by setupSDFRenderer. */
  class Renderer {
    const bank: Bank
    var symbols: seq<Entry>
    var log: seq<Call>

    ghost predicate Valid()
      reads this
    {
      Ready(bank) && WellFormed(symbols)
    }

    constructor (bank: Bank)
      requires Ready(bank)
      ensures Valid() && this.bank == bank
      ensures symbols == [] && log == []
    {
      this.bank := bank;
      symbols := [];
      log := [];
    }

    /** drawSymbol: skip a space, else bind the key's textures and draw one quad. */
    method DrawSymbol(idx: nat, idy: nat, num: nat, key: string, weights: seq<real>)
      requires Ready(bank)
      modifies this`log
      ensures log == old(log) + SymbolDraw(bank, idx, idy, num, key, weights)
    {
      if key == SPACE {
        return;
      }
      var textures := Bind(bank, key);
      var x := X(idx, idy, num);
      var y := Y(idy, num);
      log := log + [Glyph(key, textures, x, y, weights)];
    }

    /** render: clear, draw the background plate, then every symbol in cell order. */
    method Render()
      requires Ready(bank)
      modifies this`log
      ensures log == old(log) + Frame(bank, symbols)
    {
      log := log + [Clear, Background];
      var i := 0;
      while i < |symbols|
        invariant i <= |symbols|
        invariant log == old(log) + [Clear, Background] + GlyphDraws(bank, symbols, i)
      {
        DrawSymbol(i % COLS, i / COLS, |symbols|, symbols[i].key, symbols[i].weights);
        i := i + 1;
      }
    }

    /**
     * trigger: pop on BACKSPACE, ignore keys outside A..H and space, else
     * push and evict the oldest row on overflow; every accepted key redraws.
     */
    method Trigger(key: string, expressions: Option<map<string, real>>)
      requires Valid()
      modifies this`symbols, this`log
      ensures Valid()
      ensures symbols == Triggered(old(symbols), key, Weights(expressions))
      ensures key == BACKSPACE || key in ALPHABET ==> log == old(log) + Frame(bank, symbols)
      ensures key != BACKSPACE && key !in ALPHABET ==> log == old(log)
    {
      var weights := Weights(expressions);
      if key == BACKSPACE {
        if symbols != [] {
          symbols := symbols[..|symbols| - 1];
        }
        Render();
        return;
      }
      if key !in ALPHABET {
        return;
      }
      symbols := symbols + [Entry(key, weights)];
      if |symbols| > CAPACITY {
        symbols := symbols[COLS..];
      }
      Render();
    }
  }
}
