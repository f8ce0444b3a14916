# emotional_typeface: typing and keyboard renderers in Dafny

This project models the two WebGL renderers of emotional_typeface once their
GL calls are replaced by a log of draw records.

- **Typing view** (`blendSDF.js`). It keeps a bounded history of typed symbols
  (A..H and space), at most 13 × 5 = 65 of them. Each symbol carries a seven-channel
  emotion weight vector. `BACKSPACE` pops the last symbol. An overflowing push
  evicts the whole oldest row of 13. Every accepted key redraws the grid: a
  clear, the background plate, then one glyph per non-space symbol. The glyph
  sits at a centred grid position and is drawn with its key's texture set.
- **Keyboard view** (`keyboard.js`). It holds one set of pressed keys, shared by
  all keyboard renderers. `keyDown`/`keyUp` add and remove the upper-cased key
  name. `render` draws the 26 keys of a fixed position table in order, with one
  shared weight vector. A separate function gives the fragment shader's final
  colour rule for pressed and released keys.

Modules:

- `Wrappers`: `Option`, standing for JavaScript's `null`.
- `Emotions`: the channel order and the weight vector.
- `TextureBank`: the per-key texture sets and the `'A'` fallback.
- `GridLayout`: the position maths of the typing view's `drawSymbol`.
- `Typing`: the typing renderer class and its frame specification.
- `KeyCase`: `toUpperCase` on key names.
- `KeyShader`: the keyboard shader's colour branch.
- `Keyboard`: the key table, the shared pressed set and the keyboard renderer class.

State that the source changes in place is held in classes:

- `Typing.Renderer.symbols` is `symbolList`.
- `Keyboard.PressedKeys.keys` is `PRESSED_KEYS`.
- `log` stands for the GL draw calls of each renderer.

Each method is specified by a pure function: `Typing.Triggered`, `Typing.Frame`,
`Keyboard.Press`, `Keyboard.Release` and `Keyboard.Frame`. The lemmas are proved
about those functions. Layout arithmetic uses exact reals.

Facts about the code that the model keeps:

- The key table holds 26 keys (keyboard.js:9-36).
- A pressed key is drawn (0, α, α, α): opaque cyan at or below a blended value of
  0.5, and above it α = 2 − 2r falls linearly from 1 at 0.5 to 0 at 1 (keyboard.js:76-80).
- A released key is transparent above 0.5 and opaque slate otherwise (keyboard.js:82-88).
- `trigger('BACKSPACE')` redraws even on an empty list (blendSDF.js:186-189), so a
  redraw does not imply that the list changed.

## Model

| member | source | states |
|---|---|---|
| Emotions.Weights | blendSDF.js:179-183 | seven weights in EMOTIONS order, slot i is the mapping's intensity for label i or 0 when absent; a null mapping gives the neutral impulse [1,0,0,0,0,0,0] |
| Emotions.LabelsDistinct | blendSDF.js:6 | the seven channel labels are pairwise different, so each names exactly one channel |
| Emotions.SingleEmotion | blendSDF.js:183 | a mapping naming one emotion puts its value on that channel and 0 on the other six |
| Emotions.NullIsNeutral | blendSDF.js:179-182 | a null `expressions` yields the same vector as an explicit `{neutral: 1.0}` |
| Emotions.OnlyEmotionLabelsMatter | blendSDF.js:183 | two mappings that agree on the seven emotion labels give the same weights, whatever else they hold |
| TextureBank.Ready | blendSDF.js:85-90 | the bank holds seven textures for each of A..H, so the 'A' fallback set is always present |
| TextureBank.TextureKey | blendSDF.js:204-222 | the chosen set is always one of A..H; it is the key's own iff the key is in A..H, else 'A' |
| TextureBank.Bind | keyboard.js:173-191 | a ready bank always yields seven textures: the key's own set for A..H, the 'A' set for any other key |
| GridLayout.X | blendSDF.js:137-146 | for a symbol on an occupied row, within that row's count, x lies strictly inside (−1, 1) |
| GridLayout.Y | blendSDF.js:147 | for an occupied row of a block of at most 5 rows, y lies strictly inside (−1, 1) |
| GridLayout.NumRows | blendSDF.js:136 | the ceiling of num/13: the fewest rows of 13 that hold num symbols |
| GridLayout.LastRowCount | blendSDF.js:144 | for num > 0 the last row holds between 1 and 13 symbols, and the full rows plus it make num |
| GridLayout.XCentred | blendSDF.js:139-146 | x is the centre of slot idx in a row of RowCount symbols centred on 0: (2·idx+1−count)/13 |
| GridLayout.YCentred | blendSDF.js:147 | y is the centre of row idy in a block of num_rows rows centred on 0: (num_rows−1−2·idy)/5 |
| GridLayout.FullRowMirror | blendSDF.js:139-141 | on a full row x(idx) = −x(12−idx) |
| GridLayout.LastRowMirror | blendSDF.js:142-146 | on the last row x(idx) = −x(last_row_count−1−idx), however short the row |
| GridLayout.VerticalMirror | blendSDF.js:147 | y(idy) = −y(num_rows−1−idy): the occupied rows are centred vertically |
| GridLayout.CellOccupied | blendSDF.js:170-173 | symbol i of num lies on an occupied row and within that row's symbol count |
| GridLayout.CellInsideCanvas | blendSDF.js:135-147 | for up to 65 symbols every x and y lies strictly inside (−1, 1) |
| GridLayout.CellsDistinct | blendSDF.js:135-147 | two different symbols are never placed at the same (x, y) |
| GridLayout.SingleRow | blendSDF.js:136-147 | up to 13 symbols all sit on row 0 at y = 0, symbol i at x = (2i+1−num)/13 |
| GridLayout.FiveSymbols | blendSDF.js:136-147 | five symbols sit at x = −4/13, −2/13, 0, 2/13, 4/13 and y = 0 |
| Typing.Triggered | blendSDF.js:178-202 | BACKSPACE drops exactly the last entry (empty stays empty); keys outside A..H and space leave the list as is; below capacity a push appends one entry; at 65 a push leaves 53: the first 13 dropped, the rest in order, the new entry last; length ≤ 65 and the key invariant are preserved |
| Typing.SymbolDraw | blendSDF.js:125-156 | a space yields no draw; any other key yields exactly one glyph with that key, seven bound textures, its weights and the layout position x, y |
| Typing.GlyphDraws | blendSDF.js:170-174 | the first n loop iterations yield one glyph per non-space symbol among them, never a space glyph |
| Typing.Frame | blendSDF.js:159-175 | a frame starts with the clear and the background plate, followed only by glyphs, at most one per symbol |
| Typing.NonSpaceCells | blendSDF.js:129-131 | at most n cells among the first n draw |
| Typing.NonSpaceCellsExact | blendSDF.js:129-131 | the cells that draw are exactly the non-space indices, in increasing order |
| Typing.GlyphDrawsFollowCells | blendSDF.js:170-174 | render draws one glyph per non-space symbol, in list order, each in the cell (i mod 13, i div 13) of its own list index, so spaces keep their cells |
| Typing.FrameOfWellFormed | blendSDF.js:159-174 | a frame is a clear, the background plate, then the glyphs; every glyph is inside the canvas and uses its own key's textures, so the 'A' fallback is never reached from render |
| Typing.Renderer.constructor | blendSDF.js:121 | a new renderer starts with an empty symbol list and no draws |
| Typing.Renderer.DrawSymbol | blendSDF.js:125-156 | a space emits nothing; any other key appends one glyph with its bound textures, its layout position and its weights |
| Typing.Renderer.Render | blendSDF.js:159-175 | appends exactly one frame of the current list and leaves the list unchanged |
| Typing.Renderer.Trigger | blendSDF.js:178-202 | the new list is Triggered of the old one, the invariant is kept, BACKSPACE and accepted keys append one frame of the new list, and ignored keys draw nothing |
| KeyCase.UpperChar | keyboard.js:166 | a lower-case letter becomes the upper-case letter at the same alphabet position, no lower-case letter is ever returned, and every other character is kept |
| KeyCase.ToUpper | keyboard.js:166 | same length, each character upper-cased, and no lower-case letter remains |
| KeyCase.ToUpperIdempotent | keyboard.js:165-171 | upper-casing an already upper-cased name changes nothing |
| KeyCase.ToUpperFixesUpper | keyboard.js:165-171 | a name with no lower-case letter is its own upper case |
| KeyCase.SingleLetter | keyboard.js:165-171 | "a" and "A" both normalise to "A" |
| KeyShader.PressedAlpha | keyboard.js:76-80 | alpha is 1 up to 0.5 and 2(1−r) above it, so it stays within [0, 1] for r in [0.5, 1] |
| KeyShader.KeyColor | keyboard.js:76-89 | a pressed key is cyan (0, α, α, α) with α = PressedAlpha(value), so fully opaque exactly at or below 0.5 and within [0, 1] for values up to 1; a released key is exactly opaque slate (0.4, 0.4, 0.6, 1) at or below 0.5 and exactly transparent (0, 0, 0, 0) above it |
| KeyShader.PressedFadeContinuous | keyboard.js:77-79 | over all blended values, a pressed key's alpha never rises and changes by at most twice the change of the blended value, so the fade meets alpha 1 at 0.5 without a jump |
| KeyShader.PressedColorFades | keyboard.js:76-80 | the colour actually drawn for a pressed key never gains alpha as the blended value grows, and its alpha changes by at most twice that change: no jump at 0.5 |
| KeyShader.PressedAlphaMonotone | keyboard.js:78-79 | a pressed key's alpha never increases as the blended value grows (derived from PressedFadeContinuous) |
| KeyShader.SameThreshold | keyboard.js:76-88 | a pressed fragment is fully opaque exactly when the released one is slate; a released fragment is transparent exactly above 0.5 |
| Keyboard.ToDevice | keyboard.js:132-134 | x = 2px−1, y = 1−2py maps [0,1] into [−1,1] (and (0,1) into (−1,1)), and is inverted by px = (x+1)/2, py = (1−y)/2 |
| Keyboard.Press | keyboard.js:165-167 | the upper-cased key is pressed afterwards and no other key's state changes |
| Keyboard.Release | keyboard.js:169-171 | the upper-cased key is not pressed afterwards and no other key's state changes |
| Keyboard.PressIdempotent | keyboard.js:165-167 | pressing twice is pressing once; pressing a pressed key is a no-op |
| Keyboard.ReleaseUnpressed | keyboard.js:169-171 | releasing a key that is not pressed is a no-op |
| Keyboard.PressReleaseCaseInsensitive | keyboard.js:165-171 | a press and a release whose names agree up to letter case restore the previous set when that key was not already pressed |
| Keyboard.LowerDownUpperUp | keyboard.js:165-171 | keyDown('a') then keyUp('A') leaves the set empty and 'A' unpressed |
| Keyboard.KeyDraw | keyboard.js:155-161 | the draw of a table entry carries its key, the pressed flag equal to membership in the pressed set, the shared weights and scale, seven textures, and lies inside the canvas when the position is inside the unit square |
| Keyboard.KeyDraws | keyboard.js:153-162 | n loop iterations yield exactly n key quads, all with the same weights |
| Keyboard.Frame | keyboard.js:145-163 | a frame is the clear followed by exactly one draw per table entry |
| Keyboard.PositionKeysDistinct | keyboard.js:9-36 | no key appears twice in the table, so each key is drawn exactly once per frame |
| Keyboard.PositionsInsideCanvas | keyboard.js:9-36 | the table has 26 keys, all strictly inside the unit square |
| Keyboard.KeyDrawsInOrder | keyboard.js:153-162 | the loop's j-th draw is the draw of the table's j-th key |
| Keyboard.FrameDrawsEveryKey | keyboard.js:145-162 | a frame is a clear then one draw per table key, in order Q..M; each draw's pressed flag is that key's membership in the pressed set; all share one weight vector and scale; each lies strictly inside the canvas; keys outside A..H get the 'A' set |
| Keyboard.PressedKeys.constructor | keyboard.js:8 | the shared pressed set starts empty |
| Keyboard.Renderer.constructor | keyboard.js:38 | a renderer keeps its bank, the shared pressed set, the canvas size and the key size (45 by default), and has drawn nothing |
| Keyboard.Renderer.ScaleX | keyboard.js:135 | the horizontal scale is the one under which a key quad spans gridSize canvas pixels: scale · width = gridSize |
| Keyboard.Renderer.ScaleY | keyboard.js:136 | the vertical scale satisfies scale · height = gridSize |
| Keyboard.Renderer.KeyDown | keyboard.js:165-167 | the shared set becomes Press of the old set, and nothing is drawn |
| Keyboard.Renderer.KeyUp | keyboard.js:169-171 | the shared set becomes Release of the old set, and nothing is drawn |
| Keyboard.Renderer.DrawSymbol | keyboard.js:132-142 | appends one quad at the key's device position with scale gridSize/width × gridSize/height |
| Keyboard.Renderer.Render | keyboard.js:145-163 | appends exactly one frame built from the current pressed set and the weights of `expressions` |
| Keyboard.SharedPressedKeys | keyboard.js:8 | with two renderers on one pressed set, a key pressed through the first is drawn pressed by the second, and once released through the second it is drawn released by the first |

## Left out

- glUtils.js is not part of this model. It covers context acquisition, shader compilation and linking, and image loading.
- Renderer setup is not modelled: canvas sizing by device pixel ratio, viewport, vertex buffers, uniform locations and the asynchronous texture loading (blendSDF.js:10-122, keyboard.js:38-129). A loaded bank is a given map from key to seven texture handles. `TextureBank.Ready` states that setup has finished.
- The blend compositor loops of both fragment shaders are not modelled (blendSDF.js:39-77, keyboard.js:65-75). They use `pow(-d, 0.7)`, the Gaussian `exp` glows and the dot pattern. `KeyShader.KeyColor` takes the blended value as its input. The background plate's colour is not modelled either; the plate is a `Background` record.
- The typing view's per-glyph scale is not recorded in the `Glyph` records. It uses `Math.pow(|x|, 1.3)` and `fontSize = floor(height/rows*0.9)` (blendSDF.js:120, 149-150).
- All arithmetic is exact over the reals. The model does not capture JavaScript double rounding, the Float32Array conversion of the weights, or mediump shader precision.
- Intensities are reals. JavaScript `expressions[e] || 0.0` would also turn NaN and non-numeric values into 0, and the model does not cover that.
- KeyCase.ToUpper: only ASCII a..z are upper-cased. Other Unicode case mappings of `toUpperCase` (such as 'ß' to "SS") are not modelled. Two of them reach the key table in JavaScript: 'ı' (U+0131) upper-cases to "I" and 'ſ' (U+017F) to "S". So `keyDown('ı')` presses I in the source but no table key in the model.
- KeyCase.UpperChar: maps only a..z, for the same reason; 'ı' and 'ſ' are kept as they are.
- Keyboard.Renderer.constructor: requires a canvas of positive width and height. JavaScript would give an infinite scale for a zero-sized canvas.
- KeyShader.PressedAlpha: returns the alpha as the shader computes it, negative for a blended value above 1. The clamping to [0, 1] when the framebuffer is written belongs to GL and is not modelled.
- `console.log` output is not modelled, and neither are the GL state changes beyond the draw records.
- The Python asset scripts (generate_video.py, transfer.py, blend.py, resize.py) are offline image pipelines and are not modelled.
