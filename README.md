# Token layout engine of the Owlbear Rodeo AI extension, in Dafny

This project models the `SceneBuilder` of the extension (`src/lib/scene-builder.ts`).
Given a token count and a scene type, it produces one pixel position per token. It also
converts between grid cells and pixel coordinates. The class has no mutable state. Its
three read-only grid constants (cell size 140 px, 40 columns, 30 rows) become module
constants. So there is no Dafny class: the whole model is the module `SceneBuilder` in
`scene_builder.dfy`.

- Each of the four layouts is a `method` with a `for` loop. The loop appends one
  `Position` per index, as the source's `push` does.
- Each method is proved against a per-index specification function: `DungeonAt`,
  `DefaultAt`, `EncounterAt`, `TavernAt`. A predicate `IsXxxLayout(ps, count)` ties a
  result to that function: its length is `count` and entry `k` is the function at `k`.
- The dispatch `GeneratePositions` selects the layout by the scene-type string. The
  lemmas then state the properties of each layout in terms of those predicates:
  closed-form coordinates, bounds, row structure, distinctness, the encounter formation
  and the worked examples.
- Positions are `real`, because the encounter y-offsets `half/4` and `enemies/6` are
  fractional. Grid cells are `int` pairs.
- `Math.ceil(Math.sqrt(n))` is the exact integer ceiling square root (`CeilSqrt`): the
  least `c` with `c*c >= n`.
- The tavern layout's random source and trigonometry are parameters:
  - `random(k)` is the `k`-th value `Math.random()` returns.
  - `cosTurn(t)` and `sinTurn(t)` are the cosine and sine of the angle `t * 2 * pi`,
    that is, of `t` full turns.

Behaviour of the source that the model keeps:

- The tavern loop has no special case for `count == 0`: it runs zero times, so
  `i / count` is never computed, and the model returns `[]`.
- The tag type at `src/lib/scene-builder.ts:14` lists `'outdoor'`, and the `default:` arm
  at :22 sends every tag other than `'tavern'`, `'encounter'` and `'dungeon'` to the
  default grid. The model takes the tag as a string and does the same.
- Positions are never clamped to the canvas. `DungeonOverflowsCanvas` shows that a
  55-token dungeon puts a token below the bottom edge.

## Model

| member | source | states |
|---|---|---|
| `SceneBuilder.GeneratePositions` | src/lib/scene-builder.ts:14-25 | returns exactly `tokenCount` positions; `"tavern"`, `"encounter"` and `"dungeon"` give their own layouts; every other tag (e.g. `"outdoor"`) gives exactly the default layout |
| `SceneBuilder.GenerateTavernLayout` | src/lib/scene-builder.ts:30-46 | exactly `count` entries, in index order; entry `k` is `TavernAt(count, k, …)` = the canvas centre (2800, 2100) plus (cosTurn(k/count), sinTurn(k/count)) times the radius 140·(3 + 5·random(k)); empty when `count == 0` |
| `SceneBuilder.TavernTurn` | src/lib/scene-builder.ts:36 | the angle of token `i` of `count` is the fraction `i/count` of a full turn: in [0, 1) and evenly spaced (`t * count == i`) |
| `SceneBuilder.TavernRadius` | src/lib/scene-builder.ts:37 | a draw in [0, 1) gives a radius in [3S, 8S) |
| `SceneBuilder.TavernRing` | src/lib/scene-builder.ts:32-42 | when cos/sin lie on the unit circle and the draw is in [0, 1), each tavern token's squared distance from the centre lies in [(3S)^2, (8S)^2) |
| `SceneBuilder.GenerateEncounterLayout` | src/lib/scene-builder.ts:51-77 | exactly `count` entries, in index order; entry `k` is `EncounterAt(count, k)`: for the first `half = floor(count/2)` entries `PartyAt(half, k)` = (5S + (k mod 2)·2S, 15S + (k div 2 − half/4)·2S), for the remaining `count − half` entries `EnemyAt(count − half, k − half)` = (35S + (j mod 3)·2S, 15S + (j div 3 − (count − half)/6)·2S) with j = k − half |
| `SceneBuilder.EncounterFormation` | src/lib/scene-builder.ts:53-74 | party token `i` has x = 700 or 980 by `i mod 2` and y = 2100 + (i div 2 - half/4)·280; enemy token `j = i - half` has x = 4900, 5180 or 5460 by `j mod 3` and y = 2100 + (j div 3 - (count-half)/6)·280 |
| `SceneBuilder.EncounterPartyFirst` | src/lib/scene-builder.ts:58-74 | token `i` lies left of the canvas centre x = 2800 if and only if `i < floor(count/2)` |
| `SceneBuilder.EncounterDistinct` | src/lib/scene-builder.ts:61-74 | no two encounter tokens share a position |
| `SceneBuilder.EncounterSeven` | src/lib/scene-builder.ts:51-77 | for 7 tokens the x-coordinates are 700, 980, 700 (party) then 4900, 5180, 5460, 4900 (enemies) |
| `SceneBuilder.GenerateDungeonLayout` | src/lib/scene-builder.ts:82-95 | exactly `count` entries, in index order; entry `k` is `DungeonAt(k)` = (5S + (k mod 6)·3S, 5S + (k div 6)·3S) with S = 140 |
| `SceneBuilder.DungeonCoordinates` | src/lib/scene-builder.ts:84-91 | dungeon token `i` is at (700 + (i mod 6)·420, 700 + (i div 6)·420), so its x lies in [700, 2800] |
| `SceneBuilder.DungeonRowStep` | src/lib/scene-builder.ts:87-91 | inside a row of six the next token is 420 to the right on the same row; after the sixth it is back at x = 700 and 420 lower |
| `SceneBuilder.DungeonDistinct` | src/lib/scene-builder.ts:88-91 | no two dungeon tokens share a position |
| `SceneBuilder.DungeonOverflowsCanvas` | src/lib/scene-builder.ts:84-91 | with 55 or more tokens, token 54 lies below the canvas bottom `30 * 140`: nothing clamps positions |
| `SceneBuilder.DungeonDeterministic` | src/lib/scene-builder.ts:82-95 | two dungeon layouts of the same count are identical |
| `SceneBuilder.CeilSqrt` | src/lib/scene-builder.ts:102 | the column count `c` satisfies `c*c >= n` and `(c-1)*(c-1) < n` |
| `SceneBuilder.CeilSqrtLeast` | src/lib/scene-builder.ts:102 | the column count is at most every `d` with `d*d >= n` |
| `SceneBuilder.GenerateDefaultLayout` | src/lib/scene-builder.ts:100-114 | exactly `count` entries, in index order; entry `k` is `DefaultAt(count, k)` = (10S + (k mod cols)·2S, 10S + (k div cols)·2S) with cols = `CeilSqrt(count)`; empty when `count == 0` |
| `SceneBuilder.DefaultCoordinates` | src/lib/scene-builder.ts:102-110 | with `cols = ceil(sqrt(count))`, token `i` is at (1400 + (i mod cols)·280, 1400 + (i div cols)·280) |
| `SceneBuilder.DefaultSquare` | src/lib/scene-builder.ts:102-110 | every default-layout token lies in the cols-by-cols block with corner (1400, 1400) and pitch 280 |
| `SceneBuilder.DefaultRowCount` | src/lib/scene-builder.ts:102-110 | `count > 0` tokens in rows of `cols = ceil(sqrt(count))` fill `cols - 1` or `cols` rows: the grid is square-ish |
| `SceneBuilder.DefaultDistinct` | src/lib/scene-builder.ts:106-110 | no two default-layout tokens share a position |
| `SceneBuilder.DefaultNine` | src/lib/scene-builder.ts:100-114 | for 9 tokens `cols = 3`, and the layout is the 3-by-3 block with corner (1400, 1400) and pitch 280 |
| `SceneBuilder.GridToPixels` | src/lib/scene-builder.ts:119-124 | the result is the centre of cell (gridX, gridY): strictly inside it, equally far from opposite edges |
| `SceneBuilder.PixelsToGrid` | src/lib/scene-builder.ts:129-134 | the result is the cell whose half-open extent [c·140, (c+1)·140) contains the pixel, on each axis |
| `SceneBuilder.PixelsToGridCell` | src/lib/scene-builder.ts:129-134 | a pixel maps to column `c` if and only if 140c <= x < 140c + 140, and likewise for rows |
| `SceneBuilder.GridRoundTrip` | src/lib/scene-builder.ts:119-134 | `PixelsToGrid(GridToPixels(c, r)) == (c, r)` for all integers `c`, `r` |
| `SceneBuilder.PixelRoundTripIsLossy` | src/lib/scene-builder.ts:119-134 | pixels (0, 0) and (139, 139) both map to cell (0, 0), whose centre is (70, 70): the reverse round trip is lossy |

## Left out

- Floating point: coordinates are exact reals. The rounding of JavaScript doubles is not
  modelled, such as `(count - half) / 6` or `Math.floor(x / 140)` near a cell edge.
- `CeilSqrt`: it is the exact integer ceiling square root. The rounding of
  `Math.sqrt` followed by `Math.ceil` is not modelled.
- Tavern trigonometry and randomness: `Math.cos`, `Math.sin` and `Math.random` are
  parameters. They are not defined, because they are floating-point library calls and a
  nondeterministic source.
- `TavernRing`: it assumes that the cos/sin parameters lie on the unit circle at the
  token's angle, because the trigonometry is a parameter.
- `GenerateTavernLayout`: it writes the angle as a fraction of a full turn. So
  `Math.PI * 2` is absorbed into the cos/sin parameters.
- Token count: it is a `nat`. Negative, fractional or NaN JavaScript numbers are not
  modelled. For negative counts every loop of the source would run zero times anyway.
- `GridToPixels`: it takes integer cells. The source accepts any number there, including
  fractional cells.
- Scene type: it is a string. The TypeScript union type is not enforced, and the switch
  treats every other string as the default layout.
- `src/lib/obr-client.ts` is not part of this model. It is Owlbear Rodeo SDK glue: item
  building, adding and deleting items, notifications and modals, all foreign async calls.
- `src/lib/api-client.ts` is not part of this model. It is HTTP fetch calls to a
  remote service, whose only logic is a throw on a failed response.
- `src/types/index.ts` holds only type declarations. `Position` is the datatype
  `SceneBuilder.Position`.
- `src/main.ts` and `vite.config.ts` are application bootstrap and build configuration.
- The shared `sceneBuilder` instance at `src/lib/scene-builder.ts:137` is not modelled: the
  constants are module-level.
