# Theme model of blueprint_ui

A Dafny model of the theming data layer of the `blueprint_ui` UI toolkit
(`crates/blueprint_ui/src/theme.rs`). A `Theme` bundles eight semantic colour
roles (primary, secondary, tertiary, info, warning, success, error, surface),
each a `ColorPair` of a text colour and a `ColorSet` shade ramp ordered
lightest to darkest, plus custom pairs, fonts, geometry tokens and two
`ThemeColor` accent selectors. The only behaviour is the ramp lookup:

- `get_val(x)` maps a percentile `x` on the 0..1000 scale onto the ramp,
  reading index `floor(clamp((n-1) * (x/1000), 0, n))`, and returns white for
  an empty ramp;
- `get_index(i)` reads position `i` behind the guard `i + 1 >= len`, which
  returns white.

`ThemeColor` is a closed selector type with a default of `SURFACE_500` and
named constants `ROLE_k` for every role at the stops 50, 100, 200, ..., 900.

Files:

- `colors.dfy` (module `Colors`): the colour record, `WHITE`, Rust's `usize`.
- `color_set.dfy` (module `ColorSets`): `ColorSet`, the two lookups exactly as
  written (with the panics Rust raises made explicit in the `Access` result),
  the two `From` constructors, and their properties.
- `color_set_fixes.dfy` (module `ColorSetFixes`): the two lookups with their
  boundary bugs corrected, tied to the written ones (see Findings).
- `theme.dfy` (module `Themes`): `ColorPair`, `ThemeColor`, the roles and
  stops, the 80 named constants, `Default`, and `Theme` as plain data.

Where the lookups panic in Rust, the model returns `IndexOutOfBounds` or
`AddOverflow` instead of a colour, so every case the source can reach is a
value of the model. The code declares ten named stops per role (50 and
100..900). With `n >= 2` shades, `get_val` panics, reading index `n`, for
every percentile at or above `1000 * n / (n - 1)`.

## Model

| member | source | states |
|---|---|---|
| `ColorSets.Index` | crates/blueprint_ui/src/theme.rs:68 | Rust `Vec` indexing: a colour exactly for in-range indices, that element; otherwise the bounds panic with index and length |
| `ColorSets.Clamp` | crates/blueprint_ui/src/theme.rs:67 | `f32::clamp` result lies in `[lo, hi]` and is the value itself when already inside |
| `ColorSets.ShadeIndex` | crates/blueprint_ui/src/theme.rs:67 | the clamped, truncated index lies in `0..n`, with `n` itself possible |
| `ColorSets.GetVal` | crates/blueprint_ui/src/theme.rs:64-69 | white for an empty ramp; any colour returned for a non-empty ramp is one of its shades; never an overflow |
| `ColorSets.GetIndex` | crates/blueprint_ui/src/theme.rs:70-73 | never reads out of bounds; panics on `i + 1` exactly when `i == usize::MAX` |
| `ColorSets.FromColor` | crates/blueprint_ui/src/theme.rs:75-79 | the ramp has exactly one shade, the given colour |
| `ColorSets.FromVec` | crates/blueprint_ui/src/theme.rs:80-84 | the ramp is the given vector, unchanged and in order |
| `ColorSets.DefaultColorSet` | crates/blueprint_ui/src/theme.rs:59-62 | the derived default ramp is empty |
| `ColorSets.ClampMonotone` | crates/blueprint_ui/src/theme.rs:67 | clamping preserves order |
| `ColorSets.ScaledMonotone` | crates/blueprint_ui/src/theme.rs:67 | the scaling `(n-1) * (x/1000)` (the function `ColorSets.Scaled`) preserves order on a non-empty ramp |
| `ColorSets.ShadeIndexMonotone` | crates/blueprint_ui/src/theme.rs:58-67 | a larger percentile never gives a smaller index (darker or equal, given lightest-first order), for all percentiles |
| `ColorSets.ShadeIndexAtOrBelowZero` | crates/blueprint_ui/src/theme.rs:67 | every percentile `<= 0` is clamped to index 0 |
| `ColorSets.ShadeIndexInDomain` | crates/blueprint_ui/src/theme.rs:67 | for percentiles in 0..1000 the index is in `0..n-1` |
| `ColorSets.GetValInDomain` | crates/blueprint_ui/src/theme.rs:64-68 | for a non-empty ramp and a percentile in 0..1000, `get_val` reads in range and returns that shade |
| `ColorSets.GetValLightest` | crates/blueprint_ui/src/theme.rs:67-68 | `get_val(x)` for any `x <= 0` is exactly the first shade |
| `ColorSets.GetValDarkest` | crates/blueprint_ui/src/theme.rs:67-68 | `get_val(1000)` is exactly the last shade |
| `ColorSets.GetValMiddle` | crates/blueprint_ui/src/theme.rs:64-68 | `get_val(500)` is the shade at `(n-1)/2` (rounded down) |
| `ColorSets.GetValMonotone` | crates/blueprint_ui/src/theme.rs:58-68 | when both lookups succeed, each returns the shade at its own `ShadeIndex`, and the darker percentile's index is at or after the lighter one's |
| `ColorSets.GetValPanicsIff` | crates/blueprint_ui/src/theme.rs:65-68 | `get_val` panics iff `n >= 2` and `(n-1) * x/1000 >= n`, and then the index read is `n` |
| `ColorSets.GetValPanicThreshold` | crates/blueprint_ui/src/theme.rs:67-68 | with `n >= 2` shades the panic happens iff `x >= 1000n/(n-1)`, a bound above 1000 |
| `ColorSets.GetValPanicExample` | crates/blueprint_ui/src/theme.rs:67-68 | a two-shade ramp at percentile 2000 reads index 2 of 2 |
| `ColorSets.FromColorConstant` | crates/blueprint_ui/src/theme.rs:64-79 | a one-shade ramp returns that shade at every percentile |
| `ColorSets.FromColorIsFromVec` | crates/blueprint_ui/src/theme.rs:75-84 | `from(color)` equals `from(vec![color])` |
| `ColorSets.DefaultColorSetIsWhite` | crates/blueprint_ui/src/theme.rs:59-73 | the default ramp is white at every percentile and every index below `usize::MAX` |
| `ColorSets.GetIndexCases` | crates/blueprint_ui/src/theme.rs:70-73 | `get_index(i)` is white when `i + 1 >= len` and `shades[i]` otherwise |
| `ColorSets.GetIndexHidesLast` | crates/blueprint_ui/src/theme.rs:71 | the last shade's own index yields white |
| `ColorSets.GetIndexNeverReturnsLast` | crates/blueprint_ui/src/theme.rs:70-73 | a darkest shade distinct from white and from the other shades is returned by no index |
| `ColorSetFixes.FixedShadeIndex` | crates/blueprint_ui/src/theme.rs:67 | with the clamp bound `n-1` the index is always a valid position |
| `ColorSetFixes.FixedGetVal` | crates/blueprint_ui/src/theme.rs:64-69 | corrected `get_val`: white for an empty ramp, otherwise always one of its shades |
| `ColorSetFixes.FixedGetIndex` | crates/blueprint_ui/src/theme.rs:70-73 | corrected `get_index`: white exactly past the end, `shades[i]` otherwise |
| `ColorSetFixes.FixedGetValAgrees` | crates/blueprint_ui/src/theme.rs:64-69 | wherever the written `get_val` returns a colour, the corrected one returns the same |
| `ColorSetFixes.FixedGetValAgreesInDomain` | crates/blueprint_ui/src/theme.rs:64-69 | on percentiles 0..1000 written and corrected `get_val` agree |
| `ColorSetFixes.FixedShadeIndexMonotone` | crates/blueprint_ui/src/theme.rs:67 | the corrected index is monotone for all percentiles |
| `ColorSetFixes.FixedGetValDarkest` | crates/blueprint_ui/src/theme.rs:67-68 | corrected `get_val` gives the darkest shade for every percentile `>= 1000` |
| `ColorSetFixes.FixedGetValExample` | crates/blueprint_ui/src/theme.rs:67-68 | at percentile 2000 on two shades, the written lookup panics, the corrected one returns the darker shade |
| `ColorSetFixes.FixedGetIndexAgrees` | crates/blueprint_ui/src/theme.rs:70-73 | below the last index written and corrected `get_index` agree |
| `ColorSetFixes.FixedGetIndexDiffers` | crates/blueprint_ui/src/theme.rs:70-73 | written and corrected `get_index` differ exactly at the last index, and only when the last shade is not white |
| `ColorSetFixes.FixedGetIndexReachesAll` | crates/blueprint_ui/src/theme.rs:70-73 | the corrected `get_index` returns every shade at its own index |
| `ColorSetFixes.FixedGetIndexExample` | crates/blueprint_ui/src/theme.rs:70-73 | on `[a, b]` with `b` not white, index 1 gives white as written and `b` when corrected |
| `Themes.DefaultColorPair` | crates/blueprint_ui/src/theme.rs:52-56 | the derived default pair has white text and an empty ramp |
| `Themes.RoleVariant` | crates/blueprint_ui/src/theme.rs:88-96 | the role variant carries the given shade and is neither `Custom` nor `Unique` |
| `Themes.RoleOf` | crates/blueprint_ui/src/theme.rs:88-99 | a selector names no fixed role exactly when it is `Custom` or `Unique` |
| `Themes.RoleOfRoleVariant` | crates/blueprint_ui/src/theme.rs:88-96 | the role of a role variant is recovered |
| `Themes.RoleVariantOfRoleOf` | crates/blueprint_ui/src/theme.rs:88-96 | every role selector is rebuilt from its role and shade |
| `Themes.StopsAscending` | crates/blueprint_ui/src/theme.rs:106-115 | the stops are 50, 100, 200, ..., 900, strictly increasing, and every stop is listed |
| `Themes.ConstInjective` | crates/blueprint_ui/src/theme.rs:106-192 | two named constants are equal only for the same role and stop |
| `Themes.ConstSelects` | crates/blueprint_ui/src/theme.rs:106-192 | each constant `Const(role, stop)` of the table (the function `Themes.Const`) selects its role at its stop's shade |
| `Themes.PrimaryConstants` | crates/blueprint_ui/src/theme.rs:106-115 | each `PRIMARY_k` is `Primary(k)`, and the ten in declaration order are the row of `Primary` over the stops |
| `Themes.SecondaryConstants` | crates/blueprint_ui/src/theme.rs:117-126 | each `SECONDARY_k` is `Secondary(k)`, and the ten in declaration order are the row of `Secondary` over the stops |
| `Themes.TertiaryConstants` | crates/blueprint_ui/src/theme.rs:128-137 | each `TERTIARY_k` is `Tertiary(k)`, and the ten in declaration order are the row of `Tertiary` over the stops |
| `Themes.InfoConstants` | crates/blueprint_ui/src/theme.rs:139-148 | each `INFO_k` is `Info(k)`, and the ten in declaration order are the row of `Info` over the stops |
| `Themes.WarningConstants` | crates/blueprint_ui/src/theme.rs:150-159 | each `WARNING_k` is `Warning(k)`, and the ten in declaration order are the row of `Warning` over the stops |
| `Themes.SuccessConstants` | crates/blueprint_ui/src/theme.rs:161-170 | each `SUCCESS_k` is `Success(k)`, and the ten in declaration order are the row of `Success` over the stops |
| `Themes.ErrorConstants` | crates/blueprint_ui/src/theme.rs:172-181 | each `ERROR_k` is `Error(k)`, and the ten in declaration order are the row of `Error` over the stops |
| `Themes.SurfaceConstants` | crates/blueprint_ui/src/theme.rs:183-192 | each `SURFACE_k` is `Surface(k)`, and the ten in declaration order are the row of `Surface` over the stops |
| `Themes.DefaultIsSurface500` | crates/blueprint_ui/src/theme.rs:100-104 | the function `Themes.Default` (`ThemeColor::default()`) is `Surface(500)`, the constant `SURFACE_500` |

## Left out

- Floating point: the `f32` percentile, the `len() as f32` conversion and
  the product `(n-1) * (x/1000)` are exact reals here. NaN input (which the
  cast turns into index 0), rounding, and lengths beyond 2^24 are not modelled.
- Truncation by `as usize`: applied only to a clamped non-negative value, so
  it is modelled as `Floor`; its saturation never arises.
- GetIndex: models `i + 1` with overflow checks, as in a debug build, on a
  64-bit target (a panic for `i == 2^64 - 1`; on a 32-bit target such as wasm32
  the overflowing index is `2^32 - 1`). A release build wraps to 0 and then panics on the
  index for a non-empty ramp, or returns white for an empty one.
- The host engine's colour type is collapsed to one sRGBA record; the other
  colour spaces are not modelled, since this code only stores, compares and
  returns colours. Its default is taken to be white, as in the engine.
- Font handles and the UI-size vectors of `Theme` are abstract types: they
  belong to the host engine and font asset system, and nothing here reads them.
- The custom pairs are a `map<string, ColorPair>`; no code in this file
  operates on them.
- Resolving a `ThemeColor` against a `Theme` (including the missing-key policy
  for `Custom`) is not in the source and is not modelled.
- Derived `Debug`, `Clone` and `PartialEq` are Dafny's structural equality
  of datatypes.

## Findings

| source | as written | input that shows it | evidently intended | confidence | as-written member | corrected member |
|---|---|---|---|---|---|---|
| crates/blueprint_ui/src/theme.rs:67-68 | clamp upper bound `n`, so index `n` is read and `shades[n]` panics | two shades, `get_val(2000.0)`: `(2-1)*2 = 2`, index 2 of length 2 | clamp to `n-1`, so every percentile yields a shade (the darkest above the range) | high, not executed | `ColorSets.GetValPanicExample` | `ColorSetFixes.FixedGetValExample` |
| crates/blueprint_ui/src/theme.rs:71 | guard `i + 1 >= len` returns white for the last position too | shades `[a, b]` with `b` not white, `get_index(1)` returns white | guard `i >= len`, so `get_index(len-1)` returns the darkest shade | high, not executed | `ColorSets.GetIndexHidesLast` | `ColorSetFixes.FixedGetIndexReachesAll` |
