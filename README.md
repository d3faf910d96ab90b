# color_space.py in Dafny

A model of the colour-space description module `python/color_space.py`. The module names the
parameters of video colour spaces by standard: reference white points, RGB primaries,
RGB-to-YUV luma coefficients and transfer characteristics (OETF/EOTF curves).

The model covers four parts.

- **`parse_constant_names`** (module `ConstantNames`). A constants class is modelled by its
  body, the assignments `NAME = 'value'` in the order Python runs them. The class namespace
  follows from the body, with later assignments replacing earlier ones. So do the names `dir`
  lists, each once and in code-point order. So does the resolution of a user string:
  - a string whose lower-case form is a token resolves to that token;
  - otherwise, one whose upper-case form is a constant name resolves to the constant's value;
  - anything else raises.

  It also returns the alias list.
- **The four `get_data` tables** (`WhitePoints`, `Primaries`, `Matrices`, `Transfers`). Each
  class body is written out, and the if-chain on the resolved token is a `Lookup`. A
  `Lookup` tells a recognised branch from the final "not recognised, use default" branch, so
  the proof can show that the default branch is dead. Each `GetData` returns the row, the
  token and the alias list, or the error. `ColorPrimaries` takes its white row from
  `WhitePoints`. Each Python class is a Dafny class with the fields its `__init__` sets and a
  `Create` method that runs `get_data`.
- **The parametric transfer curves** (module `Curves`). `de_linearize` and `linearize` are
  modelled on one row `(alpha, beta, gamma, delta)`. The real power function is a parameter
  `pow`, and each property holds for every `pow`, or for every `pow` with a named property of
  x^e.
- **`ColorTransfer.__init__`** (`Transfers.Bind`). It binds a curve to the parametric pair
  on its row, or by name to the linear, PQ or HLG pair. The class's `DeLinearize` and
  `Linearize` methods evaluate the bound pair.

Where the code and its intent disagree, the model states both. See "## Findings".

## Model

| member | source | states |
|---|---|---|
| ConstantNames.Namespace | python/color_space.py:11-12 | no contract; the body replays the class body so that a later assignment replaces an earlier one. LastBindingWins and NamespaceEntryDeclared state what it promises |
| ConstantNames.LastBindingWins | python/color_space.py:11-12 | a constant name assigned for the last time at position i is in the namespace and has the value assigned there, so a rebinding replaces the earlier one |
| ConstantNames.NamespaceEntryDeclared | python/color_space.py:11-12 | every namespace entry comes from an assignment in the class body |
| ConstantNames.TokenDeclared | python/color_space.py:14 | every token (namespace value) is the value of some assignment in the body |
| ConstantNames.Tokens | python/color_space.py:14 | no contract; `set(valid_names.values())`, the values of the namespace. TokenDeclared states what it promises |
| ConstantNames.Lower | python/color_space.py:14 | no contract; str.lower on ASCII letters (see "## Left out") |
| ConstantNames.Upper | python/color_space.py:16 | no contract; str.upper on ASCII letters (see "## Left out") |
| ConstantNames.Precedes | python/color_space.py:11 | no contract; Python's `<` on str, by code point, which orders the names `dir` lists. PrecedesIrreflexive, PrecedesTransitive and PrecedesTotal make it a strict total order |
| ConstantNames.PrecedesIrreflexive | python/color_space.py:11 | no string precedes itself under str `<` |
| ConstantNames.PrecedesTransitive | python/color_space.py:11 | str `<` is transitive |
| ConstantNames.PrecedesTotal | python/color_space.py:11 | of two different strings, one precedes the other under str `<` |
| ConstantNames.Insert | python/color_space.py:11 | inserting a name into an ascending list keeps it ascending, adds exactly that name and duplicates nothing |
| ConstantNames.Listing | python/color_space.py:11 | the names `dir` yields are ascending by code point and are exactly the names of the namespace |
| ConstantNames.Select | python/color_space.py:28 | the selection holds exactly the listed names bound to the token, in listing order |
| ConstantNames.Aliases | python/color_space.py:28 | the intended alias list: ascending, and holding exactly the constant names bound to the token |
| ConstantNames.Parse | python/color_space.py:10-29 | resolution succeeds iff the lower-cased input is a token or the upper-cased input is a constant name; a token input gives itself lower-cased; otherwise a constant name gives its value; the result is always a token; the error names the refused input (a payload the model adds: the source's RuntimeError carries only its fixed message); the alias list is ascending and holds exactly the names bound to the result |
| ConstantNames.CaseInsensitive | python/color_space.py:14-17 | two spellings that lower-case alike both resolve or both raise, to the same token and aliases |
| ConstantNames.SameLowerSameUpper | python/color_space.py:14-16 | two strings that lower-case alike upper-case alike |
| ConstantNames.UpperOfLower | python/color_space.py:14-16 | upper-casing ignores a prior lower-casing |
| ConstantNames.ResolvedTokenIsFixedPoint | python/color_space.py:14-15 | for a class of lower-case tokens, resolving the resolved token again gives the same token and aliases |
| ConstantNames.TokenResolves | python/color_space.py:14-15 | a token in any case resolves to itself |
| ConstantNames.ConstantResolves | python/color_space.py:16-17 | an upper-cased constant name that is not also a token resolves to the value last bound to it |
| ConstantNames.Unresolvable | python/color_space.py:18-26 | an input that is neither a token nor an upper-cased constant name raises with that input |
| ConstantNames.AliasesAsWritten | python/color_space.py:28 | the comprehension as written: an error names a key of the listing that is not two characters long; a result is no longer than the listing and holds one-character names only |
| ConstantNames.ParseAsWritten | python/color_space.py:10-29 | as written, an unknown name raises the same error as Parse, and any success gives Parse's token |
| ConstantNames.UnpackFails | python/color_space.py:28 | the as-written comprehension raises once any key is not two characters long |
| ConstantNames.AsWrittenNeverReturns | python/color_space.py:28 | as written, a class with a constant name of other than two characters raises for every input |
| ConstantNames.AsWrittenRaisesAtFirst | python/color_space.py:11-28 | as written, when the first constant name in `dir` order is not two characters long, every name that resolves raises the ValueError on that key |
| WhitePoints.Body | python/color_space.py:33-36 | no contract; the four assignments of class WhitePoint in source order |
| WhitePoints.Lookup | python/color_space.py:43-53 | the if-chain of get_data: a branch is recognised exactly for 'd65', 'c', 'dci' and 'e'; every other name reaches the default |
| WhitePoints.EveryTokenRecognised | python/color_space.py:43-53 | every WhitePoint token has its own branch, so the default 'E' branch is dead |
| WhitePoints.GetData | python/color_space.py:38-55 | succeeds iff the name resolves; returns the resolved token, its aliases and the row of its branch, never the default; otherwise raises with the name |
| WhitePoints.TokensResolve | python/color_space.py:33-43 | 'd65', 'c', 'e' and 'dci' in any case resolve to themselves |
| WhitePoints.DataRealisable | python/color_space.py:43-50 | every white returned is a realisable chromaticity |
| WhitePoints.RowRealisable | python/color_space.py:43-50 | every branch of the table, the default included, is a realisable chromaticity |
| WhitePoints.ParseAsWrittenRaises | python/color_space.py:33-41 | as written, WhitePoint.get_data raises for every input; every name that resolves raises the ValueError on 'C', the first key in `dir` order |
| WhitePoints.WhitePoint.constructor | python/color_space.py:57-58 | sets data, name and alias from a get_data result |
| WhitePoints.WhitePoint.Create | python/color_space.py:57-58 | WhitePoint(name) has exactly the fields get_data returns, or raises its error |
| Primaries.Body | python/color_space.py:62-74 | no contract; the assignments of class ColorPrimaries in source order |
| Primaries.Lookup | python/color_space.py:81-105 | the if-chain of get_data: a branch is recognised exactly for the seven tokens bt709, bt470bg, smpte170m, bt2020, bt470m, smpte431 and smpte432 |
| Primaries.EveryTokenRecognised | python/color_space.py:81-104 | every ColorPrimaries token has its own branch, so the default bt709 branch is dead |
| Primaries.WhiteResolves | python/color_space.py:83-104 | every white point name a branch passes resolves in WhitePoint to itself |
| Primaries.GetData | python/color_space.py:76-107 | succeeds iff the name resolves; returns the resolved token, its aliases, the branch's r, g, b rows and the chromaticity of its white point; otherwise raises with the name |
| Primaries.WhiteFromWhitePoint | python/color_space.py:81-107 | the white row is what WhitePoint.get_data returns for the branch's white point name |
| Primaries.WhiteRow | python/color_space.py:81-104 | the white row is illuminant C for bt470m, the DCI white for smpte431 and D65 for every other gamut |
| Primaries.WhiteOfBranch | python/color_space.py:81-105 | the white point of each branch is C for bt470m, DCI for smpte431 and D65 otherwise |
| Primaries.P3VariantsShareRgb | python/color_space.py:96-101 | smpte431 and smpte432 have the same primaries and different whites |
| Primaries.RowsRealisable | python/color_space.py:81-105 | every row of every branch is a realisable chromaticity |
| Primaries.DataRealisable | python/color_space.py:81-107 | all four rows returned are realisable chromaticities |
| Primaries.SrgbIsBt709 | python/color_space.py:62-63 | 'srgb' in any case names the bt709 primaries |
| Primaries.ParseAsWrittenRaises | python/color_space.py:61-79 | as written, ColorPrimaries.get_data raises for every input; every name that resolves raises the ValueError on 'BT2020', the first key in `dir` order |
| Primaries.ColorPrimaries.constructor | python/color_space.py:109-114 | sets data, name, alias and w, r, g, b as the rows of data |
| Primaries.ColorPrimaries.Create | python/color_space.py:109-114 | ColorPrimaries(name) has exactly the fields get_data returns and their rows, or raises its error |
| Matrices.Body | python/color_space.py:118-123 | no contract; the assignments of class ColorMatrix in source order |
| Matrices.Lookup | python/color_space.py:130-142 | the if-chain of get_data: a branch is recognised exactly for rgb, bt709, bt470bg, smpte170m and bt2020_ncl |
| Matrices.EveryTokenRecognised | python/color_space.py:130-143 | every ColorMatrix token has its own branch, so the default bt709 branch is dead |
| Matrices.GetData | python/color_space.py:125-144 | succeeds iff the name resolves; returns the resolved token, its aliases and the row of its branch, never the default; otherwise raises with the name |
| Matrices.DataIsLuma | python/color_space.py:132-139 | every matrix but 'rgb' has positive luma weights summing to 1 |
| Matrices.RowIsLuma | python/color_space.py:132-142 | every branch but 'rgb' holds positive luma weights summing to 1 |
| Matrices.RgbIsNotLuma | python/color_space.py:130-131 | 'rgb' gives (1, 1, 1), which is not a luma weighting |
| Matrices.Smpte240mIsSmpte170m | python/color_space.py:121-122 | 'smpte240m' in any case resolves to smpte170m, which has the bt470bg weights |
| Matrices.Smpte240mParses | python/color_space.py:121-122 | 'smpte240m' in any case resolves through the constant SMPTE240M to smpte170m |
| Matrices.ParseAsWrittenRaises | python/color_space.py:117-127 | as written, ColorMatrix.get_data raises for every input; every name that resolves raises the ValueError on 'BT2020_NCL', the first key in `dir` order |
| Matrices.ColorMatrix.constructor | python/color_space.py:146-150 | sets data, name, alias and Cr, Cg, Cb as the entries of data |
| Matrices.ColorMatrix.Create | python/color_space.py:146-150 | ColorMatrix(name) has exactly the fields get_data returns and their entries, or raises its error |
| Curves.DeLinearizeAsWritten | python/color_space.py:267-272 | no contract; de_linearize as written, the piecewise formula of lines 269-271. Odd, DeLinearizeAsWrittenKeepsSign and AsWrittenPowerSegmentRoundTripFails state its properties |
| Curves.LinearizeAsWritten | python/color_space.py:274-279 | no contract; linearize as written, the piecewise formula of lines 276-278, switching at beta. Odd, LinearizeKeepsSign and AsWrittenLinearSegmentRoundTrip state its properties |
| Curves.DeLinearize | python/color_space.py:267-272 | no contract; the corrected encoder, which subtracts alpha - 1 on the power segment (see "## Findings"). Odd, DeLinearizeKeepsSign and the round-trip lemmas state its properties |
| Curves.Linearize | python/color_space.py:274-279 | no contract; the corrected decoder, which switches at beta*delta as the comment at line 191 says. Odd, LinearizeKeepsSign and the round-trip lemmas state its properties |
| Curves.FamilyDeLinearize | python/color_space.py:256-272 | no contract; the de_linearize that __init__ leaves bound: the parametric encoder on the row, or the linear, PQ or HLG one |
| Curves.FamilyLinearize | python/color_space.py:256-279 | no contract; the linearize that __init__ leaves bound: the parametric decoder on the row, or the linear, PQ or HLG one |
| Curves.Odd | python/color_space.py:267-279 | both encoders and both decoders are odd: f(-x) == -f(x) |
| Curves.LinearSegmentRoundTrip | python/color_space.py:186-192 | decoding returns every sample on the encoder's linear segment, whatever pow is |
| Curves.PowerSegmentRoundTrip | python/color_space.py:186-192 | on the power segment, decoding returns the sample for a pow with (b^e)^(1/e) == b, wherever the code keeps the sign of the sample and lies at or above the decoder's switch point beta*delta |
| Curves.PowerCodeAboveSwitch | python/color_space.py:186-192 | for an increasing positive pow, when the encoder's power segment starts at a code at or above beta*delta (alpha == 1 when beta == 0), every power-segment code keeps the sample's sign and lies at or above beta*delta |
| Curves.PowerSegmentRoundTripAboveSwitch | python/color_space.py:186-192 | under that switch condition, decoding returns every sample of the power segment, for an increasing invertible pow |
| Curves.EncodeDecodeRoundTrip | python/color_space.py:186-192 | encoding returns every code value on the decoder's linear segment; on its power segment, it returns the code for a pow with (b^e)^(1/e) == b wherever the decoded value keeps the code's sign and lies at or above beta |
| Curves.DeLinearizeAsWrittenKeepsSign | python/color_space.py:267-272 | the as-written encoder keeps the sign of every sample |
| Curves.DeLinearizeKeepsSign | python/color_space.py:267-272 | the intended encoder keeps the sign of every sample |
| Curves.LinearizeKeepsSign | python/color_space.py:274-279 | both decoders keep the sign of every code value |
| Curves.AsWrittenPowerSegmentRoundTripFails | python/color_space.py:271 | as written, encoding then decoding never returns a non-zero sample on the power segment, for a row with alpha > 1 and alpha - 1 >= beta and a positive pow with (b^e)^(1/e) == b; every table row with alpha > 1 meets these conditions |
| Curves.AsWrittenLinearSegmentRoundTrip | python/color_space.py:276 | as written, a linear-segment code at or above beta comes back only where the two encoder segments coincide |
| Curves.PowUndo | python/color_space.py:278 | the decoder's exponent 1/gamma is undone by the encoder's gamma |
| Transfers.Body | python/color_space.py:164-183 | no contract; the assignments of class ColorTransfer in source order, BT470M twice |
| Transfers.Lookup | python/color_space.py:196-216 | the if-chain of get_data: a branch is recognised exactly for the eleven tokens of the class; linear, smpte2084 and arib_std_b67 get no row |
| Transfers.EveryTokenRecognised | python/color_space.py:196-216 | every ColorTransfer token has its own branch, so the default srgb branch is dead |
| Transfers.GetData | python/color_space.py:185-218 | succeeds iff the name resolves; returns the resolved token, its aliases and the row of its branch, never the default; otherwise raises with the name |
| Transfers.RowsWellFormed | python/color_space.py:196-211 | every row has alpha >= 1, beta >= 0, 0 < gamma < 1, delta >= 0, and delta > 0 when beta > 0 |
| Transfers.NoRowExactlyForNonParametric | python/color_space.py:196-213 | a resolved curve has no row iff it is linear, smpte2084 or arib_std_b67 |
| Transfers.RowAbsent | python/color_space.py:196-216 | the table has no row for exactly linear, smpte2084 and arib_std_b67 |
| Transfers.TokenListed | python/color_space.py:163-183 | every token of ColorTransfer is one of the eleven values the class assigns |
| Transfers.SharedBt709Row | python/color_space.py:196-211 | bt709, iec61966_2_4, smpte170m and bt2020_10 share one row; bt2020_12 differs |
| Transfers.Bt470mRebinding | python/color_space.py:170-175 | BT470M means 'bt470m', is an alias of bt470m and is not an alias of smpte170m |
| Transfers.Bt470mResolves | python/color_space.py:175-176 | 'bt470m' in any case resolves to bt470m and its 2.8 power row |
| Transfers.PqParses | python/color_space.py:180-181 | 'pq' in any case resolves through the constant PQ to smpte2084 |
| Transfers.PqResolves | python/color_space.py:180-181 | 'pq' in any case gets smpte2084 and no row |
| Transfers.Iec61966_2_1Parses | python/color_space.py:165-166 | 'iec61966_2_1' in any case resolves through its constant to srgb |
| Transfers.Iec61966_2_1Resolves | python/color_space.py:165-166 | 'iec61966_2_1' in any case gets srgb and the sRGB row |
| Transfers.UnknownNameFails | python/color_space.py:18-26 | 'gamma24', in any case, is neither a token nor a constant and raises |
| Transfers.UnknownNameRaises | python/color_space.py:194-216 | get_data raises for 'gamma24' instead of falling back to sRGB |
| Transfers.ParseAsWrittenRaises | python/color_space.py:163-194 | as written, ColorTransfer.get_data raises for every input; every name that resolves raises the ValueError on 'ARIB_STD_B67', the first key in `dir` order |
| Transfers.Bind | python/color_space.py:254-265 | a row binds the parametric pair on it; without a row, a pair is bound iff the name is linear, smpte2084 or arib_std_b67; the pair is parametric iff there is a row |
| Transfers.EveryCurveBound | python/color_space.py:254-265 | every resolved curve is bound to a pair, and a parametric pair has a well-formed row |
| Transfers.FamilyByName | python/color_space.py:256-265 | linear, PQ and HLG are bound by their tokens, and every other token gets the parametric pair on its own row |
| Transfers.LinearIsIdentity | python/color_space.py:220-224 | the linear pair is the identity both ways |
| Transfers.Bt709DarkSample | python/color_space.py:268-277 | for BT.709 at x = 0.01 the code is 0.045; the as-written decoder takes the power branch, the intended one returns 0.01 |
| Transfers.ColorTransfer.constructor | python/color_space.py:254-265 | sets data, name, alias and the bound pair, which is the one Bind selects |
| Transfers.ColorTransfer.Create | python/color_space.py:254-265 | ColorTransfer(name) has exactly the fields get_data returns and the pair Bind selects, or raises its error |
| Transfers.ColorTransfer.DeLinearize | python/color_space.py:267-272 | returns the bound pair's encoding of x |
| Transfers.ColorTransfer.Linearize | python/color_space.py:274-279 | returns the bound pair's decoding of x |

## Left out

- The PQ (SMPTE ST 2084) and HLG (ARIB STD-B67) formula bodies (lines 226-252) are not modelled. They need fractional powers, `log`, `exp` and `sqrt` on floats, so they are parameters of `Curves.Formulas`. The source also misuses numpy there: `np.array(..., m2)` at line 229 passes m2 as a dtype, and `np.max(..., 0)` at line 235 takes an axis where a floor was meant. These are defects, and no behaviour of theirs is modelled.
- The numeric value of the real power is not modelled. `pow` is a parameter, and properties that need it assume only that it is positive, increasing or invertible. IEEE rounding is not modelled either: the model computes on exact reals.
- numpy broadcasting and array shapes are not modelled. The formulas are modelled on one scalar sample.
- The logging calls and the loops that print the valid names (lines 19-25, 52, 103, 141, 215) are not modelled.
- `dir`/`getattr` reflection is replaced by the class body written out. The filter on dunder and callable names therefore has nothing to drop.
- `ColorRange` is not modelled: it is constants with no operation. The empty `rgb2yuv`/`yuv2rgb` arrays of ColorMatrix are not modelled either, since nothing uses them.
- Runtime faults of the Python text are not modelled. The `Union(...)` calls in the annotations raise when the module is imported. `np.vstack` at line 107 stacks the whole `(data, name, alias)` tuple of WhitePoint.get_data, where the data row is meant. `if not self.data` at line 256 raises for a four-element numpy row. The model uses the white point's data row and the test `data is None`.
- ConstantNames.Lower, ConstantNames.Upper and ConstantNames.Parse: str.lower and str.upper are modelled on ASCII letters only, and every other character is left unchanged. Python's str.upper also maps some non-ASCII letters onto ASCII ones: 'ſ' to 'S', 'ı' to 'I' and the ligature 'ﬅ' to 'ST'. So inputs such as 'ſrgb', 'lınear' and 'arib_ﬅd_b67' resolve through a constant name in the source (lines 16-17), but raise in the model. Unicode case mapping is not modelled.
- Curves.DeLinearize, Curves.Linearize, Curves.DeLinearizeAsWritten, Curves.LinearizeAsWritten, Transfers.ColorTransfer.DeLinearize and Transfers.ColorTransfer.Linearize: the model covers float samples only. `np.piecewise` fills an array made by `zeros_like(x)` (lines 269 and 276), which keeps the dtype of x, so the source truncates the result for integer-typed input (BT.709 as written turns the code 1.198 of x = 1 into 1). numpy dtypes are not modelled.
- Curves.DeLinearizeKeepsSign: proved only for a `pow` that is positive and increasing, when the power segment starts at a positive code, and with alpha == 1 when beta == 0. Every row of the table has that shape.
- Curves.PowerSegmentRoundTrip and Curves.EncodeDecodeRoundTrip: the round trips on the power segments hold only where the code keeps its sign and lies at or above beta*delta (and, for the decoder, where the decoded value lies at or above beta). Curves.PowerSegmentRoundTripAboveSwitch derives the first condition from an increasing pow and the switch condition on the row. With the real power, BT.709 meets it: its power segment starts at the code 0.0812, above beta*delta = 0.081. sRGB does not: its power segment starts at 0.04044991, below beta*delta = 0.04044994. Nor does bt2020_12: 0.0814472, below 0.08145. For those rows, a sample just above beta encodes below beta*delta, the corrected decoder takes its linear branch there and does not return the sample exactly.
- Transfers.ColorTransfer.DeLinearize and Transfers.ColorTransfer.Linearize: the parametric pair is the corrected formula of "## Findings", not the one at lines 271 and 276.
- GAMMA22 is bound to bt470bg (line 174) and GAMMA28 to bt470m (line 176), and both rows are a 2.8 power law, so the names do not match the rows. The model keeps the source's bindings and rows.

## Findings

| source | as written | input that shows it | evidently intended | confidence | as-written member | corrected member |
|---|---|---|---|---|---|---|
| python/color_space.py:28 | `[a for a, n in valid_names if n == name]` iterates the dict's keys and unpacks each key string into two names | any input that resolves, e.g. ColorTransfer('bt709'): the comprehension first reaches the key 'ARIB_STD_B67', which does not unpack into two names, so ValueError is raised | iterate `valid_names.items()` and return every constant name bound to the resolved token | high, not executed | ConstantNames.AsWrittenNeverReturns | ConstantNames.Parse |
| python/color_space.py:271 | the power segment encodes `sign(x) * (alpha*abs(x)^gamma + alpha - 1)` | BT.709 at x = 0.5: linearize of the code is not 0.5, since its `(abs(y) + alpha - 1)/alpha` undoes a subtraction | `alpha*abs(x)^gamma - (alpha - 1)` (ITU-R BT.709 Part 1 item 1.2), the inverse of linearize | high, not executed | Curves.AsWrittenPowerSegmentRoundTripFails | Curves.PowerSegmentRoundTrip |
| python/color_space.py:276 | linearize switches at `abs(x) < beta` on code values | BT.709 at x = 0.01 encodes to 0.045 >= 0.018, so decoding takes the power branch | switch at `abs(x) < beta*delta`, as the comment at line 191 says | high, not executed | Transfers.Bt709DarkSample | Curves.LinearSegmentRoundTrip |
