# Hemispherical-directional reflectance look-up table, modelled in Dafny

The repository builds a look-up table for split-sum image-based lighting.
Each texel (x, y) of a width x height table stands for a view angle and a
Trowbridge-Reitz roughness. Its entry is a pair of Monte Carlo integrals:
the zeroth spherical moments of the f0 and f90 factors of the Schlick
Fresnel term. A generator computes the 128 x 128 table and writes it in two
forms:
- a DDS texture: the magic word and the header, then the two components of
  every texel as interleaved half floats;
- a C header: a licence preamble, the two dimensions, and one line of two
  hexadecimal half floats per texel.

The model has three modules.

- `Integration` (integration.dfy) models the table builder and the sample
  evaluator.
  - Work indices split into texel coordinates, and each texel's result goes
    to its slot.
  - Texel coordinates become texture coordinates, then view direction and
    roughness, with their floors.
  - The evaluator re-clamps its inputs. It clamps VdotH and the Schlick
    variable, splits the Fresnel weight, and accumulates contributions in
    grain-sized chunks.
  - Scalars are `real`. The DirectXMath negate, reflect and dot products
    are modelled exactly by their real formulas (`Negate`, `Reflect`,
    `Dot`), so only their float rounding is left out. The other calls into
    code outside the repository are function-valued fields of `Externals`:
    the Hammersley points, half-vector sampling, the throughput, vector
    normalisation, the square root and the BRDF library's floors. Subset
    types state the only assumptions made about them: the throughput is
    non-negative (the source asserts this), the square root is non-negative
    (positive on positive input), and each floor lies in (0, 1].
  - The parallel map and the parallel reduction are sequential loops, over
    work indices and over chunks.
- `Printf` (printf.dfy) models the two conversions the generator prints
  with: `%d` of a non-negative value and `%04X` of a 16-bit value. Each
  comes with the parser that reads it back.
- `LutFiles` (lut_files.dfy) models the generator.
  - An open file is a sequence that writes append to. The DDS file holds
    bytes, with words and halves stored little-endian as on the target. The
    C header holds characters.
  - The float-to-half conversion is a parameter.

## Model

| member | source | states |
|---|---|---|
| Integration.TexelCount | include/brx_hemispherical_directional_reflectance_integration.h:55 | the number of work items is the 32-bit product of height and width: below 2^32, and exactly width * height when that does not wrap |
| Integration.SlotOfIndex | include/brx_hemispherical_directional_reflectance_integration.h:65-70 | for width >= 1 and begin < width * height: x = begin % width < width, y = begin / width < height, and width * y + x == begin, so the slot written is the work index |
| Integration.IndexOfTexel | include/brx_hemispherical_directional_reflectance_integration.h:65-70 | conversely, texel (x, y) has work index width * y + x < width * height, which splits back into (x, y) |
| Integration.Texcoord | include/brx_hemispherical_directional_reflectance_integration.h:168-172 | index / (size - 1) lies in [0, 1]; it is 0 exactly for index 0 and 1 exactly for index size - 1 |
| Integration.TexcoordIncreasing | include/brx_hemispherical_directional_reflectance_integration.h:169 | the texture coordinate strictly increases with the index, so distinct texels get distinct coordinates |
| Integration.SineSquared | include/brx_hemispherical_directional_reflectance_integration.h:179 | 1 - c^2 lies in [0, 1] for c in [0, 1], so the max(0, ·) around it never clamps |
| Integration.ViewDirection | include/brx_hemispherical_directional_reflectance_integration.h:176-180 | omega_o has y == 0; NDOTV_MIN <= z <= 1; z == 1 - u when that is at least NDOTV_MIN and z == NDOTV_MIN otherwise; x is the square root of the clamped sine squared, so x >= 0 |
| Integration.ViewDirectionIsUnit | include/brx_hemispherical_directional_reflectance_integration.h:178-179 | when the square root is exact, omega_o is a unit vector |
| Integration.Roughness | include/brx_hemispherical_directional_reflectance_integration.h:184 | ALPHA_MIN <= alpha <= 1; alpha == 1 - v when that is at least ALPHA_MIN and alpha == ALPHA_MIN otherwise |
| Integration.TexelUserData | include/brx_hemispherical_directional_reflectance_integration.h:168-184 | a texel's parameters meet both floors and have omega_o.y == 0; column 0 is normal incidence (z == 1) and row 0 has alpha == 1 |
| Integration.EvaluatorUserData | include/brx_hemispherical_directional_reflectance_integration.h:77-81 | the evaluator's re-clamp meets both floors and keeps omega_o.x and omega_o.y; an input already at or above its floor is unchanged |
| Integration.EvaluatorClampIdempotent | include/brx_hemispherical_directional_reflectance_integration.h:77-81 | re-clamping clamped parameters changes nothing |
| Integration.TexelUserDataIsClamped | include/brx_hemispherical_directional_reflectance_integration.h:184-188 | the parameters a texel passes in come through the evaluator's re-clamp unchanged |
| Integration.HalfVectorRadicand | include/brx_hemispherical_directional_reflectance_integration.h:126 | max(LENGTH_MINIMUM, 2 + 2 VdotL) is at least LENGTH_MINIMUM > 0, and equals 2 + 2 VdotL unless floored |
| Integration.VdotH | include/brx_hemispherical_directional_reflectance_integration.h:126-127 | VdotH lies in [0, 1] for every VdotL |
| Integration.VdotHIsHalfAngleCosine | include/brx_hemispherical_directional_reflectance_integration.h:121-127 | with an exact square root and an unfloored radicand, VdotH^2 == (1 + VdotL) / 2, the half-angle cosine identity the formula relies on |
| Integration.SchlickX | include/brx_hemispherical_directional_reflectance_integration.h:141 | the Schlick variable lies in [0, 1], and equals 1 - VdotH for VdotH in [0, 1] |
| Integration.Pow5InUnit | include/brx_hemispherical_directional_reflectance_integration.h:142-143 | x * x^2 * x^2 lies in [0, 1] for x in [0, 1] |
| Integration.Pow5Monotone | include/brx_hemispherical_directional_reflectance_integration.h:142-143 | x^5 is non-decreasing on non-negative x |
| Integration.FresnelFactors | include/brx_hemispherical_directional_reflectance_integration.h:141-146 | f0_factor + f90_factor == 1 and both lie in [0, 1] |
| Integration.FresnelF0FactorMonotone | include/brx_hemispherical_directional_reflectance_integration.h:141-146 | the f0 factor does not decrease as VdotH grows |
| Integration.NdotL | include/brx_hemispherical_directional_reflectance_integration.h:115-130 | the clamped NdotL is non-negative; it equals omega_i.z when that is non-negative and is 0 for a light direction below the horizon |
| Integration.SampleThroughput | include/brx_hemispherical_directional_reflectance_integration.h:134-149 | every sample's throughput is non-negative |
| Integration.Weigh | include/brx_hemispherical_directional_reflectance_integration.h:150-151 | the f0 increment is the f0 weight times throughput / SAMPLE_COUNT and the f90 increment the f90 weight times the same share; both are non-negative and together they add the share |
| Integration.Contribution | include/brx_hemispherical_directional_reflectance_integration.h:106-151 | each sample adds to the f0 moment its share of the throughput (throughput / SAMPLE_COUNT) scaled by the Schlick F0 weight of its VdotH, and to the f90 moment the share scaled by the F90 weight; both are non-negative and add up to the share |
| Integration.SumStep | include/brx_hemispherical_directional_reflectance_integration.h:104-152 | the sum over [lo, hi) is the sum over [lo, hi - 1) plus the last term |
| Integration.SumNonNegative | include/brx_hemispherical_directional_reflectance_integration.h:101-104 | accumulators that start at 0 and only receive non-negative terms stay non-negative |
| Integration.SumSplit | include/brx_hemispherical_directional_reflectance_integration.h:91-94 | the sum over [lo, hi) is the sum over [lo, mid) plus the sum over [mid, hi) |
| Integration.SumOfParts | include/brx_hemispherical_directional_reflectance_integration.h:150-151 | when every term's two parts add up to its share, the two accumulators together add up to the sum of the shares |
| Integration.PartitionSum | include/brx_hemispherical_directional_reflectance_integration.h:91-94 | adding the chunk sums of any ascending partition gives the sequential sum over the whole range |
| Integration.ReduceRange | include/brx_hemispherical_directional_reflectance_integration.h:95-155 | the reduction body's loop returns the sum of the contributions of [begin, end) |
| Integration.ParallelReduce | include/brx_hemispherical_directional_reflectance_integration.h:91-156 | splitting into grain-sized chunks and adding the chunk sums gives the sequential sum over [begin, end) |
| Integration.FresnelMomentsSplitMeanThroughput | include/brx_hemispherical_directional_reflectance_integration.h:75-159 | both moments are non-negative and add up to the mean throughput of the re-clamped parameters |
| Integration.ComputeFresnelMoments | include/brx_hemispherical_directional_reflectance_integration.h:75-159 | the evaluator's outputs are the accumulated moments of the re-clamped parameters |
| Integration.NormIsTexelMoments | include/brx_hemispherical_directional_reflectance_integration.h:162-191 | a texel's norm is the accumulation over all samples of exactly that texel's parameters; both components are non-negative and add up to the texel's mean throughput |
| Integration.ComputeNorm | include/brx_hemispherical_directional_reflectance_integration.h:162-191 | the per-texel computation returns that texel's norm |
| Integration.Table | include/brx_hemispherical_directional_reflectance_integration.h:53-56 | the table has one entry per work index |
| Integration.TableAt | include/brx_hemispherical_directional_reflectance_integration.h:65-70 | without wrap-around, slot width * y + x of the table holds the norm of texel (x, y) |
| Integration.ComputeNormsBody | include/brx_hemispherical_directional_reflectance_integration.h:57-71 | the body for [begin, begin + 1) writes the norm of work index begin to slot begin and leaves every other slot alone |
| Integration.PrefixStep | include/brx_hemispherical_directional_reflectance_integration.h:53-72 | one body run extends the prefix of the output that already matches the table by one slot |
| Integration.ComputeNorms | include/brx_hemispherical_directional_reflectance_integration.h:39-73 | every slot of [0, count) is written exactly once, in index order; afterwards the output's first count slots are the table and the rest are untouched |
| Printf.Decimal | source/main.cpp:121-137 | `%d` prints at least one digit, with no leading zero unless the value is zero |
| Printf.DecimalRoundTrip | source/main.cpp:121-137 | reading back what `%d` printed gives the value |
| Printf.DecimalCanonical | source/main.cpp:121-137 | every canonical digit string is what `%d` prints for its value |
| Printf.Hex4 | source/main.cpp:155-161 | `%04X` of a 16-bit value prints exactly four upper-case hexadecimal digits |
| Printf.Hex4RoundTrip | source/main.cpp:155-161 | reading back what `%04X` printed gives the value |
| Printf.Hex4Canonical | source/main.cpp:155-161 | every four-digit upper-case hexadecimal string is what `%04X` prints for its value |
| LutFiles.OutputFile.Open | source/main.cpp:186-191 | opening creates the file anew, so it starts empty |
| LutFiles.OutputFile.Write | source/main.cpp:193-202 | a write appends the buffer and changes nothing else |
| LutFiles.LittleEndianRoundTrip | source/main.cpp:90 | reading back the k stored bytes of a value gives the value |
| LutFiles.LittleEndianCanonical | source/main.cpp:90 | every byte string is the stored form of its value |
| LutFiles.Serialize | source/main.cpp:90-104 | stored values take k bytes each |
| LutFiles.SerializeRoundTrip | source/main.cpp:90-104 | reading back stored values gives the values |
| LutFiles.DdsMetadata | source/main.cpp:43-88 | the metadata has exactly 32 words |
| LutFiles.DdsMetadataLayout | source/main.cpp:43-88 | the words are: magic 0x20534444; header size 124 (every byte after the magic); flags 0x1007; height at word 3, then width at word 4; zeros in words 5-18; pixel-format size 32 (its own eight words); FOURCC flag 0x4; format 112 (G16R16F); zero bit count and masks; caps 0x1000; zeros in words 28-31 |
| LutFiles.Interleave | source/main.cpp:94-100 | the half buffer has 2 entries per texel |
| LutFiles.InterleaveAt | source/main.cpp:98-99 | half[2i] is texel i's first component and half[2i + 1] its second |
| LutFiles.DdsFile | source/main.cpp:90-104 | the file is 128 bytes of metadata followed by 2 bytes for each of the 2 * texel-count halves |
| LutFiles.ParseSerialized | source/main.cpp:43-104 | a reader accepts any stored metadata with the right magic, sizes and format, and returns the dimensions and the payload after it |
| LutFiles.DdsRoundTrip | source/main.cpp:43-104 | reading the written DDS file back gives the height, the width and the interleaved halves |
| LutFiles.PackHalves | source/main.cpp:94-100 | the loop fills a fresh buffer of 2 * texel-count halves with half[2i] = first component and half[2i + 1] = second component of texel i, for every i |
| LutFiles.WriteDds | source/main.cpp:38-108 | the DDS file receives the metadata, then the half buffer |
| LutFiles.DimensionLineReadsBack | source/main.cpp:121-137 | a dimension line is its fixed head, then `%d` of the value, then `U;` CR LF, and the value reads back from between head and tail |
| LutFiles.TexelLineReadsBack | source/main.cpp:146-164 | a texel line has 23 characters (22 for the last); the line is `    0X`, four digits, `U, 0X`, four digits, then `U,` CR LF (`U` CR LF for the last); both halves read back from their columns, and the comma is there exactly when the line is not the last |
| LutFiles.TexelLines | source/main.cpp:146-168 | there is one line per texel |
| LutFiles.OnlyLastLineLacksComma | source/main.cpp:153-164 | every texel line of the array but the last ends in `U,` CR LF; the last ends in `U` CR LF |
| LutFiles.TexelLineHasOneLineFeed | source/main.cpp:155-161 | each texel line holds exactly one line feed |
| LutFiles.TexelBlockLineCount | source/main.cpp:146-168 | the first n texel lines hold exactly n line feeds |
| LutFiles.TexelBlockLines | source/main.cpp:146-168 | the array section holds exactly one line per texel |
| LutFiles.Preamble | source/main.cpp:114-117 | the preamble written as one block starts with the licence banner, followed by the include guard and the formatter switch |
| LutFiles.WriteHeaderOpening | source/main.cpp:114-144 | the header file receives the preamble, the width line, the height line and the array opener, in that order |
| LutFiles.WriteHeaderFile | source/main.cpp:110-176 | the header file receives the opening, one line per texel in index order (comma-less for the last index), then the trailer |
| LutFiles.GenerateLookUpTables | source/main.cpp:30-179 | the generator writes the DDS file and the C header (after the given licence banner) of the 128 x 128 table, with height before width in the DDS metadata and width before height in the C header |

Three definitions have no contract of their own and are stated through the
rows of the members that use them:
- `Integration.LightDirection` (include/brx_hemispherical_directional_reflectance_integration.h:106-112)
  is the normalised reflection of the negated view direction about the
  sampled half vector. `NdotL` and `Contribution` state what is used from it.
- `Integration.Norm` (include/brx_hemispherical_directional_reflectance_integration.h:162-191)
  is the pair of Fresnel moments of a texel's parameters. See
  `NormIsTexelMoments`, `ComputeNorm` and `TableAt`.
- `LutFiles.TexelLine` (source/main.cpp:146-164) is a texel's array line.
  See `TexelLineReadsBack` and `OnlyLastLineLacksComma`.

## Left out

- Floating point is not modelled. Scalars are `real`, so float and double
  rounding, the float/double casts at
  include/brx_hemispherical_directional_reflectance_integration.h:150-159,
  NaN and infinities are absent.
- The Monte Carlo accuracy claims are out of scope because they depend on
  floating point and sampling statistics. These include energy near 1, a
  large f0 moment at the first texel, and bitwise determinism.
- The Hammersley sequence, Trowbridge-Reitz half-vector sampling, the
  throughput, XMVector3Normalize, std::sqrt, the BRDF library's floor
  constants and XMConvertFloatToHalf are not part of this model. They are
  function parameters; the assumptions on them are listed at the top.
- Integration.Texcoord: a table dimension of 1 divides 0 by 0 in the source;
  the model requires dimensions of at least 2.
- mcrt_parallel_map and mcrt_parallel_reduce_double2 run concurrently in
  the source. The model runs them sequentially in index and chunk order, so
  any interleaving of the tasks is not modelled.
- NdotV is computed and clamped in the reduction body but never used, so it
  is not modelled.
- The debug asserts are not modelled as checks. The model states them as
  properties, or as preconditions where callers guarantee them (for
  example, begin + 1 == end in the map body).
- File opening, writing and closing go through the Windows API, which is
  not part of this model. A file is a sequence that `Write` appends to.
  Closing does nothing, and failed writes are not modelled.
- The snprintf buffer sizing (256 characters and the length asserts) is not
  modelled; the formatted text itself is.
- LutFiles.WriteHeaderOpening: `%d` prints `static_cast<int>` of the
  dimension, which the model takes to be the unsigned value. This differs
  only for dimensions of 2^31 or more, far above the generator's 128.
- LutFiles.WriteHeaderFile: the texel loop in the source counts to the
  32-bit product width * height. The model requires the norms to number
  exactly width * height without reduction, which holds for 128 x 128.
- The licence banner at the head of the C header is a parameter (`banner`
  of `LutFiles.Preamble` and the header writers); its literal wording is not
  modelled. The include guard, the formatter switches, the dimension lines,
  the array opener and the trailer are modelled as literals.
- The generator's return code is not modelled, and neither are the output
  paths.
