# Reprojection decisions, layer-canvas view properties and the tile-computation printer

This Dafny project models three pieces of sequential decision logic from the BEAM/SNAP engine:

- **`Reproject`** (`reproject.dfy`) covers the reprojection operator `ReprojectionOp`. It models the decisions the operator makes before it hands the resampling to GeoTools and JAI:
  - which target-CRS specification is given and which one is used;
  - how a CRS code is normalised (`EPSG:` prefix, AUTO codes with the scene centre);
  - which resampling kernel a band gets;
  - which parameter groups are complete;
  - which no-data sentinel a target band carries and whether NaNs are replaced;
  - which source pyramid level feeds a target level;
  - whether the explicit target geometry has its Y axis changed;
  - which sample coding a target band refers to.

  The rules are pure functions over small datatypes. The operator is a class, `ReprojectionOp`. Its `crsCode` field is rewritten in place by CRS resolution. Its target bands are appended one source raster at a time in a loop. `Initialize` chains the steps in the operator's order.
- **`Swing`** (`layer_canvas.dfy`) covers the view-property helpers of `LayerCanvas`:
  - the minimum zoom factor;
  - the smallest positive image-to-model scale of a layer tree, as a recursive method with a loop over children, proved against a fold over the tree's scales;
  - the largest visible model bounds;
  - the default and maximum zoom factors kept by the canvas;
  - the navigation control's zoom step.
- **`Monitor`** (`tile_computation_printer.dfy`) covers `TileComputationPrinter`. It is a class holding the set of tile keys computed since the last stop. The first computation of a key is reported as `Computed` and later ones as `Recomputed`. `Stop` empties the set. The tile key's equality and 32-bit hash code are modelled as well.
- **`Wrappers`** (`wrappers.dfy`) holds `Option`, `Result` and `Outcome`. A null reference becomes an `Option`. A call that may throw returns a `Result`, and a validation step that may throw returns an `Outcome`.

A double no-data value is `NoData = NaN | Val(real)`. CRS objects are opaque. A CRS is represented by what it is made from (`Decoded(code)`, `WktFromFile(path)`, `WktText(text)` or `FromCollocation(crs)`). A geocoding is a function from pixel positions to geographic positions. An image layer's `sqrt(|det|)` is a given real per layer.

Behaviour worth knowing, as the code does it:

- An empty `crsCode` counts as "given" when validation checks that exactly one CRS specification is present. Resolution then skips it, so the operator ends up with no CRS at all (`ValidatedSpecIsTheResolvedOne`). The explicit geometry is then built on a null CRS, modelled as the `NoTargetCrs` failure.
- A collocation product without a geocoding yields no CRS. Copying its geometry then fails, modelled as the `NoCollocationGeoCoding` failure.
- An `AUTO:` code on a source product without a geocoding makes the code throw inside the resolution `try`. It surfaces as `CrsResolutionFailed`, and `crsCode` keeps its old value.
- A source product without bands fails when band 0 is read (`NoSourceBand`).

## Model

| member | source | states |
|---|---|---|
| `Reproject.ValidateCrsParameters` | beam-gpf-common/src/main/java/org/esa/beam/gpf/common/reproject/ReprojectionOp.java:471-500 | passes exactly when one of crsCode, wktFile, wkt and the collocation product is given; the "at least" error exactly when none is; the "only" error exactly when two or more are |
| `Reproject.SceneCentre` | beam-gpf-common/src/main/java/org/esa/beam/gpf/common/reproject/ReprojectionOp.java:451-452 | the AUTO reference pixel is half the scene width and height in integer division (2x <= w <= 2x+1) |
| `Reproject.NormaliseCrsCode` | beam-gpf-common/src/main/java/org/esa/beam/gpf/common/reproject/ReprojectionOp.java:446-455 | a numeric code becomes `EPSG:`+code and never takes the AUTO branch; `AUTO:digits` gets `,lon,lat` of the scene centre appended, or fails without a geocoding; any other code is unchanged |
| `Reproject.NormaliseIdempotent` | beam-gpf-common/src/main/java/org/esa/beam/gpf/common/reproject/ReprojectionOp.java:446-455 | the rewritten code is a fixed point: normalising it again changes nothing |
| `Reproject.ResolveTargetCrs` | beam-gpf-common/src/main/java/org/esa/beam/gpf/common/reproject/ReprojectionOp.java:443-469 | the CRS is always made from a specification that was given, a code only if non-empty and then in its normalised form; there is no CRS exactly when no usable code, no WKT file, no inline WKT and no collocation model CRS is given; the only failure is an AUTO code |
| `Reproject.CrsCodeTakesPrecedence` | beam-gpf-common/src/main/java/org/esa/beam/gpf/common/reproject/ReprojectionOp.java:446-457 | a non-empty code hides the WKT file, the inline WKT and the collocation product |
| `Reproject.WktFileTakesPrecedence` | beam-gpf-common/src/main/java/org/esa/beam/gpf/common/reproject/ReprojectionOp.java:446-459 | without a usable code, the WKT file is used whatever else is given |
| `Reproject.WktTakesPrecedence` | beam-gpf-common/src/main/java/org/esa/beam/gpf/common/reproject/ReprojectionOp.java:446-461 | without a usable code or a WKT file, the inline WKT is used even when a collocation product is given |
| `Reproject.CollocationIsTheLastResort` | beam-gpf-common/src/main/java/org/esa/beam/gpf/common/reproject/ReprojectionOp.java:446-465 | with no usable code and no WKT, the collocation product's model CRS is used if it has one, and otherwise there is no CRS |
| `Reproject.ValidatedSpecIsTheResolvedOne` | beam-gpf-common/src/main/java/org/esa/beam/gpf/common/reproject/ReprojectionOp.java:443-500 | after validation the single given specification is the one resolved; an empty code passes validation yet resolves to no CRS |
| `Reproject.GetResampleType` | beam-gpf-common/src/main/java/org/esa/beam/gpf/common/reproject/ReprojectionOp.java:510-522 | yields kernel k exactly when the name equals k's name ignoring case; every other name yields none (-1) |
| `Reproject.ResampleTypeIgnoresCase` | beam-gpf-common/src/main/java/org/esa/beam/gpf/common/reproject/ReprojectionOp.java:510-522 | two names equal up to case select the same kernel |
| `Reproject.ValidateResamplingParameter` | beam-gpf-common/src/main/java/org/esa/beam/gpf/common/reproject/ReprojectionOp.java:524-528 | rejects exactly the names that map to no kernel, naming the offending name |
| `Reproject.GetResampling` | beam-gpf-common/src/main/java/org/esa/beam/gpf/common/reproject/ReprojectionOp.java:502-508 | a band that is not floating point gets nearest whatever the name; a floating-point band gets the named kernel |
| `Reproject.ValidatedResamplingAlwaysResolves` | beam-gpf-common/src/main/java/org/esa/beam/gpf/common/reproject/ReprojectionOp.java:502-528 | once the name is validated every band gets a kernel (the -1 instance is never requested) |
| `Reproject.ValidateReferencingParameters` | beam-gpf-common/src/main/java/org/esa/beam/gpf/common/reproject/ReprojectionOp.java:530-536 | passes exactly when 0 or all 4 of reference pixel X/Y, easting and northing are given |
| `Reproject.ValidateTargetGridParameters` | beam-gpf-common/src/main/java/org/esa/beam/gpf/common/reproject/ReprojectionOp.java:538-543 | passes exactly when the two pixel sizes are both given or both absent |
| `Reproject.GetTargetNoDataValue` | beam-gpf-common/src/main/java/org/esa/beam/gpf/common/reproject/ReprojectionOp.java:319-327 | the override if set, else the raster's value if it is used, else NaN |
| `Reproject.MustReplaceNaN` | beam-gpf-common/src/main/java/org/esa/beam/gpf/common/reproject/ReprojectionOp.java:312-317 | replacement only for floating-point types and a numeric sentinel, and never when neither the raster's value nor the override is in effect |
| `Reproject.ReplaceNaNExactlyForNumericSentinel` | beam-gpf-common/src/main/java/org/esa/beam/gpf/common/reproject/ReprojectionOp.java:266-289 | with the resolved sentinel, NaNs are replaced exactly in floating-point bands whose sentinel is a number |
| `Reproject.SourceLevel` | beam-gpf-common/src/main/java/org/esa/beam/gpf/common/reproject/ReprojectionOp.java:377-381 | the source level is min(target level, source level count - 1), hence an existing level for any valid target level |
| `Reproject.SourceLevelMonotone` | beam-gpf-common/src/main/java/org/esa/beam/gpf/common/reproject/ReprojectionOp.java:377-381 | a deeper target level never reads a finer source level |
| `Reproject.CreateImageGeometry` | beam-gpf-common/src/main/java/org/esa/beam/gpf/common/reproject/ReprojectionOp.java:545-558 | a collocation geometry is taken unchanged and never flipped, and fails for a collocation product without a geocoding; an explicit one keeps CRS and grid and has its Y axis changed exactly when the second axis is not DISPLAY_DOWN, and fails without a CRS |
| `Reproject.TargetSampleCoding` | beam-gpf-common/src/main/java/org/esa/beam/gpf/common/reproject/ReprojectionOp.java:295-309 | the flag coding wins over the index coding; an index coding is used only without a flag coding; tie-point grids get none |
| `Reproject.ReprojectSourceRaster` | beam-gpf-common/src/main/java/org/esa/beam/gpf/common/reproject/ReprojectionOp.java:266-310 | the target band keeps name and type, always uses its no-data value, masks invalid pixels with that same sentinel exactly when a valid-mask expression exists, resamples non-float bands with nearest and float bands with the named kernel, and replaces NaNs exactly for float bands with a numeric sentinel |
| `Reproject.ReprojectionOp.ValidateParameters` | beam-gpf-common/src/main/java/org/esa/beam/gpf/common/reproject/ReprojectionOp.java:162-168 | passes exactly when all four validations pass; otherwise reports the first failure in the order CRS, resampling, referencing, target grid |
| `Reproject.ReprojectionOp.CreateTargetCrs` | beam-gpf-common/src/main/java/org/esa/beam/gpf/common/reproject/ReprojectionOp.java:443-469 | returns the resolution of the parameters as they were; rewrites crsCode to the decoded code, and leaves it unchanged otherwise |
| `Reproject.ReprojectionOp.ReprojectRasterDataNodes` | beam-gpf-common/src/main/java/org/esa/beam/gpf/common/reproject/ReprojectionOp.java:260-264 | appends one target band per raster, in order, to the existing bands |
| `Reproject.ReprojectionOp.Initialize` | beam-gpf-common/src/main/java/org/esa/beam/gpf/common/reproject/ReprojectionOp.java:162-214 | succeeds exactly when validation, CRS resolution and the geometry succeed and the source has a band; otherwise reports the first failing step; crsCode becomes the decoded code after a successful resolution and is untouched otherwise; the target geometry is the one built from the resolved CRS and its second axis; on success one band per source band, then per tie-point grid when included, each with no-data used and a kernel |
| `Swing.ComputeMinZoomFactor` | ceres-glayer/src/main/java/com/bc/ceres/glayer/swing/LayerCanvas.java:238-256 | non-negative; 0 exactly when neither view/model ratio is positive; otherwise twice it is one of the positive ratios and at most every positive ratio |
| `Swing.AccumulateConcat` | ceres-glayer/src/main/java/com/bc/ceres/glayer/swing/LayerCanvas.java:270-272 | accumulating over children in turn equals accumulating over their concatenated scales |
| `Swing.AccumulateIsMinPositive` | ceres-glayer/src/main/java/com/bc/ceres/glayer/swing/LayerCanvas.java:262-269 | from 0 or a positive start, the accumulation is the smallest positive value among start and scales, or 0 when there is none; non-positive scales never count |
| `Swing.ComputeMinImageToModelScaleFrom` | ceres-glayer/src/main/java/com/bc/ceres/glayer/swing/LayerCanvas.java:262-274 | the recursion over a layer and its children equals the accumulation over the tree's image scales in pre-order |
| `Swing.ComputeMinImageToModelScale` | ceres-glayer/src/main/java/com/bc/ceres/glayer/swing/LayerCanvas.java:258-274 | 0 exactly when no image layer has a positive scale; otherwise an image layer's scale no larger than any positive scale in the tree |
| `Swing.ComputeMaxVisibleModelBounds` | ceres-glayer/src/main/java/com/bc/ceres/glayer/swing/LayerCanvas.java:277-288 | the empty rectangle without bounds, the bounds unchanged at orientation 0, the rotated bounds otherwise |
| `Swing.NoModelBoundsNoMinZoom` | ceres-glayer/src/main/java/com/bc/ceres/glayer/swing/LayerCanvas.java:238-283 | without model bounds the minimum zoom factor is 0 |
| `Swing.DeriveZoomFactors` | ceres-glayer/src/main/java/com/bc/ceres/glayer/swing/LayerCanvas.java:220-227 | with a positive minimum scale, default × scale = 1 and max = 32 × default; otherwise default = min zoom and max = 1000 × min zoom; 0 <= default <= max |
| `Swing.LayerCanvas.UpdateAdjustableViewProperties` | ceres-glayer/src/main/java/com/bc/ceres/glayer/swing/LayerCanvas.java:216-227 | sets bounds and min zoom from the helpers; default and max zoom are those derived from the tree's smallest positive image scale, or from the min zoom when no scale is positive; keeps 0 <= min and 0 <= default <= max |
| `Swing.ScaledZoomFactor` | ceres-glayer/src/main/java/com/bc/ceres/glayer/swing/LayerCanvas.java:394-399 | a zero step keeps the zoom; a positive step enlarges and a negative step shrinks a positive zoom; steps above -10 keep it positive |
| `Swing.NavControlModelImpl.HandleScale` | ceres-glayer/src/main/java/com/bc/ceres/glayer/swing/LayerCanvas.java:394-399 | sets the viewport's zoom to (1 + 0.1 d) times the old zoom and changes nothing else of the viewport |
| `Monitor.Equals` | beam-gpf/src/main/java/org/esa/beam/framework/gpf/monitor/TileComputationPrinter.java:46-58 | two tile events are equal exactly when tileX, tileY and image agree |
| `Monitor.ToInt32` | beam-gpf/src/main/java/org/esa/beam/framework/gpf/monitor/TileComputationPrinter.java:61-65 | Java int arithmetic: the result is in 32-bit range and congruent to the exact value modulo 2^32 |
| `Monitor.HashCode` | beam-gpf/src/main/java/org/esa/beam/framework/gpf/monitor/TileComputationPrinter.java:60-66 | the hash is 961·h + 31·tileX + tileY wrapped once to 32 bits |
| `Monitor.HashCodeClosedForm` | beam-gpf/src/main/java/org/esa/beam/framework/gpf/monitor/TileComputationPrinter.java:61-65 | wrapping after every step equals wrapping the exact polynomial once |
| `Monitor.EqualEventsHaveEqualHashCodes` | beam-gpf/src/main/java/org/esa/beam/framework/gpf/monitor/TileComputationPrinter.java:46-66 | equal events have equal hash codes |
| `Monitor.HashCodesCollide` | beam-gpf/src/main/java/org/esa/beam/framework/gpf/monitor/TileComputationPrinter.java:60-66 | distinct tiles (0,31) and (1,0) of one image share a hash code, so membership rests on equality |
| `Monitor.Record` | beam-gpf/src/main/java/org/esa/beam/framework/gpf/monitor/TileComputationPrinter.java:83-97 | the key ends up in the set and nothing else changes; it is reported as computed exactly when it was not recorded before |
| `Monitor.ReplayReportsFirstComputations` | beam-gpf/src/main/java/org/esa/beam/framework/gpf/monitor/TileComputationPrinter.java:83-97 | over any sequence of computations, one is reported as computed exactly when its key was neither recorded at the start nor computed earlier in the sequence; afterwards every key seen is recorded |
| `Monitor.TileComputationPrinter.constructor` | beam-gpf/src/main/java/org/esa/beam/framework/gpf/monitor/TileComputationPrinter.java:75 | a new printer has recorded nothing |
| `Monitor.TileComputationPrinter.Start` | beam-gpf/src/main/java/org/esa/beam/framework/gpf/monitor/TileComputationPrinter.java:77-80 | starting leaves the recorded set unchanged |
| `Monitor.TileComputationPrinter.TileComputed` | beam-gpf/src/main/java/org/esa/beam/framework/gpf/monitor/TileComputationPrinter.java:82-98 | performs one recording step: the set grows by at most the one key, never loses one, and the report says whether the key was new |
| `Monitor.TileComputationPrinter.Stop` | beam-gpf/src/main/java/org/esa/beam/framework/gpf/monitor/TileComputationPrinter.java:100-104 | empties the set, so the next computation of any tile is reported as computed |

## Left out

- The resampling itself (`Reproject.reproject`), the JAI image layouts and level bounds, the NaN-replacing image, the virtual valid-mask image and the constant source image. These are image numerics done by external libraries. The model records only which of them a band gets.
- CRS decoding, WKT parsing and reading the WKT file. These are done by the external CRS library and file I/O, and their results are opaque tokens. Their failures are not modelled; the only resolution failure modelled is an AUTO code on a product without a geocoding.
- `ImageGeometry.createCollocationTargetGeometry` is not part of this model. The collocation geometry is the product itself, and it is taken to fail for a product without a geocoding: the commented-out predecessor at ReprojectionOp.java:608-609 reads that geocoding, and the target geocoding at lines 198-205 needs the geometry's model CRS.
- How `ImageGeometry` derives default pixel sizes, extents and the reference point from the source footprint. That class is not part of this model. The explicit geometry keeps the grid parameters and whether its Y axis was changed.
- Orthorectification and elevation models (`createElevationModel`, `getSourceGeoCoding`, `createOrthorectifier`, `dispose`). These are a registry lookup and an external geocoding.
- Copying metadata, flag codings, index codings (`copyIndexCoding`), bitmasks, placemarks and spectral band properties, and setting description and unit. These are framework glue. Target bands refer to codings by name only.
- The target product's name, description, size, tile size and geocoding object.
- The text of the valid-mask expression (the external band name and `Double.toString` of the sentinel). A band records the mask expression and its fill value instead.
- `Reproject.GetResampleType`: case is folded for ASCII letters only. Java's `equalsIgnoreCase` also folds a few non-ASCII letters, such as the dotless i and the long s.
- `Reproject.NormaliseCrsCode`: the longitude and latitude are taken as their printed text, because float-to-text formatting is not modelled.
- The parameter framework's own checks (the `crsCode` pattern, the `orientation` interval [0,360] and the default resampling name). They run outside the operator.
- Floating-point arithmetic: doubles are reals, so there is no rounding, no infinities, and `0.1` is exact. The NaN behaviour of `Math.min` and of the comparisons in `computeMinZoomFactor` is not modelled.
- `Swing.ComputeMaxVisibleModelBounds`: the bounding box of the rotated bounds is computed by `java.awt` geometry. Here it is a function parameter.
- `Swing.NavControlModelImpl.HandleScale`: any limits that the viewport's own `setZoomFactor` applies are not modelled, because the viewport class is not part of this model.
- Swing painting, layout, repaint, listeners, overlays, the navigation control's rotate and move handlers, and the debug printing in `LayerCanvas`.
- Logging, `toString` and the `synchronized` block in `TileComputationPrinter`. The set update is sequential, and the log message becomes the returned report.
- `FeaturesStatisticsWriterTest` tests a statistics writer through shapefile I/O, and that writer is not part of this model.
