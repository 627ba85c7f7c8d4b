/** The decisions the reprojection operator takes before it hands the actual
    resampling to the external CRS and imaging libraries: which CRS
    specification is used and how a CRS code is normalised, which resampling
    kernel a band gets, which parameter groups are complete, which no-data
    sentinel a target band carries and whether NaNs are replaced, which source
    pyramid level feeds a target level, whether the target grid's Y axis is
    flipped, and which sample coding a target band refers to. */
module Reproject {
  import opened Wrappers

  // ---------------------------------------------------------------------------
  // Values

  /** A double used as a no-data value: NaN or a number. Infinities and
      rounding are not modelled. */
  datatype NoData = NaN | Val(v: real)

  /** Geophysical data types of a raster. */
  datatype DataType = Int8 | Int16 | Int32 | UInt8 | UInt16 | UInt32 | Float32 | Float64

  predicate IsFloatingPointType(t: DataType) {
    t == Float32 || t == Float64
  }

  /** The operator's failures: configuration errors first, then the wrapped
      exceptions of CRS resolution and target set-up. */
  datatype OpError =
    | CrsMissing                      // "Specify at least one of ..."
    | CrsAmbiguous                    // "Specify only one of ..."
    | InvalidResampling(name: string)
    | InvalidReferencing
    | InvalidTargetGrid
    | CrsResolutionFailed             // an exception while resolving the CRS
    | NoTargetCrs                     // the explicit geometry is built on a null CRS
    | NoCollocationGeoCoding          // the collocation product has no geocoding to copy
    | NoSourceBand                    // the source product has no band 0

  /** An opaque coordinate reference system object. */
  datatype Crs = Crs(id: nat)

  /** A collocation product; its geocoding, and so its model CRS, may be absent. */
  datatype CollocationProduct = CollocationProduct(id: nat, modelCrs: Option<Crs>)

  datatype PixelPos = PixelPos(x: int, y: int)

  /** A geographic position, with longitude and latitude as the decimal text
      that formatting the float values produces. */
  datatype GeoPos = GeoPos(lonText: string, latText: string)

  /** A geocoding maps a pixel position to a geographic position. */
  type GeoCoding = PixelPos -> GeoPos

  /** How a raster carries categorical metadata. Tie-point grids never do. */
  datatype RasterKind =
    | Band(flagCoding: Option<string>, indexCoding: Option<string>)
    | TiePointGrid

  /** A source raster, as far as the operator's decisions look at it. */
  datatype Raster = Raster(
    name: string,
    kind: RasterKind,
    geophysicalDataType: DataType,
    noDataValueUsed: bool,
    noDataValue: NoData,
    validMaskExpression: Option<string>)

  datatype SourceProduct = SourceProduct(
    name: string,
    sceneRasterWidth: nat,
    sceneRasterHeight: nat,
    geoCoding: Option<GeoCoding>,
    bands: seq<Raster>,
    tiePointGrids: seq<Raster>)

  // ---------------------------------------------------------------------------
  // CRS specification

  /** The four mutually exclusive ways of specifying the target CRS. */
  datatype CrsSpec = CrsSpec(
    crsCode: Option<string>,
    wktFile: Option<string>,
    wkt: Option<string>,
    collocationProduct: Option<CollocationProduct>)

  /** How many of the four specifications are given (an empty code counts). */
  function DefinedCount(p: CrsSpec): nat {
    (if p.crsCode.Some? then 1 else 0) + (if p.wktFile.Some? then 1 else 0)
    + (if p.wkt.Some? then 1 else 0) + (if p.collocationProduct.Some? then 1 else 0)
  }

  /** Fails with the "at least" error when nothing is given, and otherwise walks
      the specifications in order, failing with the "only" error as soon as one
      follows an earlier one. */
  function ValidateCrsParameters(p: CrsSpec): (r: Outcome<OpError>)
    ensures r == Pass <==> DefinedCount(p) == 1
    ensures r == Fail(CrsMissing) <==> DefinedCount(p) == 0
    ensures r == Fail(CrsAmbiguous) <==> DefinedCount(p) >= 2
  {
    if p.crsCode.None? && p.wktFile.None? && p.wkt.None? && p.collocationProduct.None? then
      Fail(CrsMissing)
    else
      var definedAfterCode := p.crsCode.Some?;
      if p.wktFile.Some? && definedAfterCode then Fail(CrsAmbiguous)
      else
        var definedAfterFile := definedAfterCode || p.wktFile.Some?;
        if p.wkt.Some? && definedAfterFile then Fail(CrsAmbiguous)
        else
          var definedAfterWkt := definedAfterFile || p.wkt.Some?;
          if p.collocationProduct.Some? && definedAfterWkt then Fail(CrsAmbiguous)
          else Pass
  }

  // ---------------------------------------------------------------------------
  // CRS code normalisation

  /** The whole string matches [0-9]* (the empty string included). */
  predicate IsDigits(s: string) {
    forall i :: 0 <= i < |s| ==> '0' <= s[i] <= '9'
  }

  /** The whole string matches AUTO:[0-9]* (case-sensitive). */
  predicate IsAutoCode(s: string) {
    |s| >= 5 && s[..5] == "AUTO:" && IsDigits(s[5..])
  }

  /** The pixel at half the scene width and height, in integer division. */
  function SceneCentre(width: nat, height: nat): (p: PixelPos)
    ensures 0 <= 2 * p.x <= width && width <= 2 * p.x + 1
    ensures 0 <= 2 * p.y <= height && height <= 2 * p.y + 1
  {
    PixelPos(width / 2, height / 2)
  }

  /** A purely numeric code gets the EPSG prefix; then a code of the form
      AUTO:digits gets the longitude and latitude of the scene centre appended.
      Reading the geocoding of a product that has none throws, which the
      operator wraps into a resolution failure. */
  function NormaliseCrsCode(code: string, source: SourceProduct): (r: Result<string, OpError>)
    ensures IsDigits(code) ==> r == Success("EPSG:" + code)
    ensures IsAutoCode(code) && source.geoCoding.None? ==> r == Failure(CrsResolutionFailed)
    ensures IsAutoCode(code) && source.geoCoding.Some? ==>
      var centre := source.geoCoding.value(SceneCentre(source.sceneRasterWidth, source.sceneRasterHeight));
      r == Success(code + "," + centre.lonText + "," + centre.latText)
    ensures !IsDigits(code) && !IsAutoCode(code) ==> r == Success(code)
  {
    var prefixed := if IsDigits(code) then "EPSG:" + code else code;
    assert IsDigits(code) ==> prefixed[..5] == "EPSG:";
    if IsAutoCode(prefixed) then
      match source.geoCoding
      case None => Failure(CrsResolutionFailed)
      case Some(geoCoding) =>
        var centre := geoCoding(SceneCentre(source.sceneRasterWidth, source.sceneRasterHeight));
        Success(prefixed + "," + centre.lonText + "," + centre.latText)
    else
      Success(prefixed)
  }

  /** A code that contains a comma after its fifth character is neither
      numeric nor an AUTO code. */
  lemma CommaBreaksCodePatterns(s: string, k: nat)
    requires 5 <= k < |s| && s[k] == ','
    ensures !IsDigits(s) && !IsAutoCode(s)
  {
  }

  /** A normalised code is a fixed point of normalisation: re-resolving the
      rewritten crsCode field yields the same code. */
  lemma NormaliseIdempotent(code: string, source: SourceProduct)
    requires NormaliseCrsCode(code, source).Success?
    ensures var c := NormaliseCrsCode(code, source).value;
      NormaliseCrsCode(c, source) == Success(c)
  {
    var c := NormaliseCrsCode(code, source).value;
    if IsDigits(code) {
      assert c[0] == 'E';
      assert !IsDigits(c);
      assert c[..5] == "EPSG:";
      assert !IsAutoCode(c);
    } else if IsAutoCode(code) {
      var centre := source.geoCoding.value(SceneCentre(source.sceneRasterWidth, source.sceneRasterHeight));
      assert c == code + "," + centre.lonText + "," + centre.latText;
      assert c[|code|] == ',';
      CommaBreaksCodePatterns(c, |code|);
    }
  }

  // ---------------------------------------------------------------------------
  // CRS resolution

  /** What the target CRS is made from; the decoding and parsing themselves
      belong to the external CRS library. */
  datatype CrsSource =
    | Decoded(code: string)
    | WktFromFile(path: string)
    | WktText(text: string)
    | FromCollocation(crs: Crs)

  /** A non-empty code first, then the WKT file, then the inline WKT, then the
      collocation product's model CRS; with none of them the CRS stays null. */
  function ResolveTargetCrs(p: CrsSpec, source: SourceProduct): (r: Result<Option<CrsSource>, OpError>)
    ensures r.Failure? ==> r.error == CrsResolutionFailed && p.crsCode.Some? && IsAutoCode(p.crsCode.value)
    ensures r.Success? && r.value.Some? ==>
      match r.value.value
      case Decoded(c) =>
        p.crsCode.Some? && p.crsCode.value != "" && NormaliseCrsCode(p.crsCode.value, source) == Success(c)
      case WktFromFile(f) => p.wktFile == Some(f)
      case WktText(t) => p.wkt == Some(t)
      case FromCollocation(crs) => p.collocationProduct.Some? && p.collocationProduct.value.modelCrs == Some(crs)
    ensures r == Success(None) <==>
      (p.crsCode.None? || p.crsCode == Some(""))
      && p.wktFile.None? && p.wkt.None?
      && (p.collocationProduct.None? || p.collocationProduct.value.modelCrs.None?)
  {
    if p.crsCode.Some? && p.crsCode.value != "" then
      match NormaliseCrsCode(p.crsCode.value, source)
      case Failure(e) => Failure(e)
      case Success(c) => Success(Some(Decoded(c)))
    else if p.wktFile.Some? then
      Success(Some(WktFromFile(p.wktFile.value)))
    else if p.wkt.Some? then
      Success(Some(WktText(p.wkt.value)))
    else if p.collocationProduct.Some? && p.collocationProduct.value.modelCrs.Some? then
      Success(Some(FromCollocation(p.collocationProduct.value.modelCrs.value)))
    else
      Success(None)
  }

  /** A non-empty code hides every other specification. */
  lemma CrsCodeTakesPrecedence(p: CrsSpec, source: SourceProduct)
    requires p.crsCode.Some? && p.crsCode.value != ""
    ensures ResolveTargetCrs(p, source)
         == ResolveTargetCrs(CrsSpec(p.crsCode, None, None, None), source)
  {
  }

  /** Without a usable code, the WKT file hides the inline WKT and the
      collocation product. */
  lemma WktFileTakesPrecedence(p: CrsSpec, source: SourceProduct)
    requires p.crsCode.None? || p.crsCode == Some("")
    requires p.wktFile.Some?
    ensures ResolveTargetCrs(p, source) == Success(Some(WktFromFile(p.wktFile.value)))
  {
  }

  /** Without a usable code or a WKT file, the inline WKT hides the
      collocation product. */
  lemma WktTakesPrecedence(p: CrsSpec, source: SourceProduct)
    requires p.crsCode.None? || p.crsCode == Some("")
    requires p.wktFile.None? && p.wkt.Some?
    ensures ResolveTargetCrs(p, source) == Success(Some(WktText(p.wkt.value)))
  {
  }

  /** The collocation product is consulted last, and only through its
      geocoding's model CRS. */
  lemma CollocationIsTheLastResort(p: CrsSpec, source: SourceProduct)
    requires p.crsCode.None? || p.crsCode == Some("")
    requires p.wktFile.None? && p.wkt.None?
    ensures ResolveTargetCrs(p, source)
         == Success(if p.collocationProduct.Some? && p.collocationProduct.value.modelCrs.Some?
                    then Some(FromCollocation(p.collocationProduct.value.modelCrs.value))
                    else None)
  {
  }

  /** After a successful validation exactly one specification is given and it
      is the one resolution uses; an empty code passes validation but yields
      no CRS at all. */
  lemma ValidatedSpecIsTheResolvedOne(p: CrsSpec, source: SourceProduct)
    requires ValidateCrsParameters(p) == Pass
    ensures p.crsCode == Some("") ==> ResolveTargetCrs(p, source) == Success(None)
    ensures p.crsCode.Some? && p.crsCode.value != "" ==>
      ResolveTargetCrs(p, source)
        == match NormaliseCrsCode(p.crsCode.value, source)
           case Failure(e) => Failure(e)
           case Success(c) => Success(Some(Decoded(c)))
    ensures p.wktFile.Some? ==> ResolveTargetCrs(p, source) == Success(Some(WktFromFile(p.wktFile.value)))
    ensures p.wkt.Some? ==> ResolveTargetCrs(p, source) == Success(Some(WktText(p.wkt.value)))
    ensures p.collocationProduct.Some? ==>
      ResolveTargetCrs(p, source)
        == Success(match p.collocationProduct.value.modelCrs
                   case None => None
                   case Some(crs) => Some(FromCollocation(crs)))
  {
  }

  // ---------------------------------------------------------------------------
  // Resampling

  /** The interpolation kernels of the imaging library. */
  datatype Interpolation = Nearest | Bilinear | Bicubic

  function ResamplingName(k: Interpolation): string {
    match k
    case Nearest => "Nearest"
    case Bilinear => "Bilinear"
    case Bicubic => "Bicubic"
  }

  /** ASCII lower-casing. */
  function ToLower(c: char): (d: char)
    ensures 'A' <= c <= 'Z' ==> d as int == c as int + 32
    ensures !('A' <= c <= 'Z') ==> d == c
  {
    if 'A' <= c <= 'Z' then (c as int + 32) as char else c
  }

  /** Equality of strings up to ASCII case. */
  predicate EqualsIgnoreCase(a: string, b: string) {
    |a| == |b| && forall i :: 0 <= i < |a| ==> ToLower(a[i]) == ToLower(b[i])
  }

  /** Nearest, Bilinear or Bicubic in any case; None stands for the -1 that
      any other name maps to. */
  function GetResampleType(name: string): (r: Option<Interpolation>)
    ensures forall k :: r == Some(k) <==> EqualsIgnoreCase(name, ResamplingName(k))
  {
    if EqualsIgnoreCase(name, "Nearest") then
      assert ToLower(name[0]) == 'n';
      Some(Nearest)
    else if EqualsIgnoreCase(name, "Bilinear") then
      Some(Bilinear)
    else if EqualsIgnoreCase(name, "Bicubic") then
      Some(Bicubic)
    else
      None
  }

  /** Two names equal up to case select the same kernel. */
  lemma ResampleTypeIgnoresCase(a: string, b: string)
    requires EqualsIgnoreCase(a, b)
    ensures GetResampleType(a) == GetResampleType(b)
  {
  }

  /** Validation rejects exactly the names that map to no kernel. */
  function ValidateResamplingParameter(name: string): (r: Outcome<OpError>)
    ensures r == Pass <==> GetResampleType(name).Some?
    ensures r.Fail? ==> r.error == InvalidResampling(name)
  {
    if GetResampleType(name).None? then Fail(InvalidResampling(name)) else Pass
  }

  /** The kernel a band is resampled with: nearest for every band that is not
      floating point, the configured kernel otherwise. None stands for the
      exception the imaging library throws for the -1 kernel. */
  function GetResampling(name: string, dataType: DataType): (r: Option<Interpolation>)
    ensures !IsFloatingPointType(dataType) ==> r == Some(Nearest)
    ensures IsFloatingPointType(dataType) ==> r == GetResampleType(name)
  {
    var resampleType := GetResampleType(name);
    if !IsFloatingPointType(dataType) then Some(Nearest) else resampleType
  }

  /** Once the name has passed validation every band gets a kernel. */
  lemma ValidatedResamplingAlwaysResolves(name: string, dataType: DataType)
    requires ValidateResamplingParameter(name) == Pass
    ensures GetResampling(name, dataType).Some?
  {
  }

  // ---------------------------------------------------------------------------
  // Parameter groups

  function Given(o: Option<real>): nat {
    if o.Some? then 1 else 0
  }

  /** Reference pixel, easting and northing: all four or none. */
  function ValidateReferencingParameters(
    referencePixelX: Option<real>, referencePixelY: Option<real>,
    easting: Option<real>, northing: Option<real>): (r: Outcome<OpError>)
    ensures var n := Given(referencePixelX) + Given(referencePixelY) + Given(easting) + Given(northing);
      r == Pass <==> n == 0 || n == 4
    ensures r.Fail? ==> r.error == InvalidReferencing
  {
    if !((referencePixelX.None? && referencePixelY.None? && easting.None? && northing.None?)
         || (referencePixelX.Some? && referencePixelY.Some? && easting.Some? && northing.Some?))
    then Fail(InvalidReferencing)
    else Pass
  }

  /** Pixel sizes: both or none. */
  function ValidateTargetGridParameters(pixelSizeX: Option<real>, pixelSizeY: Option<real>): (r: Outcome<OpError>)
    ensures r == Pass <==> Given(pixelSizeX) + Given(pixelSizeY) != 1
    ensures r.Fail? ==> r.error == InvalidTargetGrid
  {
    if (pixelSizeX.Some? && pixelSizeY.None?) || (pixelSizeX.None? && pixelSizeY.Some?) then
      Fail(InvalidTargetGrid)
    else
      Pass
  }

  // ---------------------------------------------------------------------------
  // No-data handling

  /** The override if set, else the raster's own value if it is used, else NaN. */
  function GetTargetNoDataValue(noDataOverride: Option<NoData>, raster: Raster): (r: NoData)
    ensures noDataOverride.Some? ==> r == noDataOverride.value
    ensures noDataOverride.None? && raster.noDataValueUsed ==> r == raster.noDataValue
    ensures noDataOverride.None? && !raster.noDataValueUsed ==> r == NaN
  {
    if noDataOverride.Some? then noDataOverride.value
    else if raster.noDataValueUsed then raster.noDataValue
    else NaN
  }

  /** Replace NaNs in the reprojected image when the band is floating point,
      some no-data value is in effect, and the sentinel is itself a number. */
  function MustReplaceNaN(raster: Raster, dataType: DataType, noDataOverride: Option<NoData>,
                          targetNoDataValue: NoData): (r: bool)
    ensures r ==> IsFloatingPointType(dataType) && targetNoDataValue.Val?
    ensures !raster.noDataValueUsed && noDataOverride.None? ==> !r
  {
    var isFloat := IsFloatingPointType(dataType);
    var isNoDataGiven := raster.noDataValueUsed || noDataOverride.Some?;
    var isNoDataNaN := targetNoDataValue.NaN?;
    isFloat && isNoDataGiven && !isNoDataNaN
  }

  /** With the sentinel the operator resolves, the three-way rule collapses to
      one condition: NaNs are replaced exactly in floating-point bands whose
      sentinel is a number. */
  lemma ReplaceNaNExactlyForNumericSentinel(noDataOverride: Option<NoData>, raster: Raster)
    ensures var t := raster.geophysicalDataType;
      var sentinel := GetTargetNoDataValue(noDataOverride, raster);
      MustReplaceNaN(raster, t, noDataOverride, sentinel) <==> IsFloatingPointType(t) && sentinel.Val?
  {
  }

  // ---------------------------------------------------------------------------
  // Pyramid levels and target geometry

  /** The source level read for a target level: the target level itself, or
      the coarsest source level when the source pyramid is shallower. */
  function SourceLevel(targetLevel: int, sourceLevelCount: int): (r: int)
    ensures r <= targetLevel && r <= sourceLevelCount - 1
    ensures r == targetLevel || r == sourceLevelCount - 1
    ensures 0 <= targetLevel && 1 <= sourceLevelCount ==> 0 <= r < sourceLevelCount
  {
    var sourceLevel := targetLevel;
    if sourceLevelCount - 1 < targetLevel then sourceLevelCount - 1 else sourceLevel
  }

  /** A deeper target level never reads a finer source level. */
  lemma SourceLevelMonotone(l1: int, l2: int, sourceLevelCount: int)
    requires l1 <= l2
    ensures SourceLevel(l1, sourceLevelCount) <= SourceLevel(l2, sourceLevelCount)
  {
  }

  /** The direction of a coordinate system axis. */
  datatype AxisDirection = North | South | East | West | DisplayUp | DisplayDown | OtherDirection

  /** The explicit grid parameters handed to the geometry construction. */
  datatype GridParameters = GridParameters(
    pixelSizeX: Option<real>, pixelSizeY: Option<real>,
    width: Option<int>, height: Option<int>,
    easting: Option<real>, northing: Option<real>,
    referencePixelX: Option<real>, referencePixelY: Option<real>)

  /** A target geometry: copied from the collocation product, or built from
      the source, the target CRS and the grid parameters, with the sign of
      its Y pixel size changed or not. */
  datatype ImageGeometry =
    | CollocationGeometry(product: CollocationProduct)
    | ExplicitGeometry(crs: CrsSource, grid: GridParameters, yAxisChanged: bool)

  /** A collocation product's geometry is copied from its geocoding, which
      fails when it has none; an explicit one has its Y axis changed unless
      the CRS's second axis points down on display. */
  function CreateImageGeometry(collocationProduct: Option<CollocationProduct>, targetCrs: Option<CrsSource>,
                               secondAxis: AxisDirection, grid: GridParameters): (r: Result<ImageGeometry, OpError>)
    ensures collocationProduct.Some? && collocationProduct.value.modelCrs.Some? ==>
      r == Success(CollocationGeometry(collocationProduct.value))
    ensures collocationProduct.Some? && collocationProduct.value.modelCrs.None? ==>
      r == Failure(NoCollocationGeoCoding)
    ensures collocationProduct.None? ==> (r.Failure? <==> targetCrs.None?)
    ensures collocationProduct.None? && targetCrs.Some? ==>
      r.Success? && r.value.ExplicitGeometry? && r.value.crs == targetCrs.value && r.value.grid == grid
      && (r.value.yAxisChanged <==> secondAxis != DisplayDown)
    ensures collocationProduct.None? && r.Failure? ==> r.error == NoTargetCrs
  {
    if collocationProduct.Some? then
      if collocationProduct.value.modelCrs.None? then Failure(NoCollocationGeoCoding)
      else Success(CollocationGeometry(collocationProduct.value))
    else if targetCrs.None? then
      Failure(NoTargetCrs)
    else
      Success(ExplicitGeometry(targetCrs.value, grid, secondAxis != DisplayDown))
  }

  // ---------------------------------------------------------------------------
  // Target bands

  /** A target band refers to the target product's coding of the same name. */
  datatype SampleCoding = FlagCodingRef(name: string) | IndexCodingRef(name: string)

  /** The flag coding wins over the index coding; tie-point grids get none. */
  function TargetSampleCoding(kind: RasterKind): (r: Option<SampleCoding>)
    ensures r.None? <==> kind.TiePointGrid? || (kind.flagCoding.None? && kind.indexCoding.None?)
    ensures r.Some? && r.value.FlagCodingRef? ==> kind.Band? && kind.flagCoding == Some(r.value.name)
    ensures r.Some? && r.value.IndexCodingRef? ==>
      kind.Band? && kind.flagCoding.None? && kind.indexCoding == Some(r.value.name)
  {
    match kind
    case TiePointGrid => None
    case Band(flagCoding, indexCoding) =>
      if flagCoding.Some? then Some(FlagCodingRef(flagCoding.value))
      else if indexCoding.Some? then Some(IndexCodingRef(indexCoding.value))
      else None
  }

  /** The image fed into reprojection: the raster's geophysical image, or a
      virtual image that keeps valid pixels and fills the others. */
  datatype SourceImage = GeophysicalImage | ValidMaskedImage(validExpression: string, fill: NoData)

  datatype TargetBand = TargetBand(
    name: string,
    dataType: DataType,
    noDataValue: NoData,
    noDataValueUsed: bool,
    sourceImage: SourceImage,
    resampling: Option<Interpolation>,
    nanReplaced: bool,
    sampleCoding: Option<SampleCoding>)

  /** The target band made for one source raster. */
  function ReprojectSourceRaster(raster: Raster, resamplingName: string, noDataOverride: Option<NoData>): (b: TargetBand)
    ensures b.name == raster.name && b.dataType == raster.geophysicalDataType
    ensures b.noDataValueUsed
    ensures b.noDataValue == GetTargetNoDataValue(noDataOverride, raster)
    ensures b.sourceImage.ValidMaskedImage? <==> raster.validMaskExpression.Some?
    ensures b.sourceImage.ValidMaskedImage? ==>
      b.sourceImage.validExpression == raster.validMaskExpression.value && b.sourceImage.fill == b.noDataValue
    ensures !IsFloatingPointType(b.dataType) ==> b.resampling == Some(Nearest)
    ensures IsFloatingPointType(b.dataType) ==> b.resampling == GetResampleType(resamplingName)
    ensures b.nanReplaced <==> IsFloatingPointType(b.dataType) && b.noDataValue.Val?
    ensures b.sampleCoding == TargetSampleCoding(raster.kind)
  {
    var geoDataType := raster.geophysicalDataType;
    var targetNoDataValue := GetTargetNoDataValue(noDataOverride, raster);
    var sourceImage :=
      if raster.validMaskExpression.Some? then ValidMaskedImage(raster.validMaskExpression.value, targetNoDataValue)
      else GeophysicalImage;
    ReplaceNaNExactlyForNumericSentinel(noDataOverride, raster);
    TargetBand(raster.name, geoDataType, targetNoDataValue, true, sourceImage,
               GetResampling(resamplingName, geoDataType),
               MustReplaceNaN(raster, geoDataType, noDataOverride, targetNoDataValue),
               TargetSampleCoding(raster.kind))
  }

  /** The target bands for a sequence of source rasters, in order. */
  function TargetBands(rasters: seq<Raster>, resamplingName: string, noDataOverride: Option<NoData>): seq<TargetBand> {
    seq(|rasters|, i requires 0 <= i < |rasters| => ReprojectSourceRaster(rasters[i], resamplingName, noDataOverride))
  }

  // ---------------------------------------------------------------------------
  // The operator

  /** The operator's parameters and the target state it builds. The crsCode
      field is rewritten in place by CRS resolution; the target bands are
      appended one source raster at a time. */
  class ReprojectionOp {
    var crsCode: Option<string>
    const wktFile: Option<string>
    const wkt: Option<string>
    const collocationProduct: Option<CollocationProduct>
    const resamplingName: string
    const includeTiePointGrids: bool
    const referencePixelX: Option<real>
    const referencePixelY: Option<real>
    const easting: Option<real>
    const northing: Option<real>
    const pixelSizeX: Option<real>
    const pixelSizeY: Option<real>
    const width: Option<int>
    const height: Option<int>
    const noDataValue: Option<NoData>
    const sourceProduct: SourceProduct

    var targetGeometry: Option<ImageGeometry>
    var targetBands: seq<TargetBand>

    constructor (sourceProduct: SourceProduct, collocationProduct: Option<CollocationProduct>,
                 crsCode: Option<string>, wktFile: Option<string>, wkt: Option<string>,
                 resamplingName: string, includeTiePointGrids: bool,
                 referencePixelX: Option<real>, referencePixelY: Option<real>,
                 easting: Option<real>, northing: Option<real>,
                 pixelSizeX: Option<real>, pixelSizeY: Option<real>,
                 width: Option<int>, height: Option<int>, noDataValue: Option<NoData>)
      ensures this.sourceProduct == sourceProduct && this.collocationProduct == collocationProduct
      ensures this.crsCode == crsCode && this.wktFile == wktFile && this.wkt == wkt
      ensures this.resamplingName == resamplingName && this.includeTiePointGrids == includeTiePointGrids
      ensures this.referencePixelX == referencePixelX && this.referencePixelY == referencePixelY
      ensures this.easting == easting && this.northing == northing
      ensures this.pixelSizeX == pixelSizeX && this.pixelSizeY == pixelSizeY
      ensures this.width == width && this.height == height && this.noDataValue == noDataValue
      ensures targetGeometry.None? && targetBands == []
    {
      this.sourceProduct := sourceProduct;
      this.collocationProduct := collocationProduct;
      this.crsCode := crsCode;
      this.wktFile := wktFile;
      this.wkt := wkt;
      this.resamplingName := resamplingName;
      this.includeTiePointGrids := includeTiePointGrids;
      this.referencePixelX := referencePixelX;
      this.referencePixelY := referencePixelY;
      this.easting := easting;
      this.northing := northing;
      this.pixelSizeX := pixelSizeX;
      this.pixelSizeY := pixelSizeY;
      this.width := width;
      this.height := height;
      this.noDataValue := noDataValue;
      targetGeometry := None;
      targetBands := [];
    }

    function CrsParameters(): CrsSpec
      reads this
    {
      CrsSpec(crsCode, wktFile, wkt, collocationProduct)
    }

    function GridParams(): GridParameters {
      GridParameters(pixelSizeX, pixelSizeY, width, height, easting, northing, referencePixelX, referencePixelY)
    }

    /** The four validation steps in the order the operator runs them; the
        first failure is reported. */
    function ValidateParameters(): (r: Outcome<OpError>)
      reads this
      ensures r == Pass <==>
        && ValidateCrsParameters(CrsParameters()) == Pass
        && ValidateResamplingParameter(resamplingName) == Pass
        && ValidateReferencingParameters(referencePixelX, referencePixelY, easting, northing) == Pass
        && ValidateTargetGridParameters(pixelSizeX, pixelSizeY) == Pass
      ensures ValidateCrsParameters(CrsParameters()).Fail? ==> r == ValidateCrsParameters(CrsParameters())
      ensures ValidateCrsParameters(CrsParameters()) == Pass ==>
        (ValidateResamplingParameter(resamplingName).Fail? ==> r == ValidateResamplingParameter(resamplingName))
      ensures ValidateCrsParameters(CrsParameters()) == Pass && ValidateResamplingParameter(resamplingName) == Pass ==>
        var referencing := ValidateReferencingParameters(referencePixelX, referencePixelY, easting, northing);
        && (referencing.Fail? ==> r == referencing)
        && (referencing == Pass ==> r == ValidateTargetGridParameters(pixelSizeX, pixelSizeY))
    {
      var crs := ValidateCrsParameters(CrsParameters());
      if crs.Fail? then crs
      else
        var resampling := ValidateResamplingParameter(resamplingName);
        if resampling.Fail? then resampling
        else
          var referencing := ValidateReferencingParameters(referencePixelX, referencePixelY, easting, northing);
          if referencing.Fail? then referencing
          else ValidateTargetGridParameters(pixelSizeX, pixelSizeY)
    }

    /** Resolves the target CRS. A non-empty code is rewritten in place to its
        normalised form before it is decoded; when the AUTO branch fails the
        field keeps its old value. */
    method CreateTargetCrs() returns (r: Result<Option<CrsSource>, OpError>)
      modifies this`crsCode
      ensures r == ResolveTargetCrs(old(CrsParameters()), sourceProduct)
      ensures r.Success? && r.value.Some? && r.value.value.Decoded? ==> crsCode == Some(r.value.value.code)
      ensures !(r.Success? && r.value.Some? && r.value.value.Decoded?) ==> crsCode == old(crsCode)
    {
      if crsCode.Some? && crsCode.value != "" {
        var normalised := NormaliseCrsCode(crsCode.value, sourceProduct);
        if normalised.Failure? {
          return Failure(normalised.error);
        }
        crsCode := Some(normalised.value);
        return Success(Some(Decoded(normalised.value)));
      } else if wktFile.Some? {
        return Success(Some(WktFromFile(wktFile.value)));
      } else if wkt.Some? {
        return Success(Some(WktText(wkt.value)));
      } else if collocationProduct.Some? && collocationProduct.value.modelCrs.Some? {
        return Success(Some(FromCollocation(collocationProduct.value.modelCrs.value)));
      }
      return Success(None);
    }

    /** Appends one target band per raster, in order. */
    method ReprojectRasterDataNodes(rasters: seq<Raster>)
      modifies this`targetBands
      ensures targetBands == old(targetBands) + TargetBands(rasters, resamplingName, noDataValue)
    {
      var i := 0;
      while i < |rasters|
        invariant 0 <= i <= |rasters|
        invariant targetBands == old(targetBands) + TargetBands(rasters[..i], resamplingName, noDataValue)
      {
        targetBands := targetBands + [ReprojectSourceRaster(rasters[i], resamplingName, noDataValue)];
        assert TargetBands(rasters[..i + 1], resamplingName, noDataValue)
            == TargetBands(rasters[..i], resamplingName, noDataValue)
               + [ReprojectSourceRaster(rasters[i], resamplingName, noDataValue)];
        i := i + 1;
      }
      assert rasters[..i] == rasters;
    }

    /** The target geometry for a resolved CRS; the second axis direction of
        a CRS comes from the external CRS library. */
    function TargetGeometry(crs: Option<CrsSource>, secondAxisOf: CrsSource -> AxisDirection): Result<ImageGeometry, OpError> {
      CreateImageGeometry(collocationProduct, crs, if crs.Some? then secondAxisOf(crs.value) else OtherDirection, GridParams())
    }

    /** Validates, resolves the CRS, builds the target geometry and one target
        band per source band (and per tie-point grid when they are included).
        Each step's failure is reported and ends initialisation; the target
        product, and so its geometry, exists before band 0 is looked up. */
    method Initialize(secondAxisOf: CrsSource -> AxisDirection) returns (r: Outcome<OpError>)
      modifies this`crsCode, this`targetGeometry, this`targetBands
      ensures var valid := old(ValidateParameters());
        var crs := ResolveTargetCrs(old(CrsParameters()), sourceProduct);
        && (r == Pass <==>
              valid == Pass && crs.Success? && TargetGeometry(crs.value, secondAxisOf).Success?
              && |sourceProduct.bands| > 0)
        && (valid.Fail? ==> r == valid && crsCode == old(crsCode))
        && (valid == Pass && crs.Failure? ==> r == Fail(crs.error) && crsCode == old(crsCode))
        && (valid == Pass && crs.Success? ==>
              if crs.value.Some? && crs.value.value.Decoded? then crsCode == Some(crs.value.value.code)
              else crsCode == old(crsCode))
        && (valid == Pass && crs.Success? && TargetGeometry(crs.value, secondAxisOf).Failure? ==>
              r == Fail(TargetGeometry(crs.value, secondAxisOf).error))
        && (valid == Pass && crs.Success? && TargetGeometry(crs.value, secondAxisOf).Success? ==>
              targetGeometry == Some(TargetGeometry(crs.value, secondAxisOf).value)
              && (|sourceProduct.bands| == 0 ==> r == Fail(NoSourceBand) && targetBands == []))
      ensures r.Fail? && r.error != NoSourceBand ==>
        targetGeometry == old(targetGeometry) && targetBands == old(targetBands)
      ensures r == Pass ==>
        && targetBands == TargetBands(sourceProduct.bands, resamplingName, noDataValue)
                          + (if includeTiePointGrids then TargetBands(sourceProduct.tiePointGrids, resamplingName, noDataValue) else [])
        && forall b :: b in targetBands ==> b.noDataValueUsed && b.resampling.Some?
    {
      var valid := ValidateParameters();
      if valid.Fail? {
        return valid;
      }
      var crs := CreateTargetCrs();
      assert crs == ResolveTargetCrs(old(CrsParameters()), sourceProduct);
      if crs.Failure? {
        return Fail(crs.error);
      }
      var geometry := TargetGeometry(crs.value, secondAxisOf);
      if geometry.Failure? {
        return Fail(geometry.error);
      }
      targetGeometry := Some(geometry.value);
      targetBands := [];
      if |sourceProduct.bands| == 0 {
        return Fail(NoSourceBand);
      }
      ReprojectRasterDataNodes(sourceProduct.bands);
      if includeTiePointGrids {
        ReprojectRasterDataNodes(sourceProduct.tiePointGrids);
      }
      return Pass;
    }
  }
}
