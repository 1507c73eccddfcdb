/** The protocol's data: the scanner's capabilities and status as decoded
    from its XML documents, and the scan settings and region sent with a job.
    Fixed-width integers are subset-bounded newtypes; the XML codec itself is
    not part of this model. */
module Structs {
  import opened Common

  newtype uint8 = x: int | 0 <= x < 0x100
  newtype uint16 = x: int | 0 <= x < 0x1_0000
  newtype int16 = x: int | -0x8000 <= x < 0x8000
  newtype int8 = x: int | -0x80 <= x < 0x80

  datatype SettingProfile = SettingProfile(colorModes: seq<string>)

  datatype PlatenInputCaps = PlatenInputCaps(
    minWidth: uint16,
    maxWidth: uint16,
    minHeight: uint16,
    maxHeight: uint16,
    maxScanRegions: uint16,
    settingProfiles: seq<SettingProfile>,
    maxOpticalXResolution: uint16,
    maxOpticalYResolution: uint16,
    riskyLeftMargin: uint16,
    riskyRightMargin: uint16,
    riskyTopMargin: uint16,
    riskyBottomMargin: uint16)

  datatype Platen = Platen(platenInputCaps: PlatenInputCaps)

  /** Shape shared by the compression-factor and sharpen ranges. */
  datatype AdjustmentRange = AdjustmentRange(min: int8, max: int8, normal: int8, step: int8)

  datatype ScannerCapabilities = ScannerCapabilities(
    version: string,
    makeAndModel: string,
    serialNumber: string,
    uuid: string,
    adminUri: string,
    iconUri: string,
    platen: Platen,
    compressionFactorSupport: AdjustmentRange,
    supportedMediaTypes: seq<string>,
    sharpenSupport: AdjustmentRange)

  datatype ScannerState = Idle | Processing | Testing | Stopped | Down

  /** The state assumed when none is known. */
  const DefaultState: ScannerState := Down

  /** The display text of a state: the variant's name. */
  function StateName(s: ScannerState): string
  {
    match s
    case Idle => "Idle"
    case Processing => "Processing"
    case Testing => "Testing"
    case Stopped => "Stopped"
    case Down => "Down"
  }

  /** The names the derived XML decoding accepts for a state element: exactly
      the variant names. This describes the codec only; the status query
      itself takes the decoded state as an input. */
  function ParseState(text: string): Option<ScannerState>
  {
    if text == "Idle" then Some(Idle)
    else if text == "Processing" then Some(Processing)
    else if text == "Testing" then Some(Testing)
    else if text == "Stopped" then Some(Stopped)
    else if text == "Down" then Some(Down)
    else None
  }

  /** Decoding what is displayed gives the state back, so the display names
      are pairwise distinct; the default displays as "Down". */
  lemma StateNameRoundTrip(s: ScannerState)
    ensures ParseState(StateName(s)) == Some(s)
    ensures StateName(DefaultState) == "Down"
  {
  }

  /** Every accepted text is the display name of the state it decodes to. */
  lemma ParseStateOnlyNames(text: string)
    requires ParseState(text).Some?
    ensures StateName(ParseState(text).value) == text
  {
  }

  datatype ScannerStatus = ScannerStatus(state: ScannerState, adfState: string)

  datatype ScanRegion = ScanRegion(
    xOffset: int16,
    yOffset: int16,
    width: uint16,
    height: uint16,
    contentRegionUnits: string)

  const ThreeHundredthsOfInches: string := "escl:ThreeHundredthsOfInches"

  /** A conversion from millimetres to 1/300 inch. The source multiplies in
      32-bit floating point by 0.03937 * 300 and casts the product to an
      unsigned 16-bit integer, which drops the fraction and saturates at the
      type's bounds; the model takes that conversion as a parameter. */
  type MmToUnits = nat -> uint16

  /** A region at the origin whose width and height are the converted
      millimetre sizes, each converted on its own. */
  function FromMm(width: nat, height: nat, convert: MmToUnits): (r: ScanRegion)
    ensures r.xOffset == 0 && r.yOffset == 0
    ensures r.contentRegionUnits == ThreeHundredthsOfInches
    ensures r.width == convert(width) && r.height == convert(height)
  {
    ScanRegion(0, 0, convert(width), convert(height), ThreeHundredthsOfInches)
  }

  function A4Portrait(convert: MmToUnits): ScanRegion
  {
    FromMm(210, 297, convert)
  }

  function A5Portrait(convert: MmToUnits): ScanRegion
  {
    FromMm(148, 210, convert)
  }

  function A5Landscape(convert: MmToUnits): ScanRegion
  {
    FromMm(210, 148, convert)
  }

  /** Slightly rounded millimetre sizes of US Letter. */
  function UsLetterPortrait(convert: MmToUnits): ScanRegion
  {
    FromMm(216, 279, convert)
  }

  /** A5 landscape is A5 portrait turned by a quarter: width and height swapped. */
  lemma A5LandscapeIsTurnedPortrait(convert: MmToUnits)
    ensures A5Landscape(convert)
         == A5Portrait(convert).(width := A5Portrait(convert).height, height := A5Portrait(convert).width)
  {
  }

  /** The portrait presets are never wider than high whenever the conversion is monotonic. */
  lemma PortraitPresetsAreUpright(convert: MmToUnits)
    requires forall a: nat, b: nat :: a <= b ==> convert(a) <= convert(b)
    ensures A4Portrait(convert).width <= A4Portrait(convert).height
    ensures A5Portrait(convert).width <= A5Portrait(convert).height
    ensures UsLetterPortrait(convert).width <= UsLetterPortrait(convert).height
  {
    assert convert(210) <= convert(297);
    assert convert(148) <= convert(210);
    assert convert(216) <= convert(279);
  }

  /** The settings of one scan job, as sent to the scanner. */
  datatype ScanSettings = ScanSettings(
    version: string,
    contentType: string,
    inputSource: string,
    scanRegions: ScanRegion,
    colorMode: string,
    documentFormat: string,
    feedDirection: string,
    xResolution: int16,
    yResolution: int16)

  datatype FeedDirection = LongEdgeFeed | ShortEdgeFeed

  const DefaultFeedDirection: FeedDirection := ShortEdgeFeed

  /** The wire text of a feed direction: the variant's name. */
  function FeedDirectionName(f: FeedDirection): string
  {
    match f
    case LongEdgeFeed => "LongEdgeFeed"
    case ShortEdgeFeed => "ShortEdgeFeed"
  }

  /** The two directions have distinct wire texts, and the default is short-edge feed. */
  lemma FeedDirectionNamesDistinct(f: FeedDirection, g: FeedDirection)
    ensures FeedDirectionName(f) == FeedDirectionName(g) ==> f == g
    ensures FeedDirectionName(DefaultFeedDirection) == "ShortEdgeFeed"
  {
  }
}
