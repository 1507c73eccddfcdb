/** The command-line front end: the option values and the protocol strings
    they stand for, the choice of a scanner, the overrides applied to the
    default settings, and the listing's headline. Argument parsing, the
    process exit and the printing itself are not part of this model. */
module Cli {
  import opened Common
  import opened ScannerErrors
  import opened Structs
  import opened Scanners
  import opened Finder

  datatype CliColorMode = BlackAndWhite | Grayscale | Rgb

  function ColorModeWire(c: CliColorMode): string
  {
    match c
    case BlackAndWhite => "BlackAndWhite1"
    case Grayscale => "Grayscale8"
    case Rgb => "RGB24"
  }

  /** The colour modes' protocol strings are pairwise distinct. */
  lemma ColorModeWireInjective(a: CliColorMode, b: CliColorMode)
    ensures ColorModeWire(a) == ColorModeWire(b) ==> a == b
  {
  }

  datatype CliOutputFormat = Jpg | Pdf

  /** The MIME type of each output format. */
  function OutputFormatWire(f: CliOutputFormat): (r: string)
    ensures f.Jpg? <==> r == "image/jpeg"
    ensures f.Pdf? <==> r == "application/pdf"
  {
    match f
    case Jpg => "image/jpeg"
    case Pdf => "application/pdf"
  }

  datatype CliDocumentSize = A4PortraitSize | A5LandscapeSize | A5PortraitSize | UsLetterPortraitSize

  /** The region scanned for each document size: the matching preset. */
  function DocumentRegion(size: CliDocumentSize, convert: MmToUnits): ScanRegion
  {
    match size
    case A4PortraitSize => A4Portrait(convert)
    case A5LandscapeSize => A5Landscape(convert)
    case A5PortraitSize => A5Portrait(convert)
    case UsLetterPortraitSize => UsLetterPortrait(convert)
  }

  /** Every document size is a full-size region at the origin, and A5 comes
      in both orientations of the same sheet. */
  lemma DocumentRegionsAtOrigin(size: CliDocumentSize, convert: MmToUnits)
    ensures var r := DocumentRegion(size, convert);
      r.xOffset == 0 && r.yOffset == 0 && r.contentRegionUnits == ThreeHundredthsOfInches
    ensures DocumentRegion(A5LandscapeSize, convert).width == DocumentRegion(A5PortraitSize, convert).height
    ensures DocumentRegion(A5LandscapeSize, convert).height == DocumentRegion(A5PortraitSize, convert).width
  {
    A5LandscapeIsTurnedPortrait(convert);
  }

  datatype CliInputSource = Camera | Feeder | PlatenSource

  function InputSourceWire(s: CliInputSource): string
  {
    match s
    case Camera => "scan:Camera"
    case Feeder => "Feeder"
    case PlatenSource => "Platen"
  }

  /** The input sources' protocol strings are pairwise distinct, and the
      platen's is the one the default settings use. */
  lemma InputSourceWireInjective(a: CliInputSource, b: CliInputSource, scanner: Scanner)
    ensures InputSourceWire(a) == InputSourceWire(b) ==> a == b
    ensures InputSourceWire(PlatenSource) == MakeSettings(scanner).inputSource
  {
  }

  datatype CliContentType = Photo | Text | TextAndPhoto | LineArt | Magazine | Halftone | Auto

  /** A content type's protocol string: the variant's name. */
  function ContentTypeWire(t: CliContentType): string
  {
    match t
    case Photo => "Photo"
    case Text => "Text"
    case TextAndPhoto => "TextAndPhoto"
    case LineArt => "LineArt"
    case Magazine => "Magazine"
    case Halftone => "Halftone"
    case Auto => "Auto"
  }

  /** The seven content types have seven distinct protocol strings. */
  lemma ContentTypeWireInjective(a: CliContentType, b: CliContentType)
    ensures ContentTypeWire(a) == ContentTypeWire(b) ==> a == b
  {
  }

  datatype DeviceArgs = DeviceArgs(host: Option<string>, name: Option<string>, list: bool)

  /** The parsed command line. */
  datatype CliArgs = CliArgs(
    device: DeviceArgs,
    inputSource: CliInputSource,
    inputFormat: CliDocumentSize,
    dpi: int16,
    outputFileName: string,
    outputBasePath: Option<string>,
    outputFormat: CliOutputFormat,
    color: CliColorMode,
    contentType: CliContentType)

  const ManualDeviceName: string := "Manually Configured"
  const ManualRoot: string := "eSCL"
  const NoScanners: string := "No scanners found"

  /** The scanner chosen, or the text of why there is none. */
  datatype Selection = Selected(scanner: Scanner) | Rejected(message: string)

  /** Picks the scanner: a given host is used directly, under a fixed name
      and root, with `manualCaps` answering its capability fetch; otherwise
      discovery runs (filtered by the name, if given) and the first device it
      returns is chosen. Every failure becomes its rendered text. */
  method GetScanner(args: CliArgs, manualCaps: Fetched<ScannerCapabilities>,
                    browseError: Option<string>, events: seq<Event>)
    returns (r: Selection)
    ensures args.device.host.Some? && manualCaps.Decoded? ==>
              r == Selected(Scanner(MakeBaseUrl(args.device.host.value, ManualRoot), ManualDeviceName, manualCaps.value))
    ensures args.device.host.Some? && !manualCaps.Decoded? ==>
              r == Rejected(Render(Query(manualCaps).error))
    ensures args.device.host.None? ==>
              var run := FindOutcome(args.device.name, browseError, [], events);
              && (run.result.Err? ==> r == Rejected(Render(run.result.error)))
              && (run.result.Ok? && |run.result.value| > 0 ==> r == Selected(run.result.value[0]))
              && (run.result.Ok? && |run.result.value| == 0 ==> r == Rejected(NoScanners))
  {
    if args.device.host.Some? {
      match NewScanner(ManualDeviceName, args.device.host.value, ManualRoot, manualCaps) {
        case Ok(scanner) => return Selected(scanner);
        case Err(e) => return Rejected(Render(e));
      }
    }
    var finder := new ScannerFinder();
    var found := finder.Find(args.device.name, browseError, events);
    match found {
      case Err(e) =>
        return Rejected(Render(e));
      case Ok(scanners) =>
        if |scanners| > 0 {
          return Selected(scanners[0]);
        }
        return Rejected(NoScanners);
    }
  }

  /** Unfiltered discovery from a fresh finder returns the scanners of the
      well-formed records in the order they were reported, so the first of
      them is chosen. */
  lemma UnfilteredDiscoveryReturnsHarvest(events: seq<Event>)
    ensures FindOutcome(None, None, [], events) == FindRun(Ok(Harvest(events)), Harvest(events))
  {
    BrowseUnnamedReturnsAll([], events);
    AfterEventsAppendsHarvest([], events);
    assert [] + Harvest(events) == Harvest(events);
  }

  /** A name filter does not make the choice match the name: discovery with a
      name returns the whole list once any entry matches, and the first entry
      is chosen. When a device that does not match is reported before one
      that does, looking for the name returns both, and the first, which does
      not match, is the one selected. */
  lemma {:induction false} NamedSelectionCanMiss(name: string, d0: Discovery, d1: Discovery)
    requires WellFormed(d0) && WellFormed(d1)
    requires !Matches(ScannerOf(d0), name) && Matches(ScannerOf(d1), name)
    ensures FindOutcome(Some(name), None, [], [Callback(d0), Callback(d1), Poll]).result
         == Ok([ScannerOf(d0), ScannerOf(d1)])
  {
    var events := [Callback(d0), Callback(d1), Poll];
    var list := [ScannerOf(d0), ScannerOf(d1)];
    assert events[1..] == [Callback(d1), Poll] && events[1..][1..] == [Poll] && events[1..][1..][1..] == [];
    assert Step([], events[0]) == [ScannerOf(d0)];
    assert Step([ScannerOf(d0)], events[1..][0]) == list;
    assert Matches(list[1], name);
    assert Browse(Some(name), [], events) == Browse(Some(name), [ScannerOf(d0)], events[1..]);
    assert Browse(Some(name), [ScannerOf(d0)], events[1..]) == Browse(Some(name), list, [Poll]);
    assert Browse(Some(name), list, [Poll]) == FindRun(Ok(list), list);
  }

  /** The scan settings `main` submits: the scanner's defaults with the
      resolution, colour mode, content type, document format, input source,
      region and feed direction replaced, one field at a time. */
  method MainSettings(scanner: Scanner, args: CliArgs, convert: MmToUnits) returns (settings: ScanSettings)
    ensures settings.version == "2.6"
    ensures settings.xResolution == args.dpi && settings.yResolution == args.dpi
    ensures settings.colorMode == ColorModeWire(args.color)
    ensures settings.contentType == ContentTypeWire(args.contentType)
    ensures settings.documentFormat == OutputFormatWire(args.outputFormat)
    ensures settings.inputSource == InputSourceWire(args.inputSource)
    ensures settings.scanRegions == DocumentRegion(args.inputFormat, convert)
    ensures settings.feedDirection == "ShortEdgeFeed"
    ensures args.color == Rgb && args.outputFormat == Jpg && args.inputSource == PlatenSource && args.dpi == 300 ==>
              settings == MakeSettings(scanner).(contentType := settings.contentType,
                                                 scanRegions := settings.scanRegions,
                                                 feedDirection := settings.feedDirection)
  {
    settings := MakeSettings(scanner);
    settings := settings.(xResolution := args.dpi);
    settings := settings.(yResolution := args.dpi);
    settings := settings.(colorMode := ColorModeWire(args.color));
    settings := settings.(contentType := ContentTypeWire(args.contentType));
    settings := settings.(documentFormat := OutputFormatWire(args.outputFormat));
    settings := settings.(inputSource := InputSourceWire(args.inputSource));
    settings := settings.(scanRegions := DocumentRegion(args.inputFormat, convert));
    settings := settings.(feedDirection := FeedDirectionName(ShortEdgeFeed));
  }

  /** The headline of the scanner listing for `n` scanners. */
  function CountMessage(n: nat): (r: string)
    ensures n == 0 ==> r == NoScanners
    ensures n == 1 ==> r == "Found 1 scanner:"
    ensures n >= 2 ==> r == "Found " + Decimal(n) + " scanners:"
  {
    if n == 0 then NoScanners
    else if n == 1 then "Found 1 scanner:"
    else "Found " + Decimal(n) + " scanners:"
  }

  /** Distinct decimal strings denote distinct numbers. */
  lemma DecimalInjective(m: nat, n: nat)
    requires Decimal(m) == Decimal(n)
    ensures m == n
  {
    assert ValueOf(Decimal(m)) == ValueOf(Decimal(n));
  }

  /** The headline tells the number of scanners exactly. */
  lemma {:induction false} CountMessageInjective(m: nat, n: nat)
    ensures CountMessage(m) == CountMessage(n) ==> m == n
  {
    var a, b := CountMessage(m), CountMessage(n);
    if m >= 2 && n >= 2 {
      if a == b {
        assert a[6..|a| - 10] == Decimal(m);
        assert b[6..|b| - 10] == Decimal(n);
        DecimalInjective(m, n);
      }
    } else {
      assert CountMessage(0)[0] == 'N' && |CountMessage(0)| == 17;
      assert CountMessage(1)[0] == 'F' && |CountMessage(1)| == 16;
      if m >= 2 {
        assert a[0] == 'F' && |a| > 16;
      }
      if n >= 2 {
        assert b[0] == 'F' && |b| > 16;
      }
    }
  }

  /** What `list_scanners` shows: the failure, or the headline followed by
      the scanners found. */
  datatype Listing = DiscoveryFailed(message: string) | Listed(headline: string, scanners: seq<Scanner>)

  const DiscoveryFailure: string := "Failed to discover scanners: "

  /** Runs unfiltered discovery with a fresh finder and reports it. */
  method ListScanners(browseError: Option<string>, events: seq<Event>) returns (r: Listing)
    ensures browseError.Some? ==>
              r == DiscoveryFailed(DiscoveryFailure + Render(ScannerError(NetworkError, browseError.value)))
    ensures browseError.None? ==> r == Listed(CountMessage(|Harvest(events)|), Harvest(events))
  {
    var finder := new ScannerFinder();
    var found := finder.Find(None, browseError, events);
    if browseError.None? {
      UnfilteredDiscoveryReturnsHarvest(events);
    }
    match found {
      case Err(e) =>
        return DiscoveryFailed(DiscoveryFailure + Render(e));
      case Ok(scanners) =>
        return Listed(CountMessage(|scanners|), scanners);
    }
  }
}
