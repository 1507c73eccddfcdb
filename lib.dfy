/** The library's free-standing scan entry point, which works from a base
    address alone: it fetches the capabilities itself, then submits the job
    and downloads its pages exactly as a scanner handle does. */
module Lib {
  import opened Common
  import opened ScannerErrors
  import opened Structs
  import opened Scanners

  /** The settings of a free-standing scan: the full platen in 24-bit colour
      at the requested resolution. The source's literal names no document
      format (nor content type or feed direction); those are empty here. */
  function LibSettings(caps: ScannerCapabilities, resolution: int16): (r: ScanSettings)
    ensures CoversPlaten(r.scanRegions, caps)
    ensures r.version == "2.6" && r.inputSource == "Platen" && r.colorMode == "RGB24"
    ensures r.xResolution == resolution && r.yResolution == resolution
    ensures r.documentFormat == "" && r.contentType == "" && r.feedDirection == ""
  {
    var platen := caps.platen.platenInputCaps;
    ScanSettings(
      version := "2.6",
      contentType := "",
      inputSource := "Platen",
      scanRegions := ScanRegion(0, 0, platen.maxWidth, platen.maxHeight, ThreeHundredthsOfInches),
      colorMode := "RGB24",
      documentFormat := "",
      feedDirection := "",
      xResolution := resolution,
      yResolution := resolution)
  }

  /** At 300 dpi the free-standing settings are a scanner handle's default
      settings without their JPEG document format. */
  lemma LibSettingsAreDefaultWithoutFormat(scanner: Scanner)
    ensures LibSettings(scanner.capabilities, 300) == MakeSettings(scanner).(documentFormat := "")
  {
  }

  /** Fetches the capabilities from `basePath` (answered by `caps`), builds
      the settings for `resolution`, and runs the job as `Scanners.Scan` does.
      A failed capabilities fetch sends nothing further. */
  method Scan(basePath: string, resolution: int16, caps: Fetched<ScannerCapabilities>,
              encode: ScanSettings -> Encoding, submission: Submission,
              pages: seq<PageStep>, content: seq<uint8>)
    returns (result: Result<()>, requests: seq<Request>, saved: seq<uint8>)
    requires Ends(pages)
    ensures !caps.Decoded? ==>
              result == Err(Query(caps).error) && requests == [Get(CapabilitiesUrl(basePath))] && saved == content
    ensures caps.Decoded? ==> |requests| >= 1 && requests[0] == Get(CapabilitiesUrl(basePath))
    ensures caps.Decoded? ==>
              var settings := LibSettings(caps.value, resolution);
              && (encode(settings).EncodeFailed? ==>
                    && result == Err(ScannerError(ProtocolError, encode(settings).error))
                    && requests == [Get(CapabilitiesUrl(basePath))] && saved == content)
              && (encode(settings).Encoded? && JobLocation(submission).Err? ==>
                    && result == Err(JobLocation(submission).error)
                    && requests == [Get(CapabilitiesUrl(basePath)),
                                    Post(ScanJobsUrl(basePath), XmlDeclaration + encode(settings).xml)]
                    && saved == content)
              && (encode(settings).Encoded? && JobLocation(submission).Ok? ==>
                    var d := DownloadFrom(pages, 1, content);
                    && result == d.result && saved == d.content
                    && requests == [Get(CapabilitiesUrl(basePath))]
                         + JobRequests(basePath, encode(settings).xml, JobLocation(submission).value, pages))
  {
    var fetch := Get(CapabilitiesUrl(basePath));
    match Query(caps) {
      case Err(e) =>
        return Err(e), [fetch], content;
      case Ok(capabilities) =>
        var settings := LibSettings(capabilities, resolution);
        match encode(settings) {
          case EncodeFailed(e) =>
            return Err(FromForeign(XmlError(e))), [fetch], content;
          case Encoded(xml) =>
            var post := Post(ScanJobsUrl(basePath), XmlDeclaration + xml);
            match JobLocation(submission) {
              case Err(e) =>
                return Err(e), [fetch, post], content;
              case Ok(location) =>
                var fetches, page;
                result, fetches, page, saved := DownloadPage(NextDocumentUrl(location), pages, content);
                requests := [fetch, post] + fetches;
            }
        }
    }
  }
}
