/** One eSCL scanner and the scan-job driver: submitting the settings,
    checking the answer, and downloading pages until the scanner answers 404.

    The network answers are inputs: each HTTP exchange is given as the outcome
    the scanner (or the transport) produced, and the model returns the
    requests it would have sent, in order. The destination file is a single
    content value. */
module Scanners {
  import opened Common
  import opened ScannerErrors
  import opened Structs

  datatype Scanner = Scanner(baseUrl: string, deviceName: string, capabilities: ScannerCapabilities)

  /** An HTTP request the driver sends. */
  datatype Request = Get(url: string) | Post(url: string, body: string)

  /** The outcome of fetching and decoding one XML document. */
  datatype Fetched<T> = TransportFailed(error: string) | DecodeFailed(error: string) | Decoded(value: T)

  /** A failed transport is a network error, an undecodable body a protocol error. */
  function Query<T>(f: Fetched<T>): (r: Result<T>)
    ensures r.Ok? <==> f.Decoded?
    ensures f.Decoded? ==> r.value == f.value
    ensures f.TransportFailed? ==> r.error == ScannerError(NetworkError, f.error)
    ensures f.DecodeFailed? ==> r.error == ScannerError(ProtocolError, f.error)
  {
    match f
    case TransportFailed(e) => Err(FromForeign(HttpError(e)))
    case DecodeFailed(e) => Err(FromForeign(XmlError(e)))
    case Decoded(v) => Ok(v)
  }

  /** The base address of a scanner's eSCL service: plain HTTP on port 80. */
  function MakeBaseUrl(ipOrHost: string, root: string): (r: string)
    ensures |r| == 11 + |ipOrHost| + |root|
    ensures r[..7] == "http://"
    ensures r[7..7 + |ipOrHost|] == ipOrHost
    ensures r[7 + |ipOrHost|..11 + |ipOrHost|] == ":80/"
    ensures r[11 + |ipOrHost|..] == root
  {
    var r := "http://" + ipOrHost + ":80/" + root;
    assert r == "http://" + (ipOrHost + (":80/" + root));
    r
  }

  /** For a given host, the base address determines the resource root. */
  lemma BaseUrlDeterminesRoot(host: string, root1: string, root2: string)
    requires MakeBaseUrl(host, root1) == MakeBaseUrl(host, root2)
    ensures root1 == root2
  {
  }

  function CapabilitiesUrl(baseUrl: string): string
  {
    baseUrl + "/ScannerCapabilities"
  }

  function StatusUrl(baseUrl: string): string
  {
    baseUrl + "/ScannerStatus"
  }

  function ScanJobsUrl(baseUrl: string): string
  {
    baseUrl + "/ScanJobs"
  }

  /** The address every page of a job is fetched from. */
  function NextDocumentUrl(location: string): string
  {
    location + "/NextDocument"
  }

  /** A scanner handle with freshly fetched capabilities, or the fetch's error. */
  function NewScanner(deviceName: string, ipOrHost: string, resourceRoot: string,
                      capabilities: Fetched<ScannerCapabilities>): (r: Result<Scanner>)
    ensures r.Ok? <==> capabilities.Decoded?
    ensures r.Ok? ==> r.value == Scanner(MakeBaseUrl(ipOrHost, resourceRoot), deviceName, capabilities.value)
    ensures r.Err? ==> r.error == Query(capabilities).error
  {
    match Query(capabilities)
    case Ok(caps) => Ok(Scanner(MakeBaseUrl(ipOrHost, resourceRoot), deviceName, caps))
    case Err(e) => Err(e)
  }

  /** The scanner's current state, from the answer to a status query. */
  function GetStatus(status: Fetched<ScannerStatus>): (r: Result<ScannerState>)
    ensures r.Ok? <==> status.Decoded?
    ensures r.Ok? ==> r.value == status.value.state
    ensures r.Err? ==> r.error == Query(status).error
  {
    match Query(status)
    case Ok(s) => Ok(s.state)
    case Err(e) => Err(e)
  }

  /** The region covers the whole platen the capabilities describe. */
  predicate CoversPlaten(region: ScanRegion, caps: ScannerCapabilities)
  {
    && region.xOffset == 0 && region.yOffset == 0
    && region.width == caps.platen.platenInputCaps.maxWidth
    && region.height == caps.platen.platenInputCaps.maxHeight
    && region.contentRegionUnits == ThreeHundredthsOfInches
  }

  /** The default job: the full platen, 24-bit colour JPEG at 300 dpi.
      The source's literal leaves out the content type and the feed direction,
      which the settings type declares; they are empty here, and callers set them. */
  function MakeSettings(scanner: Scanner): (r: ScanSettings)
    ensures CoversPlaten(r.scanRegions, scanner.capabilities)
    ensures r.version == "2.6" && r.inputSource == "Platen"
    ensures r.colorMode == "RGB24" && r.documentFormat == "image/jpeg"
    ensures r.xResolution == 300 && r.yResolution == 300
    ensures r.contentType == "" && r.feedDirection == ""
  {
    var platen := scanner.capabilities.platen.platenInputCaps;
    ScanSettings(
      version := "2.6",
      contentType := "",
      inputSource := "Platen",
      scanRegions := ScanRegion(0, 0, platen.maxWidth, platen.maxHeight, ThreeHundredthsOfInches),
      colorMode := "RGB24",
      documentFormat := "image/jpeg",
      feedDirection := "",
      xResolution := 300,
      yResolution := 300)
  }

  /** The outcome of encoding the settings as XML. */
  datatype Encoding = Encoded(xml: string) | EncodeFailed(error: string)

  const XmlDeclaration: string := "<?xml version=\"1.0\" encoding=\"UTF-8\"?>"

  /** The scanner's answer to a job submission: its status code, its
      `location` header if any, and the debug description of the response. */
  datatype Response = Response(status: int, location: Option<string>, description: string)

  datatype Submission = SendFailed(error: string) | Answered(response: Response)

  /** HTTP's success class, 2xx. */
  predicate IsSuccess(status: int)
  {
    200 <= status < 300
  }

  /** A sent request fails only on a non-success status, as a network error
      that carries the response's description. */
  function GetScanResponse(submission: Submission): (r: Result<Response>)
    ensures r.Ok? <==> submission.Answered? && IsSuccess(submission.response.status)
    ensures r.Ok? ==> r.value == submission.response
    ensures submission.SendFailed? ==> r == Err(ScannerError(NetworkError, submission.error))
    ensures submission.Answered? && !IsSuccess(submission.response.status) ==>
              r == Err(ScannerError(NetworkError, submission.response.description))
  {
    match submission
    case SendFailed(e) => Err(FromForeign(HttpError(e)))
    case Answered(response) =>
      if !IsSuccess(response.status) then
        Err(ScannerError(NetworkError, response.description))
      else
        Ok(response)
  }

  const MissingLocation: string := "Failed to get 'location' header from response:\n"

  /** The job's result address: a success answer without a `location`
      header is a protocol error. */
  function JobLocation(submission: Submission): (r: Result<string>)
    ensures r.Ok? <==> GetScanResponse(submission).Ok? && submission.response.location.Some?
    ensures r.Ok? ==> r.value == submission.response.location.value
    ensures GetScanResponse(submission).Err? ==> r == Err(GetScanResponse(submission).error)
    ensures GetScanResponse(submission).Ok? && submission.response.location.None? ==>
              r == Err(ScannerError(ProtocolError, MissingLocation + submission.response.description))
  {
    match GetScanResponse(submission)
    case Err(e) => Err(e)
    case Ok(response) =>
      match response.location
      case None => Err(ScannerError(ProtocolError, MissingLocation + response.description))
      case Some(location) => Ok(location)
  }

  /** The answer to one page fetch. */
  datatype PageFetch = FetchFailed(error: string) | Page(status: int, body: seq<uint8>)

  /** What happened when the page's body was written to the destination file:
      creating the file failed, copying the body failed after `partial` was
      written, or the whole body was written. */
  datatype PageWrite = Written | CreateFailed(error: string) | CopyFailed(error: string, partial: seq<uint8>)

  /** One iteration's environment: the fetch's answer and, when the answer is
      a page, how writing it went. */
  datatype PageStep = PageStep(fetch: PageFetch, write: PageWrite)

  predicate IsNotFound(step: PageStep)
  {
    step.fetch.Page? && step.fetch.status == 404
  }

  /** The iteration saves a page and goes on. Any status other than 404 counts
      as a page, error statuses included. */
  predicate Saves(step: PageStep)
  {
    step.fetch.Page? && step.fetch.status != 404 && step.write.Written?
  }

  /** The scanner eventually ends the loop: by a 404, or by a failure. */
  ghost predicate Ends(pages: seq<PageStep>)
  {
    exists i :: 0 <= i < |pages| && !Saves(pages[i])
  }

  /** The iteration at which the page loop stops. */
  ghost function FirstStop(pages: seq<PageStep>): (k: nat)
    requires Ends(pages)
    ensures k < |pages| && !Saves(pages[k])
    ensures forall j :: 0 <= j < k ==> Saves(pages[j])
  {
    if !Saves(pages[0]) then 0
    else
      EndsLater(pages);
      1 + FirstStop(pages[1..])
  }

  lemma EndsLater(pages: seq<PageStep>)
    requires Ends(pages) && Saves(pages[0])
    ensures Ends(pages[1..])
  {
    var i :| 0 <= i < |pages| && !Saves(pages[i]);
    assert pages[1..][i - 1] == pages[i];
  }

  /** Where the page loop ends: its outcome, the page counter's value, and
      the destination file's content. */
  datatype Download = Download(result: Result<()>, page: nat, content: seq<uint8>)

  /** One iteration after another, as the loop runs them from page counter
      `page` with the destination holding `content`. */
  ghost function DownloadFrom(pages: seq<PageStep>, page: nat, content: seq<uint8>): Download
    requires Ends(pages)
    decreases |pages|
  {
    var step := pages[0];
    match step.fetch
    case FetchFailed(e) => Download(Err(FromForeign(HttpError(e))), page, content)
    case Page(status, body) =>
      if status == 404 then
        Download(Ok(()), page, content)
      else
        match step.write
        case CreateFailed(e) => Download(Err(FromForeign(IoError(e))), page, content)
        case CopyFailed(e, partial) => Download(Err(FromForeign(HttpError(e))), page, partial)
        case Written =>
          EndsLater(pages);
          DownloadFrom(pages[1..], page + 1, body)
  }

  /** The content after `k` saved pages: the last one's body, or what was there before. */
  ghost function LastSaved(pages: seq<PageStep>, k: nat, content: seq<uint8>): seq<uint8>
    requires k <= |pages| && forall j :: 0 <= j < k ==> Saves(pages[j])
  {
    if k == 0 then content else assert Saves(pages[k - 1]); pages[k - 1].fetch.body
  }

  /** The loop stops at the first step that does not save a page. By then the
      counter has gone up once per saved page, and the file, recreated for
      every page, holds only the last page saved. A 404 ends it successfully,
      even on the very first fetch; any other stop is that step's error. */
  lemma {:induction false} DownloadFromStopsAtFirstStop(pages: seq<PageStep>, page: nat, content: seq<uint8>)
    requires Ends(pages)
    ensures var k, d := FirstStop(pages), DownloadFrom(pages, page, content);
      && d.page == page + k
      && (IsNotFound(pages[k]) ==> d.result == Ok(()) && d.content == LastSaved(pages, k, content))
      && (pages[k].fetch.FetchFailed? ==>
            d.result == Err(ScannerError(NetworkError, pages[k].fetch.error)) && d.content == LastSaved(pages, k, content))
      && (pages[k].fetch.Page? && !IsNotFound(pages[k]) && pages[k].write.CreateFailed? ==>
            d.result == Err(ScannerError(FilesystemError, pages[k].write.error)) && d.content == LastSaved(pages, k, content))
      && (pages[k].fetch.Page? && !IsNotFound(pages[k]) && pages[k].write.CopyFailed? ==>
            d.result == Err(ScannerError(NetworkError, pages[k].write.error)) && d.content == pages[k].write.partial)
    decreases |pages|
  {
    if Saves(pages[0]) {
      EndsLater(pages);
      DownloadFromStopsAtFirstStop(pages[1..], page + 1, pages[0].fetch.body);
      var k := FirstStop(pages);
      assert FirstStop(pages[1..]) == k - 1;
      assert pages[1..][k - 1] == pages[k];
      if k > 1 {
        assert pages[1..][k - 2] == pages[k - 1];
      }
    }
  }

  /** The download loop: fetch the same address again and again, recreate
      the destination with every page, stop at the first 404. Every iteration
      fetches `downloadUrl` once, so the requests repeat it once per
      iteration run. */
  method DownloadPage(downloadUrl: string, pages: seq<PageStep>, content: seq<uint8>)
    returns (result: Result<()>, requests: seq<Request>, page: nat, saved: seq<uint8>)
    requires Ends(pages)
    ensures Download(result, page, saved) == DownloadFrom(pages, 1, content)
    ensures requests == Repeat(Get(downloadUrl), FirstStop(pages) + 1)
  {
    page := 1;
    saved := content;
    requests := [];
    var i := 0;
    while true
      invariant 0 <= i <= FirstStop(pages)
      invariant page == i + 1
      invariant forall j :: 0 <= j < i ==> Saves(pages[j])
      invariant Ends(pages[i..])
      invariant DownloadFrom(pages[i..], page, saved) == DownloadFrom(pages, 1, content)
      invariant requests == Repeat(Get(downloadUrl), i)
      decreases |pages| - i
    {
      requests := requests + [Get(downloadUrl)];
      var step := pages[i];
      match step.fetch {
        case FetchFailed(e) =>
          result := Err(FromForeign(HttpError(e)));
          return;
        case Page(status, body) =>
          if status == 404 {
            break;
          }
          match step.write {
            case CreateFailed(e) =>
              result := Err(FromForeign(IoError(e)));
              return;
            case CopyFailed(e, partial) =>
              saved := partial;
              result := Err(FromForeign(HttpError(e)));
              return;
            case Written =>
              saved := body;
          }
      }
      EndsLater(pages[i..]);
      assert pages[i..][1..] == pages[i + 1..];
      page := page + 1;
      i := i + 1;
    }
    result := Ok(());
  }

  /** The requests a job sends: the settings posted to the job endpoint, then
      one fetch of the job's page address per loop iteration. */
  ghost function JobRequests(baseUrl: string, xml: string, location: string, pages: seq<PageStep>): seq<Request>
    requires Ends(pages)
  {
    [Post(ScanJobsUrl(baseUrl), XmlDeclaration + xml)]
      + Repeat(Get(NextDocumentUrl(location)), FirstStop(pages) + 1)
  }

  /** Submits one job and downloads its pages to the destination. The
      settings are encoded by `encode`, the scanner's answers are
      `submission` and `pages`, and `content` is what the destination file
      held before. Nothing is fetched when the submission fails or the
      answer carries no `location`. */
  method Scan(scanner: Scanner, settings: ScanSettings, encode: ScanSettings -> Encoding,
              submission: Submission, pages: seq<PageStep>, content: seq<uint8>)
    returns (result: Result<()>, requests: seq<Request>, saved: seq<uint8>)
    requires Ends(pages)
    ensures encode(settings).EncodeFailed? ==>
              result == Err(ScannerError(ProtocolError, encode(settings).error)) && requests == [] && saved == content
    ensures encode(settings).Encoded? && JobLocation(submission).Err? ==>
              && result == Err(JobLocation(submission).error)
              && requests == [Post(ScanJobsUrl(scanner.baseUrl), XmlDeclaration + encode(settings).xml)]
              && saved == content
    ensures encode(settings).Encoded? && JobLocation(submission).Ok? ==>
              var d := DownloadFrom(pages, 1, content);
              && result == d.result && saved == d.content
              && requests == JobRequests(scanner.baseUrl, encode(settings).xml, JobLocation(submission).value, pages)
  {
    match encode(settings) {
      case EncodeFailed(e) =>
        return Err(FromForeign(XmlError(e))), [], content;
      case Encoded(xml) =>
        var post := Post(ScanJobsUrl(scanner.baseUrl), XmlDeclaration + xml);
        match JobLocation(submission) {
          case Err(e) =>
            return Err(e), [post], content;
          case Ok(location) =>
            var fetches, page;
            result, fetches, page, saved := DownloadPage(NextDocumentUrl(location), pages, content);
            requests := [post] + fetches;
        }
    }
  }
}
