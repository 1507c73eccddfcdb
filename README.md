# escl-scan, modelled in Dafny

escl-scan is a client for eSCL, the HTTP-and-XML protocol network scanners
speak (also sold as AirScan). The library finds scanners by mDNS service
browsing and builds a scanner handle from a host and a resource root. It asks
a scanner for its capabilities and status. It then submits a scan job and
downloads the job's pages. The command-line front end turns options into scan
settings and picks a scanner.

This project models the sequential logic under that I/O. Every exchange with
the outside world is an input value:

- the answer to an HTTP request (a transport error, a status, a `location`
  header, a body);
- the result of the XML encoder or decoder;
- the success or failure of a file write;
- the sequence of mDNS callbacks and polls.

The model returns what the program would produce: the result or error, the
requests it would send in order, the final page counter and the content of the
destination file. The files are:

- `common.dfy` (`Common`): an optional value, Rust's `str::contains` as a
  substring test, decimal formatting and repetition.
- `errors.dfy` (`ScannerErrors`): the error codes, the error value, its
  rendering, and the conversions from the errors of the libraries it calls.
- `structs.dfy` (`Structs`): the protocol data, the scanner states, the
  millimetre regions and presets, and the feed directions.
- `scanner.dfy` (`Scanners`): the scanner handle and the scan-job driver, with
  its page-download loop as a method proved against a step-by-step
  definition.
- `lib.dfy` (`Lib`): the free-standing scan entry point, which first fetches
  the capabilities itself.
- `finder.dfy` (`Finder`): the scanner finder as a class whose device list
  the discovery callback appends to, and the browse loop of `find`.
- `cli.dfy` (`Cli`): option-to-protocol-string mappings, scanner selection,
  the settings overrides of `main`, and the listing headline.

The code behaves as follows where a reader might expect otherwise, and the
model does the same:

- A 404 on the very first page ends the download successfully. No
  "no more pages" error is raised.
- `main` checks only that the status query succeeds. It does not require the
  scanner to be idle before scanning.
- The codes `NoFileExtension`, `NoMorePages` and `ScannerNotReady` are
  declared and rendered but never raised by the modelled code.
- Selecting a scanner by name takes the first scanner discovery returns, and
  discovery returns the whole device list once any entry matches. The chosen
  scanner therefore need not match the name (`Cli.NamedSelectionCanMiss`).

Some of the source does not type-check as written. The model follows its
evident intent:

- The settings literals in `scanner.rs` and `lib.rs` leave out fields that the
  settings struct declares. The missing strings are empty in the model.
- The discovery callback passes an optional root where a string is expected,
  and pushes the `Result` of `Scanner::new` into a list of scanners. The model
  uses an empty root when `rs` is missing and appends the scanner itself.

## Model

| member | source | states |
|---|---|---|
| Common.Contains | escl-scan/src/scannerfinder.rs:38 | the substring test holds exactly when the pattern occurs at some position of the text (case-sensitive; the empty pattern always occurs) |
| Common.Decimal | escl-scan-cli/src/main.rs:179 | the count is printed as decimal digits with no leading zero that denote the count |
| ScannerErrors.Render | escl-scan/src/scannererror.rs:27-49 | the `Display` template of each code: its lead text, then for the codes that show one the message and the trailing text; its properties are the three lemmas below |
| ScannerErrors.RenderRoundTrip | escl-scan/src/scannererror.rs:29-45 | every code's rendering begins with its fixed lead text; for the codes that show a message, it ends with the trailing text (the closing quote for `NoScannerFound`, nothing otherwise) and the message between the two can be read back unchanged |
| ScannerErrors.RenderInjective | escl-scan/src/scannererror.rs:30-35 | for a code that shows its message, two errors that render alike have the same message |
| ScannerErrors.RenderIgnoresMessage | escl-scan/src/scannererror.rs:36-44 | `NoMorePages` and `ScannerNotReady` render their constant text, whatever the message |
| ScannerErrors.FromForeign | escl-scan/src/scannererror.rs:51-94 | each foreign error keeps its text as the message; reqwest and zeroconf errors, and only those, become NetworkError; lopdf becomes PdfError; serde_xml_rs becomes ProtocolError; io becomes FilesystemError |
| Structs.StateName | escl-scan/src/structs.rs:137-141 | a state displays as its variant name (the `Debug` text); its properties are in `Structs.StateNameRoundTrip` |
| Structs.ParseState | escl-scan/src/structs.rs:126-135 | the names the derived XML decoding accepts for a state: exactly the five variant names |
| Structs.StateNameRoundTrip | escl-scan/src/structs.rs:126-141 | a state displays as its variant name, and decoding that name gives the state back; the default state is Down |
| Structs.ParseStateOnlyNames | escl-scan/src/structs.rs:126-135 | the only texts that decode to a state are the variant names |
| Structs.FromMm | escl-scan/src/structs.rs:168-177 | a millimetre region sits at the origin in 1/300 inch units; its width depends only on the width argument and its height only on the height argument, through one conversion |
| Structs.A4Portrait | escl-scan/src/structs.rs:179-181 | A4 portrait is the 210 × 297 mm region |
| Structs.A5Portrait | escl-scan/src/structs.rs:183-185 | A5 portrait is the 148 × 210 mm region |
| Structs.A5Landscape | escl-scan/src/structs.rs:187-189 | A5 landscape is the 210 × 148 mm region |
| Structs.UsLetterPortrait | escl-scan/src/structs.rs:191-194 | US Letter portrait is the 216 × 279 mm region, rounded to whole millimetres |
| Structs.A5LandscapeIsTurnedPortrait | escl-scan/src/structs.rs:183-189 | A5 landscape is A5 portrait with width and height swapped |
| Structs.PortraitPresetsAreUpright | escl-scan/src/structs.rs:179-194 | under any monotonic conversion, the A4, A5 and US Letter portrait presets are no wider than they are high |
| Structs.FeedDirectionName | escl-scan/src/structs.rs:228-235 | each feed direction is written as its variant name; its properties are in `Structs.FeedDirectionNamesDistinct` |
| Structs.FeedDirectionNamesDistinct | escl-scan/src/structs.rs:220-235 | the two feed directions map to distinct names; the default is ShortEdgeFeed, written "ShortEdgeFeed" |
| Scanners.Query | escl-scan/src/scanner.rs:30-44 | fetching a document succeeds exactly when it was received and decoded; a transport failure is a network error and a decoding failure a protocol error, each with the library's text |
| Scanners.MakeBaseUrl | escl-scan/src/scanner.rs:26-28 | the base address is "http://", the host, ":80/" and the root, in that order, and nothing else |
| Scanners.BaseUrlDeterminesRoot | escl-scan/src/scanner.rs:26-28 | for one host, the base address determines the resource root |
| Scanners.NewScanner | escl-scan/src/scanner.rs:46-62 | a handle is built exactly when the capabilities fetch succeeds; it has the address built from host and root, the given name and the fetched capabilities; otherwise the result is the fetch's error |
| Scanners.GetStatus | escl-scan/src/scanner.rs:64-83 | the status query yields the decoded state, or the fetch's error |
| Scanners.MakeSettings | escl-scan/src/scanner.rs:85-101 | the default settings cover the whole platen (origin, maximum width and height, 1/300 inch) at version 2.6, platen input, RGB24, JPEG, 300 by 300 dpi |
| Scanners.GetScanResponse | escl-scan/src/scanner.rs:134-157 | a submission is accepted exactly when it was sent and its status is 2xx; a send failure or any other status is a network error, the latter carrying the response's description |
| Scanners.JobLocation | escl-scan/src/scanner.rs:114-128 | the job address is the `location` header of an accepted submission; a rejected submission keeps its error; an accepted one without the header is a protocol error quoting the response |
| Scanners.DownloadFrom | escl-scan/src/scanner.rs:169-194 | one loop iteration after another: a failed fetch, a failed file creation or a failed copy ends with its error, a 404 ends with success, and a saved page replaces the file's content and advances the counter; its properties are in `Scanners.DownloadFromStopsAtFirstStop` |
| Scanners.FirstStop | escl-scan/src/scanner.rs:169-194 | the page loop stops at the first fetch that does not save a page, and every fetch before it saved one |
| Scanners.DownloadFromStopsAtFirstStop | escl-scan/src/scanner.rs:169-194 | at the stop, the counter is its start value plus the pages saved. A 404 is success, even on the first fetch, and leaves the file holding the last page saved. A fetch failure or a failure to create the file aborts with a network or filesystem error and leaves the last page in place. A failed copy is a network error and leaves the part copied |
| Scanners.DownloadPage | escl-scan/src/scanner.rs:159-195 | the loop ends as the step-by-step definition says, starting with counter 1, and it fetches the same address once per iteration |
| Scanners.Scan | escl-scan/src/scanner.rs:103-132 | an encoding failure is a protocol error before anything is sent; a rejected submission or a missing `location` sends only the job's post; otherwise the post is followed by the page fetches of `location` + "/NextDocument" and the download's outcome |
| Lib.LibSettings | escl-scan/src/lib.rs:30-43 | the free-standing settings cover the whole platen at version 2.6, platen input and RGB24, with both resolutions equal to the requested one |
| Lib.LibSettingsAreDefaultWithoutFormat | escl-scan/src/lib.rs:30-43 | at 300 dpi they are the handle's default settings without the document format |
| Lib.Scan | escl-scan/src/lib.rs:19-69 | a capabilities failure aborts after that single request, before any job is posted; otherwise the job runs as for a handle, with the free-standing settings and the capabilities fetch first |
| Finder.ScannerOf | escl-scan/src/scannerfinder.rs:117-130 | a well-formed record gives a scanner named by `ty`, at the address built from the host and `rs`, or an empty root when `rs` is missing |
| Finder.Discovered | escl-scan/src/scannerfinder.rs:88-133 | a discovery error, a record without TXT or without `ty` leaves the list unchanged; any other record appends exactly its scanner at the end |
| Finder.AfterEventsAppendsHarvest | escl-scan/src/scannerfinder.rs:126-132 | over any run of callbacks, the list only grows at its end, by the scanners of the well-formed records in the order they were reported |
| Finder.Browse | escl-scan/src/scannerfinder.rs:64-85 | the polling loop over the events: callbacks update the list, a poll with a name returns the whole list once an entry matches, and the end of the events is the deadline; its properties are in the three lemmas below |
| Finder.FindOutcome | escl-scan/src/scannerfinder.rs:46-86 | a failure to start browsing is a network error with the list as it was; otherwise `find` is the polling loop |
| Finder.BrowseUnnamedReturnsAll | escl-scan/src/scannerfinder.rs:81-85 | without a name, `find` returns the whole list at the deadline, possibly empty, never NoScannerFound |
| Finder.BrowseNamedStopsAtFirstMatch | escl-scan/src/scannerfinder.rs:64-72 | with a name, `find` returns the entire list as it stands at the first poll with a matching entry |
| Finder.BrowseNamedWithoutMatch | escl-scan/src/scannerfinder.rs:75-80 | with a name no entry matches at any poll, `find` returns NoScannerFound with the name as message |
| Finder.ScannerFinder.constructor | escl-scan/src/scannerfinder.rs:28-33 | a new finder has an empty device list |
| Finder.ScannerFinder.ScannerFound | escl-scan/src/scannerfinder.rs:35-44 | true exactly when some entry's address or device name contains the name |
| Finder.ScannerFinder.OnServiceDiscovered | escl-scan/src/scannerfinder.rs:88-133 | the callback changes the list as `Discovered` says |
| Finder.ScannerFinder.Find | escl-scan/src/scannerfinder.rs:46-86 | a failure to start browsing is a network error with the list untouched; otherwise the outcome and the list are those of the browse loop over the events |
| Cli.ColorModeWire | escl-scan-cli/src/main.rs:24-32 | BlackAndWhite is "BlackAndWhite1", Grayscale is "Grayscale8" and RGB is "RGB24" |
| Cli.ColorModeWireInjective | escl-scan-cli/src/main.rs:24-32 | the three colour modes map to distinct strings |
| Cli.OutputFormatWire | escl-scan-cli/src/main.rs:40-47 | JPG and only JPG maps to "image/jpeg"; PDF and only PDF maps to "application/pdf" |
| Cli.DocumentRegion | escl-scan-cli/src/main.rs:57-66 | each document size is its preset region |
| Cli.DocumentRegionsAtOrigin | escl-scan-cli/src/main.rs:57-66 | every document size is a preset at the origin in 1/300 inch; A5 landscape and portrait are the same sheet turned |
| Cli.InputSourceWire | escl-scan-cli/src/main.rs:75-83 | Camera is "scan:Camera", Feeder is "Feeder" and Platen is "Platen" |
| Cli.InputSourceWireInjective | escl-scan-cli/src/main.rs:75-83 | the three input sources map to distinct strings; the platen's is the one the default settings use |
| Cli.ContentTypeWire | escl-scan-cli/src/main.rs:96-108 | each content type is written as its variant name |
| Cli.ContentTypeWireInjective | escl-scan-cli/src/main.rs:96-108 | the seven content types map to seven distinct strings |
| Cli.GetScanner | escl-scan-cli/src/main.rs:187-205 | with a host, discovery is not consulted and the scanner is "Manually Configured" at root "eSCL", or the rendered fetch error; without one, the first scanner `find` returns, its rendered error, or "No scanners found" for an empty list |
| Cli.NamedSelectionCanMiss | escl-scan-cli/src/main.rs:195-202 | when a device that does not match the name is reported before one that does, with a poll after both, looking for the name returns both scanners; so the first, which does not match, is the one selected |
| Cli.UnfilteredDiscoveryReturnsHarvest | escl-scan-cli/src/main.rs:195-202 | unfiltered discovery on a fresh finder returns the well-formed records' scanners in report order |
| Cli.MainSettings | escl-scan-cli/src/main.rs:229-237 | the submitted settings have both resolutions equal to the dpi, the feed direction "ShortEdgeFeed", the other fields from the option mappings, and version 2.6 from the defaults; with the default options only content type, region and feed direction differ from the defaults |
| Cli.CountMessage | escl-scan-cli/src/main.rs:174-180 | the headline is "No scanners found" for none, "Found 1 scanner:" for one, and "Found n scanners:" otherwise |
| Cli.CountMessageInjective | escl-scan-cli/src/main.rs:174-180 | the headline determines the number of scanners |
| Cli.ListScanners | escl-scan-cli/src/main.rs:164-185 | a discovery failure is reported as "Failed to discover scanners: " and the rendered error; otherwise the headline for the number found, followed by the scanners in report order |

## Left out

- HTTP: requests and responses are input values. reqwest's client, its
  redirects and body streaming are not modelled. The `to_str().expect(...)`
  on the `location` header and the `text().expect(...)` on response bodies
  are taken never to panic.
- XML: the serde_xml_rs encoding of the settings and the decoding of
  capabilities and status are parameters or input outcomes. The XML fixtures
  of the structs' tests are not modelled.
- The `lib.rs` twins: `get_scanner_capabilities` and `get_scanner_status` in
  `lib.rs` are the same code as the handle's `get_capabilities` and
  `get_status`. One definition, `Scanners.Query` and `Scanners.GetStatus`,
  models both. Likewise `lib.rs`'s `get_scan_response` and `download_scan`
  are modelled by `Scanners.GetScanResponse` and `Scanners.DownloadPage`.
- mDNS: zeroconf, the event loop, the five-second deadline, and the mutex
  shared between the callback and the polling loop are not modelled. They
  become a sequence of callback and poll events, processed one at a time;
  the deadline is the end of the sequence. A panic from `poll(...).unwrap()`
  is not modelled.
- Finder.Discovered: the capability fetch that `Scanner::new` does inside the
  callback is network I/O, and the source pushes its `Result` into a list of
  scanners. A record therefore carries its capabilities, and a failed fetch
  in the callback is not modelled.
- Structs.FromMm: the 32-bit floating-point factor 0.03937 × 300 and the
  cast of the product to an unsigned 16-bit integer (which drops the
  fraction and saturates at the bounds) are a conversion parameter. Only its
  monotonicity is assumed, and only where a lemma says so.
- Files: the destination file is one content value. `File::create` failing
  leaves the previous content; a failed copy leaves the part written. Other
  file-system effects are not modelled.
- Scanners.DownloadPage: the source's page counter is a 16-bit integer, and
  the model's is unbounded. More than 65534 pages in one job is not modelled.
  The page sequence must contain a step that ends the loop; a scanner that
  never answers 404 makes the source loop forever.
- Logging, clap parsing and its default values, `env_logger`, `exit`,
  `eprintln!`, and the joining of the output base path are not modelled.
  The order of `main` (list or select, status check, overrides, scan) is
  not modelled as a whole. Its parts are: `Cli.GetScanner`,
  `Scanners.GetStatus`, `Cli.MainSettings` and `Scanners.Scan`.
- Cli.ListScanners: the per-scanner lines come from `Display for Scanner`,
  which uses Debug formatting of the capabilities. The model returns the
  scanners instead of their text.
- PDF merging and image renaming do not appear in the modelled files.
  `From<lopdf::Error>` is modelled; nothing raises it here.
