/** The library's error value: a classification code and a free-text message,
    its user-visible rendering, and the conversions from the errors of the
    libraries the scanner client calls into. */
module ScannerErrors {
  import opened Common

  datatype ErrorCode =
    | FilesystemError
    | NetworkError
    | NoFileExtension
    | NoMorePages
    | NoScannerFound
    | PdfError
    | ProtocolError
    | ScannerNotReady

  datatype ScannerError = ScannerError(code: ErrorCode, message: string)

  /** An operation's outcome: a value, or the error that aborted it. */
  datatype Result<+T> = Ok(value: T) | Err(error: ScannerError)

  /** The codes whose rendering shows the message; the other two render a constant text. */
  predicate ShowsMessage(c: ErrorCode)
  {
    !c.NoMorePages? && !c.ScannerNotReady?
  }

  /** The fixed text each code's rendering starts with. */
  function Lead(c: ErrorCode): string
  {
    match c
    case FilesystemError => "File System Error: "
    case NetworkError => "Network Error: "
    case NoFileExtension => "Specified output file does not have a file extension: "
    case NoMorePages => "There are no more scanned pages available for download"
    case NoScannerFound => "No scanner found where name contains \""
    case PdfError => "PDF processing error: "
    case ProtocolError => "eSCL Protocol Error: "
    case ScannerNotReady => "The scanner is not ready to scan"
  }

  /** The fixed text that follows the message: the closing quote around a scanner name. */
  function Trail(c: ErrorCode): string
  {
    if c.NoScannerFound? then "\"" else ""
  }

  /** The user-visible text of an error (its `Display`): each code's template
      is its lead text, then, for the codes that show one, the message and the
      trailing text. */
  function Render(e: ScannerError): string
  {
    if ShowsMessage(e.code) then Lead(e.code) + e.message + Trail(e.code) else Lead(e.code)
  }

  /** Reads the message back from the rendering of an error whose code shows it. */
  ghost function MessageOf(c: ErrorCode, text: string): string
  {
    if |Lead(c)| + |Trail(c)| <= |text| then text[|Lead(c)|..|text| - |Trail(c)|] else ""
  }

  /** Every rendering starts with its code's fixed text; for a code that shows
      a message, the rendering ends with the code's trailing text (the closing
      quote for `NoScannerFound`), and the message between the two can be read
      back unchanged. */
  lemma {:induction false} RenderRoundTrip(e: ScannerError)
    ensures Render(e)[..|Lead(e.code)|] == Lead(e.code)
    ensures ShowsMessage(e.code) ==> MessageOf(e.code, Render(e)) == e.message
    ensures ShowsMessage(e.code) ==> Render(e)[|Render(e)| - |Trail(e.code)|..] == Trail(e.code)
  {
    var text := Render(e);
    if ShowsMessage(e.code) {
      assert text == Lead(e.code) + (e.message + Trail(e.code));
      assert text[|Lead(e.code)|..|text| - |Trail(e.code)|] == e.message;
      assert text == (Lead(e.code) + e.message) + Trail(e.code);
      assert text[|text| - |Trail(e.code)|..] == Trail(e.code);
    }
  }

  /** For a fixed code, two errors that show their message render alike only
      if their messages are equal. */
  lemma RenderInjective(c: ErrorCode, m1: string, m2: string)
    requires ShowsMessage(c)
    requires Render(ScannerError(c, m1)) == Render(ScannerError(c, m2))
    ensures m1 == m2
  {
    RenderRoundTrip(ScannerError(c, m1));
    RenderRoundTrip(ScannerError(c, m2));
  }

  /** The two codes without a message render the same text whatever the message. */
  lemma RenderIgnoresMessage(c: ErrorCode, m1: string, m2: string)
    requires !ShowsMessage(c)
    ensures Render(ScannerError(c, m1)) == Render(ScannerError(c, m2)) == Lead(c)
  {
  }

  /** The errors of the libraries the client calls, each with its own text. */
  datatype ForeignError =
    | PdfLibraryError(text: string)      // lopdf
    | HttpError(text: string)            // reqwest
    | XmlError(text: string)             // serde_xml_rs
    | IoError(text: string)              // std::io
    | DiscoveryError(text: string)       // zeroconf

  /** The `From` conversions: a fixed code per library, the library's text as the message. */
  function FromForeign(f: ForeignError): (r: ScannerError)
    ensures r.message == f.text
    ensures r.code == NetworkError <==> f.HttpError? || f.DiscoveryError?
    ensures r.code == PdfError <==> f.PdfLibraryError?
    ensures r.code == ProtocolError <==> f.XmlError?
    ensures r.code == FilesystemError <==> f.IoError?
  {
    match f
    case PdfLibraryError(text) => ScannerError(PdfError, text)
    case HttpError(text) => ScannerError(NetworkError, text)
    case XmlError(text) => ScannerError(ProtocolError, text)
    case IoError(text) => ScannerError(FilesystemError, text)
    case DiscoveryError(text) => ScannerError(NetworkError, text)
  }
}
