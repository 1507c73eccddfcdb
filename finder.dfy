/** Scanner discovery over mDNS, with the concurrency taken out. The browser's
    event loop is a sequence of events: a service-discovered callback, which
    may append to the finder's device list, or the return of one `poll`,
    after which `find` checks for a wanted name. The five-second deadline is
    the end of the sequence. */
module Finder {
  import opened Common
  import opened ScannerErrors
  import opened Structs
  import opened Scanners

  /** One service-discovered callback's argument: the browser's error, or a
      resolved service with its host name, its TXT record (if it has one) and
      the capabilities fetched from it. */
  datatype Discovery =
    | Failed(error: string)
    | Service(hostName: string, txt: Option<map<string, string>>, capabilities: ScannerCapabilities)

  datatype Event = Callback(discovery: Discovery) | Poll

  /** A record a scanner can be built from: a resolved service whose TXT
      record names the device (`ty`). The resource root (`rs`) is optional. */
  predicate WellFormed(d: Discovery)
  {
    d.Service? && d.txt.Some? && "ty" in d.txt.value
  }

  /** The scanner a well-formed record describes; a missing root is empty. */
  function ScannerOf(d: Discovery): (r: Scanner)
    requires WellFormed(d)
    ensures r.deviceName == d.txt.value["ty"] && r.capabilities == d.capabilities
    ensures "rs" in d.txt.value ==> r.baseUrl == MakeBaseUrl(d.hostName, d.txt.value["rs"])
    ensures "rs" !in d.txt.value ==> r.baseUrl == MakeBaseUrl(d.hostName, "")
  {
    var txt := d.txt.value;
    var root := if "rs" in txt then txt["rs"] else "";
    Scanner(MakeBaseUrl(d.hostName, root), txt["ty"], d.capabilities)
  }

  /** The device list after one callback: errors and records without a TXT
      record or a device name are dropped, anything else is appended. */
  function Discovered(list: seq<Scanner>, d: Discovery): (r: seq<Scanner>)
    ensures WellFormed(d) ==> r == list + [ScannerOf(d)]
    ensures !WellFormed(d) ==> r == list
  {
    match d
    case Failed(_) => list
    case Service(_, txt, _) =>
      match txt
      case None => list
      case Some(record) =>
        if "ty" !in record then list else list + [ScannerOf(d)]
  }

  /** `name` occurs in the scanner's address or in its device name. */
  predicate Matches(scanner: Scanner, name: string)
  {
    Contains(scanner.baseUrl, name) || Contains(scanner.deviceName, name)
  }

  ghost predicate AnyMatches(list: seq<Scanner>, name: string)
  {
    exists i :: 0 <= i < |list| && Matches(list[i], name)
  }

  /** The device list after an event: a callback as `Discovered`, a poll leaves it. */
  function Step(list: seq<Scanner>, e: Event): seq<Scanner>
  {
    if e.Callback? then Discovered(list, e.discovery) else list
  }

  /** The device list after all the callbacks among `events`. */
  function AfterEvents(list: seq<Scanner>, events: seq<Event>): seq<Scanner>
    decreases |events|
  {
    if events == [] then list else AfterEvents(Step(list, events[0]), events[1..])
  }

  /** The scanners the well-formed records among `events` describe, in order. */
  function Harvest(events: seq<Event>): seq<Scanner>
    decreases |events|
  {
    if events == [] then []
    else
      var e := events[0];
      (if e.Callback? && WellFormed(e.discovery) then [ScannerOf(e.discovery)] else []) + Harvest(events[1..])
  }

  /** The outcome of a `find` and the device list it leaves behind. */
  datatype FindRun = FindRun(result: Result<seq<Scanner>>, list: seq<Scanner>)

  /** The browsing loop from device list `list` onwards. With a name, the
      first poll after which some entry matches returns the whole list; at
      the deadline a wanted name is an error and no name returns the list. */
  ghost function Browse(name: Option<string>, list: seq<Scanner>, events: seq<Event>): FindRun
    decreases |events|
  {
    if events == [] then
      if name.Some? then FindRun(Err(ScannerError(NoScannerFound, name.value)), list) else FindRun(Ok(list), list)
    else if events[0].Poll? && name.Some? && AnyMatches(list, name.value) then
      FindRun(Ok(list), list)
    else
      Browse(name, Step(list, events[0]), events[1..])
  }

  /** The device list only ever grows at its end: by the scanners of the
      well-formed records, in the order they were reported. */
  lemma {:induction false} AfterEventsAppendsHarvest(list: seq<Scanner>, events: seq<Event>)
    ensures AfterEvents(list, events) == list + Harvest(events)
    decreases |events|
  {
    if events != [] {
      AfterEventsAppendsHarvest(Step(list, events[0]), events[1..]);
    }
  }

  /** The list after the first `k` events, seen from after the first event. */
  lemma AfterPrefixShift(list: seq<Scanner>, events: seq<Event>, k: nat)
    requires 1 <= k <= |events|
    ensures AfterEvents(list, events[..k]) == AfterEvents(Step(list, events[0]), events[1..][..k - 1])
  {
    assert events[..k][0] == events[0];
    assert events[..k][1..] == events[1..][..k - 1];
  }

  /** Without a name, `find` runs to the deadline and returns everything
      found; it never reports that no scanner was found. */
  lemma {:induction false} BrowseUnnamedReturnsAll(list: seq<Scanner>, events: seq<Event>)
    ensures Browse(None, list, events) == FindRun(Ok(AfterEvents(list, events)), AfterEvents(list, events))
    decreases |events|
  {
    if events != [] {
      BrowseUnnamedReturnsAll(Step(list, events[0]), events[1..]);
    }
  }

  /** With a name, `find` returns the entire list as it stands at the first
      poll at which an entry matches. */
  lemma {:induction false} BrowseNamedStopsAtFirstMatch(name: string, list: seq<Scanner>, events: seq<Event>, k: nat)
    requires k < |events| && events[k].Poll?
    requires AnyMatches(AfterEvents(list, events[..k]), name)
    requires forall j :: 0 <= j < k && events[j].Poll? ==> !AnyMatches(AfterEvents(list, events[..j]), name)
    ensures Browse(Some(name), list, events)
         == FindRun(Ok(AfterEvents(list, events[..k])), AfterEvents(list, events[..k]))
    decreases k
  {
    if k == 0 {
      assert events[..0] == [];
    } else {
      assert events[..0] == [];
      var next := Step(list, events[0]);
      AfterPrefixShift(list, events, k);
      forall j | 0 <= j < k - 1 && events[1..][j].Poll?
        ensures !AnyMatches(AfterEvents(next, events[1..][..j]), name)
      {
        AfterPrefixShift(list, events, j + 1);
      }
      BrowseNamedStopsAtFirstMatch(name, next, events[1..], k - 1);
    }
  }

  /** With a name that no entry matches at any poll, `find` runs to the
      deadline and reports the name as not found. */
  lemma {:induction false} BrowseNamedWithoutMatch(name: string, list: seq<Scanner>, events: seq<Event>)
    requires forall j :: 0 <= j < |events| && events[j].Poll? ==> !AnyMatches(AfterEvents(list, events[..j]), name)
    ensures Browse(Some(name), list, events)
         == FindRun(Err(ScannerError(NoScannerFound, name)), AfterEvents(list, events))
    decreases |events|
  {
    if events != [] {
      assert events[..0] == [];
      var next := Step(list, events[0]);
      forall j | 0 <= j < |events| - 1 && events[1..][j].Poll?
        ensures !AnyMatches(AfterEvents(next, events[1..][..j]), name)
      {
        AfterPrefixShift(list, events, j + 1);
      }
      BrowseNamedWithoutMatch(name, next, events[1..]);
    }
  }

  /** The outcome of `find`: an error starting the browser is reported as a
      network error, otherwise the browsing loop decides. */
  ghost function FindOutcome(name: Option<string>, browseError: Option<string>,
                             list: seq<Scanner>, events: seq<Event>): FindRun
  {
    if browseError.Some? then FindRun(Err(FromForeign(DiscoveryError(browseError.value))), list)
    else Browse(name, list, events)
  }

  class ScannerFinder {
    /** The devices discovered so far, in the order they were reported. */
    var scanners: seq<Scanner>

    constructor ()
      ensures scanners == []
    {
      scanners := [];
    }

    /** Some discovered device's address or name contains `name`. */
    method ScannerFound(name: string) returns (found: bool)
      ensures found <==> AnyMatches(scanners, name)
    {
      var i := 0;
      while i < |scanners|
        invariant 0 <= i <= |scanners|
        invariant forall j :: 0 <= j < i ==> !Matches(scanners[j], name)
      {
        if Contains(scanners[i].baseUrl, name) || Contains(scanners[i].deviceName, name) {
          return true;
        }
        i := i + 1;
      }
      return false;
    }

    /** The service-discovered callback. */
    method OnServiceDiscovered(d: Discovery)
      modifies this
      ensures scanners == Discovered(old(scanners), d)
    {
      match d {
        case Failed(_) =>
          return;
        case Service(host, txt, capabilities) =>
          if txt.None? {
            return;
          }
          var record := txt.value;
          var root := if "rs" in record then record["rs"] else "";
          if "ty" !in record {
            return;
          }
          scanners := scanners + [Scanner(MakeBaseUrl(host, root), record["ty"], capabilities)];
      }
    }

    /** Browses for scanners until the deadline, or with a `name` until the
      first poll after which a discovered device matches it. On success the
      result is a copy of the whole device list. */
    method Find(name: Option<string>, browseError: Option<string>, events: seq<Event>)
      returns (result: Result<seq<Scanner>>)
      modifies this
      ensures FindRun(result, scanners) == FindOutcome(name, browseError, old(scanners), events)
    {
      if browseError.Some? {
        return Err(FromForeign(DiscoveryError(browseError.value)));
      }
      var i := 0;
      while i < |events|
        invariant 0 <= i <= |events|
        invariant Browse(name, scanners, events[i..]) == Browse(name, old(scanners), events)
      {
        assert events[i..][1..] == events[i + 1..];
        match events[i] {
          case Callback(d) =>
            OnServiceDiscovered(d);
          case Poll =>
            if name.Some? {
              var found := ScannerFound(name.value);
              if found {
                return Ok(scanners);
              }
            }
        }
        i := i + 1;
      }
      if name.Some? {
        return Err(ScannerError(NoScannerFound, name.value));
      }
      return Ok(scanners);
    }
  }
}
