/** The coordinate dispatcher (`HamClockClient`): the list of HamClock base
    addresses, the validation of a latitude/longitude pair, and one
    `set_newdx` request per address. */
module HamClock {
  import opened Text
  import opened Mapping
  import opened Logging
  import opened Net

  /** A computation that may fail the way a .NET constructor throws. */
  datatype Result<+T> = Success(value: T) | Failure(error: string)

  const NoTargetsMessage: string := "No HamClock URIs specified."
  const CommandRoute: string := "/set_newdx"

  // ---------------------------------------------------------------------
  // Target list

  /** A stored address neither starts with white space nor ends with '/'. */
  predicate CleanTarget(t: string) {
    t == [] || (!IsWhiteSpace(t[0]) && t[|t| - 1] != '/')
  }

  /** One configured address: surrounding white space removed, then every
      trailing '/'. */
  function NormalizeTarget(piece: string): (t: string)
    ensures CleanTarget(t)
  {
    TrimEndChar(Trim(piece), '/')
  }

  /** The constructor's reading of the configuration string: the non-empty
      comma-separated pieces, each normalized, in order; no piece at all is
      the configuration error. */
  function ParseTargets(config: string): (r: Result<seq<string>>)
    ensures r.Failure? <==> forall k :: 0 <= k < |config| ==> config[k] == ','
    ensures r.Failure? ==> r.error == NoTargetsMessage
    ensures r.Success? ==> |r.value| == |SplitNonEmpty(config, ',')| >= 1
  {
    SplitNonEmptyIsEmptyIff(config, ',');
    var pieces := SplitNonEmpty(config, ',');
    if pieces == [] then Failure(NoTargetsMessage)
    else
      MappedAt(pieces, NormalizeTarget, 0);
      Success(Mapped(pieces, NormalizeTarget))
  }

  /** Every stored address is its piece, trimmed and stripped of trailing
      slashes, in the order the pieces appear. */
  lemma ParseTargetsPieces(config: string)
    requires ParseTargets(config).Success?
    ensures forall k :: 0 <= k < |ParseTargets(config).value| ==>
      ParseTargets(config).value[k] == NormalizeTarget(SplitNonEmpty(config, ',')[k])
  {
    var pieces := SplitNonEmpty(config, ',');
    forall k | 0 <= k < |pieces| ensures Mapped(pieces, NormalizeTarget)[k] == NormalizeTarget(pieces[k]) {
      MappedAt(pieces, NormalizeTarget, k);
    }
  }

  /** No stored address starts with white space or ends with '/'. */
  lemma ParsedTargetsAreClean(config: string)
    requires ParseTargets(config).Success?
    ensures forall k :: 0 <= k < |ParseTargets(config).value| ==> CleanTarget(ParseTargets(config).value[k])
  {
    var pieces := SplitNonEmpty(config, ',');
    var targets := ParseTargets(config).value;
    forall k | 0 <= k < |targets| ensures CleanTarget(targets[k]) {
      MappedAt(pieces, NormalizeTarget, k);
      assert targets[k] == NormalizeTarget(pieces[k]);
    }
  }

  function InitLog(count: nat): LogEntry {
    LogEntry("Initialized HamClock client with " + NatToString(count) + " HamClock(s).", Trace)
  }

  // ---------------------------------------------------------------------
  // Request address

  /** `UriBuilder(base + "/set_newdx") { Query = "lat=" + lat + "&lng=" + lon }`. */
  function BuildUrl(base: string, lat: string, lon: string): (url: string)
    ensures |base| <= |url| && url[..|base|] == base
    ensures |lon| <= |url| && url[|url| - |lon|..] == lon
  {
    base + CommandRoute + "?" + "lat=" + lat + "&lng=" + lon
  }

  /** Reads a `set_newdx` address back into base address, latitude and longitude. */
  function ParseUrl(url: string): Option<(string, string, string)> {
    match IndexOf(url, "?", 0)
    case None => None
    case Some(i) =>
      var path := url[..i];
      var query := url[i + 1..];
      if |path| < |CommandRoute| || path[|path| - |CommandRoute|..] != CommandRoute || !StartsWith(query, "lat=") then None
      else
        match IndexOf(query, "&lng=", 4)
        case None => None
        case Some(j) => Some((path[..|path| - |CommandRoute|], query[4..j], query[j + 5..]))
  }

  /** The first '?' of a request address ends the path. */
  lemma QueryStart(base: string, lat: string, lon: string)
    requires forall k :: 0 <= k < |base| ==> base[k] != '?'
    ensures IndexOf(BuildUrl(base, lat, lon), "?", 0) == Some(|base| + |CommandRoute|)
  {
    var url := BuildUrl(base, lat, lon);
    var i := |base| + |CommandRoute|;
    assert url == (base + CommandRoute) + ("?" + "lat=" + lat + "&lng=" + lon);
    assert url[i..i + 1] == "?";
    forall k: nat | k < i ensures !IsAt(url, k, "?") {
      assert url[k..k + 1] == [url[k]];
      if k < |base| { assert url[k] == base[k]; } else { assert url[k] == CommandRoute[k - |base|]; }
    }
    IndexOfFirst(url, "?", 0, i);
  }

  /** In the query, the first "&lng=" after "lat=" ends the latitude. */
  lemma LongitudeStart(lat: string, lon: string)
    requires forall k :: 0 <= k < |lat| ==> lat[k] != '&'
    ensures IndexOf("lat=" + lat + "&lng=" + lon, "&lng=", 4) == Some(4 + |lat|)
  {
    var query := "lat=" + lat + "&lng=" + lon;
    var j := 4 + |lat|;
    assert query[j..j + 5] == "&lng=";
    forall k: nat | 4 <= k < j ensures !IsAt(query, k, "&lng=") {
      assert query[k] == lat[k - 4];
      assert query[k..k + 5][0] == query[k];
    }
    IndexOfFirst(query, "&lng=", 4, j);
  }

  /** The coordinates travel verbatim: from the address of a request, the
      base address and both strings are recovered exactly, as long as the
      base address has no '?' and the latitude no '&'. */
  lemma ParseBuildUrl(base: string, lat: string, lon: string)
    requires forall k :: 0 <= k < |base| ==> base[k] != '?'
    requires forall k :: 0 <= k < |lat| ==> lat[k] != '&'
    ensures ParseUrl(BuildUrl(base, lat, lon)) == Some((base, lat, lon))
  {
    var url := BuildUrl(base, lat, lon);
    var i := |base| + |CommandRoute|;
    QueryStart(base, lat, lon);
    var path := url[..i];
    var query := url[i + 1..];
    assert path == base + CommandRoute;
    assert query == "lat=" + lat + "&lng=" + lon;
    LongitudeStart(lat, lon);
    var j := 4 + |lat|;
    assert query[4..j] == lat;
    assert query[j + 5..] == lon;
  }

  // ---------------------------------------------------------------------
  // One request (`UpdateDx`)

  /** Whether a request counts as failed: any status but OK, or an exception. */
  predicate Failed(resp: Response) {
    resp.Fault? || resp.code != StatusOk
  }

  /** The text appended to the error prefix: the status, or the exception message. */
  function FailureDetail(resp: Response): string {
    match resp
    case Responded(_, statusText) => statusText
    case Fault(message) => message
  }

  function ErrorLog(base: string, resp: Response): LogEntry {
    LogEntry("Error calling hamClock API at " + base + ": " + FailureDetail(resp), Error)
  }

  /** What `UpdateDx` logs for one request with outcome `resp`. */
  function DxLogs(base: string, lat: string, lon: string, resp: Response): seq<LogEntry> {
    var calling := LogEntry("Calling HamClock API: " + BuildUrl(base, lat, lon), Trace);
    match resp
    case Fault(_) => [calling, ErrorLog(base, resp)]
    case Responded(code, statusText) =>
      var status := LogEntry("HamClock API response code: " + statusText, Trace);
      if code != StatusOk then [calling, ErrorLog(base, resp), status] else [calling, status]
  }

  /** A request logs two or three lines; when a status came back, the
      status line is the last, and an exception ends with the error line. */
  lemma DxLogsLast(base: string, lat: string, lon: string, resp: Response)
    ensures var logs := DxLogs(base, lat, lon, resp);
      && 2 <= |logs| <= 3
      && (resp.Responded? <==> logs[|logs| - 1].level == Trace)
      && (resp.Responded? ==> logs[|logs| - 1] == LogEntry("HamClock API response code: " + resp.statusText, Trace))
      && (resp.Fault? ==> logs[|logs| - 1] == ErrorLog(base, resp))
  {
  }

  /** Whatever the outcome of the HTTP request, it is caught: the request
      announces its address, and it logs one error, naming the base address
      and the status or exception, exactly when it fails. */
  lemma DxLogsErrors(base: string, lat: string, lon: string, resp: Response)
    ensures var logs := DxLogs(base, lat, lon, resp);
      && |logs| >= 2 && logs[0] == LogEntry("Calling HamClock API: " + BuildUrl(base, lat, lon), Trace)
      && ErrorCount(logs) == (if Failed(resp) then 1 else 0)
      && forall k :: 0 <= k < |logs| && logs[k].level == Error ==> logs[k] == ErrorLog(base, resp)
  {
    var logs := DxLogs(base, lat, lon, resp);
    assert logs[..1] == [logs[0]];
    if |logs| == 3 {
      assert logs[..2] == [logs[0], logs[1]];
      assert logs[..2][..1] == [logs[0]];
    }
  }

  function DxEffect(base: string, lat: string, lon: string, resp: Response): Effect {
    Effect(DxLogs(base, lat, lon, resp), [BuildUrl(base, lat, lon)])
  }

  // ---------------------------------------------------------------------
  // All targets (`UpdateHamClocks`)

  /** The requests to `targets`, one after the other; the `j`-th request of
      the session is answered by `respond(j, url)`, counting from `k`. */
  function FanOut(targets: seq<string>, lat: string, lon: string, respond: (nat, string) -> Response, k: nat): (e: Effect)
    ensures |e.sent| == |targets|
  {
    if targets == [] then Effect([], [])
    else
      var n := |targets| - 1;
      var before := FanOut(targets[..n], lat, lon, respond, k);
      var url := BuildUrl(targets[n], lat, lon);
      before.Then(DxEffect(targets[n], lat, lon, respond(k + n, url)))
  }

  /** The address of each target, in list order. */
  function Urls(targets: seq<string>, lat: string, lon: string): (urls: seq<string>)
    ensures |urls| == |targets|
  {
    if targets == [] then []
    else Urls(targets[..|targets| - 1], lat, lon) + [BuildUrl(targets[|targets| - 1], lat, lon)]
  }

  /** The `j`-th address is the `j`-th target's. */
  lemma {:induction false} UrlsAt(targets: seq<string>, lat: string, lon: string)
    ensures forall j :: 0 <= j < |targets| ==> Urls(targets, lat, lon)[j] == BuildUrl(targets[j], lat, lon)
  {
    if targets != [] {
      UrlsAt(targets[..|targets| - 1], lat, lon);
    }
  }

  /** One request per target, in list order, whatever the responses. */
  lemma {:induction false} FanOutRequests(targets: seq<string>, lat: string, lon: string, respond: (nat, string) -> Response, k: nat)
    ensures FanOut(targets, lat, lon, respond, k).sent == Urls(targets, lat, lon)
  {
    if targets != [] {
      var n := |targets| - 1;
      FanOutRequests(targets[..n], lat, lon, respond, k);
      FanOutStep(targets, n, lat, lon, respond, k);
      assert targets[..n + 1] == targets;
    }
  }

  /** How many of the requests to `targets` fail. */
  function FailedRequests(targets: seq<string>, lat: string, lon: string, respond: (nat, string) -> Response, k: nat): nat {
    if targets == [] then 0
    else
      var n := |targets| - 1;
      FailedRequests(targets[..n], lat, lon, respond, k)
        + if Failed(respond(k + n, BuildUrl(targets[n], lat, lon))) then 1 else 0
  }

  /** A failing target costs exactly one error line and does not stop the
      others: the errors logged are exactly the failed requests. */
  lemma {:induction false} FanOutErrors(targets: seq<string>, lat: string, lon: string, respond: (nat, string) -> Response, k: nat)
    ensures ErrorCount(FanOut(targets, lat, lon, respond, k).logs) == FailedRequests(targets, lat, lon, respond, k)
  {
    if targets != [] {
      var n := |targets| - 1;
      FanOutErrors(targets[..n], lat, lon, respond, k);
      var before := FanOut(targets[..n], lat, lon, respond, k);
      var resp := respond(k + n, BuildUrl(targets[n], lat, lon));
      var dx := DxLogs(targets[n], lat, lon, resp);
      FanOutStep(targets, n, lat, lon, respond, k);
      assert targets[..n + 1] == targets;
      ErrorCountAppend(before.logs, dx);
      DxLogsErrors(targets[n], lat, lon, resp);
    }
  }

  /** Handling one more target appends its request to the fan-out so far. */
  lemma FanOutStep(targets: seq<string>, i: nat, lat: string, lon: string, respond: (nat, string) -> Response, k: nat)
    requires i < |targets|
    ensures FanOut(targets[..i + 1], lat, lon, respond, k)
         == FanOut(targets[..i], lat, lon, respond, k).Then(
              DxEffect(targets[i], lat, lon, respond(k + i, BuildUrl(targets[i], lat, lon))))
  {
    assert targets[..i + 1][..i] == targets[..i];
  }

  function UpdatingLog(count: nat): LogEntry {
    LogEntry("Updating " + NatToString(count) + " HamClock(s).", Trace)
  }

  function InvalidLog(lat: string, lon: string): LogEntry {
    LogEntry("Invalid lat/lon: " + lat + "/" + lon, Error)
  }

  /** Everything one `UpdateHamClocks(lat, lon)` call does, with
      `isNumber` standing for `double.TryParse` succeeding. */
  function UpdateEffect(targets: seq<string>, isNumber: string -> bool, lat: string, lon: string,
                        respond: (nat, string) -> Response, k: nat): (e: Effect)
    ensures |e.logs| >= 1 && e.logs[0] == UpdatingLog(|targets|)
  {
    Effect([UpdatingLog(|targets|)], []).Then(
      if !isNumber(lat) || !isNumber(lon) then Effect([InvalidLog(lat, lon)], [])
      else FanOut(targets, lat, lon, respond, k))
  }

  /** The count is logged first, whatever the coordinates. */
  lemma UpdateLogsCountFirst(targets: seq<string>, isNumber: string -> bool, lat: string, lon: string,
                             respond: (nat, string) -> Response, k: nat)
    ensures var e := UpdateEffect(targets, isNumber, lat, lon, respond, k);
      |e.logs| >= 1 && e.logs[0] == UpdatingLog(|targets|)
  {
  }

  /** Coordinates that do not parse: one error naming both strings, and no
      request at all. */
  lemma UpdateRejectsInvalid(targets: seq<string>, isNumber: string -> bool, lat: string, lon: string,
                             respond: (nat, string) -> Response, k: nat)
    requires !isNumber(lat) || !isNumber(lon)
    ensures var e := UpdateEffect(targets, isNumber, lat, lon, respond, k);
      e.sent == [] && e.logs == [UpdatingLog(|targets|), InvalidLog(lat, lon)] && ErrorCount(e.logs) == 1
  {
    var logs := [UpdatingLog(|targets|), InvalidLog(lat, lon)];
    assert logs[..1] == [UpdatingLog(|targets|)];
  }

  /** The empty string never parses as a number, so a missing coordinate
      never reaches a HamClock. */
  lemma UpdateRejectsEmpty(targets: seq<string>, isNumber: string -> bool, lat: string, lon: string,
                           respond: (nat, string) -> Response, k: nat)
    requires !isNumber("")
    requires lat == "" || lon == ""
    ensures UpdateEffect(targets, isNumber, lat, lon, respond, k).sent == []
  {
  }

  /** Parsed coordinates: one request per target, in list order, carrying the
      original strings, and one error line per failed request. */
  lemma UpdateDispatchesAll(targets: seq<string>, isNumber: string -> bool, lat: string, lon: string,
                            respond: (nat, string) -> Response, k: nat)
    requires isNumber(lat) && isNumber(lon)
    ensures var e := UpdateEffect(targets, isNumber, lat, lon, respond, k);
      && e.sent == Urls(targets, lat, lon)
      && ErrorCount(e.logs) == FailedRequests(targets, lat, lon, respond, k)
  {
    var f := FanOut(targets, lat, lon, respond, k);
    FanOutErrors(targets, lat, lon, respond, k);
    ErrorCountAppend([UpdatingLog(|targets|)], f.logs);
    FanOutRequests(targets, lat, lon, respond, k);
  }

  /** The addresses one `UpdateHamClocks(lat, lon)` call requests: one per
      target in list order when both coordinates parse, none otherwise. */
  function Requests(targets: seq<string>, isNumber: string -> bool, lat: string, lon: string): (urls: seq<string>)
    ensures |urls| == if isNumber(lat) && isNumber(lon) then |targets| else 0
  {
    if !isNumber(lat) || !isNumber(lon) then [] else Urls(targets, lat, lon)
  }

  /** What is requested does not depend on how the HamClocks answer. */
  lemma UpdateSent(targets: seq<string>, isNumber: string -> bool, lat: string, lon: string,
                   respond: (nat, string) -> Response, k: nat)
    ensures UpdateEffect(targets, isNumber, lat, lon, respond, k).sent == Requests(targets, isNumber, lat, lon)
  {
    if isNumber(lat) && isNumber(lon) {
      UpdateDispatchesAll(targets, isNumber, lat, lon, respond, k);
    } else {
      UpdateRejectsInvalid(targets, isNumber, lat, lon, respond, k);
    }
  }

  // ---------------------------------------------------------------------
  // The client object

  class HamClockClient {
    const logger: Logger
    /** `double.TryParse` in the current culture, which the model leaves open. */
    const isNumber: string -> bool
    /** The HamClock base addresses; the list is filled by the constructor
        and never changed afterwards. */
    const targets: seq<string>

    /** The constructor past its emptiness check (see `Create`): fills the
        target list piece by piece and logs the count. */
    constructor (config: string, isNumber: string -> bool, logger: Logger)
      requires SplitNonEmpty(config, ',') != []
      modifies logger
      ensures this.logger == logger && this.isNumber == isNumber
      ensures ParseTargets(config) == Success(targets)
      ensures logger.entries == old(logger.entries) + [InitLog(|targets|)]
    {
      this.logger := logger;
      this.isNumber := isNumber;
      var pieces := SplitNonEmpty(config, ',');
      var list := NormalizeAll(pieces);
      assert list == ParseTargets(config).value;
      targets := list;
      logger.Log("Initialized HamClock client with " + NatToString(|list|) + " HamClock(s).", Trace);
    }

    /** The loop of the constructor: every piece normalized, in order. */
    static method NormalizeAll(pieces: seq<string>) returns (list: seq<string>)
      ensures list == Mapped(pieces, NormalizeTarget)
    {
      list := [];
      for i := 0 to |pieces|
        invariant list == Mapped(pieces[..i], NormalizeTarget)
      {
        MappedStep(pieces, NormalizeTarget, i);
        list := list + [NormalizeTarget(pieces[i])];
      }
      assert pieces[..|pieces|] == pieces;
    }

    /** `new HamClockClient(config, logger)`: fails, logging nothing, when
        the configuration names no address. */
    static method Create(config: string, isNumber: string -> bool, logger: Logger) returns (r: Result<HamClockClient>)
      modifies logger
      ensures r.Failure? <==> ParseTargets(config).Failure?
      ensures r.Failure? ==> r.error == NoTargetsMessage && logger.entries == old(logger.entries)
      ensures r.Success? ==> && fresh(r.value)
                             && r.value.logger == logger && r.value.isNumber == isNumber
                             && ParseTargets(config) == Success(r.value.targets)
                             && logger.entries == old(logger.entries) + [InitLog(|r.value.targets|)]
    {
      if SplitNonEmpty(config, ',') == [] {
        return Failure(NoTargetsMessage);
      }
      var client := new HamClockClient(config, isNumber, logger);
      return Success(client);
    }

    /** `UpdateDx(base, lat, lon)`: one GET, whose outcome is only logged. */
    method UpdateDx(base: string, lat: string, lon: string, net: Network)
      modifies logger, net
      ensures net.requests == old(net.requests) + [BuildUrl(base, lat, lon)]
      ensures logger.entries == old(logger.entries
        + DxLogs(base, lat, lon, net.respond(|net.requests|, BuildUrl(base, lat, lon))))
    {
      var url := base + CommandRoute + "?" + "lat=" + lat + "&lng=" + lon;
      logger.Log("Calling HamClock API: " + url, Trace);
      var response := net.Get(url);
      match response {
        case Responded(code, statusText) =>
          if code != StatusOk {
            logger.Log("Error calling hamClock API at " + base + ": " + statusText, Error);
          }
          logger.Log("HamClock API response code: " + statusText, Trace);
        case Fault(message) =>
          logger.Log("Error calling hamClock API at " + base + ": " + message, Error);
      }
    }

    /** The `foreach` of `UpdateHamClocks`: one `UpdateDx` per target in
        list order, each finished before the next starts. */
    method UpdateAll(lat: string, lon: string, net: Network)
      modifies logger, net
      ensures var e := FanOut(targets, lat, lon, net.respond, |old(net.requests)|);
        logger.entries == old(logger.entries) + e.logs && net.requests == old(net.requests) + e.sent
    {
      ghost var k := |net.requests|;
      ghost var done := Effect([], []);
      for i := 0 to |targets|
        invariant done == FanOut(targets[..i], lat, lon, net.respond, k)
        invariant logger.entries == old(logger.entries) + done.logs
        invariant net.requests == old(net.requests) + done.sent
      {
        ghost var dx := DxEffect(targets[i], lat, lon, net.respond(k + i, BuildUrl(targets[i], lat, lon)));
        FanOutStep(targets, i, lat, lon, net.respond, k);
        assert |net.requests| == k + i;
        UpdateDx(targets[i], lat, lon, net);
        AppendAssoc(old(logger.entries), done.logs, dx.logs);
        AppendAssoc(old(net.requests), done.sent, dx.sent);
        done := done.Then(dx);
      }
      assert targets[..|targets|] == targets;
    }

    /** `UpdateHamClocks(lat, lon)`: log the count, reject coordinates that
        do not parse, otherwise update every target. */
    method UpdateHamClocks(lat: string, lon: string, net: Network)
      modifies logger, net
      ensures var e := UpdateEffect(targets, isNumber, lat, lon, net.respond, |old(net.requests)|);
        logger.entries == old(logger.entries) + e.logs && net.requests == old(net.requests) + e.sent
    {
      logger.Log("Updating " + NatToString(|targets|) + " HamClock(s).", Trace);
      if !isNumber(lat) || !isNumber(lon) {
        logger.Log("Invalid lat/lon: " + lat + "/" + lon, Error);
        AppendAssoc(old(logger.entries), [UpdatingLog(|targets|)], [InvalidLog(lat, lon)]);
        return;
      }
      UpdateAll(lat, lon, net);
      ghost var f := FanOut(targets, lat, lon, net.respond, |old(net.requests)|);
      AppendAssoc(old(logger.entries), [UpdatingLog(|targets|)], f.logs);
    }
  }
}
