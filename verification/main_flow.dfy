/**
 * The flow of `main`: request the run listing of the hard-wired repository,
 * take the run at position 0, and request its log archive. The transport is
 * the parameter `fetch`, which gives the final reply to a request for an
 * address, after the HTTP client's automatic redirect following. Reading the
 * listing's JSON structure, the JSON library's `custom` error constructor and
 * archive opening are the parameters `json`, `custom` and `openZip`.
 */
module MainFlow {
  import opened Wrappers
  import opened Conclusion
  import opened ApiUrl
  import opened Request
  import opened Listing

  /** How `main` ends: with the opened archive, with its "Error" result, or by a panic. */
  datatype Exit<+A> = Finished(archive: A) | Failed(message: string) | Panicked

  /** The addresses requested, in order, and how `main` ended. */
  datatype MainRun<+A> = MainRun(requests: seq<string>, exit: Exit<A>)

  /** The message `main` returns on a failed request. */
  const ERROR_MESSAGE: string := "Error"

  /** The run whose logs are fetched: the one at index 0, chosen by position. */
  function SelectRun(runs: WorkflowRuns): (run: WorkflowRun)
    requires |runs.workflowRuns| > 0
    ensures run in runs.workflowRuns
  {
    runs.workflowRuns[0]
  }

  /**
   * The part of `main` after the listing was decoded: select a run and fetch
   * its archive. An empty listing panics before any request; otherwise the one
   * request is the first run's logs address, and `main` ends with the archive
   * that reply opens as, or with "Error".
   */
  function FetchLogs<A, ZE>(runs: WorkflowRuns, fetch: string -> Response,
                            openZip: seq<byte> -> Result<A, ZE>): (r: MainRun<A>)
    ensures |runs.workflowRuns| == 0 ==> r == MainRun([], Panicked)
    ensures |runs.workflowRuns| > 0 ==>
              var reply := fetch(runs.workflowRuns[0].logsUrl);
              && r.requests == [runs.workflowRuns[0].logsUrl]
              && (r.exit.Finished? <==> reply.status != FORBIDDEN && openZip(reply.bytes).Ok?)
              && (r.exit.Finished? ==> r.exit.archive == openZip(reply.bytes).value)
              && (!r.exit.Finished? ==> r.exit == Failed(ERROR_MESSAGE))
  {
    if |runs.workflowRuns| == 0 then
      MainRun([], Panicked)
    else
      var logsUrl := SelectRun(runs).logsUrl;
      match ReqZip(fetch(logsUrl), openZip)
      case Err(_) => MainRun([logsUrl], Failed(ERROR_MESSAGE))
      case Ok(archive) => MainRun([logsUrl], Finished(archive))
  }

  /** `main`, from the listing request to the opened log archive. */
  function RunMain<E, A, ZE>(fetch: string -> Response, json: seq<byte> -> Result<RawRuns, E>,
                             custom: string -> E, openZip: seq<byte> -> Result<A, ZE>): (r: MainRun<A>)
    ensures 1 <= |r.requests| <= 2 && r.requests[0] == MakeApiUrl(REPO)
    ensures r.exit.Failed? ==> r.exit.message == ERROR_MESSAGE
  {
    var url := MakeApiUrl(REPO);
    match Req(fetch(url), ListingDecoder(json, custom))
    case Err(_) => MainRun([url], Failed(ERROR_MESSAGE))
    case Ok(runs) =>
      var rest := FetchLogs(runs, fetch, openZip);
      MainRun([url] + rest.requests, rest.exit)
  }

  /**
   * The selected run is the first one whatever the conclusions and whatever
   * `total_count` says: two listings with the same first run select it alike.
   */
  lemma SelectionIsPositional(a: WorkflowRuns, b: WorkflowRuns)
    requires |a.workflowRuns| > 0 && |b.workflowRuns| > 0
    requires a.workflowRuns[0] == b.workflowRuns[0]
    ensures SelectRun(a) == SelectRun(b) == a.workflowRuns[0]
  {
  }

  /**
   * Of a decoded listing, what `main` does next depends on the first run's
   * logs address alone: not on its conclusion, not on the later runs, not on
   * `total_count`.
   */
  lemma FetchLogsDependsOnFirstLogsUrl<A, ZE>(a: WorkflowRuns, b: WorkflowRuns,
                                            fetch: string -> Response, openZip: seq<byte> -> Result<A, ZE>)
    requires |a.workflowRuns| > 0 && |b.workflowRuns| > 0
    requires a.workflowRuns[0].logsUrl == b.workflowRuns[0].logsUrl
    ensures FetchLogs(a, fetch, openZip) == FetchLogs(b, fetch, openZip)
  {
  }

  /** A listing request that fails, for any reason, ends `main` with "Error" after that one request. */
  lemma ListingUndecodable<E, A, ZE>(fetch: string -> Response, json: seq<byte> -> Result<RawRuns, E>,
                                     custom: string -> E, openZip: seq<byte> -> Result<A, ZE>)
    requires Req(fetch(MakeApiUrl(REPO)), ListingDecoder(json, custom)).Err?
    ensures RunMain(fetch, json, custom, openZip) == MainRun([MakeApiUrl(REPO)], Failed(ERROR_MESSAGE))
  {
  }

  /** A 403 on the listing ends `main` with "Error" before any archive is requested. */
  lemma ListingForbidden<E, A, ZE>(fetch: string -> Response, json: seq<byte> -> Result<RawRuns, E>,
                                   custom: string -> E, openZip: seq<byte> -> Result<A, ZE>)
    requires fetch(MakeApiUrl(REPO)).status == FORBIDDEN
    ensures RunMain(fetch, json, custom, openZip) == MainRun([MakeApiUrl(REPO)], Failed(ERROR_MESSAGE))
  {
  }

  /**
   * The conclusions decide whether a run is selected at all: one rejected
   * token anywhere in the listing (`skipped`, `neutral`, `timed_out`, ...)
   * fails the listing, and `main` ends with "Error" after the listing request.
   */
  lemma ListingWithRejectedToken<E, A, ZE>(fetch: string -> Response, json: seq<byte> -> Result<RawRuns, E>,
                                           custom: string -> E, openZip: seq<byte> -> Result<A, ZE>, i: nat)
    requires fetch(MakeApiUrl(REPO)).status != FORBIDDEN
    requires json(fetch(MakeApiUrl(REPO)).bytes).Ok?
    requires i < |json(fetch(MakeApiUrl(REPO)).bytes).value.workflowRuns|
    requires json(fetch(MakeApiUrl(REPO)).bytes).value.workflowRuns[i].conclusion !in ACCEPTED_TOKENS
    ensures RunMain(fetch, json, custom, openZip) == MainRun([MakeApiUrl(REPO)], Failed(ERROR_MESSAGE))
  {
    var raws := json(fetch(MakeApiUrl(REPO)).bytes).value.workflowRuns;
    assert !AllAccepted(raws);
  }

  /** `main` panics exactly when the listing decodes to an empty list of runs. */
  lemma PanicsIffNoRuns<E, A, ZE>(fetch: string -> Response, json: seq<byte> -> Result<RawRuns, E>,
                                  custom: string -> E, openZip: seq<byte> -> Result<A, ZE>)
    ensures RunMain(fetch, json, custom, openZip).exit.Panicked? <==>
              var listing := Req(fetch(MakeApiUrl(REPO)), ListingDecoder(json, custom));
              listing.Ok? && |listing.value.workflowRuns| == 0
  {
  }

  /**
   * When the listing decodes to a non-empty list, the second request is the
   * first run's logs address, and a reply other than 403 that opens as an
   * archive is what `main` ends with.
   */
  lemma FetchesFirstRunLogs<E, A, ZE>(fetch: string -> Response, json: seq<byte> -> Result<RawRuns, E>,
                                      custom: string -> E, openZip: seq<byte> -> Result<A, ZE>)
    requires Req(fetch(MakeApiUrl(REPO)), ListingDecoder(json, custom)).Ok?
    requires |Req(fetch(MakeApiUrl(REPO)), ListingDecoder(json, custom)).value.workflowRuns| > 0
    ensures var first := Req(fetch(MakeApiUrl(REPO)), ListingDecoder(json, custom)).value.workflowRuns[0];
            var reply := fetch(first.logsUrl);
            var r := RunMain(fetch, json, custom, openZip);
            && r.requests == [MakeApiUrl(REPO), first.logsUrl]
            && (r.exit.Finished? <==> reply.status != FORBIDDEN && openZip(reply.bytes).Ok?)
            && (r.exit.Finished? ==> r.exit.archive == openZip(reply.bytes).value)
  {
  }
}
