/**
 * Decoding of the run listing into `WorkflowRuns` and `WorkflowRun`. The JSON
 * library reads the structure (given here as a parameter that yields each
 * run's logs address and its raw conclusion token); every token then goes
 * through the conclusion parser, in listing order, and the first rejected
 * token fails the whole listing.
 */
module Listing {
  import opened Wrappers
  import opened Conclusion
  import opened Request

  /** An unsigned 32-bit count, as decoded into `total_count`. */
  type U32 = x: int | 0 <= x < 0x1_0000_0000

  /** A run as the JSON library reads it, before its conclusion token is parsed. */
  datatype RawRun = RawRun(logsUrl: string, conclusion: string)

  /** The listing as the JSON library reads it. */
  datatype RawRuns = RawRuns(totalCount: U32, workflowRuns: seq<RawRun>)

  /** One entry of the listing: where its logs are and how it concluded. */
  datatype WorkflowRun = WorkflowRun(logsUrl: string, conclusion: WorkflowConclusion)

  /** The decoded listing; `totalCount` is carried but never consulted. */
  datatype WorkflowRuns = WorkflowRuns(totalCount: U32, workflowRuns: seq<WorkflowRun>)

  /** Every run of `raws` has a conclusion token the parser accepts. */
  predicate AllAccepted(raws: seq<RawRun>)
  {
    forall i :: 0 <= i < |raws| ==> raws[i].conclusion in ACCEPTED_TOKENS
  }

  /** The position of the first run whose token is rejected, or `|raws|` if there is none. */
  function FirstRejected(raws: seq<RawRun>): (k: nat)
    ensures k <= |raws|
    ensures forall j :: 0 <= j < k ==> raws[j].conclusion in ACCEPTED_TOKENS
    ensures k < |raws| ==> raws[k].conclusion !in ACCEPTED_TOKENS
  {
    if raws == [] then 0
    else if raws[0].conclusion !in ACCEPTED_TOKENS then 0
    else 1 + FirstRejected(raws[1..])
  }

  /** Decodes one run: its logs address is kept, its conclusion token is parsed. */
  function DecodeRun<E>(raw: RawRun, custom: string -> E): (r: Result<WorkflowRun, E>)
    ensures r.Ok? <==> raw.conclusion in ACCEPTED_TOKENS
    ensures r.Ok? ==> r.value.logsUrl == raw.logsUrl && Token(r.value.conclusion) == raw.conclusion
    ensures r.Err? ==> r.error == custom(raw.conclusion)
  {
    match Deserialize(raw.conclusion, custom)
    case Ok(c) => Ok(WorkflowRun(raw.logsUrl, c))
    case Err(e) => Err(e)
  }

  /**
   * Decodes the runs in order. It succeeds iff every token is accepted, and
   * then keeps every run, in place, with its logs address and the conclusion
   * its token names; otherwise it fails with the error of the first rejected token.
   */
  function DecodeRunList<E>(raws: seq<RawRun>, custom: string -> E): (r: Result<seq<WorkflowRun>, E>)
    ensures r.Ok? <==> AllAccepted(raws)
    ensures r.Ok? ==> |r.value| == |raws|
    ensures r.Ok? ==> forall i :: 0 <= i < |raws| ==>
              r.value[i].logsUrl == raws[i].logsUrl && Token(r.value[i].conclusion) == raws[i].conclusion
    ensures r.Err? ==> FirstRejected(raws) < |raws| && r.error == custom(raws[FirstRejected(raws)].conclusion)
  {
    if raws == [] then Ok([])
    else
      match DecodeRun(raws[0], custom)
      case Err(e) => Err(e)
      case Ok(run) =>
        match DecodeRunList(raws[1..], custom)
        case Err(e) => Err(e)
        case Ok(rest) => Ok([run] + rest)
  }

  /**
   * Decodes a listing the JSON library has read: its own error passes through,
   * `total_count` is copied, and the runs are decoded by `DecodeRunList`.
   */
  function DecodeRuns<E>(read: Result<RawRuns, E>, custom: string -> E): (r: Result<WorkflowRuns, E>)
    ensures read.Err? ==> r == Err(read.error)
    ensures read.Ok? ==> (r.Ok? <==> AllAccepted(read.value.workflowRuns))
    ensures r.Ok? ==> r.value.totalCount == read.value.totalCount
    ensures r.Ok? ==> DecodeRunList(read.value.workflowRuns, custom) == Ok(r.value.workflowRuns)
  {
    match read
    case Err(e) => Err(e)
    case Ok(raw) =>
      match DecodeRunList(raw.workflowRuns, custom)
      case Err(e) => Err(e)
      case Ok(runs) => Ok(WorkflowRuns(raw.totalCount, runs))
  }

  /** The decoder `json::<WorkflowRuns>()` applies to a reply body. */
  function ListingDecoder<E>(json: seq<byte> -> Result<RawRuns, E>, custom: string -> E): seq<byte> -> Result<WorkflowRuns, E>
  {
    (body: seq<byte>) => DecodeRuns(json(body), custom)
  }
}
