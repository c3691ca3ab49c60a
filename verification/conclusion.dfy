/**
 * The conclusion of a workflow run and its strict parser from the JSON
 * string token reported by the GitHub Actions API.
 */
module Conclusion {
  import opened Wrappers

  /** Outcome of a workflow run; there is deliberately no `Skipped` variant. */
  datatype WorkflowConclusion = Success | Failure | Cancelled

  /**
   * The program's own error type with serde's `custom` constructor. The parser
   * does not build it: it calls `custom` of the deserializer's error type.
   */
  datatype UnknownConclusionError = UnknownConclusionError(details: string)
  {
    /** What `Display` writes: the details and nothing else. */
    function ToString(): string {
      details
    }
  }

  /** The tokens the parser accepts, exactly and case-sensitively. */
  const ACCEPTED_TOKENS: set<string> := {"success", "failure", "cancelled"}

  /** `custom` of `UnknownConclusionError`: the message is kept as it is. */
  function Custom(msg: string): (e: UnknownConclusionError)
    ensures e.ToString() == msg
  {
    UnknownConclusionError(msg)
  }

  /** The token that names each conclusion (the arms of the parser read backwards). */
  function Token(c: WorkflowConclusion): (t: string)
    ensures t in ACCEPTED_TOKENS
  {
    match c
    case Success => "success"
    case Failure => "failure"
    case Cancelled => "cancelled"
  }

  /**
   * Parses a conclusion token. Exactly the three lowercase tokens are accepted;
   * any other string is rejected with the error that the deserializer's own
   * `custom` constructor builds from the token itself.
   */
  function Deserialize<E>(s: string, custom: string -> E): (r: Result<WorkflowConclusion, E>)
    ensures r.Ok? <==> s in ACCEPTED_TOKENS
    ensures r.Ok? ==> Token(r.value) == s
    ensures r.Err? ==> r.error == custom(s)
  {
    if s == "success" then Ok(Success)
    else if s == "failure" then Ok(Failure)
    else if s == "cancelled" then Ok(Cancelled)
    else Err(custom(s))
  }

  /** Every conclusion is recovered from its token. */
  lemma ParseToken<E>(c: WorkflowConclusion, custom: string -> E)
    ensures Deserialize(Token(c), custom) == Ok(c)
  {
  }

  /** Distinct accepted tokens give distinct conclusions, and each conclusion has one token. */
  lemma ParseInjective<E>(s: string, t: string, custom: string -> E)
    requires Deserialize(s, custom).Ok? && Deserialize(t, custom).Ok?
    ensures Deserialize(s, custom) == Deserialize(t, custom) <==> s == t
  {
  }

  /** ASCII lower-casing of one character. */
  function LowerChar(c: char): char
  {
    if 'A' <= c <= 'Z' then (c as int + 32) as char else c
  }

  /** ASCII lower-casing of a string: the folding the parser does not apply. */
  function Lower(s: string): (r: string)
    ensures |r| == |s|
    ensures forall i :: 0 <= i < |s| ==> r[i] == LowerChar(s[i])
  {
    if s == [] then [] else [LowerChar(s[0])] + Lower(s[1..])
  }

  /**
   * Matching is case-sensitive: among the case variants of an accepted token,
   * only the lowercase spelling itself is accepted.
   */
  lemma CaseSensitive<E>(t: string, custom: string -> E)
    requires Lower(t) in ACCEPTED_TOKENS
    ensures Deserialize(t, custom).Ok? <==> t == Lower(t)
  {
    var r := Deserialize(t, custom);
    if r.Ok? {
      TokenIsLowercase(r.value);
    }
  }

  /** Every accepted token is spelled in lowercase letters only. */
  lemma TokenIsLowercase(c: WorkflowConclusion)
    ensures Lower(Token(c)) == Token(c)
  {
    var t := Token(c);
    assert forall i :: 0 <= i < |t| ==> 'a' <= t[i] <= 'z' by {
      match c
      case Success =>
      case Failure =>
      case Cancelled =>
    }
    LowerOfLowercase(t);
  }

  /** A string of lowercase ASCII letters is its own lower-casing. */
  lemma LowerOfLowercase(s: string)
    requires forall i :: 0 <= i < |s| ==> 'a' <= s[i] <= 'z'
    ensures Lower(s) == s
  {
  }

  /**
   * There is no trimming: an accepted token with anything added before or
   * after it is rejected, and the error is built from the whole string.
   */
  lemma NoTrimming<E>(s: string, w: string, custom: string -> E)
    requires s in ACCEPTED_TOKENS && w != []
    ensures Deserialize(w + s, custom) == Err(custom(w + s))
    ensures Deserialize(s + w, custom) == Err(custom(s + w))
  {
    // The accepted tokens differ in their last letters and in their first letters.
    assert (w + s)[|w + s| - 1] == s[|s| - 1];
    assert (s + w)[0] == s[0];
  }

  /** Near misses are rejected: no `skipped`, no case folding, no trimming, no empty token. */
  lemma RejectsNearMisses<E>(custom: string -> E)
    ensures Deserialize("skipped", custom) == Err(custom("skipped"))
    ensures Deserialize("Success", custom) == Err(custom("Success"))
    ensures Deserialize(" success", custom) == Err(custom(" success"))
    ensures Deserialize("success ", custom) == Err(custom("success "))
    ensures Deserialize("FAILURE", custom) == Err(custom("FAILURE"))
    ensures Deserialize("", custom) == Err(custom(""))
  {
  }
}
