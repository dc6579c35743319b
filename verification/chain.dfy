/**
 * What the two fallback loops (in llm_api.py and gemini_api.py) share: the
 * reply they hand back, the outcome of one provider call, and the
 * declarative description of where an ordered fallback over candidates stops.
 */
module Chain {
  import opened Wrappers
  import opened Json

  /** The `(data, error)` pair the LLM functions return: exactly one side is set. */
  datatype Reply = Success(data: Json) | Failure(message: string)

  /** What a provider call does: returns the response text, or raises an exception with this text. */
  datatype Outcome = Responded(text: string) | Raised(error: string)

  /** A provider's network call, given a model identifier and a prompt. */
  type Oracle = (string, string) -> Outcome

  /**
   * Where a loop over candidates stops when it starts at `i`: the first
   * candidate whose attempt does not send the loop on to the next one
   * (`advance[j]` false), or `|advance|` when every attempt advances.
   */
  function FirstStop(advance: seq<bool>, i: nat): (k: nat)
    requires i <= |advance|
    ensures i <= k <= |advance|
    ensures forall j :: i <= j < k ==> advance[j]
    ensures k < |advance| ==> !advance[k]
    decreases |advance| - i
  {
    if i == |advance| || !advance[i] then i else FirstStop(advance, i + 1)
  }

  /** FirstStop is determined by its contract: the first non-advancing index. */
  lemma FirstStopAt(advance: seq<bool>, k: nat)
    requires k <= |advance|
    requires forall j :: 0 <= j < k ==> advance[j]
    requires k < |advance| ==> !advance[k]
    ensures FirstStop(advance, 0) == k
  {
  }

  /** A loop that reaches index `i` with `FirstStop` unchanged and does not advance there stops at `i`. */
  lemma StopsHere(advance: seq<bool>, i: nat)
    requires i < |advance| && !advance[i]
    requires FirstStop(advance, i) == FirstStop(advance, 0)
    ensures FirstStop(advance, 0) == i
  {
  }

  /** The candidates a loop that stops at FirstStop has called, in order. */
  function Attempted(candidates: seq<string>, advance: seq<bool>): (tried: seq<string>)
    requires |advance| == |candidates|
    ensures tried <= candidates
    ensures |tried| == (if FirstStop(advance, 0) < |candidates| then FirstStop(advance, 0) + 1 else |candidates|)
  {
    var k := FirstStop(advance, 0);
    if k < |candidates| then candidates[..k + 1] else candidates
  }

  /** How an f-string renders `last_error`, which is None until some call has raised. */
  function ErrorText(lastError: Option<string>): string
  {
    match lastError
    case None => "None"
    case Some(e) => e
  }
}
