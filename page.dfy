/**
 * The shop's web pages, seen from the scripts. Everything the order scripts
 * do in the browser (typing, clicking, waiting for a confirmation) ends in
 * one of three ways per submitted order; a scripted sequence of those
 * answers stands in for the shop.
 */
module Page {

  /** How one submitted order ended. */
  datatype Outcome =
    | Success        // the confirmation page appeared
    | CreditFailure  // the error text mentions "credit" or "limit"
    | OtherFailure   // any other error, or no page answer at all

  /** The answer to the `i`-th submission; a script that has run out answers `OtherFailure`. */
  function Answer(script: seq<Outcome>, i: nat): Outcome
  {
    if i < |script| then script[i] else OtherFailure
  }

  /** What remains of the shop's answers after `k` were used. */
  function Consume(script: seq<Outcome>, k: nat): seq<Outcome>
  {
    if k <= |script| then script[k..] else []
  }

  lemma ConsumeAnswer(script: seq<Outcome>, k: nat, i: nat)
    ensures Answer(Consume(script, k), i) == Answer(script, k + i)
  {
  }

  lemma ConsumeTwice(script: seq<Outcome>, k: nat)
    ensures Consume(Consume(script, k), 1) == Consume(script, k + 1)
  {
  }
}
