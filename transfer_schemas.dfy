/** `transferSchema(maxAmount)`: the amount bounds and the optional description. */
module TransferSchemas {
  import Js
  import opened Zod

  const MIN_AMOUNT: real := 1.0
  const DEFAULT_MAX_AMOUNT: real := 100000.0
  const MIN_AMOUNT_MESSAGE: string := "The minimum transfer amount is RM1.00"

  /** `maxAmount || 100000`: zero falls back on the default bound. */
  function UpperBound(maxAmount: real): (b: real)
    ensures maxAmount != 0.0 ==> b == maxAmount
    ensures maxAmount == 0.0 ==> b == DEFAULT_MAX_AMOUNT
  {
    if maxAmount != 0.0 then maxAmount else DEFAULT_MAX_AMOUNT
  }

  /**
   * `amount: z.number().min(1).max(maxAmount || 100000)`. The over-limit
   * message embeds `maxAmount.toFixed(2)`, passed in as `toFixed2`.
   */
  function AmountIssues(amount: Js.Value, maxAmount: real, toFixed2: real -> string): (r: seq<Issue>)
    ensures r == [] <==> amount.Num? && MIN_AMOUNT <= amount.x <= UpperBound(maxAmount)
    ensures amount.Num? && amount.x < MIN_AMOUNT ==> r[0] == Issue("amount", MIN_AMOUNT_MESSAGE)
    ensures !amount.Num? ==> r == [Issue("amount", InvalidTypeMessage("number", amount))]
  {
    match amount
    case Num(x) =>
      (if x < MIN_AMOUNT then [Issue("amount", MIN_AMOUNT_MESSAGE)] else [])
      + (if x > UpperBound(maxAmount) then [Issue("amount", "Exceeded max amount of RM" + toFixed2(maxAmount) + ".")] else [])
    case _ => [Issue("amount", InvalidTypeMessage("number", amount))]
  }

  /** `description: z.string().optional()`. */
  function DescriptionIssues(description: Js.Value): (r: seq<Issue>)
    ensures r == [] <==> description.Undefined? || description.Str?
  {
    if description.Undefined? || description.Str? then []
    else [Issue("description", InvalidTypeMessage("string", description))]
  }

  /** The schema on an object `{amount, description}`. */
  function TransferSchemaIssues(amount: Js.Value, description: Js.Value, maxAmount: real, toFixed2: real -> string): (r: seq<Issue>)
    ensures r == [] <==>
      && amount.Num? && MIN_AMOUNT <= amount.x <= UpperBound(maxAmount)
      && (description.Undefined? || description.Str?)
  {
    AmountIssues(amount, maxAmount, toFixed2) + DescriptionIssues(description)
  }

  /** The amount part of the verdict. */
  predicate AmountAccepted(amount: real, maxAmount: real) {
    AmountIssues(Js.Num(amount), maxAmount, m => "") == []
  }

  /** A non-zero limit accepts exactly the amounts from 1 to it, both ends included. */
  lemma AcceptedRange(amount: real, maxAmount: real)
    requires maxAmount != 0.0
    ensures AmountAccepted(amount, maxAmount) <==> 1.0 <= amount <= maxAmount
  {
  }

  /** Raising a non-zero limit never rejects an amount a smaller one accepted. */
  lemma RaisingLimitKeepsAccepted(amount: real, smaller: real, larger: real)
    requires smaller != 0.0 && smaller <= larger
    requires AmountAccepted(amount, smaller)
    ensures AmountAccepted(amount, larger)
  {
  }

  /** Zero is not the smallest limit: it accepts amounts that the limit 50 rejects. */
  lemma ZeroLimitMeansDefault()
    ensures AmountAccepted(100.0, 0.0) && !AmountAccepted(100.0, 50.0)
    ensures AmountAccepted(100000.0, 0.0) && !AmountAccepted(100000.5, 0.0)
  {
  }

  /** The message for a too-small amount does not depend on the limit or on formatting. */
  lemma BelowMinimumMessage(amount: real, maxAmount: real, toFixed2: real -> string)
    requires amount < MIN_AMOUNT
    ensures AmountIssues(Js.Num(amount), maxAmount, toFixed2)[0] == Issue("amount", MIN_AMOUNT_MESSAGE)
  {
  }
}
