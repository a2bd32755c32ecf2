/** The data contracts between the scorer and its callers (the input form and the result view). */
module Types {

  /** The three credit-history tiers an applicant can declare. */
  datatype CreditHistory = Poor | Average | Good

  /** What the caller hands to the scorer. No field is validated. */
  datatype CreditInput = CreditInput(
    income: real,
    creditHistory: CreditHistory,
    debtLoad: real,
    age: real)

  /** What the scorer returns: both fields are results of `Math.round`. */
  datatype CreditOutput = CreditOutput(
    approvalProbability: int,
    recommendedAmount: int)
}
