/** The records of types.ts, as Dafny values.
    Field names follow Dafny's camelCase; an optional TypeScript field (`x?: T`)
    becomes an `Option<T>`. Timestamps of log entries are not modelled. */
module Types {

  datatype Option<+T> = None | Some(value: T) {
    function GetOr(default: T): T {
      match this
      case Some(v) => v
      case None => default
    }
  }

  /** Result of a stage that may throw: `Fail` stands for the exception. */
  datatype Outcome<+T> = Ok(value: T) | Fail

  datatype Product = Product(id: string, name: string, category: string, unitPrice: int, specs: seq<string>)

  datatype RfpAnalysis = RfpAnalysis(
    clientName: string,
    submissionDeadline: string,
    contactEmail: string,
    productRequirements: seq<string>,
    priorityScore: int)

  /** `specMatchScore` is documented as 0-100, but nothing enforces it: the
      provider may return any integer. */
  datatype Recommendation = Recommendation(
    rank: int,
    productId: string,
    productName: string,
    confidence: real,
    specMatchScore: int,
    reasoning: string)

  /** The top-level optional fields are derived from the rank-1 recommendation. */
  datatype MatchedItem = MatchedItem(
    requirement: string,
    productId: Option<string>,
    productName: Option<string>,
    confidence: Option<real>,
    specMatchScore: Option<int>,
    reasoning: Option<string>,
    estimatedQuantity: int,
    recommendations: seq<Recommendation>)

  datatype PricingLineItem = PricingLineItem(
    description: string,
    quantity: int,
    unitPrice: real,
    total: real,
    note: Option<string>)

  datatype PricingResult = PricingResult(lineItems: seq<PricingLineItem>, totalCost: real)

  datatype LogKind = Info | Success | Warning | Error

  datatype LogEntry = LogEntry(agent: string, message: string, kind: LogKind)
}
