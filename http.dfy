/** The JSON responses of the handlers and their HTTP status codes. */
module Http {
  import opened Ledger

  /** `receipt: { blockNumber, gasUsed }` of a write response. */
  datatype ReceiptSummary = ReceiptSummary(blockNumber: nat, gasUsed: nat)

  /** One element of the `campaigns` array of `GET /campaigns`. */
  datatype CampaignView = CampaignView(
    id: nat,
    owner: string,
    goalAmount: nat,
    deadline: nat,
    title: string,
    description: string,
    raisedAmount: nat,
    withdrawn: bool)

  datatype Response =
    | CampaignList(campaigns: seq<CampaignView>, total: nat)
    | Created(transactionHash: string, campaignId: Option<nat>, receipt: ReceiptSummary)
    | Confirmed(transactionHash: string, receipt: ReceiptSummary)
    | BadRequest(error: string)
    | ServerError(error: string)

  /** A handler's response together with the contract calls it issued, in order. */
  datatype Outcome = Outcome(response: Response, calls: seq<Call>)

  function Summary(r: Receipt): ReceiptSummary
  {
    ReceiptSummary(r.blockNumber, r.gasUsed)
  }

  function Status(r: Response): nat
  {
    match r
    case BadRequest(_) => 400
    case ServerError(_) => 500
    case _ => 200
  }
}
