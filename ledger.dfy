/** The crowdfunding contract as the service sees it: the calls it can make,
    the records it reads, and the node's answers, given as oracles. */
module Ledger {
  import opened Json

  datatype Option<T> = None | Some(value: T)

  /** A ledger answer or a failure carrying the node's error message. */
  datatype Result<T> = Ok(value: T) | Err(message: string)

  /** `ethers.ZeroAddress`, the contract's sentinel for the native currency. */
  const ZeroAddress: string := "0x0000000000000000000000000000000000000000"

  /** One entry of the contract's `campaigns` array, as its getter returns it. */
  datatype CampaignRecord = CampaignRecord(
    owner: string,
    goalAmount: nat,
    deadline: nat,
    title: string,
    description: string,
    withdrawn: bool)

  /** Every contract call the handlers issue. Write arguments are the request
      values as they arrive; ethers converts them. */
  datatype Call =
    | TotalCampaigns
    | Campaigns(index: nat)
    | GetTotalRaised(index: nat, token: Value)
    | CreateCampaign(goalAmount: Value, deadline: Value, title: Value, description: Value)
    | ContributeToken(campaignId: Value, token: Value, amount: Value)
    | ContributeETH(campaignId: Value, attachedValue: Value)
    | Refund(campaignId: Value, tokenAddress: Value)
    | Withdraw(campaignId: Value)
  {
    /** A state-changing call, sent as a signed transaction. */
    predicate IsWrite()
    {
      !(TotalCampaigns? || Campaigns? || GetTotalRaised?)
    }
  }

  /** A raw log entry of a receipt; its contents are only looked at by `parseLog`. */
  datatype Log = Log(address: string, topics: seq<string>, data: string)

  /** A decoded log: the event name and its `id` argument. */
  datatype ParsedLog = ParsedLog(name: string, id: nat)

  /** A submitted transaction. */
  datatype Tx = Tx(hash: string)

  /** A confirmed transaction's receipt. */
  datatype Receipt = Receipt(blockNumber: nat, gasUsed: nat, logs: seq<Log>)

  /** The read-only contract handle: its view calls, and `interface.parseLog`,
      where `None` stands for both a throw and a `null` result. */
  datatype Provider = Provider(
    totalCampaigns: Result<nat>,
    campaigns: nat -> Result<CampaignRecord>,
    getTotalRaised: (nat, Value) -> Result<nat>,
    parseLog: Log -> Option<ParsedLog>)

  /** The signing contract handle: submitting a transaction and `tx.wait()`. */
  datatype Signer = Signer(
    send: Call -> Result<Tx>,
    wait: Tx -> Result<Receipt>)
}
