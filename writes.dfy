/** The four write handlers: validate the body, then issue exactly one
    state-changing call, wait for its receipt and report it, or map the
    first failure to a 500 carrying its message. */
module Writes {
  import opened Json
  import opened Ledger
  import opened Http
  import opened Events

  const CreateMissing: string := "Missing required fields: goalAmount, deadline, title, description"
  const ContributeMissing: string := "Missing required fields: campaignId, amount"
  const CampaignIdMissing: string := "Missing required field: campaignId"

  /** `r` is the response to having sent `c`: a success carrying the
      transaction hash and the receipt's block number and gas used when both
      the submission and the wait succeed, otherwise a 500 carrying the
      message of the step that failed first. */
  ghost predicate Settles(s: Signer, c: Call, r: Response)
  {
    && (r.Confirmed? || r.Created? || r.ServerError?)
    && (!r.ServerError? <==> s.send(c).Ok? && s.wait(s.send(c).value).Ok?)
    && (!r.ServerError? ==>
          r.transactionHash == s.send(c).value.hash
          && r.receipt == Summary(s.wait(s.send(c).value).value))
    && (r.ServerError? && s.send(c).Err? ==> r.error == s.send(c).message)
    && (r.ServerError? && s.send(c).Ok? ==> r.error == s.wait(s.send(c).value).message)
  }

  /** `await contract.method(...)` followed by `await tx.wait()`. */
  function SendAndWait(s: Signer, c: Call): Result<(Tx, Receipt)>
  {
    match s.send(c)
    case Err(m) => Err(m)
    case Ok(tx) =>
      match s.wait(tx)
      case Err(m) => Err(m)
      case Ok(receipt) => Ok((tx, receipt))
  }

  /** The response shared by contribute, refund and withdraw. */
  function Submit(s: Signer, c: Call): (o: Outcome)
    ensures o.calls == [c]
    ensures Settles(s, c, o.response) && !o.response.Created?
  {
    match SendAndWait(s, c)
    case Err(m) => Outcome(ServerError(m), [c])
    case Ok((tx, receipt)) => Outcome(Confirmed(tx.hash, Summary(receipt)), [c])
  }

  /** `POST /campaigns`. */
  function CreateCampaignHandler(body: Body, p: Provider, s: Signer): (o: Outcome)
    ensures o.response.BadRequest? <==>
      !Truthy(Field(body, "goalAmount")) || !Truthy(Field(body, "deadline"))
      || !Truthy(Field(body, "title")) || !Truthy(Field(body, "description"))
    ensures o.response.BadRequest? ==> o.response.error == CreateMissing && o.calls == []
    ensures !o.response.BadRequest? ==>
      && o.calls == [CreateCampaign(Field(body, "goalAmount"), Field(body, "deadline"),
                                    Field(body, "title"), Field(body, "description"))]
      && Settles(s, o.calls[0], o.response)
      && !o.response.Confirmed?
    ensures o.response.Created? ==>
      ExtractsFirstCreated(p.parseLog, s.wait(s.send(o.calls[0]).value).value.logs, o.response.campaignId)
  {
    var goalAmount, deadline := Field(body, "goalAmount"), Field(body, "deadline");
    var title, description := Field(body, "title"), Field(body, "description");
    if !Truthy(goalAmount) || !Truthy(deadline) || !Truthy(title) || !Truthy(description) then
      Outcome(BadRequest(CreateMissing), [])
    else
      var c := CreateCampaign(goalAmount, deadline, title, description);
      match SendAndWait(s, c)
      case Err(m) => Outcome(ServerError(m), [c])
      case Ok((tx, receipt)) =>
        Outcome(Created(tx.hash, CreatedId(p.parseLog, receipt.logs), Summary(receipt)), [c])
  }

  /** `POST /contribute`. */
  function ContributeHandler(body: Body, s: Signer): (o: Outcome)
    ensures !o.response.Created?
    ensures o.response.BadRequest? <==>
      IsNullish(Field(body, "campaignId")) || Field(body, "amount") == Undefined
    ensures o.response.BadRequest? ==> o.response.error == ContributeMissing && o.calls == []
    ensures !o.response.BadRequest? ==> |o.calls| == 1 && Settles(s, o.calls[0], o.response)
    ensures !o.response.BadRequest? && Truthy(Field(body, "token")) ==>
      o.calls[0] == ContributeToken(Field(body, "campaignId"), Field(body, "token"), Field(body, "amount"))
    ensures !o.response.BadRequest? && !Truthy(Field(body, "token")) ==>
      o.calls[0] == ContributeETH(Field(body, "campaignId"), Field(body, "amount"))
  {
    var campaignId, amount, token := Field(body, "campaignId"), Field(body, "amount"), Field(body, "token");
    if IsNullish(campaignId) || amount == Undefined then
      Outcome(BadRequest(ContributeMissing), [])
    else if Truthy(token) then
      Submit(s, ContributeToken(campaignId, token, amount))
    else
      Submit(s, ContributeETH(campaignId, amount))
  }

  /** `POST /refund`. */
  function RefundHandler(body: Body, s: Signer): (o: Outcome)
    ensures !o.response.Created?
    ensures o.response.BadRequest? <==> IsNullish(Field(body, "campaignId"))
    ensures o.response.BadRequest? ==> o.response.error == CampaignIdMissing && o.calls == []
    ensures !o.response.BadRequest? ==>
      && |o.calls| == 1
      && Settles(s, o.calls[0], o.response)
      && o.calls[0].Refund?
      && o.calls[0].campaignId == Field(body, "campaignId")
      && Truthy(o.calls[0].tokenAddress)
      && o.calls[0].tokenAddress == (if Truthy(Field(body, "token")) then Field(body, "token") else Str(ZeroAddress))
  {
    var campaignId, token := Field(body, "campaignId"), Field(body, "token");
    if IsNullish(campaignId) then
      Outcome(BadRequest(CampaignIdMissing), [])
    else
      var tokenAddress := Or(token, Str(ZeroAddress));
      Submit(s, Refund(campaignId, tokenAddress))
  }

  /** `POST /withdraw`. */
  function WithdrawHandler(body: Body, s: Signer): (o: Outcome)
    ensures !o.response.Created?
    ensures o.response.BadRequest? <==> IsNullish(Field(body, "campaignId"))
    ensures o.response.BadRequest? ==> o.response.error == CampaignIdMissing && o.calls == []
    ensures !o.response.BadRequest? ==>
      o.calls == [Withdraw(Field(body, "campaignId"))] && Settles(s, o.calls[0], o.response)
  {
    var campaignId := Field(body, "campaignId");
    if IsNullish(campaignId) then
      Outcome(BadRequest(CampaignIdMissing), [])
    else
      Submit(s, Withdraw(campaignId))
  }

  /** Campaign id `0` with an amount of `0` or `null` passes validation and
      is sent as a native-currency contribution. */
  lemma ZeroAndNullAmountAccepted(s: Signer, amount: Value)
    requires amount == Num(0.0) || amount == Null
    ensures var o := ContributeHandler(map["campaignId" := Num(0.0), "amount" := amount], s);
      !o.response.BadRequest? && o.calls == [ContributeETH(Num(0.0), amount)]
  {
  }

  /** A refund without a token goes out with the native-currency sentinel. */
  lemma RefundWithoutTokenUsesSentinel(s: Signer)
    ensures RefundHandler(map["campaignId" := Num(0.0)], s).calls == [Refund(Num(0.0), Str(ZeroAddress))]
  {
  }

  /** A create request missing its description is refused before any
      transaction is sent. */
  lemma CreateWithoutDescriptionSendsNothing(p: Provider, s: Signer, goalAmount: Value, deadline: Value, title: Value)
    ensures var o := CreateCampaignHandler(
        map["goalAmount" := goalAmount, "deadline" := deadline, "title" := title], p, s);
      Status(o.response) == 400 && o.calls == []
  {
  }
}
