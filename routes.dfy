/** The HTTP routes of the service and what every request may do to the
    ledger. */
module Routes {
  import opened Json
  import opened Ledger
  import opened Http
  import Listing
  import Writes

  datatype Request =
    | GetCampaigns
    | PostCampaigns(body: Body)
    | PostContribute(body: Body)
    | PostRefund(body: Body)
    | PostWithdraw(body: Body)

  /** Runs the handler registered for the request's route. */
  method Handle(req: Request, p: Provider, s: Signer) returns (o: Outcome)
    ensures req.GetCampaigns? ==> Listing.ListsCampaigns(p, o)
    ensures req.PostCampaigns? ==> o == Writes.CreateCampaignHandler(req.body, p, s)
    ensures req.PostContribute? ==> o == Writes.ContributeHandler(req.body, s)
    ensures req.PostRefund? ==> o == Writes.RefundHandler(req.body, s)
    ensures req.PostWithdraw? ==> o == Writes.WithdrawHandler(req.body, s)
    ensures Status(o.response) == 400 ==> o.calls == [] && !req.GetCampaigns?
    ensures req.GetCampaigns? ==> forall i :: 0 <= i < |o.calls| ==> !o.calls[i].IsWrite()
    ensures !req.GetCampaigns? ==> |o.calls| <= 1 && forall i :: 0 <= i < |o.calls| ==> o.calls[i].IsWrite()
    ensures Status(o.response) == 200 ==> |o.calls| > 0
    ensures Status(o.response) == 500 ==> |o.calls| > 0
  {
    match req
    case GetCampaigns =>
      o := Listing.ListCampaigns(p);
    case PostCampaigns(body) =>
      o := Writes.CreateCampaignHandler(body, p, s);
    case PostContribute(body) =>
      o := Writes.ContributeHandler(body, s);
    case PostRefund(body) =>
      o := Writes.RefundHandler(body, s);
    case PostWithdraw(body) =>
      o := Writes.WithdrawHandler(body, s);
  }
}
