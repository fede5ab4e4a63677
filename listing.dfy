/** `GET /campaigns`: one count read, then two reads per index in order,
    aggregated into a list, or a 500 as soon as any read fails. */
module Listing {
  import opened Json
  import opened Ledger
  import opened Http

  /** The native-currency sentinel passed to `getTotalRaised`. */
  const Native: Value := Str(ZeroAddress)

  /** The per-index reads for indices `0..n-1`: record, then raised total. */
  function ReadTrace(n: nat): seq<Call>
  {
    if n == 0 then [] else ReadTrace(n - 1) + [Campaigns(n - 1), GetTotalRaised(n - 1, Native)]
  }

  lemma {:induction false} ReadTraceAt(n: nat, k: nat)
    requires k < n
    ensures |ReadTrace(n)| == 2 * n
    ensures ReadTrace(n)[2 * k] == Campaigns(k)
    ensures ReadTrace(n)[2 * k + 1] == GetTotalRaised(k, Native)
  {
    ReadTraceLength(n - 1);
    if k < n - 1 {
      ReadTraceAt(n - 1, k);
    }
  }

  lemma {:induction false} ReadTraceLength(n: nat)
    ensures |ReadTrace(n)| == 2 * n
  {
    if n > 0 {
      ReadTraceLength(n - 1);
    }
  }

  /** No listing read is a transaction. */
  lemma {:induction false} ReadTraceIsReadOnly(n: nat)
    ensures forall i :: 0 <= i < |ReadTrace(n)| ==> !ReadTrace(n)[i].IsWrite()
  {
    if n > 0 {
      ReadTraceIsReadOnly(n - 1);
    }
  }

  /** Both reads for index `i` succeed. */
  predicate Readable(p: Provider, i: nat)
  {
    p.campaigns(i).Ok? && p.getTotalRaised(i, Native).Ok?
  }

  /** `v` is the list entry for index `i`: id `i`, the record's fields, and
      the native-currency total. */
  ghost predicate EntryOf(p: Provider, i: nat, v: CampaignView)
  {
    && Readable(p, i)
    && var rec := p.campaigns(i).value;
    && v.id == i
    && v.owner == rec.owner
    && v.goalAmount == rec.goalAmount
    && v.deadline == rec.deadline
    && v.title == rec.title
    && v.description == rec.description
    && v.withdrawn == rec.withdrawn
    && v.raisedAmount == p.getTotalRaised(i, Native).value
  }

  /** The listing stopped at index `k`: every earlier index was read in
      full, and the first failing read of index `k` was the last call and
      supplied the error message. */
  ghost predicate FailsAt(p: Provider, k: nat, o: Outcome)
  {
    && (forall j :: 0 <= j < k ==> Readable(p, j))
    && o.response.ServerError?
    && if p.campaigns(k).Err? then
         o.response.error == p.campaigns(k).message
         && o.calls == [TotalCampaigns] + ReadTrace(k) + [Campaigns(k)]
       else
         p.getTotalRaised(k, Native).Err?
         && o.response.error == p.getTotalRaised(k, Native).message
         && o.calls == [TotalCampaigns] + ReadTrace(k + 1)
  }

  /** `o` is the answer to `GET /campaigns`: only reads are issued; the list
      is returned iff the count and every per-index read succeed, and then
      holds one entry per index in order, with `total` its length and the
      calls the count read followed by two reads per index; otherwise it is
      a 500 carrying the message of the first read that failed. */
  ghost predicate ListsCampaigns(p: Provider, o: Outcome)
  {
    && (forall i :: 0 <= i < |o.calls| ==> !o.calls[i].IsWrite())
    && (o.response.CampaignList? || o.response.ServerError?)
    && (o.response.CampaignList? <==>
          p.totalCampaigns.Ok? && forall i :: 0 <= i < p.totalCampaigns.value ==> Readable(p, i))
    && (o.response.CampaignList? ==>
          && |o.response.campaigns| == p.totalCampaigns.value
          && o.response.total == |o.response.campaigns|
          && (forall i :: 0 <= i < |o.response.campaigns| ==> EntryOf(p, i, o.response.campaigns[i]))
          && o.calls == [TotalCampaigns] + ReadTrace(p.totalCampaigns.value))
    && (p.totalCampaigns.Err? ==>
          o.response == ServerError(p.totalCampaigns.message) && o.calls == [TotalCampaigns])
    && (o.response.ServerError? && p.totalCampaigns.Ok? ==>
          exists k: nat :: k < p.totalCampaigns.value && FailsAt(p, k, o))
  }

  method ListCampaigns(p: Provider) returns (o: Outcome)
    ensures ListsCampaigns(p, o)
  {
    var calls := [TotalCampaigns];
    if p.totalCampaigns.Err? {
      return Outcome(ServerError(p.totalCampaigns.message), calls);
    }
    var count := p.totalCampaigns.value;
    var campaigns: seq<CampaignView> := [];
    var i: nat := 0;
    ReadTraceIsReadOnly(0);
    while i < count
      invariant i <= count
      invariant |campaigns| == i
      invariant forall j :: 0 <= j < i ==> Readable(p, j)
      invariant forall j :: 0 <= j < i ==> EntryOf(p, j, campaigns[j])
      invariant calls == [TotalCampaigns] + ReadTrace(i)
    {
      calls := calls + [Campaigns(i)];
      var data := p.campaigns(i);
      if data.Err? {
        o := Outcome(ServerError(data.message), calls);
        assert FailsAt(p, i, o) && !Readable(p, i);
        ReadTraceIsReadOnly(i);
        return;
      }
      calls := calls + [GetTotalRaised(i, Native)];
      var raised := p.getTotalRaised(i, Native);
      if raised.Err? {
        assert ReadTrace(i + 1) == ReadTrace(i) + [Campaigns(i), GetTotalRaised(i, Native)];
        o := Outcome(ServerError(raised.message), calls);
        assert FailsAt(p, i, o) && !Readable(p, i);
        ReadTraceIsReadOnly(i + 1);
        return;
      }
      var rec := data.value;
      campaigns := campaigns + [CampaignView(
        i, rec.owner, rec.goalAmount, rec.deadline, rec.title, rec.description, raised.value, rec.withdrawn)];
      i := i + 1;
    }
    ReadTraceIsReadOnly(count);
    o := Outcome(CampaignList(campaigns, |campaigns|), calls);
  }
}
