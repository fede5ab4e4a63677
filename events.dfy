/** Extraction of the new campaign's id from a creation receipt: the first log
    that decodes to a `CampaignCreated` event wins, logs that fail to decode
    or carry another event are skipped. */
module Events {
  import opened Ledger

  const CampaignCreated: string := "CampaignCreated"

  /** The `find` predicate: `parsed && parsed.name === 'CampaignCreated'`,
      with a throwing parse counting as `false`. */
  predicate IsCreated(parsed: Option<ParsedLog>)
  {
    parsed.Some? && parsed.value.name == CampaignCreated
  }

  /** Log `k` is a creation event and no earlier log is. */
  ghost predicate FirstCreatedAt(parse: Log -> Option<ParsedLog>, logs: seq<Log>, k: nat)
  {
    && k < |logs|
    && IsCreated(parse(logs[k]))
    && forall j :: 0 <= j < k ==> !IsCreated(parse(logs[j]))
  }

  /** `logs.find(...)`, giving the position of the entry found. */
  function FindCreated(parse: Log -> Option<ParsedLog>, logs: seq<Log>): (r: Option<nat>)
    ensures r.Some? ==> FirstCreatedAt(parse, logs, r.value)
    ensures r.None? <==> forall j :: 0 <= j < |logs| ==> !IsCreated(parse(logs[j]))
  {
    if logs == [] then None
    else if IsCreated(parse(logs[0])) then Some(0)
    else
      match FindCreated(parse, logs[1..])
      case None => None
      case Some(k) => Some(k + 1)
  }

  /** `id` is what the create handler reports: the id of the first creation
      event, or `null` when there is none. */
  ghost predicate ExtractsFirstCreated(parse: Log -> Option<ParsedLog>, logs: seq<Log>, id: Option<nat>)
  {
    && (id.None? <==> forall j :: 0 <= j < |logs| ==> !IsCreated(parse(logs[j])))
    && (id.Some? ==> exists k: nat :: FirstCreatedAt(parse, logs, k) && id.value == parse(logs[k]).value.id)
  }

  /** `campaignId`: the found entry parsed a second time, its `args.id` taken. */
  function CreatedId(parse: Log -> Option<ParsedLog>, logs: seq<Log>): (id: Option<nat>)
    ensures ExtractsFirstCreated(parse, logs, id)
  {
    match FindCreated(parse, logs)
    case None => None
    case Some(k) => Some(parse(logs[k]).value.id)
  }

  /** Logs that are not creation events in front of a receipt's logs change
      nothing but the position of the entry found. */
  lemma {:induction false} SkipsNonCreated(parse: Log -> Option<ParsedLog>, skipped: seq<Log>, logs: seq<Log>)
    requires forall j :: 0 <= j < |skipped| ==> !IsCreated(parse(skipped[j]))
    ensures FindCreated(parse, skipped + logs) ==
      match FindCreated(parse, logs)
      case None => None
      case Some(k) => Some(|skipped| + k)
    ensures CreatedId(parse, skipped + logs) == CreatedId(parse, logs)
  {
    if skipped != [] {
      assert (skipped + logs)[1..] == skipped[1..] + logs;
      assert !IsCreated(parse(skipped[0]));
      SkipsNonCreated(parse, skipped[1..], logs);
    } else {
      assert skipped + logs == logs;
    }
  }

  /** Of several creation events in one receipt only the first is reported. */
  lemma FirstOfManyWins(parse: Log -> Option<ParsedLog>, logs: seq<Log>, i: nat, j: nat)
    requires i < j < |logs|
    requires IsCreated(parse(logs[i])) && IsCreated(parse(logs[j]))
    requires forall m :: 0 <= m < i ==> !IsCreated(parse(logs[m]))
    ensures CreatedId(parse, logs) == Some(parse(logs[i]).value.id)
  {
  }
}
