# Crowdfunding backend: request handling model

A Dafny model of the HTTP backend of a crowdfunding service. The service
turns each request into calls on one crowdfunding contract. `GET /campaigns`
lists the campaigns. `POST /campaigns`, `/contribute`, `/refund` and
`/withdraw` each send one signed transaction.

The model covers the decision logic of the five handlers:

- request validation, with JavaScript truthiness for create and explicit
  `undefined`/`null` checks for the others;
- which contract call follows from a valid request, including the token or
  native-currency branch of contribute and the `token || ZeroAddress` default
  of refund;
- the listing loop, which reads the count and then two values per index in
  order, and fails as a whole if any read fails;
- the first-match search for the `CampaignCreated` event in a creation
  receipt;
- the mapping to 400 (validation), 500 (any ledger failure, message passed on
  unchanged) and the fixed success shapes.

The ledger is an oracle. A `Provider` gives the view calls' answers and the
ABI's `parseLog`. A `Signer` gives the outcome of submitting a call and of
waiting for its receipt. Every handler returns an `Outcome`: the response
plus the ordered trace of contract calls it issued. The properties are stated
over that trace: nothing is sent on a 400, a write handler sends at most one
transaction, and the listing issues reads only, in order.

Files: `json.dfy` (request values and JavaScript operators), `ledger.dfy`
(contract calls, records and oracles), `http.dfy` (responses),
`events.dfy` (event extraction), `listing.dfy` (`GET /campaigns`),
`writes.dfy` (the four POST handlers), `routes.dfy` (routing).

Contribute rejects only an `undefined` amount (backend/index.js:142-146),
so a `null` amount passes validation; `ZeroAndNullAmountAccepted` states it.

## Model

| member | source | states |
|---|---|---|
| Json.Truthy | backend/index.js:91 | a request value is falsy exactly when it is `undefined`, `null`, `false`, `0` or `""` |
| Json.Or | backend/index.js:190 | JavaScript's or-operator yields the first operand when it is truthy and the second otherwise, and is truthy iff either operand is |
| Events.FindCreated | backend/index.js:108-115 | the position found is a `CampaignCreated` log with no such log before it; nothing is found iff no log decodes to `CampaignCreated` (logs whose parse fails or names another event are skipped) |
| Events.CreatedId | backend/index.js:117-121 | `campaignId` is `null` iff no log is a creation event, otherwise the `id` of the first creation event |
| Events.SkipsNonCreated | backend/index.js:108-115 | logs in front that are not creation events change only the position found, never the extracted id |
| Events.FirstOfManyWins | backend/index.js:108-121 | with several creation events in one receipt, the first one's id is reported |
| Listing.ReadTraceLength | backend/index.js:64-66 | the per-index reads for `n` campaigns are `2n` calls |
| Listing.ReadTraceAt | backend/index.js:64-66 | call `2k` reads record `k` and call `2k+1` reads its total raised with the native-currency sentinel |
| Listing.ReadTraceIsReadOnly | backend/index.js:64-66 | no listing read is a state-changing call |
| Listing.ListCampaigns | backend/index.js:59-85 | issues only reads; succeeds iff the count and every per-index read succeed; on success has `count` entries in index order, entry `i` has `id = i`, the record's fields and the native total, `total` is the length, and the trace is the count read then two reads per index; a failing count read gives a 500 with its message after one call; otherwise a failure stops at the first failing read of some index, whose message is returned with no campaigns and nothing read after it |
| Writes.Submit | backend/index.js:155-176 | the send-then-wait step shared by contribute, refund and withdraw (also 192-206 and 220-234): sends exactly the given call; confirms iff send and wait both succeed, then reports `tx.hash` and the receipt's block number and gas used; otherwise 500 with the message of the step that failed |
| Writes.CreateCampaignHandler | backend/index.js:87-136 | 400 with no call iff one of the four fields is falsy; otherwise exactly one `createCampaign` with the four fields; success iff send and wait succeed, settled by the same rule as `Submit` but answering `Created`, with the hash, receipt summary and first-match `campaignId` (null when absent, still a success); otherwise 500 with the failing step's message |
| Writes.ContributeHandler | backend/index.js:138-177 | 400 with no call iff `campaignId` is `undefined`/`null` or `amount` is `undefined`; otherwise one call, `contributeToken(campaignId, token, amount)` when `token` is truthy and `contributeETH(campaignId)` carrying `amount` as value when not, settled as `Submit`; a success is always the `{success, transactionHash, receipt}` shape, never one with a `campaignId` |
| Writes.RefundHandler | backend/index.js:179-207 | 400 with no call iff `campaignId` is `undefined`/`null`; otherwise one `refund(campaignId, t)` where `t` is the token when truthy and `ZeroAddress` otherwise, so `t` is never falsy, settled as `Submit`; a success is always the `{success, transactionHash, receipt}` shape, never one with a `campaignId` |
| Writes.WithdrawHandler | backend/index.js:209-235 | 400 with no call iff `campaignId` is `undefined`/`null`; otherwise exactly one `withdraw(campaignId)`, settled as `Submit`; a success is always the `{success, transactionHash, receipt}` shape, never one with a `campaignId` |
| Writes.ZeroAndNullAmountAccepted | backend/index.js:142-161 | `campaignId: 0` with `amount: 0` or `amount: null` passes validation and becomes a native contribution |
| Writes.RefundWithoutTokenUsesSentinel | backend/index.js:190-192 | a refund without `token` is sent with `ZeroAddress` |
| Writes.CreateWithoutDescriptionSendsNothing | backend/index.js:91-96 | a create request without `description` gets 400 and sends nothing |
| Routes.Handle | backend/index.js:59-235 | each route is answered by its own handler (`GET /campaigns` by the listing, with its full contract; each POST path by its write handler); a 400 issues no call; `GET /campaigns` issues no state-changing call; each POST issues at most one call, and it is state-changing; every 200 and 500 follows at least one call |

## Left out

- Express setup, CORS, JSON body parsing, `app.listen` and `console` logging: HTTP plumbing and output. A missing request body is not modelled: a body is always a map of fields.
- Configuration from the environment, the ABI file read and the startup `process.exit` checks: bootstrap and file I/O outside the request handlers.
- The `/health` endpoint: it returns constant configuration.
- ethers itself: provider, wallet, signing, `Contract` construction, argument conversion and ABI decoding. These are oracles (`Provider`, `Signer`, `parseLog`). A `parseLog` that throws and one that returns `null` are both `None`.
- The ledger state during a listing is one snapshot. The model does not cover changes between the reads of one request, or concurrency between requests.
- `Number(totalCampaigns)` precision loss above 2^53, and the `.toString()` formatting of amounts, deadlines, gas and the created `campaignId` (sent as a decimal string, backend/index.js:120). These values are kept as `nat`.
- JavaScript numbers are kept as `real`. `NaN`, which is falsy, is not modelled.
- `error.message` of a thrown value that is not an `Error`: every ledger failure carries a message string.
- The contract's own rules (goal, deadline, refund eligibility, custody): external to the service.
- The effect of a confirmed write on later reads, such as a created campaign showing up in the next listing: the ledger is an oracle with no state of its own.
