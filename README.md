# PayPal settlement engine: a Dafny model

This project models the bookkeeping core of an Interledger settlement engine that pays
counterparties through PayPal. The engine keeps its state in a key-value store (Redis),
modelled here as a `map<string, string>` held by a `Store.Redis` object. The model covers:

- the account directory (`src/controllers/account.ts`), which creates, searches and removes
  the JSON record stored under `<prefix>:accounts:<id>`;
- the peer message handler (`src/controllers/message.ts`). It accepts only `paymentDetails`
  messages. It answers with the engine's PayPal email and the account's destination tag. The
  tag is allocated on first request from four random bytes, then stored in both directions:
  `<prefix>:accountId:<id>:destinationTag` and `<prefix>:destinationTag:<tag>:accountId`;
- the settlement entry point (`src/controllers/settlement.ts`). It reads the account record,
  converts the amount from the request's scale to the engine's asset scale with
  `normalizeAsset`, and calls `settleAccount`;
- the engine itself (`src/index.ts`): configuration defaults, the account-loading
  middleware, the `paymentDetails` request sent to the peer, the webhook subscription, and
  `settleAccount`. `settleAccount` either aborts when the peer's details cannot be fetched,
  or submits exactly one payout to the peer's email with the peer's tag in the note.

Each handler that changes the store or the response is a method over the `Koa.Context`
class and the `Store.Redis` class. Its postcondition ties the new state to a pure
specification function (`AccountController.CreateSpec`, `MessageController.TagStep`, …).
The properties of the design are lemmas about those functions. Calls to PayPal and to the
peer are recorded as events on the `Engine.SettlementEngine` object: `detailsRequests`,
`payouts` and `subscriptions`. The peer's reply, the random bytes, and the uuids are
parameters.

Two details of the source are kept as written:

- The `destinationTag` of a reply is a JSON number the first time and the stored string
  afterwards, because `redis.get` returns a string. `Model.TagValue` keeps both forms. The
  idempotence lemma compares tags by their text (`Model.TagText`), which is what the peer
  puts in its payout note.
- JavaScript truthiness is modelled exactly for strings and integers. An empty stored string counts as no tag and no
  account (`Store.Truthy`). A config value of `""` or `0` gives way to the default.

`settlement.ts` reads `ctxt.assetScale` and calls `ctxt.settleAccount`. The engine never
places either on the request context (`src/index.ts:100-102`). `SettlementController.Create`
therefore takes the asset scale and the engine as explicit parameters.

## Model

| member | source | states |
|---|---|---|
| `Text.ReadUInt32BE` | src/controllers/message.ts:36 | a tag drawn from four random bytes is below 2^32 |
| `Text.ReadWriteUInt32BE` | src/controllers/message.ts:36 | every 32-bit value is the big-endian reading of some four bytes (its own encoding) |
| `Text.WriteReadUInt32BE` | src/controllers/message.ts:36 | reading four bytes and re-encoding the number gives the same bytes, so distinct draws give distinct tags |
| `Text.NatToDecimal` | src/controllers/message.ts:38-45 | the text a numeric tag is stored and keyed under is a non-empty digit string, one digit exactly for values below 10 |
| `Text.DecimalRoundTrip` | src/controllers/message.ts:43-44 | the stored decimal text of a tag reads back as that tag |
| `Text.IntToDecimal` | src/controllers/settlement.ts:13 | `amnt.toString()` is non-empty and starts with '-' exactly for negative amounts |
| `Text.IntRoundTrip` | src/controllers/settlement.ts:13 | the amount text handed to `settleAccount` reads back as the integer amount |
| `Keys.AccountKeyInjective` | src/controllers/account.ts:9-11 | two ids share an account key only if they are equal |
| `Keys.AccountTagKeyInjective` | src/controllers/message.ts:33-35 | two accounts share a forward tag key only if they are equal |
| `Keys.TagAccountKeyInjective` | src/controllers/message.ts:38-41 | two tags share a reverse key only if their texts are equal |
| `Keys.KeyFamiliesDisjoint` | src/controllers/message.ts:33-45 | account records, forward tag entries and reverse tag entries never share a key, for any ids and tags |
| `AccountJson.DecodeEncode` | src/controllers/account.ts:13-16 | the record `create` stores parses back to the same account |
| `AccountJson.EncodeDecode` | src/controllers/account.ts:28 | only the text the encoder produces parses, so a parsed record is canonical |
| `AccountJson.EncodeNonEmpty` | src/controllers/account.ts:12 | a stored record is never the empty string, so a later `create` sees it as existing |
| `NormalizeAsset.ScaleUpExample` | test/normalizeAsset.test.ts:10 | from scale 2 to scale 6, 100 becomes 1000000 |
| `NormalizeAsset.ScaleDownExample` | test/normalizeAsset.test.ts:14 | from scale 6 to scale 2, 1000000 becomes 100 |
| `NormalizeAsset.RoundTrip` | test/normalizeAsset.test.ts:9-15 | upscaling by k digits then downscaling by k digits returns the original amount, for every integer amount |
| `NormalizeAsset.DownThenUp` | test/normalizeAsset.test.ts:13-15 | downscaling then upscaling loses less than one coarse unit, toward zero, and loses nothing exactly when the amount is a multiple of the scale factor |
| `NormalizeAsset.UpscalesCompose` | test/normalizeAsset.test.ts:9-11 | two upscales in a row equal one upscale over the combined distance |
| `NormalizeAsset.DownscaleShrinks` | test/normalizeAsset.test.ts:13-15 | downscaling keeps the sign and never increases the magnitude (truncation toward zero) |
| `AccountController.Create` | src/controllers/account.ts:4-21 | the store and status equal `CreateSpec` of the old store; body and account are untouched |
| `AccountController.Search` | src/controllers/account.ts:23-33 | a readable record gives 200 with that account as body, no record gives 404, an unparsable record throws with the response unchanged; the store is not modified |
| `AccountController.Remove` | src/controllers/account.ts:35-38 | the record's key is deleted, present or not, and the status is always 200 |
| `AccountController.CreateWritesOnlyWhenAbsent` | src/controllers/account.ts:9-20 | `create` answers 200 exactly when no truthy record exists, 404 exactly when one does; 404 leaves the store unchanged, 200 adds only the account's key; every other key keeps its value |
| `AccountController.CreateThenSearch` | src/controllers/account.ts:4-29 | after a successful `create`, `search` for the same id finds an account with that id |
| `AccountController.CreateLeavesOtherAccounts` | src/controllers/account.ts:9-16 | registering one account changes what `search` finds for no other id |
| `AccountController.RemoveIdempotent` | src/controllers/account.ts:35-38 | two removes leave the same store as one, and `search` then finds nothing |
| `AccountController.DirectoryKeepsTagEntries` | src/controllers/account.ts:13-36 | `create` and `remove` never change a forward or reverse destination-tag entry |
| `MessageController.HandleMessage` | src/controllers/message.ts:27-81 | an unknown type fails with 'This message type is unknown.' and writes nothing; `paymentDetails` leaves the store given by `TagStep`, replies with the context's email and the tag, and on allocation writes the reverse key first, then the forward key |
| `MessageController.Create` | src/controllers/message.ts:18-25 | on success the body is the reply and the status 200; a thrown error leaves status, body and store as they were |
| `MessageController.StoredTagReused` | src/controllers/message.ts:33-37 | a truthy stored tag is returned as stored and the store is unchanged |
| `MessageController.FreshTagAllocated` | src/controllers/message.ts:36-46 | without a stored tag, the tag is the 32-bit reading of the random bytes; exactly the two tag entries are added or overwritten, pointing at each other; every other key and every account record keeps its value |
| `MessageController.TagStepIdempotent` | src/controllers/message.ts:33-46 | handling `paymentDetails` twice for one account answers the same tag text and the second call writes nothing |
| `MessageController.TagStepPreservesConsistency` | src/controllers/message.ts:37-46 | if every forward entry has its reverse entry before the call, it still does after, provided the drawn tag is unused |
| `MessageController.WriteKeepsConsistency` | src/controllers/message.ts:38-45 | writing both entries for an unused non-empty tag keeps every forward entry paired with its reverse entry |
| `MessageController.ReplyResolvesToAccount` | src/controllers/message.ts:38-49 | in a consistent store, the reverse entry of the answered tag names the account the reply was for |
| `MessageController.ReplyTagIsDecimal` | src/controllers/message.ts:36-45 | if stored tags are numeric, the answered tag is a non-empty digit string and stored tags stay numeric |
| `MessageController.TagCollisionBreaksConsistency` | src/controllers/message.ts:36-41 | concrete store and draw where a second account's allocation overwrites the first account's reverse entry, breaking consistency |
| `MessageController.FirstUnusedTag` | src/controllers/message.ts:36 | the chosen draw is the first of the stream whose reverse key is absent; none is chosen exactly when every draw is taken |
| `MessageController.AllocateUniquePreservesConsistency` | src/controllers/message.ts:33-46 | the collision-checked allocation keeps the store consistent for any draws, and its tag resolves to the account; it fails only with the allocation error |
| `MessageController.AllocateUniqueAgrees` | src/controllers/message.ts:33-46 | when the first draw is unused, the checked allocation gives the same store and tag as the handler |
| `Engine.OrDefault` | src/index.ts:82-98 | a supplied non-empty string is kept; an absent or empty one becomes the default; a non-empty default gives a non-empty result |
| `Engine.OrDefaultNumber` | src/index.ts:97 | a supplied non-zero number is kept; an absent or zero one becomes the default |
| `Engine.ConfigDefaults` | src/index.ts:19-29 | all defaulted settings are truthy; an unset prefix is 'paypal' and an unset minCents is 1000000 |
| `Engine.SettlementEngine.constructor` | src/index.ts:82-98 | host, port, mode, redisPort, prefix, minCents and currency are defaulted from the config; connectorUrl, store, ppEmail, clientId, secret and assetScale are copied; no events yet |
| `Engine.SettlementEngine.ContextFor` | src/index.ts:100-102 | every request context carries the engine's store, email and prefix |
| `Engine.SettlementEngine.SubscribeToTransactions` | src/index.ts:132-148 | one subscription is recorded, for the event 'PAYMENT.PAYOUTSBATCH.SUCCESS' only |
| `Engine.SettlementEngine.FindAccount` | src/index.ts:150-155 | a missing or empty record throws 404 and the next handler does not run; a readable record is put on the context and the next handler runs; the response is not touched |
| `Engine.SettlementEngine.GetPaymentDetails` | src/index.ts:185-202 | one `paymentDetails` request is recorded for the account under the given idempotency key, and the peer's answer is returned as is |
| `Engine.SettlementEngine.SettleAccount` | src/index.ts:204-243 | one details request is always recorded; if the fetch failed no payout is submitted and nothing is thrown; otherwise exactly one payout, built from the peer's details, is submitted |
| `Engine.NoteTagRoundTrip` | src/index.ts:226-228 | a tag without '(' is read back from the payout note, whatever the two emails contain |
| `Engine.PayoutCarriesDetails` | src/index.ts:212-232 | the payout has one EMAIL item of `cents` in the engine's currency, paid to the email the peer returned, with the peer's numeric tag recoverable from its note |
| `Engine.EmailMessageEndsWithTag` | src/index.ts:217 | the payout's email message ends with the peer's tag followed by '!' |
| `Engine.DetailsRequestShape` | src/index.ts:185-201 | the request carries type 'paymentDetails', a 10000 ms timeout and the idempotency key it is given |
| `SettlementController.Create` | src/controllers/settlement.ts:5-15 | with a readable stored record, `settleAccount` runs for that account and the converted amount, then the status is 200; without one, the call throws before any request or payout |
| `SettlementController.SettlementCentsReadBack` | src/controllers/settlement.ts:11-13 | the amount text handed to `settleAccount` reads back as `normalizeAsset(body.scale, assetScale, amount)` |
| `SettlementController.SettlementAmountExact` | src/controllers/settlement.ts:11 | when the request's scale is not finer than the engine's, converting the amount handed on back to the request's scale gives the requested amount |
| `SettlementController.RegisteredAccountIsSettled` | src/controllers/settlement.ts:6-9 | an account registered by `create` is the account the settlement reads |

## Findings

| source | as written | input that shows it | evidently intended | confidence | as-written member | corrected member |
|---|---|---|---|---|---|---|
| src/controllers/message.ts:36-41 | a new tag is drawn at random, and its reverse entry is written without checking whether another account already holds that tag | store holding alice's tag 7 and the reverse entry 7 ↦ alice; a `paymentDetails` message for bob whose random bytes are 00 00 00 07 | a tag is never given to two accounts: a draw that is already taken is rejected and another one is used | medium; not executed (needs a 1 in 2^32 draw per pair of accounts) | `MessageController.TagCollisionBreaksConsistency` | `MessageController.AllocateUniquePreservesConsistency` |

The message handler (`MessageController.HandleMessage`) models the code as written. The
corrected allocation (`MessageController.AllocateUnique`) takes a bounded stream of draws
and stands beside it. `MessageController.AllocateUniqueAgrees` shows the two coincide
whenever the first draw is unused.

## Left out

- MessageController.TagStepPreservesConsistency: proved only when the drawn tag has no reverse entry yet, because the source does not check for collisions (see Findings).
- Engine.SettlementEngine.GetPaymentDetails: the idempotency key is a parameter, so the model cannot show that `uuidv4()` gives a fresh key per call. It shows only that each call records the key it is given.
- Engine.OrDefaultNumber: `NaN`, also falsy in JavaScript, is not modelled; numbers are integers.
- AccountJson.Encode: escapes only the quote and the backslash. `JSON.stringify` also escapes control characters and lone surrogates. Any valid JSON other than the encoder's output counts as unreadable.
- The webhook handler `handleTransaction`, named by the webhook route, is not part of this model: its source is not in the files modelled. No webhook reconciliation is modelled.
- The implementation of `normalizeAsset` (src/utils/normalizeAsset) is not part of this model. `NormalizeAsset.Normalize` is pinned only by its two test vectors: multiply when scaling up, divide truncating toward zero (BigInt division) when scaling down. Scales are taken as non-negative integers.
- HTTP plumbing is not modelled: the Koa app, the router and its routes, body parsing and raw-body reading. Messages, request ids, scales and amounts arrive already parsed; `BigInt(body.amnt)` parsing errors are not modelled.
- Redis is an in-memory map used sequentially. The get-then-set race in tag allocation is not modelled, and no atomicity is claimed. The fallback `new ioredis(redisPort)` when no store is configured is left out: the store must be supplied.
- PayPal SDK calls are foreign code. `payout.create` and `notification.webhook.create` are recorded as events; their callbacks only log. `PayPal.configure` and the `payment.create` request built by the message handler are left out, since the engine keeps no state from them.
- axios transport, `uuidv4` and `crypto.randomBytes` are nondeterministic: the peer's reply, batch ids, idempotency keys and random bytes are parameters. The peer's reply is either a failed fetch or well-formed payment details. A reply missing those fields, for which the source would submit a payout to `undefined`, is not modelled.
- `start`, `close`, the server listen and all console logging are left out.
- `src/launch.ts` (environment bootstrapping) is left out. It reads `LEDGER_EMAIL` for the client id at line 8.
- `minCents` is configured but never used by the source, so the model only stores it.
