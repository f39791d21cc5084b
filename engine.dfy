/**
 * The settlement engine (src/index.ts): its configuration with defaults, the middleware
 * that loads the route's account, the payment-details request it sends to the peer, and
 * `settleAccount`, which turns the peer's reply into at most one payout.
 *
 * The payment processor and the HTTP transport are not modelled: each outbound call is
 * recorded as an event on the engine, and the peer's reply is given as a parameter.
 */
module Engine {

  import opened Wrappers
  import opened Text
  import opened Model
  import opened Keys
  import opened Store
  import opened Koa
  import AccountJson

  const DefaultHost: string := "localhost"
  const DefaultPort: string := "3000"
  const DefaultRedisPort: string := "6379"
  const DefaultMode: string := "sandbox"
  const DefaultPrefix: string := "paypal"
  const DefaultCurrency: string := "USD"
  const DefaultMinCents: int := 1000000

  const PayoutsBatchSuccess: string := "PAYMENT.PAYOUTSBATCH.SUCCESS"
  const DetailsTimeoutMs: nat := 10000

  /** The engine's configuration; optional fields are `None` when not supplied. */
  datatype Config = Config(
    host: Option<string>,
    port: Option<string>,
    mode: Option<string>,
    connectorUrl: string,
    redisPort: Option<string>,
    redis: Redis,
    ppEmail: string,
    clientId: string,
    secret: string,
    assetScale: int,
    prefix: Option<string>,
    minCents: Option<int>,
    currency: Option<string>)

  /** `value || default` for a string: an absent or empty value gives way to the default. */
  function OrDefault(value: Option<string>, default: string): (r: string)
    ensures value.Some? && value.value != "" ==> r == value.value
    ensures value.None? || value.value == "" ==> r == default
    ensures default != "" ==> r != ""
  {
    if value.Some? && value.value != "" then value.value else default
  }

  /** `value || default` for a number: an absent or zero value gives way to the default. */
  function OrDefaultNumber(value: Option<int>, default: int): (r: int)
    ensures value.Some? && value.value != 0 ==> r == value.value
    ensures value.None? || value.value == 0 ==> r == default
    ensures default != 0 ==> r != 0
  {
    if value.Some? && value.value != 0 then value.value else default
  }

  /** What the middleware decides: run the next handler, or throw. */
  datatype Flow = Next | Thrown(status: int) | ParseError

  /** The `paymentDetails` message posted to the peer's message endpoint for an account. */
  datatype DetailsRequest = DetailsRequest(
    url: string,
    messageType: string,
    timeoutMs: nat,
    contentType: string,
    idempotencyKey: string)

  datatype PayoutItem = PayoutItem(
    recipientType: string,
    value: string,
    currency: string,
    note: string,
    receiver: string)

  datatype Payout = Payout(
    senderBatchId: string,
    emailSubject: string,
    emailMessage: string,
    items: seq<PayoutItem>)

  datatype WebhookSubscription = WebhookSubscription(url: string, eventTypes: seq<string>)

  /** `getPaymentDetails`' request; the path is joined with backslashes, as the source writes it. */
  function DetailsRequestFor(connectorUrl: string, accountId: string, idempotencyKey: string): DetailsRequest {
    DetailsRequest(
      connectorUrl + "\\accounts\\" + accountId + "\\messages",
      "paymentDetails",
      DetailsTimeoutMs,
      "application/octet-stream",
      idempotencyKey)
  }

  function Note(localEmail: string, receiver: string, tag: string): string {
    "Settlement from " + localEmail + " to " + receiver + " (" + tag + ")"
  }

  function EmailMessage(cents: string, tag: string): string {
    "Payout of " + cents + " cents under " + tag + "!"
  }

  /** The position of the last occurrence of c in s. */
  function LastIndexOf(s: string, c: char): (r: Option<nat>)
    ensures r.Some? ==> r.value < |s| && s[r.value] == c && forall j :: r.value < j < |s| ==> s[j] != c
    ensures r.None? ==> forall j :: 0 <= j < |s| ==> s[j] != c
  {
    if s == [] then None
    else if s[|s| - 1] == c then Some(|s| - 1)
    else LastIndexOf(s[..|s| - 1], c)
  }

  /** Reads the tag back out of a payout note: the text between the last '(' and the closing ')'. */
  function NoteTag(note: string): Option<string> {
    if |note| > 0 && note[|note| - 1] == ')' then
      match LastIndexOf(note[..|note| - 1], '(')
      case Some(i) => Some(note[i + 1..|note| - 1])
      case None => None
    else None
  }

  /** A tag without '(' is recovered from the note whatever the two emails contain. */
  lemma NoteTagRoundTrip(localEmail: string, receiver: string, tag: string)
    requires forall i :: 0 <= i < |tag| ==> tag[i] != '('
    ensures NoteTag(Note(localEmail, receiver, tag)) == Some(tag)
  {
    var head := "Settlement from " + localEmail + " to " + receiver + " (";
    var note := Note(localEmail, receiver, tag);
    assert note == head + tag + ")";
    var body := note[..|note| - 1];
    assert body == head + tag;
    var k := |head| - 1;
    assert body[k] == '(';
    var r := LastIndexOf(body, '(');
    assert r.Some? && r.value >= k;
    assert forall j :: k < j < |body| ==> body[j] == tag[j - |head|];
    assert note[k + 1..|note| - 1] == tag;
  }

  /** The payout `settleAccount` submits for the peer's payment details. */
  function BuildPayout(localEmail: string, currency: string, cents: string, details: PaymentDetails, batchId: string): Payout {
    var tag := TagText(details.destinationTag);
    Payout(
      batchId,
      "ILP Settlement from " + localEmail,
      EmailMessage(cents, tag),
      [PayoutItem("EMAIL", cents, currency, Note(localEmail, details.ppEmail, tag), details.ppEmail)])
  }

  /**
   * The payout has exactly one item: `cents` in the engine's currency, paid to the email
   * the peer answered with, and a note from which the peer's tag can be read back.
   */
  lemma PayoutCarriesDetails(localEmail: string, currency: string, cents: string, details: PaymentDetails, batchId: string)
    requires IsDecimal(TagText(details.destinationTag))
    ensures var p := BuildPayout(localEmail, currency, cents, details, batchId);
      && |p.items| == 1
      && p.items[0].value == cents
      && p.items[0].currency == currency
      && p.items[0].receiver == details.ppEmail
      && p.items[0].recipientType == "EMAIL"
      && NoteTag(p.items[0].note) == Some(TagText(details.destinationTag))
      && p.senderBatchId == batchId
  {
    var tag := TagText(details.destinationTag);
    assert forall i :: 0 <= i < |tag| ==> tag[i] != '(' by {
      forall i | 0 <= i < |tag| ensures tag[i] != '(' {
        assert IsDigit(tag[i]);
      }
    }
    NoteTagRoundTrip(localEmail, details.ppEmail, tag);
  }

  /** The email message ends with the tag, so the recipient sees which account it settles. */
  lemma EmailMessageEndsWithTag(cents: string, tag: string)
    ensures var m := EmailMessage(cents, tag);
      |m| >= |tag| + 1 && m[|m| - |tag| - 1..|m| - 1] == tag && m[|m| - 1] == '!'
  {
    var m := EmailMessage(cents, tag);
    assert m == "Payout of " + cents + " cents under " + tag + "!";
  }

  function Subscription(host: string, port: string, clientId: string): WebhookSubscription {
    WebhookSubscription("http://" + host + ":" + port + "/" + clientId + "/webhooks", [PayoutsBatchSuccess])
  }

  class SettlementEngine {
    const host: string
    const port: string
    const mode: string
    const connectorUrl: string
    const redisPort: string
    const redis: Redis
    const ppEmail: string
    const clientId: string
    const secret: string
    const assetScale: int
    const prefix: string
    const minCents: int
    const currency: string

    /** The payment-details messages sent to the peer, oldest first. */
    var detailsRequests: seq<DetailsRequest>
    /** The payouts submitted to the payment processor, oldest first. */
    var payouts: seq<Payout>
    /** The webhook subscriptions requested from the payment processor. */
    var subscriptions: seq<WebhookSubscription>

    constructor (config: Config)
      ensures host == OrDefault(config.host, DefaultHost)
      ensures port == OrDefault(config.port, DefaultPort)
      ensures mode == OrDefault(config.mode, DefaultMode)
      ensures connectorUrl == config.connectorUrl
      ensures redisPort == OrDefault(config.redisPort, DefaultRedisPort)
      ensures redis == config.redis
      ensures ppEmail == config.ppEmail && clientId == config.clientId && secret == config.secret
      ensures assetScale == config.assetScale
      ensures prefix == OrDefault(config.prefix, DefaultPrefix)
      ensures minCents == OrDefaultNumber(config.minCents, DefaultMinCents)
      ensures currency == OrDefault(config.currency, DefaultCurrency)
      ensures detailsRequests == [] && payouts == [] && subscriptions == []
    {
      host := OrDefault(config.host, DefaultHost);
      port := OrDefault(config.port, DefaultPort);
      mode := OrDefault(config.mode, DefaultMode);
      connectorUrl := config.connectorUrl;
      redisPort := OrDefault(config.redisPort, DefaultRedisPort);
      redis := config.redis;
      ppEmail := config.ppEmail;
      clientId := config.clientId;
      secret := config.secret;
      assetScale := config.assetScale;
      prefix := OrDefault(config.prefix, DefaultPrefix);
      minCents := OrDefaultNumber(config.minCents, DefaultMinCents);
      currency := OrDefault(config.currency, DefaultCurrency);
      detailsRequests := [];
      payouts := [];
      subscriptions := [];
    }

    /** A request context as the application builds it: the engine's store, email and prefix. */
    method ContextFor(id: string) returns (ctx: Context)
      ensures fresh(ctx)
      ensures ctx.id == id && ctx.redis == redis && ctx.ppEmail == ppEmail && ctx.prefix == prefix
      ensures ctx.status == 404 && ctx.body == NoBody && ctx.account == None
    {
      ctx := new Context(id, prefix, ppEmail, redis);
    }

    /** `subscribeToTransactions`: asks for notifications of successful payout batches only. */
    method SubscribeToTransactions()
      modifies this
      ensures subscriptions == old(subscriptions) + [Subscription(host, port, clientId)]
      ensures subscriptions[|subscriptions| - 1].eventTypes == [PayoutsBatchSuccess]
      ensures detailsRequests == old(detailsRequests) && payouts == old(payouts)
    {
      subscriptions := subscriptions + [Subscription(host, port, clientId)];
    }

    /**
     * `findAccountMiddleware`: loads the route's account into the context and lets the
     * next handler run; a missing or empty record throws 404 and the next handler never runs.
     */
    method FindAccount(ctx: Context) returns (flow: Flow)
      modifies ctx
      ensures var stored := Lookup(ctx.redis.data, AccountKey(ctx.prefix, ctx.id));
        && (!Truthy(stored) ==> flow == Thrown(404) && ctx.account == old(ctx.account))
        && (Truthy(stored) && AccountJson.Decode(stored.value).Some? ==>
              flow == Next && ctx.account == AccountJson.Decode(stored.value))
        && (Truthy(stored) && AccountJson.Decode(stored.value).None? ==>
              flow == ParseError && ctx.account == old(ctx.account))
      ensures ctx.status == old(ctx.status) && ctx.body == old(ctx.body)
    {
      var account := ctx.redis.Get(AccountKey(ctx.prefix, ctx.id));
      if Truthy(account) {
        var parsed := AccountJson.Decode(account.value);
        if parsed.None? {
          return ParseError;
        }
        ctx.account := parsed;
        flow := Next;
      } else {
        flow := Thrown(404);
      }
    }

    /**
     * `getPaymentDetails`: posts a `paymentDetails` message for the account with a 10 s
     * timeout under the given idempotency key; the peer's answer, or its failure, is `reply`.
     */
    method GetPaymentDetails(accountId: string, idempotencyKey: string, reply: Option<PaymentDetails>)
      returns (details: Option<PaymentDetails>)
      modifies this
      ensures detailsRequests == old(detailsRequests) + [DetailsRequestFor(connectorUrl, accountId, idempotencyKey)]
      ensures details == reply
      ensures payouts == old(payouts) && subscriptions == old(subscriptions)
    {
      detailsRequests := detailsRequests + [DetailsRequestFor(connectorUrl, accountId, idempotencyKey)];
      details := reply;
    }

    /**
     * `settleAccount`: asks the peer for its payment details and, when they arrive, submits
     * one payout of `cents` to them. A failed request is caught: nothing is submitted and
     * nothing is thrown.
     */
    method SettleAccount(account: Account, cents: string, idempotencyKey: string,
                         reply: Option<PaymentDetails>, batchId: string)
      modifies this
      ensures detailsRequests == old(detailsRequests) + [DetailsRequestFor(connectorUrl, account.id, idempotencyKey)]
      ensures reply.None? ==> payouts == old(payouts)
      ensures reply.Some? ==> payouts == old(payouts) + [BuildPayout(ppEmail, currency, cents, reply.value, batchId)]
      ensures subscriptions == old(subscriptions)
    {
      var details := GetPaymentDetails(account.id, idempotencyKey, reply);
      if details.Some? {
        var payment := BuildPayout(ppEmail, currency, cents, details.value, batchId);
        payouts := payouts + [payment];
      }
    }
  }

  /** The defaulted settings are never falsy, and a truthy supplied value always wins. */
  lemma ConfigDefaults(config: Config)
    ensures OrDefault(config.host, DefaultHost) != "" && OrDefault(config.port, DefaultPort) != ""
    ensures OrDefault(config.mode, DefaultMode) != "" && OrDefault(config.redisPort, DefaultRedisPort) != ""
    ensures OrDefault(config.prefix, DefaultPrefix) != "" && OrDefault(config.currency, DefaultCurrency) != ""
    ensures OrDefaultNumber(config.minCents, DefaultMinCents) != 0
    ensures config.prefix == None ==> OrDefault(config.prefix, DefaultPrefix) == "paypal"
    ensures config.minCents == None ==> OrDefaultNumber(config.minCents, DefaultMinCents) == 1000000
  {
  }

  /** Every payment-details request asks for `paymentDetails` within 10 s under the key it is given. */
  lemma DetailsRequestShape(connectorUrl: string, accountId: string, key: string)
    ensures var req := DetailsRequestFor(connectorUrl, accountId, key);
      req.messageType == "paymentDetails" && req.timeoutMs == 10000 && req.idempotencyKey == key
  {
  }
}
