/**
 * The settlement entry point (src/controllers/settlement.ts): reads the route's account
 * record, converts the requested amount from the request's scale to the engine's asset
 * scale, hands both to `settleAccount` and answers 200 once it has returned.
 *
 * The source reads the asset scale and `settleAccount` from the request context, where the
 * engine never puts them; here both are passed in explicitly.
 */
module SettlementController {

  import opened Wrappers
  import opened Text
  import opened Model
  import opened Keys
  import opened Store
  import opened Koa
  import AccountJson
  import NormalizeAsset
  import opened Engine
  import AccountController

  /** `JSON.parse` of the stored record; a missing record parses to null, which is no account. */
  function StoredAccount(data: map<string, string>, prefix: string, id: string): Option<Account> {
    var stored := Lookup(data, AccountKey(prefix, id));
    if stored.Some? then AccountJson.Decode(stored.value) else None
  }

  /** `normalizeAsset(body.scale, assetScale, BigInt(body.amnt)).toString()`. */
  function SettlementCents(bodyScale: nat, assetScale: nat, amount: int): string {
    IntToDecimal(NormalizeAsset.Normalize(bodyScale, assetScale, amount))
  }

  /** The amount text handed to `settleAccount` reads back as the converted amount. */
  lemma SettlementCentsReadBack(bodyScale: nat, assetScale: nat, amount: int)
    ensures DecimalToInt(SettlementCents(bodyScale, assetScale, amount))
      == Some(NormalizeAsset.Normalize(bodyScale, assetScale, amount))
  {
    IntRoundTrip(NormalizeAsset.Normalize(bodyScale, assetScale, amount));
  }

  /**
   * A request at a coarser scale than the engine's loses nothing on the way: converting the
   * amount handed on back to the request's scale gives the requested amount.
   */
  lemma SettlementAmountExact(bodyScale: nat, assetScale: nat, amount: int)
    requires bodyScale <= assetScale
    ensures DecimalToInt(SettlementCents(bodyScale, assetScale, amount)).Some?
    ensures NormalizeAsset.Normalize(assetScale, bodyScale,
              DecimalToInt(SettlementCents(bodyScale, assetScale, amount)).value) == amount
  {
    SettlementCentsReadBack(bodyScale, assetScale, amount);
    NormalizeAsset.RoundTrip(bodyScale, assetScale, amount);
  }

  /**
   * `create`: settles the stored account for the converted amount and then answers 200.
   * Without a readable record the call throws before settling: nothing is sent and the
   * response is left as it was.
   */
  method Create(ctx: Context, engine: SettlementEngine, assetScale: nat, bodyScale: nat, bodyAmount: int,
                idempotencyKey: string, reply: Option<PaymentDetails>, batchId: string)
    returns (thrown: Option<string>)
    modifies ctx, engine
    ensures var account := StoredAccount(ctx.redis.data, ctx.prefix, ctx.id);
      var cents := SettlementCents(bodyScale, assetScale, bodyAmount);
      && (account.None? ==>
            && thrown.Some?
            && ctx.status == old(ctx.status)
            && engine.detailsRequests == old(engine.detailsRequests)
            && engine.payouts == old(engine.payouts))
      && (account.Some? ==>
            && thrown == None
            && ctx.status == 200
            && engine.detailsRequests == old(engine.detailsRequests) +
                 [DetailsRequestFor(engine.connectorUrl, account.value.id, idempotencyKey)]
            && engine.payouts == old(engine.payouts) +
                 (if reply.Some? then [BuildPayout(engine.ppEmail, engine.currency, cents, reply.value, batchId)] else []))
    ensures ctx.body == old(ctx.body) && ctx.account == old(ctx.account)
    ensures engine.subscriptions == old(engine.subscriptions)
  {
    var accJson := ctx.redis.Get(AccountKey(ctx.prefix, ctx.id));
    var account := if accJson.Some? then AccountJson.Decode(accJson.value) else None;
    if account.None? {
      return Some("TypeError: no account to settle");
    }
    var amnt := NormalizeAsset.Normalize(bodyScale, assetScale, bodyAmount);
    engine.SettleAccount(account.value, IntToDecimal(amnt), idempotencyKey, reply, batchId);
    ctx.status := 200;
    thrown := None;
  }

  /** An account registered by the account directory is the account a settlement reads. */
  lemma RegisteredAccountIsSettled(data: map<string, string>, prefix: string, id: string)
    requires AccountController.CreateSpec(data, prefix, id).1 == 200
    ensures StoredAccount(AccountController.CreateSpec(data, prefix, id).0, prefix, id) == Some(Account(id))
  {
    AccountJson.DecodeEncode(Account(id));
  }
}
