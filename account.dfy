/**
 * The account directory (src/controllers/account.ts): register, look up and delete the
 * record stored under `${prefix}:accounts:${id}`, answering with an HTTP status.
 */
module AccountController {

  import opened Wrappers
  import opened Model
  import opened Keys
  import opened Store
  import opened Koa
  import AccountJson

  /** The store and status `create` leaves: it writes only when no truthy record exists. */
  function CreateSpec(data: map<string, string>, prefix: string, id: string): (map<string, string>, int) {
    var key := AccountKey(prefix, id);
    if Truthy(Lookup(data, key)) then (data, 404)
    else (data[key := AccountJson.Encode(Account(id))], 200)
  }

  datatype SearchResult = Found(account: Account) | Missing | Unreadable

  /** What `search` finds: the parsed record, nothing, or a record `JSON.parse` rejects. */
  function SearchSpec(data: map<string, string>, prefix: string, id: string): SearchResult {
    var stored := Lookup(data, AccountKey(prefix, id));
    if !Truthy(stored) then Missing
    else match AccountJson.Decode(stored.value)
      case Some(a) => Found(a)
      case None => Unreadable
  }

  function RemoveSpec(data: map<string, string>, prefix: string, id: string): map<string, string> {
    data - {AccountKey(prefix, id)}
  }

  /** `create`: registers the account named by the request body's id. */
  method Create(ctx: Context, bodyId: string)
    modifies ctx, ctx.redis
    ensures (ctx.redis.data, ctx.status) == CreateSpec(old(ctx.redis.data), ctx.prefix, bodyId)
    ensures ctx.redis.writes == old(ctx.redis.writes) + (if ctx.status == 200 then [AccountKey(ctx.prefix, bodyId)] else [])
    ensures ctx.body == old(ctx.body) && ctx.account == old(ctx.account)
  {
    var account := Account(bodyId);
    var existing := ctx.redis.Get(AccountKey(ctx.prefix, account.id));
    if !Truthy(existing) {
      ctx.redis.Set(AccountKey(ctx.prefix, account.id), AccountJson.Encode(account));
      ctx.status := 200;
    } else {
      ctx.status := 404;
    }
  }

  /**
   * `search`: answers with the stored record and 200, or 404; never writes the store.
   * A record that does not parse makes `JSON.parse` throw, reported as `Some` error with
   * the response left as it was.
   */
  method Search(ctx: Context) returns (thrown: Option<string>)
    modifies ctx
    ensures var r := SearchSpec(ctx.redis.data, ctx.prefix, ctx.id);
      && (r.Found? ==> thrown == None && ctx.body == AccountBody(r.account) && ctx.status == 200)
      && (r.Missing? ==> thrown == None && ctx.body == old(ctx.body) && ctx.status == 404)
      && (r.Unreadable? ==> thrown.Some? && ctx.body == old(ctx.body) && ctx.status == old(ctx.status))
    ensures ctx.account == old(ctx.account)
  {
    var stored := ctx.redis.Get(AccountKey(ctx.prefix, ctx.id));
    thrown := None;
    if Truthy(stored) {
      var parsed := AccountJson.Decode(stored.value);
      if parsed.Some? {
        ctx.body := AccountBody(parsed.value);
        ctx.status := 200;
      } else {
        thrown := Some("SyntaxError: JSON.parse");
      }
    } else {
      ctx.status := 404;
    }
  }

  /** `remove`: deletes the record, present or not, and always answers 200. */
  method Remove(ctx: Context)
    modifies ctx, ctx.redis
    ensures ctx.redis.data == RemoveSpec(old(ctx.redis.data), ctx.prefix, ctx.id)
    ensures ctx.redis.writes == old(ctx.redis.writes) + [AccountKey(ctx.prefix, ctx.id)]
    ensures ctx.status == 200
    ensures ctx.body == old(ctx.body) && ctx.account == old(ctx.account)
  {
    ctx.redis.Del(AccountKey(ctx.prefix, ctx.id));
    ctx.status := 200;
  }

  /**
   * `create` answers 200 exactly when no truthy record was stored; then it stores the
   * record of the new account and nothing else, otherwise the store is left as it was.
   */
  lemma CreateWritesOnlyWhenAbsent(data: map<string, string>, prefix: string, id: string)
    ensures var (data', status) := CreateSpec(data, prefix, id);
      && (status == 200 <==> !Truthy(Lookup(data, AccountKey(prefix, id))))
      && (status == 404 <==> Truthy(Lookup(data, AccountKey(prefix, id))))
      && (status == 404 ==> data' == data)
      && (status == 200 ==> data'.Keys == data.Keys + {AccountKey(prefix, id)})
      && (forall k :: k in data && k != AccountKey(prefix, id) ==> k in data' && data'[k] == data[k])
  {
  }

  /** A successful `create` followed by `search` for the same id finds that account. */
  lemma CreateThenSearch(data: map<string, string>, prefix: string, id: string)
    requires CreateSpec(data, prefix, id).1 == 200
    ensures SearchSpec(CreateSpec(data, prefix, id).0, prefix, id) == Found(Account(id))
  {
    AccountJson.DecodeEncode(Account(id));
    AccountJson.EncodeNonEmpty(Account(id));
  }

  /** Registering one account changes what `search` finds for no other account. */
  lemma CreateLeavesOtherAccounts(data: map<string, string>, prefix: string, id: string, id': string)
    requires id' != id
    ensures SearchSpec(CreateSpec(data, prefix, id).0, prefix, id') == SearchSpec(data, prefix, id')
  {
    AccountKeyInjective(prefix, id, id');
  }

  /** Removing twice leaves the same store as removing once. */
  lemma RemoveIdempotent(data: map<string, string>, prefix: string, id: string)
    ensures RemoveSpec(RemoveSpec(data, prefix, id), prefix, id) == RemoveSpec(data, prefix, id)
    ensures SearchSpec(RemoveSpec(data, prefix, id), prefix, id) == Missing
  {
  }

  /** The account directory never touches the destination-tag entries of the store. */
  lemma DirectoryKeepsTagEntries(data: map<string, string>, prefix: string, id: string, id': string, tag: string)
    ensures var created := CreateSpec(data, prefix, id).0;
      && Lookup(created, AccountTagKey(prefix, id')) == Lookup(data, AccountTagKey(prefix, id'))
      && Lookup(created, TagAccountKey(prefix, tag)) == Lookup(data, TagAccountKey(prefix, tag))
    ensures var removed := RemoveSpec(data, prefix, id);
      && Lookup(removed, AccountTagKey(prefix, id')) == Lookup(data, AccountTagKey(prefix, id'))
      && Lookup(removed, TagAccountKey(prefix, tag)) == Lookup(data, TagAccountKey(prefix, tag))
  {
    KeyFamiliesDisjoint(prefix, id, id', tag);
  }
}
