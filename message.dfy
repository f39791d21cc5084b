/**
 * Peer messages (src/controllers/message.ts): a `paymentDetails` message asks this engine
 * where to pay the account named in the route. The answer is the engine's email and the
 * account's destination tag, allocated on first request and stored in both directions.
 */
module MessageController {

  import opened Wrappers
  import opened Text
  import opened Model
  import opened Keys
  import opened Store
  import opened Koa

  datatype Message = Message(msgType: string, total: string, currency: string)

  const PaymentDetailsType: string := "paymentDetails"
  const UnknownTypeError: string := "This message type is unknown."

  /**
   * Get-or-allocate: a truthy tag stored for the account is answered as stored (a string);
   * otherwise the tag is the big-endian reading of the four random bytes, and the
   * tag-to-account entry and then the account-to-tag entry are written.
   */
  function TagStep(data: map<string, string>, prefix: string, accountId: string, random: seq<Byte>)
    : (map<string, string>, TagValue)
    requires |random| == 4
  {
    var stored := Lookup(data, AccountTagKey(prefix, accountId));
    if Truthy(stored) then (data, TagString(stored.value))
    else
      var tag := ReadUInt32BE(random);
      var text := NatToDecimal(tag);
      (data[TagAccountKey(prefix, text) := accountId][AccountTagKey(prefix, accountId) := text], TagNumber(tag))
  }

  /** Every non-empty account-to-tag entry has a tag-to-account entry pointing back at it. */
  ghost predicate Consistent(data: map<string, string>, prefix: string) {
    forall id :: AccountTagKey(prefix, id) in data && data[AccountTagKey(prefix, id)] != "" ==>
      && TagAccountKey(prefix, data[AccountTagKey(prefix, id)]) in data
      && data[TagAccountKey(prefix, data[AccountTagKey(prefix, id)])] == id
  }

  /** Every non-empty account-to-tag entry is the decimal text of a number. */
  ghost predicate NumericTags(data: map<string, string>, prefix: string) {
    forall id :: AccountTagKey(prefix, id) in data && data[AccountTagKey(prefix, id)] != "" ==>
      IsDecimal(data[AccountTagKey(prefix, id)])
  }

  /** `handleMessage`: the store and the reply of one message, or the error it throws. */
  method HandleMessage(message: Message, ctx: Context, random: seq<Byte>) returns (r: Result<PaymentDetails, string>)
    requires |random| == 4
    modifies ctx.redis
    ensures message.msgType != PaymentDetailsType ==>
      && r == Failure(UnknownTypeError)
      && ctx.redis.data == old(ctx.redis.data)
      && ctx.redis.writes == old(ctx.redis.writes)
    ensures message.msgType == PaymentDetailsType ==>
      var (data', tag) := TagStep(old(ctx.redis.data), ctx.prefix, ctx.id, random);
      && r == Success(PaymentDetails(ctx.ppEmail, tag))
      && ctx.redis.data == data'
      && ctx.redis.writes == old(ctx.redis.writes) +
           (if tag.TagNumber?
            then [TagAccountKey(ctx.prefix, TagText(tag)), AccountTagKey(ctx.prefix, ctx.id)]
            else [])
  {
    var accountId := ctx.id;
    if message.msgType == PaymentDetailsType {
      var tag := ctx.redis.Get(AccountTagKey(ctx.prefix, accountId));
      var destinationTag: TagValue;
      if Truthy(tag) {
        destinationTag := TagString(tag.value);
      } else {
        destinationTag := TagNumber(ReadUInt32BE(random));
        ctx.redis.Set(TagAccountKey(ctx.prefix, TagText(destinationTag)), accountId);
        ctx.redis.Set(AccountTagKey(ctx.prefix, accountId), TagText(destinationTag));
      }
      r := Success(PaymentDetails(ctx.ppEmail, destinationTag));
    } else {
      r := Failure(UnknownTypeError);
    }
  }

  /**
   * `create`: answers the message with its reply and 200. When the handler throws, the
   * error is returned and the response is left as it was.
   */
  method Create(ctx: Context, message: Message, random: seq<Byte>) returns (thrown: Option<string>)
    requires |random| == 4
    modifies ctx, ctx.redis
    ensures message.msgType != PaymentDetailsType ==>
      && thrown == Some(UnknownTypeError)
      && ctx.redis.data == old(ctx.redis.data)
      && ctx.redis.writes == old(ctx.redis.writes)
      && ctx.status == old(ctx.status) && ctx.body == old(ctx.body)
    ensures message.msgType == PaymentDetailsType ==>
      var (data', tag) := TagStep(old(ctx.redis.data), ctx.prefix, ctx.id, random);
      && thrown == None
      && ctx.redis.data == data'
      && ctx.redis.writes == old(ctx.redis.writes) +
           (if tag.TagNumber?
            then [TagAccountKey(ctx.prefix, TagText(tag)), AccountTagKey(ctx.prefix, ctx.id)]
            else [])
      && ctx.body == DetailsBody(PaymentDetails(ctx.ppEmail, tag))
      && ctx.status == 200
    ensures ctx.account == old(ctx.account)
  {
    var reply := HandleMessage(message, ctx, random);
    if reply.Failure? {
      return Some(reply.error);
    }
    ctx.body := DetailsBody(reply.value);
    ctx.status := 200;
    thrown := None;
  }

  /** A truthy stored tag is answered as stored and nothing is written. */
  lemma StoredTagReused(data: map<string, string>, prefix: string, accountId: string, random: seq<Byte>)
    requires |random| == 4
    requires Truthy(Lookup(data, AccountTagKey(prefix, accountId)))
    ensures TagStep(data, prefix, accountId, random) == (data, TagString(data[AccountTagKey(prefix, accountId)]))
  {
  }

  /**
   * Without a stored tag, a 32-bit tag is drawn and exactly two entries change: the tag
   * maps to the account and the account maps to the tag. Account records stay as they are.
   */
  lemma FreshTagAllocated(data: map<string, string>, prefix: string, accountId: string, random: seq<Byte>)
    requires |random| == 4
    requires !Truthy(Lookup(data, AccountTagKey(prefix, accountId)))
    ensures var (data', tag) := TagStep(data, prefix, accountId, random);
      && tag.TagNumber? && tag.n < TwoTo32 && tag.n == ReadUInt32BE(random)
      && data'.Keys == data.Keys + {TagAccountKey(prefix, TagText(tag)), AccountTagKey(prefix, accountId)}
      && data'[AccountTagKey(prefix, accountId)] == TagText(tag)
      && data'[TagAccountKey(prefix, TagText(tag))] == accountId
      && (forall k :: k in data && k != TagAccountKey(prefix, TagText(tag)) && k != AccountTagKey(prefix, accountId)
            ==> data'[k] == data[k])
      && (forall id :: Lookup(data', AccountKey(prefix, id)) == Lookup(data, AccountKey(prefix, id)))
  {
    var text := NatToDecimal(ReadUInt32BE(random));
    KeyFamiliesDisjoint(prefix, accountId, accountId, text);
    forall id ensures Lookup(TagStep(data, prefix, accountId, random).0, AccountKey(prefix, id)) == Lookup(data, AccountKey(prefix, id)) {
      KeyFamiliesDisjoint(prefix, id, accountId, text);
    }
  }

  /** Handling `paymentDetails` twice for one account answers the same tag and writes once. */
  lemma TagStepIdempotent(data: map<string, string>, prefix: string, accountId: string, random: seq<Byte>, random': seq<Byte>)
    requires |random| == 4 && |random'| == 4
    ensures var (data1, tag1) := TagStep(data, prefix, accountId, random);
      var (data2, tag2) := TagStep(data1, prefix, accountId, random');
      && TagText(tag2) == TagText(tag1)
      && data2 == data1
  {
  }

  /**
   * The allocation keeps every account-to-tag entry paired with its reverse entry,
   * provided the drawn tag is not already in use by another account.
   */
  lemma TagStepPreservesConsistency(data: map<string, string>, prefix: string, accountId: string, random: seq<Byte>)
    requires |random| == 4
    requires Consistent(data, prefix)
    requires !Truthy(Lookup(data, AccountTagKey(prefix, accountId))) ==>
      TagAccountKey(prefix, NatToDecimal(ReadUInt32BE(random))) !in data
    ensures Consistent(TagStep(data, prefix, accountId, random).0, prefix)
  {
    if !Truthy(Lookup(data, AccountTagKey(prefix, accountId))) {
      var text := NatToDecimal(ReadUInt32BE(random));
      WriteKeepsConsistency(data, prefix, accountId, text);
    }
  }

  /** Writing a pair of entries for an unused tag keeps the registry consistent. */
  lemma WriteKeepsConsistency(data: map<string, string>, prefix: string, accountId: string, text: string)
    requires Consistent(data, prefix)
    requires text != "" && TagAccountKey(prefix, text) !in data
    ensures Consistent(data[TagAccountKey(prefix, text) := accountId][AccountTagKey(prefix, accountId) := text], prefix)
  {
    var data' := data[TagAccountKey(prefix, text) := accountId][AccountTagKey(prefix, accountId) := text];
    forall other | AccountTagKey(prefix, other) in data' && data'[AccountTagKey(prefix, other)] != ""
      ensures TagAccountKey(prefix, data'[AccountTagKey(prefix, other)]) in data'
      ensures data'[TagAccountKey(prefix, data'[AccountTagKey(prefix, other)])] == other
    {
      KeyFamiliesDisjoint(prefix, other, other, text);
      AccountTagKeyInjective(prefix, accountId, other);
      if other != accountId {
        var v := data[AccountTagKey(prefix, other)];
        assert data'[AccountTagKey(prefix, other)] == v;
        KeyFamiliesDisjoint(prefix, other, accountId, v);
        TagAccountKeyInjective(prefix, v, text);
      }
    }
  }

  /** The answered tag, looked up in the reverse direction, names the account it was answered for. */
  lemma ReplyResolvesToAccount(data: map<string, string>, prefix: string, accountId: string, random: seq<Byte>)
    requires |random| == 4
    requires Consistent(data, prefix)
    ensures var (data', tag) := TagStep(data, prefix, accountId, random);
      Lookup(data', TagAccountKey(prefix, TagText(tag))) == Some(accountId)
  {
    var text := NatToDecimal(ReadUInt32BE(random));
    KeyFamiliesDisjoint(prefix, accountId, accountId, text);
  }

  /** Stored tags stay numeric, so every answered tag is a non-empty string of digits. */
  lemma ReplyTagIsDecimal(data: map<string, string>, prefix: string, accountId: string, random: seq<Byte>)
    requires |random| == 4
    requires NumericTags(data, prefix)
    ensures var (data', tag) := TagStep(data, prefix, accountId, random);
      IsDecimal(TagText(tag)) && NumericTags(data', prefix)
  {
    var (data', tag) := TagStep(data, prefix, accountId, random);
    if !Truthy(Lookup(data, AccountTagKey(prefix, accountId))) {
      var text := NatToDecimal(ReadUInt32BE(random));
      forall other | AccountTagKey(prefix, other) in data' && data'[AccountTagKey(prefix, other)] != ""
        ensures IsDecimal(data'[AccountTagKey(prefix, other)])
      {
        KeyFamiliesDisjoint(prefix, other, other, text);
        AccountTagKeyInjective(prefix, accountId, other);
      }
    }
  }

  /**
   * The allocation does not check whether the drawn tag is taken: when two accounts
   * draw the same tag, the reverse entry of the first is overwritten and its tag
   * now resolves to the second account.
   */
  lemma TagCollisionBreaksConsistency()
    ensures var prefix := "paypal";
      var data := map[AccountTagKey(prefix, "alice") := "7", TagAccountKey(prefix, "7") := "alice"];
      var data' := TagStep(data, prefix, "bob", [0, 0, 0, 7]).0;
      && Consistent(data, prefix)
      && !Consistent(data', prefix)
      && data'[TagAccountKey(prefix, "7")] == "bob"
  {
    var prefix := "paypal";
    var data := map[AccountTagKey(prefix, "alice") := "7", TagAccountKey(prefix, "7") := "alice"];
    forall id | AccountTagKey(prefix, id) in data
      ensures id == "alice"
    {
      AccountTagKeyInjective(prefix, id, "alice");
      KeyFamiliesDisjoint(prefix, id, id, "7");
    }
    assert Consistent(data, prefix);
    KeyFamiliesDisjoint(prefix, "bob", "bob", "7");
    AccountTagKeyInjective(prefix, "bob", "alice");
    assert NatToDecimal(ReadUInt32BE([0, 0, 0, 7])) == "7";
    var data' := TagStep(data, prefix, "bob", [0, 0, 0, 7]).0;
    assert data'[AccountTagKey(prefix, "alice")] == "7";
    assert data'[TagAccountKey(prefix, "7")] == "bob";
  }

  /** The first draw of a stream whose tag has no reverse entry yet. */
  function FirstUnusedTag(data: map<string, string>, prefix: string, draws: seq<seq<Byte>>): (r: Option<nat>)
    requires forall i :: 0 <= i < |draws| ==> |draws[i]| == 4
    ensures r.Some? ==> exists i :: (0 <= i < |draws| && r.value == ReadUInt32BE(draws[i])
      && forall j :: 0 <= j < i ==> TagAccountKey(prefix, NatToDecimal(ReadUInt32BE(draws[j]))) in data)
    ensures r.Some? ==> r.value < TwoTo32 && TagAccountKey(prefix, NatToDecimal(r.value)) !in data
    ensures r.None? <==> forall i :: 0 <= i < |draws| ==> TagAccountKey(prefix, NatToDecimal(ReadUInt32BE(draws[i]))) in data
  {
    if draws == [] then None
    else
      var n := ReadUInt32BE(draws[0]);
      if TagAccountKey(prefix, NatToDecimal(n)) !in data then Some(n)
      else
        var r := FirstUnusedTag(data, prefix, draws[1..]);
        if r.Some? then
          var i :| 0 <= i < |draws[1..]| && r.value == ReadUInt32BE(draws[1..][i])
            && (forall j :: 0 <= j < i ==> TagAccountKey(prefix, NatToDecimal(ReadUInt32BE(draws[1..][j]))) in data);
          assert r.value == ReadUInt32BE(draws[i + 1]);
          assert forall j :: 0 <= j < i + 1 ==> TagAccountKey(prefix, NatToDecimal(ReadUInt32BE(draws[j]))) in data;
          r
        else r
  }

  const AllocationError: string := "destination tag allocation exhausted"

  /**
   * Get-or-allocate that only ever takes a tag nobody holds: the first unused draw of a
   * bounded stream, or an allocation error when every draw is taken.
   */
  function AllocateUnique(data: map<string, string>, prefix: string, accountId: string, draws: seq<seq<Byte>>)
    : Result<(map<string, string>, TagValue), string>
    requires forall i :: 0 <= i < |draws| ==> |draws[i]| == 4
  {
    var stored := Lookup(data, AccountTagKey(prefix, accountId));
    if Truthy(stored) then Success((data, TagString(stored.value)))
    else match FirstUnusedTag(data, prefix, draws)
      case None => Failure(AllocationError)
      case Some(tag) =>
        var text := NatToDecimal(tag);
        Success((data[TagAccountKey(prefix, text) := accountId][AccountTagKey(prefix, accountId) := text], TagNumber(tag)))
  }

  /** The collision-checked allocation keeps the registry consistent whatever the draws. */
  lemma AllocateUniquePreservesConsistency(data: map<string, string>, prefix: string, accountId: string, draws: seq<seq<Byte>>)
    requires forall i :: 0 <= i < |draws| ==> |draws[i]| == 4
    requires Consistent(data, prefix)
    ensures match AllocateUnique(data, prefix, accountId, draws)
      case Success((data', tag)) =>
        && Consistent(data', prefix)
        && Lookup(data', TagAccountKey(prefix, TagText(tag))) == Some(accountId)
      case Failure(e) => e == AllocationError
  {
    if !Truthy(Lookup(data, AccountTagKey(prefix, accountId))) {
      var r := FirstUnusedTag(data, prefix, draws);
      if r.Some? {
        var text := NatToDecimal(r.value);
        WriteKeepsConsistency(data, prefix, accountId, text);
        KeyFamiliesDisjoint(prefix, accountId, accountId, text);
      }
    }
  }

  /** When the first draw is unused, the checked allocation does what the handler does. */
  lemma AllocateUniqueAgrees(data: map<string, string>, prefix: string, accountId: string, draws: seq<seq<Byte>>)
    requires forall i :: 0 <= i < |draws| ==> |draws[i]| == 4
    requires |draws| > 0 && TagAccountKey(prefix, NatToDecimal(ReadUInt32BE(draws[0]))) !in data
    ensures AllocateUnique(data, prefix, accountId, draws) == Success(TagStep(data, prefix, accountId, draws[0]))
  {
  }
}
