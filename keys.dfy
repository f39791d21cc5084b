/**
 * The key layout of the engine's key-value store. Every key starts with the engine's
 * prefix; the three families are kept apart by the word after the first colon.
 */
module Keys {

  /** `${prefix}:accounts:${id}`: the serialized account record. */
  function AccountKey(prefix: string, id: string): string {
    prefix + ":accounts:" + id
  }

  /** `${prefix}:accountId:${id}:destinationTag`: the tag allocated to an account. */
  function AccountTagKey(prefix: string, id: string): string {
    prefix + ":accountId:" + id + ":destinationTag"
  }

  /** `${prefix}:destinationTag:${tag}:accountId`: the account a tag was allocated to. */
  function TagAccountKey(prefix: string, tag: string): string {
    prefix + ":destinationTag:" + tag + ":accountId"
  }

  lemma AccountKeyInjective(prefix: string, a: string, b: string)
    ensures AccountKey(prefix, a) == AccountKey(prefix, b) <==> a == b
  {
    var n := |prefix| + 10;
    if AccountKey(prefix, a) == AccountKey(prefix, b) {
      assert a == AccountKey(prefix, a)[n..];
      assert b == AccountKey(prefix, b)[n..];
    }
  }

  lemma AccountTagKeyInjective(prefix: string, a: string, b: string)
    ensures AccountTagKey(prefix, a) == AccountTagKey(prefix, b) <==> a == b
  {
    var n := |prefix| + 11;
    if AccountTagKey(prefix, a) == AccountTagKey(prefix, b) {
      assert |a| == |b|;
      assert a == AccountTagKey(prefix, a)[n..n + |a|];
      assert b == AccountTagKey(prefix, b)[n..n + |b|];
    }
  }

  lemma TagAccountKeyInjective(prefix: string, s: string, t: string)
    ensures TagAccountKey(prefix, s) == TagAccountKey(prefix, t) <==> s == t
  {
    var n := |prefix| + 16;
    if TagAccountKey(prefix, s) == TagAccountKey(prefix, t) {
      assert |s| == |t|;
      assert s == TagAccountKey(prefix, s)[n..n + |s|];
      assert t == TagAccountKey(prefix, t)[n..n + |t|];
    }
  }

  /** The three key families never meet, whatever the ids and tags contain. */
  lemma KeyFamiliesDisjoint(prefix: string, id: string, id': string, tag: string)
    ensures AccountKey(prefix, id) != AccountTagKey(prefix, id')
    ensures AccountKey(prefix, id) != TagAccountKey(prefix, tag)
    ensures AccountTagKey(prefix, id') != TagAccountKey(prefix, tag)
  {
    var n := |prefix|;
    assert AccountKey(prefix, id)[n + 1] == 'a' && AccountKey(prefix, id)[n + 8] == 's';
    assert AccountTagKey(prefix, id')[n + 1] == 'a' && AccountTagKey(prefix, id')[n + 8] == 'I';
    assert TagAccountKey(prefix, tag)[n + 1] == 'd';
  }
}
