/**
 * The text an account record is stored as: `JSON.stringify({ id })` on the way in,
 * `JSON.parse` on the way out. Only the escapes a quote and a backslash need are modelled.
 */
module AccountJson {

  import opened Wrappers
  import opened Model

  const Open: string := "{\"id\":\""
  const Close: string := "\"}"

  /** The body of a JSON string literal: quote and backslash are preceded by a backslash. */
  function Escape(s: string): string {
    if s == [] then []
    else (if s[0] == '"' || s[0] == '\\' then ['\\', s[0]] else [s[0]]) + Escape(s[1..])
  }

  /** Reads the body of a JSON string literal; an unescaped quote or a bad escape fails. */
  function Unescape(e: string): Option<string>
  {
    if e == [] then Some([])
    else if e[0] == '\\' then
      if |e| >= 2 && (e[1] == '"' || e[1] == '\\') then
        match Unescape(e[2..])
        case Some(rest) => Some([e[1]] + rest)
        case None => None
      else None
    else if e[0] == '"' then None
    else
      match Unescape(e[1..])
      case Some(rest) => Some([e[0]] + rest)
      case None => None
  }

  lemma {:induction false} UnescapeEscape(s: string)
    ensures Unescape(Escape(s)) == Some(s)
  {
    if s != [] {
      UnescapeEscape(s[1..]);
      var e := Escape(s);
      if s[0] == '"' || s[0] == '\\' {
        assert e[2..] == Escape(s[1..]);
      } else {
        assert e[0] == s[0] && e[1..] == Escape(s[1..]);
      }
      assert s == [s[0]] + s[1..];
    }
  }

  lemma {:induction false} EscapeUnescape(e: string, s: string)
    requires Unescape(e) == Some(s)
    ensures Escape(s) == e
  {
    if e != [] {
      if e[0] == '\\' {
        EscapeUnescape(e[2..], s[1..]);
        assert e == [e[0], e[1]] + e[2..];
      } else {
        EscapeUnescape(e[1..], s[1..]);
        assert e == [e[0]] + e[1..];
      }
    }
  }

  function Encode(a: Account): string {
    Open + Escape(a.id) + Close
  }

  function Decode(s: string): Option<Account> {
    if |s| >= |Open| + |Close| && s[..|Open|] == Open && s[|s| - |Close|..] == Close then
      match Unescape(s[|Open|..|s| - |Close|])
      case Some(id) => Some(Account(id))
      case None => None
    else None
  }

  /** A stored record reads back as the account that was stored. */
  lemma DecodeEncode(a: Account)
    ensures Decode(Encode(a)) == Some(a)
  {
    var s := Encode(a);
    assert s[..|Open|] == Open;
    assert s[|s| - |Close|..] == Close;
    assert s[|Open|..|s| - |Close|] == Escape(a.id);
    UnescapeEscape(a.id);
  }

  /** Only the text `Encode` produces decodes: the record format is canonical. */
  lemma EncodeDecode(s: string, a: Account)
    requires Decode(s) == Some(a)
    ensures Encode(a) == s
  {
    var inner := s[|Open|..|s| - |Close|];
    EscapeUnescape(inner, a.id);
    assert s == s[..|Open|] + inner + s[|s| - |Close|..];
  }

  /** A stored record is never the empty string, so it always reads as truthy. */
  lemma EncodeNonEmpty(a: Account)
    ensures Encode(a) != ""
  {
    assert |Encode(a)| >= |Open|;
  }
}
