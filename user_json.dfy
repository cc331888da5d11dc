/**
 * The text the auth thunks keep under the storage key "user": the client
 * writes `JSON.stringify(user)` and reads it back with `JSON.parse`.  This
 * module gives that pair a concrete definition for the one shape the client
 * stores, `{"userId":"…","email":"…","name":"…"}`, with `"` and `\` escaped
 * inside the strings, and proves that reading back what was written yields
 * the same user.
 */
module UserJson {
  import opened Common

  /** The body of a JSON string literal for `s`: quote and backslash escaped. */
  function Escape(s: string): string {
    if s == [] then []
    else (if s[0] == '"' || s[0] == '\\' then ['\\', s[0]] else [s[0]]) + Escape(s[1..])
  }

  /**
   * Reads the body of a string literal up to its closing quote: the decoded
   * text and what follows the quote, or `None` when no closing quote comes.
   */
  function ReadString(s: string): Option<(string, string)>
    decreases |s|
  {
    if s == [] then None
    else if s[0] == '"' then Some(([], s[1..]))
    else if s[0] == '\\' then
      if |s| < 2 then None
      else match ReadString(s[2..])
        case None => None
        case Some(p) => Some(([s[1]] + p.0, p.1))
    else match ReadString(s[1..])
      case None => None
      case Some(p) => Some(([s[0]] + p.0, p.1))
  }

  /** `s` with the literal `prefix` removed from its front, if it starts with it. */
  function Expect(prefix: string, s: string): (r: Option<string>)
    ensures r.Some? <==> prefix <= s
    ensures r.Some? ==> s == prefix + r.value
  {
    if |prefix| <= |s| && s[..|prefix|] == prefix then Some(s[|prefix|..]) else None
  }

  // The fixed text around the three string values.
  const UserIdKey: string := "{\"userId\":\""
  const EmailKey: string := ",\"email\":\""
  const NameKey: string := ",\"name\":\""
  const Close: string := "}"

  /** `JSON.stringify(user)`. */
  function Serialize(u: User): string {
    UserIdKey + (Escape(u.userId) + (['"'] + (EmailKey + (Escape(u.email) + (['"']
      + (NameKey + (Escape(u.name) + (['"'] + Close))))))))
  }

  /** The string value that follows the literal `key` at the front of `s`, and the text after its closing quote. */
  function Field(key: string, s: string): Option<(string, string)> {
    match Expect(key, s)
    case None => None
    case Some(r) => ReadString(r)
  }

  /**
   * The stored user read back from `text`; `None` where the text is not in the
   * layout `Serialize` writes.
   */
  function Parse(text: string): Option<User> {
    match Field(UserIdKey, text)
    case None => None
    case Some(f0) =>
      match Field(EmailKey, f0.1)
      case None => None
      case Some(f1) =>
        match Field(NameKey, f1.1)
        case None => None
        case Some(f2) => if f2.1 == Close then Some(User(f0.0, f1.0, f2.0)) else None
  }

  /** Reading an escaped body back stops at the first unescaped quote and returns the original text. */
  lemma {:induction false} ReadEscaped(x: string, rest: string)
    ensures ReadString(Escape(x) + ['"'] + rest) == Some((x, rest))
    decreases |x|
  {
    var s := Escape(x) + ['"'] + rest;
    if x == [] {
      assert s == ['"'] + rest;
      assert s[1..] == rest;
    } else {
      ReadEscaped(x[1..], rest);
      var tail := Escape(x[1..]) + ['"'] + rest;
      if x[0] == '"' || x[0] == '\\' {
        assert s == ['\\', x[0]] + tail;
        assert s[2..] == tail;
        assert [x[0]] + x[1..] == x;
      } else {
        assert s == [x[0]] + tail;
        assert s[1..] == tail;
        assert [x[0]] + x[1..] == x;
      }
    }
  }

  /** A serialized user is never the empty string, which the client would read as "no user". */
  lemma SerializeNonEmpty(u: User)
    ensures Serialize(u) != ""
  {
    assert Serialize(u)[0] == '{';
  }

  /** A key followed by an escaped value reads back as that value. */
  lemma FieldRoundTrip(key: string, x: string, rest: string)
    ensures Field(key, key + (Escape(x) + (['"'] + rest))) == Some((x, rest))
  {
    var body := Escape(x) + (['"'] + rest);
    assert (key + body)[..|key|] == key;
    assert (key + body)[|key|..] == body;
    assert body == Escape(x) + ['"'] + rest;
    ReadEscaped(x, rest);
  }

  /** Reading back what was stored gives the same user. */
  lemma RoundTrip(u: User)
    ensures Parse(Serialize(u)) == Some(u)
  {
    var tail1 := EmailKey + (Escape(u.email) + (['"'] + (NameKey + (Escape(u.name) + (['"'] + Close)))));
    var tail2 := NameKey + (Escape(u.name) + (['"'] + Close));
    FieldRoundTrip(UserIdKey, u.userId, tail1);
    FieldRoundTrip(EmailKey, u.email, tail2);
    FieldRoundTrip(NameKey, u.name, Close);
  }
}
