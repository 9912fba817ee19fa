/**
 * The text stored under `loggedInUser`: `JSON.stringify({ email, role })` on sign-in, read
 * back with `JSON.parse` by the admin guard. Only this record's shape is modelled: a JSON
 * object with the two string members in that order, without white space.
 */
module SessionJson {
  import opened Wrappers

  datatype SessionRecord = SessionRecord(email: string, role: string)

  /** The body of a JSON string literal: quote and backslash are escaped with a backslash. */
  function Escape(s: string): (r: string)
    ensures |r| >= |s|
    ensures '"' !in s && '\\' !in s ==> r == s
  {
    if s == [] then [] else EscapeChar(s[0]) + Escape(s[1..])
  }

  function EscapeChar(c: char): string {
    if c == '"' || c == '\\' then ['\\', c] else [c]
  }

  /** Reads a string literal body up to its closing quote: the text and what follows the quote. */
  function ReadLiteral(s: string): (r: Option<(string, string)>)
    ensures r.Some? ==> |r.value.0| + |r.value.1| < |s|
  {
    if s == [] then None
    else if s[0] == '"' then Some(([], s[1..]))
    else if s[0] == '\\' then
      if |s| >= 2 && (s[1] == '"' || s[1] == '\\') then
        match ReadLiteral(s[2..])
        case Some((text, rest)) => Some(([s[1]] + text, rest))
        case None => None
      else None
    else
      match ReadLiteral(s[1..])
      case Some((text, rest)) => Some(([s[0]] + text, rest))
      case None => None
  }

  /** An escaped body followed by its closing quote reads back as the original text. */
  lemma {:induction false} ReadEscaped(s: string, rest: string)
    ensures ReadLiteral(Escape(s) + "\"" + rest) == Some((s, rest))
  {
    if s == [] {
      assert Escape(s) + "\"" + rest == ['"'] + rest;
    } else {
      var u := Escape(s[1..]) + "\"" + rest;
      ReadEscaped(s[1..], rest);
      assert Escape(s) + "\"" + rest == EscapeChar(s[0]) + u;
      if s[0] == '"' || s[0] == '\\' {
        ReadAfterEscapedChar(s[0], u, s[1..], rest);
      } else {
        ReadAfterPlainChar(s[0], u, s[1..], rest);
      }
      assert [s[0]] + s[1..] == s;
    }
  }

  lemma ReadAfterEscapedChar(c: char, u: string, text: string, rest: string)
    requires c == '"' || c == '\\'
    requires ReadLiteral(u) == Some((text, rest))
    ensures ReadLiteral(['\\', c] + u) == Some(([c] + text, rest))
  {
    assert (['\\', c] + u)[2..] == u;
  }

  lemma ReadAfterPlainChar(c: char, u: string, text: string, rest: string)
    requires c != '"' && c != '\\'
    requires ReadLiteral(u) == Some((text, rest))
    ensures ReadLiteral([c] + u) == Some(([c] + text, rest))
  {
    assert ([c] + u)[1..] == u;
  }

  const EmailPrefix: string := "{\"email\":\""
  const RolePrefix: string := ",\"role\":\""

  /** The rest of `s` after `prefix`, when `s` starts with it. */
  function AfterPrefix(prefix: string, s: string): (r: Option<string>)
    ensures r.Some? ==> s == prefix + r.value
    ensures r.None? ==> forall t :: s != prefix + t
  {
    if |prefix| <= |s| && s[..|prefix|] == prefix then Some(s[|prefix|..]) else None
  }

  /** `JSON.stringify({ email, role })`: two string members, email first. */
  function Encode(rec: SessionRecord): (r: string)
    ensures |r| >= |EmailPrefix| + |rec.email| + |RolePrefix| + |rec.role| + 3
    ensures r[..|EmailPrefix|] == EmailPrefix && r[|r| - 2..] == "\"}"
  {
    EmailPrefix + (Escape(rec.email) + "\"" + (RolePrefix + (Escape(rec.role) + "\"" + "}")))
  }

  /** `JSON.parse` of a stored record; any text of another shape reads as no record. */
  function Decode(text: string): (r: Option<SessionRecord>)
    ensures r.Some? ==> |r.value.email| + |r.value.role| < |text|
  {
    match AfterPrefix(EmailPrefix, text)
    case None => None
    case Some(afterOpen) =>
      match ReadLiteral(afterOpen)
      case None => None
      case Some((email, afterEmail)) =>
        match AfterPrefix(RolePrefix, afterEmail)
        case None => None
        case Some(beforeRole) =>
          match ReadLiteral(beforeRole)
          case None => None
          case Some((role, afterRole)) =>
            if afterRole == "}" then Some(SessionRecord(email, role)) else None
  }

  /** What sign-in writes, the guard reads back unchanged. */
  lemma DecodeEncode(rec: SessionRecord)
    ensures Decode(Encode(rec)) == Some(rec)
  {
    var roleTail := Escape(rec.role) + "\"" + "}";
    var emailTail := Escape(rec.email) + "\"" + (RolePrefix + roleTail);
    assert Encode(rec)[|EmailPrefix|..] == emailTail;
    assert AfterPrefix(EmailPrefix, Encode(rec)) == Some(emailTail);
    ReadEscaped(rec.email, RolePrefix + roleTail);
    assert (RolePrefix + roleTail)[|RolePrefix|..] == roleTail;
    ReadEscaped(rec.role, "}");
  }

  /** Distinct records are stored as distinct texts. */
  lemma EncodeInjective(a: SessionRecord, b: SessionRecord)
    requires Encode(a) == Encode(b)
    ensures a == b
  {
    DecodeEncode(a);
    DecodeEncode(b);
  }
}
