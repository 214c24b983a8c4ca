/**
 * The signed-in user as the session keeps it, and the JSON text under which
 * it is cached in browser storage (`JSON.stringify` of `{id, email,
 * is_verified}`, read back with `JSON.parse`).
 */
module UserRecord {
  import opened Wrappers
  import opened JsonText
  import opened Strings

  datatype User = User(id: int, email: string, isVerified: bool)

  const IdField := "{\"id\":"
  const EmailField := ",\"email\":\""
  const VerifiedField := ",\"is_verified\":"

  function BoolText(b: bool): string { if b then "true" else "false" }

  /** `JSON.stringify({id, email, is_verified})`: keys in that order, no spaces. */
  function Stringify(u: User): (r: string)
    ensures |r| > 0
  {
    IdField + IntText(u.id) + AfterId(u)
  }

  /** The record's text after the id: the email member, then the closing one. */
  function AfterId(u: User): string
  {
    EmailField + Escape(u.email) + "\"" + AfterEmail(u.isVerified)
  }

  /** The record's text after the email's closing quote. */
  function AfterEmail(isVerified: bool): string
  {
    VerifiedField + BoolText(isVerified) + "}"
  }

  /**
   * Reads a stored user record. It accepts JSON text with the keys in the
   * order `Stringify` writes them and no whitespace, and gives `None` for
   * every such text `JSON.parse` would throw on.
   */
  function Parse(s: string): Option<User>
  {
    if !HasPrefix(s, IdField) then None
    else
      match ParseInt(s[|IdField|..])
      case None => None
      case Some((id, a)) => ParseEmail(id, a)
  }

  function ParseEmail(id: int, a: string): Option<User>
  {
    if !HasPrefix(a, EmailField) then None
    else
      match ParseStringBody(a[|EmailField|..])
      case None => None
      case Some((email, b)) => ParseVerified(id, email, b)
  }

  function ParseVerified(id: int, email: string, b: string): Option<User>
  {
    if b == VerifiedField + "true}" then Some(User(id, email, true))
    else if b == VerifiedField + "false}" then Some(User(id, email, false))
    else None
  }

  /** A record whose id has a leading zero is not JSON and does not read. */
  lemma LeadingZeroIdRejected(t: string, rest: string)
    requires |t| > 1 && t[0] == '0' && IsDigit(t[1])
    ensures Parse(IdField + t + rest) == None
  {
    var s := IdField + t + rest;
    assert s[..|IdField|] == IdField;
    assert s[|IdField|..] == t + rest;
    assert (t + rest)[0] == '0' && (t + rest)[1] == t[1];
    LeadingZeroRejected(t + rest);
  }

  /** A record written by `Stringify` reads back as the same user. */
  lemma ParseStringify(u: User)
    ensures Parse(Stringify(u)) == Some(u)
  {
    ParseEmailOf(u);
    StringifyLayout(u);
    ParseIntText(u.id, AfterId(u));
  }

  lemma StringifyLayout(u: User)
    ensures Stringify(u)[..|IdField|] == IdField
    ensures Stringify(u)[|IdField|..] == IntText(u.id) + AfterId(u)
  {
    assert Stringify(u) == IdField + (IntText(u.id) + AfterId(u));
  }

  lemma ParseEmailOf(u: User)
    ensures ParseEmail(u.id, AfterId(u)) == Some(u)
  {
    var rest := AfterEmail(u.isVerified);
    var body := Escape(u.email) + "\"" + rest;
    assert AfterId(u) == EmailField + body;
    assert AfterId(u)[..|EmailField|] == EmailField;
    assert AfterId(u)[|EmailField|..] == body;
    ParseEscaped(u.email, rest);
    ParseVerifiedOf(u);
  }

  lemma ParseVerifiedOf(u: User)
    ensures ParseVerified(u.id, u.email, AfterEmail(u.isVerified)) == Some(u)
  {
  }
}
