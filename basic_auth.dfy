/** The "Basic" HTTP authentication scheme of section 2 of RFC 7617: the
    credentials are the user-id and the password joined by a single colon,
    encoded as UTF-8 octets and then as base64 (section 4 of RFC 4648). The
    Langfuse client sends its public key as the user-id and its secret key
    as the password. `Parse` is what a server does with the header; the two
    are proved inverse whenever the user-id has no colon, and a user-id with
    a colon is shown to be ambiguous (section 2 of RFC 7617 calls it invalid). */
module BasicAuth {
  import opened Wrappers
  import Base64
  import Utf8

  const Scheme: string := "Basic "

  /** The user-pass string: user-id, one colon, password. */
  function UserPass(userId: string, password: string): string {
    userId + ":" + password
  }

  /** The Authorization header value for the given credentials. */
  function Credentials(userId: string, password: string): string {
    Scheme + Base64.Encode(Utf8.Encode(UserPass(userId, password)))
  }

  /** Splits at the first colon: the user-id cannot contain one. */
  function SplitAtColon(s: string): (r: Option<(string, string)>)
    ensures r.Some? <==> ':' in s
  {
    if s == [] then None
    else if s[0] == ':' then Some(([], s[1..]))
    else match SplitAtColon(s[1..])
      case None => None
      case Some((u, p)) => Some(([s[0]] + u, p))
  }

  /** A server's reading of an Authorization header value. */
  function Parse(h: string): Option<(string, string)> {
    if |h| < |Scheme| || h[..|Scheme|] != Scheme then None
    else match Base64.Decode(h[|Scheme|..])
      case None => None
      case Some(b) =>
        match Utf8.Decode(b)
        case None => None
        case Some(s) => SplitAtColon(s)
  }

  lemma {:induction false} SplitUserPass(userId: string, password: string)
    requires ':' !in userId
    ensures SplitAtColon(UserPass(userId, password)) == Some((userId, password))
  {
    if userId != [] {
      SplitUserPass(userId[1..], password);
      assert UserPass(userId, password)[1..] == UserPass(userId[1..], password);
      assert [userId[0]] + userId[1..] == userId;
    }
  }

  /** The header carries the credentials it was made from. */
  lemma ParseCredentials(userId: string, password: string)
    requires ':' !in userId
    ensures Parse(Credentials(userId, password)) == Some((userId, password))
  {
    var b := Utf8.Encode(UserPass(userId, password));
    var h := Credentials(userId, password);
    assert h[|Scheme|..] == Base64.Encode(b);
    Base64.DecodeEncode(b);
    Utf8.DecodeEncode(UserPass(userId, password));
    SplitUserPass(userId, password);
  }

  /** Two different credential pairs whose user-id has a colon give the same
      header, so the pair cannot be recovered from it. */
  lemma ColonInUserIdIsAmbiguous()
    ensures Credentials("a:b", "c") == Credentials("a", "b:c")
    ensures Parse(Credentials("a:b", "c")) == Some(("a", "b:c"))
  {
    assert UserPass("a:b", "c") == UserPass("a", "b:c");
    ParseCredentials("a", "b:c");
  }
}
