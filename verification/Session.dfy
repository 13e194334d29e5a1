/** The signed session cookie of `internal/api/auth.go`. */
module Session {
  import opened Text
  import opened Decimal
  import opened Base64
  import Json

  /** Thirty days, in seconds. */
  const TTL := 2592000

  /** The signer is any function into hexadecimal strings. */
  ghost predicate Signer(sign: string -> string) {
    forall p: string :: IsHex(sign(p))
  }

  predicate IsHex(s: string) {
    forall i | 0 <= i < |s| :: '0' <= s[i] <= '9' || 'a' <= s[i] <= 'f'
  }

  /** `hex.EncodeToString`, which the real signer ends with. */
  function HexEncode(mac: string): string
    requires IsBytes(mac)
  {
    if mac == "" then ""
    else [Json.HexDigit(mac[0] as int / 16), Json.HexDigit(mac[0] as int % 16)] + HexEncode(mac[1..])
  }

  /** Whatever the keyed hash, its hexadecimal form is a signer. */
  lemma {:induction false} HexEncodingIsHex(mac: string)
    requires IsBytes(mac)
    ensures IsHex(HexEncode(mac)) && |HexEncode(mac)| == 2 * |mac|
  {
    if mac != "" {
      HexEncodingIsHex(mac[1..]);
    }
  }

  function Payload(userID: string, expiry: int): string {
    userID + ['|'] + FormatInt(expiry)
  }

  function Signed(sign: string -> string, userID: string, expiry: int): string {
    Payload(userID, expiry) + ['|'] + sign(Payload(userID, expiry))
  }

  lemma SignedIsBytes(sign: string -> string, userID: string, expiry: int)
    requires Signer(sign) && IsBytes(userID)
    ensures IsBytes(Signed(sign, userID, expiry))
  {
    var number, sig := FormatInt(expiry), sign(Payload(userID, expiry));
    assert IsHex(sig);
    assert forall i | 0 <= i < |number| :: number[i] in number;
  }

  /** The cookie value for a session that starts at `now`. */
  function Token(sign: string -> string, userID: string, now: int): string
    requires IsBytes(Signed(sign, userID, now + TTL))
  {
    Encode(Signed(sign, userID, now + TTL))
  }

  /** The user a cookie value stands for at time `now`; None for no cookie, a malformed one, a wrong signature, or an
      expired session. */
  function ParseSession(sign: string -> string, cookie: Option<string>, now: int): Option<string> {
    match cookie
    case None => None
    case Some(value) =>
      match Decode(value)
      case None => None
      case Some(raw) =>
        var parts := Split(raw, '|');
        if |parts| != 3 then None
        else if parts[2] != sign(parts[0] + ['|'] + parts[1]) then None
        else
          match ParseInt(parts[1])
          case None => None
          case Some(expiry) => if now > expiry then None else Some(parts[0])
  }

  /** What makes a cookie good: it decodes to a user ID and an expiry, neither holding a bar, followed by the server's own
      signature over just these two, and the expiry has not passed. */
  ghost predicate Good(sign: string -> string, value: string, now: int, userID: string, number: string) {
    && '|' !in userID && '|' !in number
    && Decode(value) == Some(userID + "|" + number + "|" + sign(userID + "|" + number))
    && ParseInt(number).Some? && now <= ParseInt(number).value
  }

  lemma ThreeParts(a: string, b: string, c: string)
    requires '|' !in a && '|' !in b && '|' !in c
    ensures Split(a + "|" + b + "|" + c, '|') == [a, b, c]
  {
    SplitOfConcat(a + "|" + b, '|', c);
    SplitOfConcat(a, '|', b);
    IndexOfBoundary(a, '|', "");
    IndexOfBoundary(b, '|', "");
    IndexOfBoundary(c, '|', "");
  }

  lemma JoinOfThree(raw: string)
    requires |Split(raw, '|')| == 3
    ensures var parts := Split(raw, '|'); raw == parts[0] + "|" + parts[1] + "|" + parts[2]
  {
    var parts := Split(raw, '|');
    JoinOfSplit(raw, '|');
    assert Join(parts, '|') == parts[0] + ['|'] + Join(parts[1..], '|');
    assert Join(parts[1..], '|') == parts[1] + ['|'] + Join(parts[1..][1..], '|');
  }

  /** A session is accepted exactly for a good cookie, whoever made it: in particular never without the server's signature
      over the very user ID and expiry it carries. No cookie is no session. */
  lemma AcceptsExactlyGoodCookies(sign: string -> string, value: string, now: int, userID: string)
    requires Signer(sign)
    ensures ParseSession(sign, Some(value), now) == Some(userID)
            <==> exists number: string :: Good(sign, value, now, userID, number)
    ensures ParseSession(sign, None, now) == None
  {
    if ParseSession(sign, Some(value), now) == Some(userID) {
      var raw := Decode(value).value;
      var parts := Split(raw, '|');
      JoinOfThree(raw);
      assert parts[0] in parts && parts[1] in parts;
      assert Good(sign, value, now, userID, parts[1]);
    }
    if exists number: string :: Good(sign, value, now, userID, number) {
      var number: string :| Good(sign, value, now, userID, number);
      assert IsHex(sign(userID + "|" + number));
      ThreeParts(userID, number, sign(userID + "|" + number));
    }
  }

  class Response {
    var session: Option<string>

    constructor ()
      ensures session == None
    {
      session := None;
    }

    method IssueSession(sign: string -> string, userID: string, now: int)
      requires Signer(sign) && IsBytes(userID)
      modifies this
      ensures IsBytes(Signed(sign, userID, now + TTL)) && session == Some(Token(sign, userID, now))
    {
      SignedIsBytes(sign, userID, now + TTL);
      var payload := userID + ['|'] + FormatInt(now + TTL);
      var token := Encode(payload + ['|'] + sign(payload));
      session := Some(token);
    }
  }

  /** The three fields of a token: the user's own parts, the expiry and the signature. */
  lemma SignedParts(sign: string -> string, userID: string, expiry: int)
    requires Signer(sign)
    ensures Split(Signed(sign, userID, expiry), '|')
            == Split(userID, '|') + [FormatInt(expiry), sign(Payload(userID, expiry))]
  {
    var number, sig := FormatInt(expiry), sign(Payload(userID, expiry));
    assert IsHex(sig);
    SplitOfConcat(Payload(userID, expiry), '|', sig);
    SplitOfConcat(userID, '|', number);
    IndexOfBoundary(number, '|', "");
    IndexOfBoundary(sig, '|', "");
  }

  lemma OnePartExactlyWithoutBar(s: string)
    ensures |Split(s, '|')| == 1 <==> '|' !in s
    ensures '|' !in s ==> Split(s, '|') == [s]
  {
    var i := IndexOf(s, '|');
    if '|' !in s {
      IndexOfBoundary(s, '|', "");
    }
  }

  /** A token issued at `now` is good for its user up to and including its expiry, and never after. That holds exactly
      for user IDs without a bar: any other token is refused from the start. */
  lemma IssuedTokenParses(sign: string -> string, userID: string, now: int, later: int)
    requires Signer(sign) && IsBytes(userID) && IsInt64(now + TTL)
    ensures IsBytes(Signed(sign, userID, now + TTL))
    ensures ParseSession(sign, Some(Token(sign, userID, now)), later)
            == if '|' !in userID && later <= now + TTL then Some(userID) else None
  {
    var expiry := now + TTL;
    SignedIsBytes(sign, userID, expiry);
    RoundTrip(Signed(sign, userID, expiry));
    SignedParts(sign, userID, expiry);
    OnePartExactlyWithoutBar(userID);
    ParseFormatInt(expiry);
  }

  /** Tokens of different users, or of one user at different times, differ. */
  lemma TokensAreDistinct(sign: string -> string, a: string, b: string, now: int, then_: int)
    requires Signer(sign) && IsBytes(a) && IsBytes(b)
    ensures IsBytes(Signed(sign, a, now + TTL)) && IsBytes(Signed(sign, b, then_ + TTL))
    ensures Token(sign, a, now) == Token(sign, b, then_) ==> a == b && now == then_
  {
    var x, y := now + TTL, then_ + TTL;
    SignedIsBytes(sign, a, x);
    SignedIsBytes(sign, b, y);
    if Token(sign, a, now) == Token(sign, b, then_) {
      RoundTrip(Signed(sign, a, x));
      RoundTrip(Signed(sign, b, y));
      SignedParts(sign, a, x);
      SignedParts(sign, b, y);
      var parts := Split(Signed(sign, a, x), '|');
      assert parts[|parts| - 2] == FormatInt(x) && parts[|parts| - 2] == FormatInt(y);
      FormatIntIsInjective(x, y);
      assert parts[..|parts| - 2] == Split(a, '|') && parts[..|parts| - 2] == Split(b, '|');
      JoinOfSplit(a, '|');
      JoinOfSplit(b, '|');
    }
  }
}
