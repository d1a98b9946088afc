/**
 The session cookie of web/auth.go: groups are read out of the user-info claims,
 stored in a signed payload, and read back on later requests. Times are
 nanoseconds since the Unix epoch; HMAC-SHA-256 and the JSON codec are parameters.
 */
module Session {
  import opened Base64
  import opened GroupClaims
  import opened Text
  import opened Wrappers

  // ------------------------------------------------------------ signed values

  type Mac = (seq<Byte>, string) -> seq<Byte>

  /** signCookie */
  function SignCookie(mac: Mac, secret: seq<Byte>, payload: seq<Byte>): string {
    Encode(payload) + ['.'] + Encode(mac(secret, Encode(payload)))
  }

  /** verifySignedCookie */
  function VerifySignedCookie(mac: Mac, secret: seq<Byte>, value: string): Result<seq<Byte>> {
    var parts := CutAt(value, '.');
    if !parts.found then Err else
    match Decode(parts.after)
    case None => Err
    case Some(provided) =>
      if mac(secret, parts.before) != provided then Err else
      match Decode(parts.before)
      case None => Err
      case Some(payload) => Ok(payload)
  }

  /** What was signed verifies, and yields the payload. */
  lemma SignedVerifies(mac: Mac, secret: seq<Byte>, payload: seq<Byte>)
    ensures VerifySignedCookie(mac, secret, SignCookie(mac, secret, payload)) == Ok(payload)
  {
    var e := Encode(payload);
    var signature := mac(secret, e);
    RoundTrip(payload);
    RoundTrip(signature);
    CutFirst(e, Encode(signature), '.');
  }

  /** The values that verify: an encoding of the payload, a dot, and an encoding of
      the code of the very characters before the dot. */
  predicate Authentic(mac: Mac, secret: seq<Byte>, body: string, signature: string, payload: seq<Byte>) {
    && '.' !in body
    && Decode(body) == Some(payload)
    && Decode(signature) == Some(mac(secret, body))
  }

  lemma VerifiesIffAuthentic(mac: Mac, secret: seq<Byte>, value: string, payload: seq<Byte>)
    ensures VerifySignedCookie(mac, secret, value) == Ok(payload)
       <==> exists body, signature :: value == body + ['.'] + signature && Authentic(mac, secret, body, signature, payload)
  {
    var parts := CutAt(value, '.');
    if VerifySignedCookie(mac, secret, value) == Ok(payload) {
      assert value == parts.before + ['.'] + parts.after;
      assert Authentic(mac, secret, parts.before, parts.after, payload);
    }
    forall body, signature | value == body + ['.'] + signature && Authentic(mac, secret, body, signature, payload)
      ensures VerifySignedCookie(mac, secret, value) == Ok(payload)
    {
      CutFirst(body, signature, '.');
    }
  }

  // ------------------------------------------------------- sessions and cookies

  type Claims = Option<map<string, Claim>>

  datatype Session = Session(userInfo: Claims, groups: seq<string>)
  datatype Payload = Payload(expiresAt: int, userInfo: Claims, groups: seq<string>)

  type Marshal = Payload -> seq<Byte>
  type Unmarshal = seq<Byte> -> Option<Payload>

  const SECOND := 1_000_000_000
  const SESSION_TTL := 24 * 60 * 60 * SECOND

  /** time.Time.Unix */
  function Unix(t: int): int {
    t / SECOND
  }

  function GroupsClaim(userInfo: Claims): Option<Claim> {
    if userInfo.Some? && "groups" in userInfo.value then Some(userInfo.value["groups"]) else None
  }

  /** newAuthSession */
  function NewSession(userInfo: Claims): Session {
    Session(userInfo, GroupsOf(GroupsClaim(userInfo)))
  }

  /** setSessionCookie: the value of the cookie issued at time `now`. */
  function SessionCookie(marshal: Marshal, mac: Mac, secret: seq<Byte>, session: Session, now: int): string {
    SignCookie(mac, secret, marshal(Payload(Unix(now + SESSION_TTL), session.userInfo, session.groups)))
  }

  /** userInfoFromCookie: the session of a request that arrives at time `now`. */
  function ReadSession(unmarshal: Unmarshal, mac: Mac, secret: seq<Byte>, cookie: Option<string>, now: int): Result<Session> {
    if cookie.None? then Err else
    match VerifySignedCookie(mac, secret, cookie.value)
    case Err => Err
    case Ok(data) =>
      match unmarshal(data)
      case None => Err
      case Some(payload) =>
        if Unix(now) > payload.expiresAt then Err else
          Ok(Session(payload.userInfo,
                     if payload.groups == [] then GroupsOf(GroupsClaim(payload.userInfo)) else payload.groups))
  }

  // --------------------------------------------------------------- JSON transport

  /** A claim after one trip through JSON: lists of strings come back as lists of values. */
  function Carried(claim: Claim): Claim {
    match claim
    case Texts(texts) => List(AsItems(texts))
    case List(items) => List(seq(|items|, i requires 0 <= i < |items| => Carried(items[i])))
    case Text(_) => claim
    case Other(_) => claim
  }

  function CarriedInfo(userInfo: Claims): Claims {
    match userInfo
    case None => None
    case Some(claims) => Some(map k | k in claims :: Carried(claims[k]))
  }

  /** A codec that changes nothing but the Go type of a list. */
  ghost predicate Faithful(marshal: Marshal, unmarshal: Unmarshal) {
    forall p: Payload :: unmarshal(marshal(p)) == Some(p.(userInfo := CarriedInfo(p.userInfo)))
  }

  lemma {:induction false} TextsInCarried(items: seq<Claim>)
    ensures TextsIn(seq(|items|, i requires 0 <= i < |items| => Carried(items[i]))) == TextsIn(items)
  {
    if items != [] {
      var n := |items| - 1;
      var carried := seq(|items|, i requires 0 <= i < |items| => Carried(items[i]));
      TextsInCarried(items[..n]);
      assert carried[..n] == seq(n, i requires 0 <= i < n => Carried(items[..n][i]));
      assert carried[n].Text? <==> items[n].Text?;
    }
  }

  /** Groups computed from a session that was read back are those computed at login. */
  lemma GroupsSurviveTransport(userInfo: Claims)
    ensures GroupsOf(GroupsClaim(CarriedInfo(userInfo))) == GroupsOf(GroupsClaim(userInfo))
  {
    match GroupsClaim(userInfo)
    case Some(List(items)) => TextsInCarried(items);
    case Some(Texts(texts)) => TextsInItems(texts);
    case _ =>
  }

  /** A session is read back with the groups it was given at login, during the 24 hours
      after the second of its issue, and is refused from then on. */
  lemma SessionRoundTrip(marshal: Marshal, unmarshal: Unmarshal, mac: Mac, secret: seq<Byte>,
                         userInfo: Claims, issued: int, now: int)
    requires Faithful(marshal, unmarshal)
    ensures ReadSession(unmarshal, mac, secret, Some(SessionCookie(marshal, mac, secret, NewSession(userInfo), issued)), now)
         == if now / SECOND <= issued / SECOND + 86_400 then Ok(Session(CarriedInfo(userInfo), NewSession(userInfo).groups))
            else Err
  {
    var session := NewSession(userInfo);
    var payload := Payload(Unix(issued + SESSION_TTL), userInfo, session.groups);
    SignedVerifies(mac, secret, marshal(payload));
    GroupsSurviveTransport(userInfo);
    assert unmarshal(marshal(payload)) == Some(payload.(userInfo := CarriedInfo(userInfo)));
  }

  /** The groups that the "groups" claim names. */
  function ClaimedGroups(userInfo: Claims): seq<string> {
    if userInfo.Some? && "groups" in userInfo.value then GroupsOf(Some(userInfo.value["groups"])) else []
  }

  lemma LoginGroups(userInfo: Claims)
    ensures NewSession(userInfo) == Session(userInfo, ClaimedGroups(userInfo))
  {
  }

  /** The cookie's characters before and after the dot are authentic, and the payload has
      not expired and holds the session; a payload without groups takes them from the claims. */
  predicate Grants(unmarshal: Unmarshal, mac: Mac, secret: seq<Byte>, body: string, signature: string, data: seq<Byte>, now: int, session: Session) {
    && Authentic(mac, secret, body, signature, data)
    && unmarshal(data).Some? && var payload := unmarshal(data).value;
       && now / 1_000_000_000 <= payload.expiresAt && session.userInfo == payload.userInfo
       && session.groups == if payload.groups == [] then ClaimedGroups(payload.userInfo) else payload.groups
  }

  /** Exactly when a session is read, and which one. */
  lemma ReadIffAuthentic(unmarshal: Unmarshal, mac: Mac, secret: seq<Byte>, cookie: Option<string>, now: int, session: Session)
    ensures ReadSession(unmarshal, mac, secret, cookie, now) == Ok(session)
       <==> exists body, signature, data :: cookie == Some(body + ['.'] + signature) && Grants(unmarshal, mac, secret, body, signature, data, now, session)
  {
    if ReadSession(unmarshal, mac, secret, cookie, now) == Ok(session) {
      var data := VerifySignedCookie(mac, secret, cookie.value).value;
      VerifiesIffAuthentic(mac, secret, cookie.value, data);
      var body, signature :| cookie.value == body + ['.'] + signature && Authentic(mac, secret, body, signature, data);
      assert Grants(unmarshal, mac, secret, body, signature, data, now, session);
    }
    forall body, signature, data | cookie == Some(body + ['.'] + signature) && Grants(unmarshal, mac, secret, body, signature, data, now, session)
      ensures ReadSession(unmarshal, mac, secret, cookie, now) == Ok(session)
    {
      VerifiesIffAuthentic(mac, secret, cookie.value, data);
    }
  }
}
