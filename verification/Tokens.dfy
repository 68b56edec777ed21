/** Session tokens: the payload string, the MAC over it, issuing and verifying. */
module Tokens {
  import opened Prelude
  import opened Text

  const TOKEN_VERSION: string := "v1"

  const MAC_LEN: nat := 32

  datatype TokenClaims = TokenClaims(user: Uuid, device: Uuid, expiresAt: i64)

  datatype AuthError = Unauthorized

  /** HMAC-SHA256, URL-safe base64 without padding, and UTF-8. */
  datatype Codecs = Codecs(
    mac: (Bytes, Bytes) -> Bytes,
    encode64: Bytes -> string,
    decode64: string -> Option<Bytes>,
    toUtf8: string -> Bytes,
    fromUtf8: Bytes -> Option<string>)

  /** A MAC is 32 bytes; both text codings are one-to-one and reject what they do not produce. */
  ghost predicate Lawful(lib: Codecs) {
    && (forall key, data :: |lib.mac(key, data)| == 32)
    && (forall b :: lib.decode64(lib.encode64(b)) == Some(b))
    && (forall t :: lib.decode64(t).Some? ==> lib.encode64(lib.decode64(t).value) == t)
    && (forall s :: lib.fromUtf8(lib.toUtf8(s)) == Some(s))
    && (forall b :: lib.fromUtf8(b).Some? ==> lib.toUtf8(lib.fromUtf8(b).value) == b)
    && (forall s :: s != "" ==> lib.toUtf8(s) != [])
  }

  /** Plain codings that meet the laws: a character per byte, and four bytes per character. */
  function PlainCodecs(): Codecs {
    Codecs((key, data) => seq(MAC_LEN, _ => 0), b => CharPerByte(b), t => BytePerChar(t), s => Wide(s),
           b => Narrow(b))
  }

  function CharPerByte(b: Bytes): (t: string)
    ensures |t| == |b| && forall i | 0 <= i < |b| :: t[i] == b[i] as char
  {
    seq(|b|, i requires 0 <= i < |b| => b[i] as char)
  }

  function BytePerChar(t: string): (b: Option<Bytes>)
    ensures b.Some? <==> forall i | 0 <= i < |t| :: t[i] as int < 0x100
    ensures b.Some? ==> |b.value| == |t| && forall i | 0 <= i < |t| :: b.value[i] == t[i] as int
  {
    if forall i | 0 <= i < |t| :: t[i] as int < 0x100 then
      Some(seq(|t|, i requires 0 <= i < |t| && t[i] as int < 0x100 => t[i] as int))
    else None
  }

  function FourBytes(c: char): (b: Bytes)
    ensures |b| == 4
  {
    LittleEndian(c as int)
  }

  /** Surrogates and numbers beyond the last code point are refused. */
  function FromFour(b: Bytes): Option<char>
    requires |b| == 4
  {
    var v := FromLittleEndian(b);
    if 0xD800 <= v < 0xE000 || v >= 0x11_0000 || LittleEndian(v) != b then None else Some(v as char)
  }

  lemma FourBytesRead(c: char)
    ensures FromFour(FourBytes(c)) == Some(c)
  {
    LittleEndianRoundTrip(c as int);
  }

  lemma FromFourPrinted(b: Bytes)
    requires |b| == 4
    ensures FromFour(b).Some? ==> FourBytes(FromFour(b).value) == b
  {
  }

  function Wide(s: string): Bytes {
    if s == "" then [] else FourBytes(s[0]) + Wide(s[1..])
  }

  function Narrow(b: Bytes): Option<string> {
    if b == [] then Some("")
    else if |b| < 4 then None
    else match (FromFour(b[..4]), Narrow(b[4..]))
      case (Some(c), Some(s)) => Some([c] + s)
      case _ => None
  }

  lemma {:induction false} WideRead(s: string)
    ensures Narrow(Wide(s)) == Some(s) && (s != "" ==> Wide(s) != [])
  {
    if s != "" {
      WideRead(s[1..]);
      FourBytesRead(s[0]);
      var b := Wide(s);
      assert b[..4] == FourBytes(s[0]) && b[4..] == Wide(s[1..]);
      assert [s[0]] + s[1..] == s;
    }
  }

  lemma {:induction false} NarrowPrinted(b: Bytes)
    ensures Narrow(b).Some? ==> Wide(Narrow(b).value) == b
  {
    if |b| >= 4 && Narrow(b).Some? {
      NarrowPrinted(b[4..]);
      FromFourPrinted(b[..4]);
      assert Narrow(b).value[1..] == Narrow(b[4..]).value;
    }
  }

  lemma CharsRead(b: Bytes)
    ensures BytePerChar(CharPerByte(b)) == Some(b)
  {
    var t := CharPerByte(b);
    assert forall i | 0 <= i < |b| :: t[i] as int == b[i];
    assert BytePerChar(t).value == b;
  }

  lemma BytesPrinted(t: string)
    ensures BytePerChar(t).Some? ==> CharPerByte(BytePerChar(t).value) == t
  {
  }

  /** The laws ask for nothing that contradicts itself. */
  lemma PlainCodecsLawful()
    ensures Lawful(PlainCodecs())
  {
    forall s { WideRead(s); }
    forall b { NarrowPrinted(b); }
    forall b { CharsRead(b); }
    forall t { BytesPrinted(t); }
  }

  // ---------------------------------------------------------------------------
  // Payload
  // ---------------------------------------------------------------------------

  /** A part and what follows it. */
  function Dot(part: string, rest: string): string {
    part + ['.'] + rest
  }

  function EncodePayload(c: TokenClaims): string {
    Dot(TOKEN_VERSION, Dot(PrintUuid(c.user), Dot(PrintUuid(c.device), PrintI64(c.expiresAt))))
  }

  /** Four parts, no more: version, user, device, expiry. */
  function DecodePayload(payload: string): Option<TokenClaims> {
    ClaimsOf(Split(payload, '.'))
  }

  function ClaimsOf(parts: seq<string>): Option<TokenClaims> {
    if |parts| != 4 || parts[0] != TOKEN_VERSION then None
    else match (ParseUuid(parts[1]), ParseUuid(parts[2]), ParseI64(parts[3]))
      case (Some(user), Some(device), Some(expiresAt)) => Some(TokenClaims(user, device, expiresAt))
      case _ => None
  }

  lemma DotSplits(part: string, rest: string)
    requires '.' !in part
    ensures Split(Dot(part, rest), '.') == [part] + Split(rest, '.')
  {
    SplitCuts(part, rest, '.');
  }

  lemma OneMorePart(part: string, rest: string, parts: seq<string>)
    requires '.' !in part && Split(rest, '.') == parts
    ensures Split(Dot(part, rest), '.') == [part] + parts
  {
    DotSplits(part, rest);
  }

  lemma ThreeInFront(a: string, b: string, c: string, parts: seq<string>)
    ensures [a] + ([b] + ([c] + parts)) == [a, b, c] + parts
  {
  }

  lemma PartsOf(a: string, b: string, c: string, rest: string)
    requires '.' !in a && '.' !in b && '.' !in c
    ensures Split(Dot(a, Dot(b, Dot(c, rest))), '.') == [a, b, c] + Split(rest, '.')
  {
    var parts := Split(rest, '.');
    var last := Dot(c, rest);
    var tail := Dot(b, last);
    OneMorePart(c, rest, parts);
    OneMorePart(b, last, [c] + parts);
    OneMorePart(a, tail, [b] + ([c] + parts));
    ThreeInFront(a, b, c, parts);
  }

  lemma PayloadParts(c: TokenClaims)
    ensures Split(EncodePayload(c), '.') == [TOKEN_VERSION, PrintUuid(c.user), PrintUuid(c.device),
            PrintI64(c.expiresAt)]
  {
    UuidRoundTrip(c.user);
    UuidRoundTrip(c.device);
    I64RoundTrip(c.expiresAt);
    PartsOf(TOKEN_VERSION, PrintUuid(c.user), PrintUuid(c.device), PrintI64(c.expiresAt));
  }

  /** Reading a payload gives back the claims it was made from, for every pair of UUIDs and every expiry. */
  lemma PayloadRoundTrip(c: TokenClaims)
    ensures DecodePayload(EncodePayload(c)) == Some(c)
  {
    PayloadParts(c);
    UuidRoundTrip(c.user);
    UuidRoundTrip(c.device);
    I64RoundTrip(c.expiresAt);
  }

  /** Anything after the expiry, or an expiry left out, makes an otherwise genuine payload unreadable. */
  lemma PayloadExactly(c: TokenClaims, extra: string)
    ensures DecodePayload(Dot(TOKEN_VERSION, Dot(PrintUuid(c.user),
            Dot(PrintUuid(c.device), Dot(PrintI64(c.expiresAt), extra))))) == None
    ensures DecodePayload(Dot(TOKEN_VERSION, Dot(PrintUuid(c.user), PrintUuid(c.device)))) == None
  {
    var u, d, e := PrintUuid(c.user), PrintUuid(c.device), PrintI64(c.expiresAt);
    UuidRoundTrip(c.user);
    UuidRoundTrip(c.device);
    I64RoundTrip(c.expiresAt);
    PartsOf(TOKEN_VERSION, u, d, Dot(e, extra));
    DotSplits(e, extra);
    DotSplits(u, d);
    DotSplits(TOKEN_VERSION, Dot(u, d));
  }

  /** The parts with a dot between any two of them. */
  function Dotted(parts: seq<string>): string
    requires parts != []
  {
    if |parts| == 1 then parts[0] else Dot(parts[0], Dotted(parts[1..]))
  }

  lemma {:induction false} DottedSplits(parts: seq<string>)
    requires parts != [] && forall i | 0 <= i < |parts| :: '.' !in parts[i]
    ensures Split(Dotted(parts), '.') == parts
  {
    if |parts| > 1 {
      DottedSplits(parts[1..]);
      DotSplits(parts[0], Dotted(parts[1..]));
    }
  }

  /** Every string is its parts with dots between them, and no part has a dot. */
  lemma {:induction false} SplitDotted(s: string)
    ensures Dotted(Split(s, '.')) == s && forall i | 0 <= i < |Split(s, '.')| :: '.' !in Split(s, '.')[i]
    decreases |s|
  {
    if '.' in s {
      var k := IndexOf(s, '.');
      SplitDotted(s[k + 1..]);
      assert Split(s, '.')[1..] == Split(s[k + 1..], '.');
    }
  }

  /** The three texts are those of the claims, in whatever spelling. */
  predicate Means(user: string, device: string, expiry: string, c: TokenClaims) {
    ParseUuid(user) == Some(c.user) && ParseUuid(device) == Some(c.device) && ParseI64(expiry) == Some(c.expiresAt)
  }

  lemma ClaimsOfIff(parts: seq<string>, c: TokenClaims)
    ensures ClaimsOf(parts) == Some(c)
            <==> |parts| == 4 && parts == [TOKEN_VERSION, parts[1], parts[2], parts[3]]
                 && Means(parts[1], parts[2], parts[3], c)
  {
  }

  /** The payload reads `v1.user.device.expiry`, and the three texts are those of the claims. */
  predicate Spells(payload: string, user: string, device: string, expiry: string, c: TokenClaims) {
    && payload == Dotted(["v1", user, device, expiry])
    && '.' !in user && '.' !in device && '.' !in expiry && Means(user, device, expiry, c)
  }

  lemma SpelledIsRead(payload: string, user: string, device: string, expiry: string, c: TokenClaims)
    requires Spells(payload, user, device, expiry, c)
    ensures DecodePayload(payload) == Some(c)
  {
    var parts := [TOKEN_VERSION, user, device, expiry];
    DottedSplits(parts);
    ClaimsOfIff(parts, c);
  }

  lemma ReadIsSpelled(payload: string, c: TokenClaims)
    requires DecodePayload(payload) == Some(c)
    ensures exists user, device, expiry :: Spells(payload, user, device, expiry, c)
  {
    var parts := Split(payload, '.');
    SplitDotted(payload);
    ClaimsOfIff(parts, c);
    assert Spells(payload, parts[1], parts[2], parts[3], c);
  }

  /** The payloads that give the claims `c`: the version and three dot-free spellings of them, nothing else. */
  lemma PayloadReadIff(payload: string, c: TokenClaims)
    ensures DecodePayload(payload) == Some(c)
            <==> exists user, device, expiry :: Spells(payload, user, device, expiry, c)
  {
    if DecodePayload(payload) == Some(c) {
      ReadIsSpelled(payload, c);
    }
    if user, device, expiry :| Spells(payload, user, device, expiry, c) {
      SpelledIsRead(payload, user, device, expiry, c);
    }
  }

  /** However many parts there are, unless they are four nothing is read; and four need the version in front. */
  lemma OtherPartCountsRefused(parts: seq<string>)
    requires parts != [] && forall i | 0 <= i < |parts| :: '.' !in parts[i]
    ensures |parts| != 4 || parts[0] != "v1" ==> DecodePayload(Dotted(parts)) == None
  {
    DottedSplits(parts);
  }

  // ---------------------------------------------------------------------------
  // Tokens
  // ---------------------------------------------------------------------------

  /** `i64::saturating_add`. */
  function SaturatingAdd(a: i64, b: i64): i64 {
    var sum := (a as int) + b;
    if sum > I64_MAX then I64_MAX else if sum < I64_MIN then I64_MIN else sum
  }

  function Signed(lib: Codecs, secret: Bytes, payload: Bytes): string {
    lib.encode64(payload + lib.mac(secret, payload))
  }

  function Issue(lib: Codecs, secret: Bytes, c: TokenClaims): string {
    Signed(lib, secret, lib.toUtf8(EncodePayload(c)))
  }

  method IssueToken(lib: Codecs, secret: Bytes, ttl: i64, user: Uuid, device: Uuid, now: i64) returns (token: string)
    ensures token == Issue(lib, secret, TokenClaims(user, device, SaturatingAdd(now, ttl)))
  {
    var expiresAt := SaturatingAdd(now, ttl);
    var payload := lib.toUtf8(EncodePayload(TokenClaims(user, device, expiresAt)));
    var mac := lib.mac(secret, payload);
    var raw: Bytes := [];
    raw := raw + payload;
    raw := raw + mac;
    assert raw == payload + mac;
    token := lib.encode64(raw);
  }

  /** What the token says once its MAC has been checked. */
  function Authentic(lib: Codecs, secret: Bytes, token: string): Option<Bytes> {
    match lib.decode64(token)
    case None => None
    case Some(raw) =>
      if |raw| <= MAC_LEN then None
      else
        var payload := raw[..|raw| - MAC_LEN];
        if raw[|raw| - MAC_LEN..] == lib.mac(secret, payload) then Some(payload) else None
  }

  function VerifyToken(lib: Codecs, secret: Bytes, token: string, now: i64): Result<TokenClaims, AuthError> {
    match Authentic(lib, secret, token)
    case None => Err(Unauthorized)
    case Some(payload) =>
      match lib.fromUtf8(payload)
      case None => Err(Unauthorized)
      case Some(text) =>
        match DecodePayload(text)
        case None => Err(Unauthorized)
        case Some(claims) => if now >= claims.expiresAt then Err(Unauthorized) else Ok(claims)
  }

  lemma SignedIsAuthentic(lib: Codecs, secret: Bytes, payload: Bytes)
    requires Lawful(lib) && payload != []
    ensures Authentic(lib, secret, Signed(lib, secret, payload)) == Some(payload)
  {
    var mac := lib.mac(secret, payload);
    var raw := payload + mac;
    assert lib.decode64(lib.encode64(raw)) == Some(raw);
    assert raw[..|raw| - MAC_LEN] == payload && raw[|raw| - MAC_LEN..] == mac;
  }

  /**
  A token issued at `now` gives back exactly its claims, exactly until the saturated sum of `now` and the
  lifetime.
  */
  lemma IssuedTokenVerifies(lib: Codecs, secret: Bytes, ttl: i64, user: Uuid, device: Uuid, now: i64, t: i64)
    requires Lawful(lib)
    ensures var c := TokenClaims(user, device, SaturatingAdd(now, ttl));
            VerifyToken(lib, secret, Issue(lib, secret, c), t)
            == if t < SaturatingAdd(now, ttl) then Ok(c) else Err(Unauthorized)
  {
    var c := TokenClaims(user, device, SaturatingAdd(now, ttl));
    IssuedIsRead(lib, secret, c);
  }

  /** The MAC of an issued token checks, and its payload decodes to its claims. */
  lemma IssuedIsRead(lib: Codecs, secret: Bytes, c: TokenClaims)
    requires Lawful(lib)
    ensures var read := Authentic(lib, secret, Issue(lib, secret, c));
            && read.Some? && lib.fromUtf8(read.value).Some?
            && DecodePayload(lib.fromUtf8(read.value).value) == Some(c)
  {
    var text := EncodePayload(c);
    assert text != "";
    SignedIsAuthentic(lib, secret, lib.toUtf8(text));
    PayloadRoundTrip(c);
  }

  /** The saturated sum is the true one where that fits, and the nearest bound where it does not. */
  lemma SaturatesAtBounds(a: i64, b: i64)
    ensures var sum := (a as int) + (b as int);
            var r := SaturatingAdd(a, b) as int;
            && (I64_MIN <= sum <= I64_MAX ==> r == sum)
            && (sum > I64_MAX ==> r == I64_MAX) && (sum < I64_MIN ==> r == I64_MIN)
  {
  }

  /**
  How long an issued token is good for, on the clock: while the time is below issue time plus lifetime, and
  never at the last instant a clock can show.
  */
  lemma IssuedTokenLasts(lib: Codecs, secret: Bytes, ttl: i64, user: Uuid, device: Uuid, now: i64, t: i64)
    requires Lawful(lib)
    ensures var claims := TokenClaims(user, device, SaturatingAdd(now, ttl));
            var r := VerifyToken(lib, secret, Issue(lib, secret, claims), t);
            && (r.Ok? <==> (t as int) < (now as int) + (ttl as int) && t as int != I64_MAX)
            && (r.Ok? ==> r.value.user == user && r.value.device == device)
            && (r.Err? ==> r.error == Unauthorized)
  {
    IssuedTokenVerifies(lib, secret, ttl, user, device, now, t);
    SaturatesAtBounds(now, ttl);
  }

  /** The string is the coding of a payload followed by that payload's MAC. */
  predicate Carries(lib: Codecs, secret: Bytes, token: string, text: string) {
    token == lib.encode64(lib.toUtf8(text) + lib.mac(secret, lib.toUtf8(text)))
  }

  lemma CarriedIsAuthentic(lib: Codecs, secret: Bytes, token: string, text: string)
    requires Lawful(lib) && Carries(lib, secret, token, text) && text != ""
    ensures Authentic(lib, secret, token) == Some(lib.toUtf8(text))
  {
    SignedIsAuthentic(lib, secret, lib.toUtf8(text));
  }

  lemma AuthenticIsCarried(lib: Codecs, secret: Bytes, token: string)
    requires Lawful(lib) && Authentic(lib, secret, token).Some?
    ensures var text := lib.fromUtf8(Authentic(lib, secret, token).value);
            text.Some? ==> Carries(lib, secret, token, text.value)
  {
    AuthenticIsSigned(lib, secret, token);
  }

  lemma EmptyHasNoClaims()
    ensures DecodePayload("") == None
  {
  }

  /**
  Which strings are accepted, with which claims, of all strings there are: the coding of a payload and its
  MAC, whose text spells the claims, before their expiry. Everything else is unauthorized.
  */
  lemma VerifiesIff(lib: Codecs, secret: Bytes, token: string, now: i64, c: TokenClaims)
    requires Lawful(lib)
    ensures var r := VerifyToken(lib, secret, token, now);
            && (r.Err? ==> r == Err(Unauthorized))
            && (r == Ok(c) <==>
                  && now < c.expiresAt
                  && exists text :: Carries(lib, secret, token, text) && DecodePayload(text) == Some(c))
  {
    var r := VerifyToken(lib, secret, token, now);
    if r == Ok(c) {
      AuthenticIsCarried(lib, secret, token);
      assert DecodePayload(lib.fromUtf8(Authentic(lib, secret, token).value).value) == Some(c);
    }
    if text :| Carries(lib, secret, token, text) && DecodePayload(text) == Some(c) {
      EmptyHasNoClaims();
      CarriedIsAuthentic(lib, secret, token, text);
      assert lib.fromUtf8(lib.toUtf8(text)) == Some(text);
    }
  }

  /** A token whose MAC checks is the one string that signs its payload. */
  lemma AuthenticIsSigned(lib: Codecs, secret: Bytes, token: string)
    requires Lawful(lib) && Authentic(lib, secret, token).Some?
    ensures token == Signed(lib, secret, Authentic(lib, secret, token).value)
  {
    var raw := lib.decode64(token).value;
    assert raw == raw[..|raw| - MAC_LEN] + raw[|raw| - MAC_LEN..];
  }

  /** The claims handed out so far are the only ones whose payloads carry a MAC under the server's secret. */
  ghost predicate Unforged(lib: Codecs, secret: Bytes, token: string, issued: set<TokenClaims>) {
    Authentic(lib, secret, token).Some? ==>
      exists c | c in issued :: Authentic(lib, secret, token).value == lib.toUtf8(EncodePayload(c))
  }

  /**
  Without forged MACs, what is accepted is an issued token, character for character, with its own claims and
  not yet expired.
  */
  lemma OnlyIssuedTokensVerify(lib: Codecs, secret: Bytes, token: string, t: i64, issued: set<TokenClaims>)
    requires Lawful(lib) && Unforged(lib, secret, token, issued)
    ensures VerifyToken(lib, secret, token, t).Ok? ==>
              var c := VerifyToken(lib, secret, token, t).value;
              c in issued && token == Issue(lib, secret, c) && t < c.expiresAt
  {
    if VerifyToken(lib, secret, token, t).Ok? {
      var payload := Authentic(lib, secret, token).value;
      AuthenticIsSigned(lib, secret, token);
      var c :| c in issued && payload == lib.toUtf8(EncodePayload(c));
      assert lib.fromUtf8(payload) == Some(EncodePayload(c));
      PayloadRoundTrip(c);
    }
  }
}
