/**
 * The exchange session of the KuCoin trading client: request signing,
 * the account-balance refresh and market-order submission.
 *
 * HMAC-SHA256 followed by base64 is the session's `mac` (key, message) -> text,
 * a total function the model never looks inside. The clock, the order's UUID,
 * the JSON encoder and the replies of the HTTP transport are parameters.
 * Every panic of the source (`unwrap`, `expect`, `panic!`) is an error value.
 */
module KucoinClient {
  import opened Wrappers
  import opened Digits

  /** Keyed signature, base64-encoded: HMAC-SHA256(key, message) in the source. */
  type Mac = (string, string) -> string

  /** The credentials and endpoint the session is built from. */
  datatype Config = Config(kucoinKey: string, kucoinSecret: string, kucoinPassphrase: string, baseUrl: string)

  /** One entry of the spot wallet; amounts stay decimal strings. */
  datatype Asset = Asset(id: string, currency: string, typ: string, balance: string, available: string, holds: string)

  datatype AccountBalanceResponse = AccountBalanceResponse(code: string, data: seq<Asset>)

  /** The JSON body of a market order (`clientOid`, `side`, `symbol`, `type`, `tradeType`, `funds`, `size`). */
  datatype MarketOrderParams = MarketOrderParams(
    clientOid: string, side: string, symbol: string, typ: string, tradeType: string, funds: string, size: string)

  datatype OrderType = Buy | Sell

  /** What a signed request is for: it alone decides the HTTP method and path. */
  datatype TradeType = Trade(order: OrderType) | Balance

  /** The ways the session gives up; each is a panic in the source. */
  datatype Fault =
    | AmountConflict               // neither or both of size and funds given
    | InvalidHeaderValue(header: string) // a header value with a forbidden byte
    | UnreadableBalance            // the balance reply could not be fetched or decoded

  type HeaderMap = map<string, string>

  /** A request as handed to the HTTP transport. */
  datatype SignedRequest = SignedRequest(verb: string, url: string, headers: HeaderMap, body: string)

  /** What an order submission did: gave up before sending, or sent and got the transport's reply. */
  datatype OrderOutcome =
    | Aborted(fault: Fault)
    | Submitted(order: MarketOrderParams, request: SignedRequest, response: Result<string, string>)

  const SignHeader := "kc-api-sign"
  const TimestampHeader := "kc-api-timestamp"
  const KeyHeader := "kc-api-key"
  const PassphraseHeader := "kc-api-passphrase"
  const VersionHeader := "kc-api-key-version"
  const AuthHeaders: set<string> := {SignHeader, TimestampHeader, KeyHeader, PassphraseHeader, VersionHeader}

  const AccountsPath := "/api/v1/accounts"
  const OrdersPath := "/api/v1/orders"

  function Method(kind: TradeType): string {
    match kind
    case Balance => "GET"
    case Trade(_) => "POST"
  }

  function Path(kind: TradeType): string {
    match kind
    case Balance => AccountsPath
    case Trade(_) => OrdersPath
  }

  /** Bytes a header value may hold: visible characters and tab, never DEL or other controls. */
  predicate ValidHeaderChar(c: char) {
    (' ' <= c && c as int != 127) || c == '\t'
  }

  predicate ValidHeaderValue(v: string) {
    forall i :: 0 <= i < |v| ==> ValidHeaderChar(v[i])
  }

  predicate IsTimestampChar(c: char) {
    c == '-' || IsDigit(c)
  }

  /** The leading run of sign and digit characters of a canonical string. */
  function TimestampPrefix(s: string): (p: string)
    ensures p <= s
  {
    if s != [] && IsTimestampChar(s[0]) then [s[0]] + TimestampPrefix(s[1..]) else []
  }

  lemma {:induction false} TimestampPrefixOfConcat(t: string, rest: string)
    requires forall i :: 0 <= i < |t| ==> IsTimestampChar(t[i])
    requires rest == [] || !IsTimestampChar(rest[0])
    ensures TimestampPrefix(t + rest) == t
  {
    if t == [] {
      assert t + rest == rest;
    } else {
      assert (t + rest)[1..] == t[1..] + rest;
      TimestampPrefixOfConcat(t[1..], rest);
    }
  }

  /**
   * The canonical string a request's signature covers: the millisecond timestamp,
   * the method and the path the request kind selects, and the body. The timestamp
   * can be read back from its front, and the order side plays no part.
   */
  function SigningString(millis: int, kind: TradeType, body: string): (s: string)
    ensures kind.Balance? ==> s == SignedDecimal(millis) + "GET" + "/api/v1/accounts" + body
    ensures kind.Trade? ==> s == SignedDecimal(millis) + "POST" + "/api/v1/orders" + body
    ensures TimestampPrefix(s) == SignedDecimal(millis)
  {
    var t := SignedDecimal(millis);
    var line := RequestLine(kind, body);
    TimestampChars(millis);
    assert line[0] == Method(kind)[0];
    TimestampPrefixOfConcat(t, line);
    ConcatAssociates(t, Method(kind), Path(kind), body);
    t + line
  }

  /** The part of a canonical string after the timestamp. */
  function RequestLine(kind: TradeType, body: string): string {
    Method(kind) + Path(kind) + body
  }

  lemma ConcatAssociates(t: string, m: string, p: string, b: string)
    ensures t + m + p + b == t + (m + p + b)
  {
  }

  /** A rendered timestamp consists of sign and digit characters only. */
  lemma TimestampChars(millis: int)
    ensures forall i :: 0 <= i < |SignedDecimal(millis)| ==> IsTimestampChar(SignedDecimal(millis)[i])
  {
    var t := SignedDecimal(millis);
    forall i | 0 <= i < |t|
      ensures IsTimestampChar(t[i])
    {
      if millis < 0 && i > 0 {
        assert t[i] == Decimal(-millis)[i - 1];
      }
    }
  }

  /**
   * Distinct requests never share a canonical string: the string fixes the
   * timestamp, the method, the path and the body.
   */
  lemma SigningStringInjective(m1: int, k1: TradeType, b1: string, m2: int, k2: TradeType, b2: string)
    requires SigningString(m1, k1, b1) == SigningString(m2, k2, b2)
    ensures m1 == m2 && Method(k1) == Method(k2) && Path(k1) == Path(k2) && b1 == b2
  {
    assert SignedDecimal(m1) == TimestampPrefix(SigningString(m1, k1, b1)) == SignedDecimal(m2);
    SignedDecimalInjective(m1, m2);
    var t := SignedDecimal(m1);
    var r1, r2 := RequestLine(k1, b1), RequestLine(k2, b2);
    SigningStringSplit(m1, k1, b1);
    SigningStringSplit(m2, k2, b2);
    assert r1 == (t + r1)[|t|..];
    assert r2 == (t + r2)[|t|..];
    RequestLineInjective(k1, b1, k2, b2);
  }

  lemma SigningStringSplit(millis: int, kind: TradeType, body: string)
    ensures SigningString(millis, kind, body) == SignedDecimal(millis) + RequestLine(kind, body)
  {
  }

  /** What follows the timestamp in a canonical string fixes the method, the path and the body. */
  lemma RequestLineInjective(k1: TradeType, b1: string, k2: TradeType, b2: string)
    requires RequestLine(k1, b1) == RequestLine(k2, b2)
    ensures Method(k1) == Method(k2) && Path(k1) == Path(k2) && b1 == b2
  {
    var r := RequestLine(k1, b1);
    assert r[0] == Method(k1)[0] && r[0] == Method(k2)[0];
    var head := Method(k1) + Path(k1);
    assert r == head + b1;
    assert Method(k2) + Path(k2) == head;
    assert r == head + b2;
    assert b1 == r[|head|..] == b2;
  }

  /** generate_encrypted_passphrase: the passphrase signed with the API secret. */
  function EncryptedPassphrase(mac: Mac, secret: string, passphrase: string): string {
    mac(secret, passphrase)
  }

  /** The order side as the exchange spells it. */
  function SideName(side: OrderType): (r: string)
    ensures r == "buy" || r == "sell"
    ensures r == "buy" <==> side == Buy
  {
    match side
    case Sell => "sell"
    case Buy => "buy"
  }

  /** The source's refusal: neither of size and funds given, or both. */
  predicate AmountsConflict(size: string, funds: string): (r: bool)
    ensures r <==> (size == "" <==> funds == "")
  {
    (size == "" && funds == "") || (size != "" && funds != "")
  }

  class Kucoin {
    const apiKey: string
    const apiSecret: string
    const passphrase: string
    const baseUrl: string
    const passphraseSignature: string
    const mac: Mac
    var wallet: Option<AccountBalanceResponse>

    /** The stored passphrase signature is the one derived from the secret and the passphrase. */
    ghost predicate Valid() {
      passphraseSignature == EncryptedPassphrase(mac, apiSecret, passphrase)
    }

    /** The session before its first balance fetch: credentials copied, passphrase signed once. */
    constructor (config: Config, mac: Mac)
      ensures Valid()
      ensures apiKey == config.kucoinKey && apiSecret == config.kucoinSecret
      ensures passphrase == config.kucoinPassphrase && baseUrl == config.baseUrl && this.mac == mac
      ensures passphraseSignature == mac(config.kucoinSecret, config.kucoinPassphrase)
      ensures wallet == None
    {
      var encoded := EncryptedPassphrase(mac, config.kucoinSecret, config.kucoinPassphrase);
      apiKey := config.kucoinKey;
      apiSecret := config.kucoinSecret;
      passphrase := config.kucoinPassphrase;
      baseUrl := config.baseUrl;
      passphraseSignature := encoded;
      this.mac := mac;
      wallet := None;
    }

    /** Kucoin::new: build the session, then fetch the balance into `wallet`. */
    static method New(config: Config, mac: Mac, millis: int, decoded: Option<AccountBalanceResponse>)
      returns (r: Result<Kucoin, Fault>)
      ensures r.Ok? ==> fresh(r.value) && r.value.Valid()
      ensures r.Ok? ==> r.value.apiKey == config.kucoinKey && r.value.apiSecret == config.kucoinSecret
      ensures r.Ok? ==> r.value.passphrase == config.kucoinPassphrase && r.value.baseUrl == config.baseUrl
      ensures r.Ok? ==> r.value.mac == mac && r.value.passphraseSignature == mac(config.kucoinSecret, config.kucoinPassphrase)
      ensures r.Ok? <==> decoded.Some?
                         && ValidHeaderValue(mac(config.kucoinSecret, SigningString(millis, Balance, "")))
                         && ValidHeaderValue(config.kucoinKey)
                         && ValidHeaderValue(mac(config.kucoinSecret, config.kucoinPassphrase))
      ensures r.Ok? ==> r.value.wallet == Some(decoded.value)
    {
      var client := new Kucoin(config, mac);
      var outcome := client.RefreshAccountBalance(millis, decoded);
      if outcome.Err? {
        return Err(outcome.error);
      }
      return Ok(client);
    }

    /** The three header values built from text that can fail the header-value check. */
    predicate HeaderValuesValid(kind: TradeType, body: string, millis: int) {
      ValidHeaderValue(mac(apiSecret, SigningString(millis, kind, body)))
      && ValidHeaderValue(apiKey)
      && ValidHeaderValue(passphraseSignature)
    }

    /** `h` is exactly the five authentication headers of a `kind` request with `body` at `millis`. */
    predicate Authenticates(h: HeaderMap, kind: TradeType, body: string, millis: int) {
      h.Keys == AuthHeaders
      && h[SignHeader] == mac(apiSecret, SigningString(millis, kind, body))
      && h[TimestampHeader] == SignedDecimal(millis)
      && h[KeyHeader] == apiKey
      && h[PassphraseHeader] == passphraseSignature
      && h[VersionHeader] == "2"
    }

    /**
     * The exchange's side of the protocol: from the request alone it rebuilds the
     * canonical string (timestamp header, method, path, body) and the passphrase
     * signature, and compares them with what was sent.
     */
    ghost predicate ExchangeAccepts(req: SignedRequest, path: string) {
      SignHeader in req.headers && TimestampHeader in req.headers
      && KeyHeader in req.headers && PassphraseHeader in req.headers
      && req.headers[KeyHeader] == apiKey
      && req.headers[PassphraseHeader] == EncryptedPassphrase(mac, apiSecret, passphrase)
      && req.headers[SignHeader] == mac(apiSecret, req.headers[TimestampHeader] + req.verb + path + req.body)
    }

    /** Headers built for a request of `kind` carrying `body` pass the exchange's check. */
    lemma AuthenticatedRequestAccepted(req: SignedRequest, kind: TradeType, millis: int)
      requires Valid()
      requires Authenticates(req.headers, kind, req.body, millis) && req.verb == Method(kind)
      ensures ExchangeAccepts(req, Path(kind))
    {
    }

    /**
     * create_headers: sign the canonical string and fill the header map one
     * entry at a time; a value with a forbidden byte stops it at that entry.
     */
    method CreateHeaders(kind: TradeType, body: string, millis: int) returns (r: Result<HeaderMap, Fault>)
      ensures r.Ok? <==> HeaderValuesValid(kind, body, millis)
      ensures r.Ok? ==> Authenticates(r.value, kind, body, millis)
      ensures r.Ok? ==> r.value[TimestampHeader] == TimestampPrefix(SigningString(millis, kind, body))
      ensures !ValidHeaderValue(mac(apiSecret, SigningString(millis, kind, body)))
        ==> r == Err(InvalidHeaderValue(SignHeader))
      ensures ValidHeaderValue(mac(apiSecret, SigningString(millis, kind, body))) && !ValidHeaderValue(apiKey)
        ==> r == Err(InvalidHeaderValue(KeyHeader))
      ensures ValidHeaderValue(mac(apiSecret, SigningString(millis, kind, body))) && ValidHeaderValue(apiKey)
              && !ValidHeaderValue(passphraseSignature)
        ==> r == Err(InvalidHeaderValue(PassphraseHeader))
    {
      var signing := SigningString(millis, kind, body);
      var signature := mac(apiSecret, signing);
      var heads: HeaderMap := map[];
      if !ValidHeaderValue(signature) {
        return Err(InvalidHeaderValue(SignHeader));
      }
      heads := heads[SignHeader := signature];
      heads := heads[TimestampHeader := SignedDecimal(millis)];
      if !ValidHeaderValue(apiKey) {
        return Err(InvalidHeaderValue(KeyHeader));
      }
      heads := heads[KeyHeader := apiKey];
      if !ValidHeaderValue(passphraseSignature) {
        return Err(InvalidHeaderValue(PassphraseHeader));
      }
      heads := heads[PassphraseHeader := passphraseSignature];
      heads := heads[VersionHeader := "2"];
      return Ok(heads);
    }

    /**
     * fetch_account_balance: a signed GET of the accounts endpoint with an empty
     * body. `decoded` is the transport's reply already decoded, None when the
     * call failed or the body did not decode; the source never yields "no balance".
     */
    method FetchAccountBalance(millis: int, decoded: Option<AccountBalanceResponse>)
      returns (request: Option<SignedRequest>, r: Result<AccountBalanceResponse, Fault>)
      requires Valid()
      ensures request.Some? <==> HeaderValuesValid(Balance, "", millis)
      ensures request.Some? ==> request.value.verb == "GET" && request.value.body == ""
      ensures request.Some? ==> request.value.url == baseUrl + "/api/v1/accounts"
      ensures request.Some? ==> Authenticates(request.value.headers, Balance, "", millis)
      ensures request.Some? ==> ExchangeAccepts(request.value, "/api/v1/accounts")
      ensures r.Ok? <==> request.Some? && decoded.Some?
      ensures r.Ok? ==> r.value == decoded.value
      ensures request.None? ==> r.Err? && r.error.InvalidHeaderValue?
      ensures request.Some? && decoded.None? ==> r == Err(UnreadableBalance)
    {
      var headers := CreateHeaders(Balance, "", millis);
      if headers.Err? {
        return None, Err(headers.error);
      }
      var req := SignedRequest("GET", baseUrl + AccountsPath, headers.value, "");
      AuthenticatedRequestAccepted(req, Balance, millis);
      request := Some(req);
      if decoded.None? {
        return request, Err(UnreadableBalance);
      }
      r := Ok(decoded.value);
    }

    /** refresh_account_balance: the wallet becomes the fetched snapshot, replaced whole. */
    method RefreshAccountBalance(millis: int, decoded: Option<AccountBalanceResponse>) returns (r: Result<(), Fault>)
      requires Valid()
      modifies this`wallet
      ensures r.Ok? <==> HeaderValuesValid(Balance, "", millis) && decoded.Some?
      ensures r.Ok? ==> wallet == Some(decoded.value)
      ensures r.Err? ==> wallet == old(wallet)
    {
      var request, fetched := FetchAccountBalance(millis, decoded);
      if fetched.Err? {
        return Err(fetched.error);
      }
      wallet := Some(fetched.value);
      return Ok(());
    }

    /**
     * create_market_order: refuse unless exactly one of size and funds is given,
     * build the order for `token`-USDT, sign its JSON encoding as an order request
     * and send that same encoding. `toJson` is the JSON encoder, `clientOid` the
     * fresh UUID, `reply` the transport's answer (body text or error).
     */
    method CreateMarketOrder(token: string, side: OrderType, size: string, funds: string, clientOid: string,
                             millis: int, toJson: MarketOrderParams -> string, reply: Result<string, string>)
      returns (r: OrderOutcome)
      requires Valid()
      ensures r == Aborted(AmountConflict) <==> (size == "") == (funds == "")
      ensures r.Submitted? ==> r.order.clientOid == clientOid && r.order.side == SideName(side)
      ensures r.Submitted? ==> r.order.symbol == token + "-USDT" && r.order.typ == "market"
      ensures r.Submitted? ==> r.order.tradeType == "TRADE" && r.order.funds == funds && r.order.size == size
      ensures r.Submitted? ==> r.request.verb == "POST" && r.request.url == baseUrl + "/api/v1/orders"
      ensures r.Submitted? ==> r.request.body == toJson(r.order) && r.response == reply
      ensures r.Submitted? ==> Authenticates(r.request.headers, Trade(side), r.request.body, millis)
      ensures r.Submitted? ==> ExchangeAccepts(r.request, "/api/v1/orders")
      ensures (size == "") != (funds == "") ==>
        (r.Submitted? <==> HeaderValuesValid(Trade(side), toJson(MarketOrderParams(
           clientOid, SideName(side), token + "-USDT", "market", "TRADE", funds, size)), millis))
      ensures (size == "") != (funds == "") && r.Aborted? ==> r.fault.InvalidHeaderValue?
    {
      if AmountsConflict(size, funds) {
        return Aborted(AmountConflict);
      }
      var order := MarketOrderParams(clientOid, SideName(side), token + "-USDT", "market", "TRADE", funds, size);
      var headers := CreateHeaders(Trade(Buy), toJson(order), millis);
      if headers.Err? {
        return Aborted(headers.error);
      }
      var request := SignedRequest("POST", baseUrl + OrdersPath, headers.value, toJson(order));
      AuthenticatedRequestAccepted(request, Trade(side), millis);
      return Submitted(order, request, reply);
    }
  }
}
