# KuCoin trading engine — a Dafny model

This project models the two parts of the KuCoin trading client that make
decisions.

- **The exchange session** (`KucoinClient`, `kucoin_client.dfy`):
  - It derives the passphrase signature once, when the session is built.
  - It builds the canonical signing string `timestamp ++ METHOD ++ path ++ body`. The request kind alone picks the method and path: `GET /api/v1/accounts` for the balance, `POST /api/v1/orders` for any trade.
  - It fills the five `kc-api-*` authentication headers one at a time.
  - It fetches the account balance and replaces the cached wallet whole.
  - It validates and assembles a market order for `TOKEN-USDT` and signs the exact JSON text it sends.
- **The listing watcher** (`ListingWatcher`, `watcher.dfy`):
  - It parses each listing date with the layout `%Y-%m-%d %H:%M`.
  - On each scan it reports the listings whose date matches the current time and whose token has no order in flight.
  - It reloads its working set wholesale from the listings file chosen by the `test` flag.

`Digits` (`digits.dfy`) renders numbers as decimal text and reads them back. It serves two purposes: the millisecond timestamp that goes into the signing string and the header, and the zero-padded fields of a listing date. `Wrappers` (`wrappers.dfy`) holds `Option` and `Result`.

The model has no I/O. The pieces outside it appear as follows:

- **Cryptography.** HMAC-SHA256 followed by base64 is the session's `mac`, a total function of (key, message). The model never looks inside it. Because it is a function, the derivation is deterministic by construction.
- **Randomness and the clock.** The order UUID, `Utc::now()` and `timestamp_millis()` are parameters.
- **JSON and the HTTP transport.** The JSON encoder is the parameter `toJson`. The transport's replies are parameters too: for the balance, the reply already decoded (`None` when fetching or decoding failed); for an order, the body text or a transport error.
- **Panics.** Every `unwrap`, `expect` and `panic!` of the source becomes an error value (`Fault`, `ReloadFault`, or `ScanResult.aborted`). None of them is a precondition.

Where the code departs from its evident intent, the model follows the code:

- The scan compares year, month, day and minute, but not the hour (see Findings).
- The scan only reports matches. It submits no order and adds nothing to the in-flight list.
- `fetch_account_balance` panics on an undecodable reply. It never returns "no balance".

## Model

| member | source | states |
|---|---|---|
| `KucoinClient.SigningString` | src/Kucoin/kucoin_client.rs:135-147 | a Balance request signs `ts ++ "GET" ++ "/api/v1/accounts" ++ body`; every Trade request signs `ts ++ "POST" ++ "/api/v1/orders" ++ body`, so the order side plays no part; the leading run of sign and digit characters is exactly the timestamp |
| `Digits.SignedDecimal` | src/Kucoin/kucoin_client.rs:138 | reference definition: a minus sign for negatives, then the magnitude's digits with no leading zero (`Digits.NoLeadingZero`), as Rust's `i64::to_string` writes it; the same rendering is the `kc-api-timestamp` header at line 156 |
| `Digits.NoLeadingZero` | src/Kucoin/kucoin_client.rs:138 | the rendering of a magnitude starts with `0` only for zero itself |
| `KucoinClient.SigningStringInjective` | src/Kucoin/kucoin_client.rs:137-143 | two equal canonical strings have the same timestamp, method, path and body, so no two distinct requests share a signed string |
| `KucoinClient.RequestLineInjective` | src/Kucoin/kucoin_client.rs:137-143 | the part after the timestamp determines the method, the path and the body |
| `Digits.SignedDecimalInjective` | src/Kucoin/kucoin_client.rs:138 | distinct millisecond timestamps have distinct decimal renderings |
| `KucoinClient.EncryptedPassphrase` | src/Kucoin/kucoin_client.rs:116-125 | reference definition, no contract: the passphrase signed with the API secret by the session's `mac` |
| `KucoinClient.ValidHeaderValue` | src/Kucoin/kucoin_client.rs:155-158 | reference definition, no contract: the byte check behind the header-value `unwrap`s, every character visible or a tab, never DEL or another control |
| `KucoinClient.AmountsConflict` | src/Kucoin/kucoin_client.rs:193 | the refusal holds exactly when size and funds are both empty or both non-empty, that is when their emptiness agrees |
| `KucoinClient.SideName` | src/Kucoin/kucoin_client.rs:201-208 | the side is spelt `"buy"` exactly for Buy and `"sell"` otherwise |
| `KucoinClient.Kucoin.constructor` | src/Kucoin/kucoin_client.rs:99-108 | credentials and base URL are copied from the configuration; the passphrase signature is `mac(secret, passphrase)`, computed once and held in a constant; the wallet starts empty |
| `KucoinClient.Kucoin.New` | src/Kucoin/kucoin_client.rs:98-114 | a built session signs with the given `mac` and holds `mac(secret, passphrase)` as its passphrase signature; a session is built exactly when the balance reply decodes and the three header values its first request needs (the signature of that request, the API key and the passphrase signature) are valid; a built session holds the configuration's credentials, a valid passphrase signature, and the fetched balance in its wallet; an unreadable balance reply means no session |
| `KucoinClient.Kucoin.AuthenticatedRequestAccepted` | src/Kucoin/kucoin_client.rs:135-159 | a request carrying these headers passes the exchange's check: the exchange rebuilds the signed string from the `kc-api-timestamp` header, the method, the path and the body, and obtains the signature that was sent |
| `KucoinClient.Kucoin.CreateHeaders` | src/Kucoin/kucoin_client.rs:128-162 | the map has exactly the keys `kc-api-sign`, `kc-api-timestamp`, `kc-api-key`, `kc-api-passphrase` and `kc-api-key-version`; `kc-api-sign` is the signature of the canonical string; `kc-api-key` is the API key; `kc-api-passphrase` is the stored passphrase signature; the version is `"2"`; the timestamp header equals the timestamp prefix of the signed string; a forbidden byte in a value stops the build at the first such header, in insertion order |
| `KucoinClient.Kucoin.FetchAccountBalance` | src/Kucoin/kucoin_client.rs:164-186 | a signed GET of `base_url ++ "/api/v1/accounts"` with an empty body, which the exchange accepts; the balance is the decoded reply, and an undecodable reply is a fault, never "no balance" |
| `KucoinClient.Kucoin.RefreshAccountBalance` | src/Kucoin/kucoin_client.rs:188-190 | on success the wallet is exactly the fetched snapshot, replaced whole; the credentials are constants and cannot change |
| `KucoinClient.Kucoin.CreateMarketOrder` | src/Kucoin/kucoin_client.rs:192-236 | aborts before any request exactly when size and funds are both empty or both non-empty; otherwise the order has the given client id, the side name, symbol `token ++ "-USDT"`, type `"market"`, tradeType `"TRADE"`, and funds and size unchanged; it is POSTed to `base_url ++ "/api/v1/orders"`; the body sent is the encoding that was signed; the headers authenticate the order for its own side (the fixed `Buy` changes nothing) and pass the exchange's check; the transport's reply is returned unchanged |
| `ListingWatcher.ParseListingDate` | src/Kucoin/watcher.rs:86 | a date parses only if it has the `DDDD-DD-DD DD:DD` layout and names a real calendar minute: month 1-12, a day that exists in that month (leap years included), hour 0-23, minute 0-59 |
| `ListingWatcher.ParseFormatted` | src/Kucoin/watcher.rs:86 | every real minute written in the file's layout parses back to itself |
| `ListingWatcher.FormatParsed` | src/Kucoin/watcher.rs:86 | every text that parses is the layout of its own parse, so each minute has exactly one accepted spelling |
| `ListingWatcher.ExampleDateParses` | src/Kucoin/watcher.rs:86 | `"2024-01-01 12:00"` parses to 2024-01-01 12:00 |
| `ListingWatcher.DateMatchesAsWritten` | src/Kucoin/watcher.rs:87-88 | reference definition, no contract: now and the listing date agree on year, month, day and minute |
| `ListingWatcher.Matches` | src/Kucoin/watcher.rs:86-89 | reference definition, no contract: the date parses, agrees with now as written, and the token is not among the ongoing orders |
| `ListingWatcher.Scan` | src/Kucoin/watcher.rs:85-92 | reference definition, no contract: the tokens of the matching listings in order, stopping with `aborted` at the first date that does not parse; its properties are the `Scan…` lemmas below |
| `ListingWatcher.Contains` | src/Kucoin/watcher.rs:89 | the in-flight search answers true exactly when the token is among the ongoing orders |
| `ListingWatcher.FirstMalformed` | src/Kucoin/watcher.rs:85-86 | the position where the scan's `unwrap` of a date fails: every earlier date parses, and the date there does not (the length when every date parses) |
| `ListingWatcher.ScanAbortsIffMalformed` | src/Kucoin/watcher.rs:85-86 | a scan stops early exactly when some listing's date does not parse, that is when the first bad date lies inside the listings |
| `ListingWatcher.ScanReportsOnlyMatches` | src/Kucoin/watcher.rs:85-91 | every reported token belongs to a listing whose parsed date agrees with now on year, month, day and minute; that token is not in the ongoing orders, so a token in flight is never reported |
| `ListingWatcher.ScanReportsEveryMatch` | src/Kucoin/watcher.rs:85-91 | every matching listing before the first bad date has its token reported, whether or not the scan then stops |
| `ListingWatcher.ScanReportIndices` | src/Kucoin/watcher.rs:84-91 | the report is exactly the matching listings before the first bad date, in listing order, one entry each: there are strictly increasing positions, one per reported token, each a matching listing before the first bad date carrying that token, and every such matching listing is among them |
| `ListingWatcher.ScanSeesOnlyComparedFields` | src/Kucoin/watcher.rs:84-88 | two current times that agree on year, month, day and minute give the same report, so the seconds (and, as written, the hour) never matter |
| `ListingWatcher.ScanQuietOnceInFlight` | src/Kucoin/watcher.rs:89 | once the reported tokens are added to the ongoing orders, a second scan in the same minute reports nothing |
| `ListingWatcher.HourNotCompared` | src/Kucoin/watcher.rs:87-88 | the listing `{"2024-01-01 12:00", "ABC"}` is reported at 13:00:00 on 2024-01-01, an hour after its time |
| `ListingWatcher.MatchesIntended` | src/Kucoin/watcher.rs:87-89 | reference definition, no contract: the corrected condition, with the hour compared too |
| `ListingWatcher.ScanIntended` | src/Kucoin/watcher.rs:85-92 | reference definition, no contract: the scan with the corrected condition |
| `ListingWatcher.IntendedScanReportsOwnMinute` | src/Kucoin/watcher.rs:84-91 | with the hour compared, every reported token belongs to a listing whose date parses to now's year, month, day, hour and minute, and the token is not in flight |
| `ListingWatcher.IntendedScanSkipsOtherHour` | src/Kucoin/watcher.rs:87-88 | with the hour compared, the listing `{"2024-01-01 12:00", "ABC"}` is not reported at 13:00:00 on 2024-01-01 |
| `ListingWatcher.Filename` | src/Kucoin/watcher.rs:63-67 | the file is `listings_test.json` exactly in test mode and `listings.json` exactly otherwise |
| `ListingWatcher.Watcher.constructor` | src/Kucoin/watcher.rs:54-57 | the watcher holds the given listings and mode |
| `ListingWatcher.Watcher.ReloadJson` | src/Kucoin/watcher.rs:62-81 | reads `listings_test.json` in test mode and `listings.json` otherwise; on success the working set is exactly that file's listings (replaced, not merged); a missing file is `UnreadableFile` and an undecodable one `MalformedJson`, and either leaves the working set as it was; the mode is a constant |
| `ListingWatcher.Watcher.CheckListingAndExecuteOrder` | src/Kucoin/watcher.rs:83-93 | the report is the scan specification: the matching tokens in listing order, up to the first bad date; the method has no `modifies` clause, so neither the listings nor anything else changes |

## Findings

| source | as written | input that shows it | evidently intended | confidence | as-written member | corrected member |
|---|---|---|---|---|---|---|
| src/Kucoin/watcher.rs:87-88 | compares year, month, day and minute of now with the listing date, never the hour | listing `"2024-01-01 12:00"`, now 2024-01-01 13:00:00: reported | the hour is compared too, so a listing matches only in its own minute | high (not executed) | `ListingWatcher.HourNotCompared` | `ListingWatcher.IntendedScanReportsOwnMinute` |

The watcher's scan (`Matches`, `Scan`, `CheckListingAndExecuteOrder`) keeps the comparison as the code writes it (`DateMatchesAsWritten`). The corrected scan is `ScanIntended`, built on `DateMatchesIntended`; `IntendedScanSkipsOtherHour` shows that it no longer reports the 13:00 example.

## Left out

- The `content-type: application/json` header that `reqwest`'s `.json()` adds to the order request (src/Kucoin/kucoin_client.rs:225): the transport sets it, outside the signed headers; the model's order request carries only the five `kc-api-*` headers.
- HTTP transport (`reqwest` send and text, the printed status code): network I/O. The model takes the transport's answer as a parameter. The unused `client` handle and `base_url` join are reduced to the URL string of the request.
- HMAC-SHA256 and base64 (`ring`, `base64`): foreign cryptography. Both are the uninterpreted total function `mac`. The model therefore does not know that base64 output always passes the header-value check, and it checks the signature header like the others.
- `Uuid::new_v4`, `chrono::Utc::now` and `timestamp_millis`: randomness and the clock, passed in as parameters.
- serde JSON encoding and decoding of `AccountBalanceResponse`, `MarketOrderParams` and the listings file: library behaviour. The records keep their field names. The encoder is the parameter `toJson`. Decoding is a reply that is already decoded or `None`.
- `KucoinClient.SigningString`: the timestamp is an unbounded integer. The i64 range of `timestamp_millis` is not enforced. Its decimal rendering, a `-` followed by the digits of the magnitude, is the same as Rust's for every i64.
- `ListingWatcher.ParseListingDate`: accepts only fixed-width fields and a year from 0000 to 9999. chrono's `%Y-%m-%d %H:%M` also accepts one-digit fields, signed or wider years and flexible whitespace.
- `Watcher::new` (src/Kucoin/watcher.rs:30-60): reading or creating the listings file. As written, lines 31-35 do not type-check, and neither do three lines the model reads by their evident intent: line 69 matches on `tokio::fs::read_to_string` without `.await` (read as the file's contents or a read error), line 78 passes a `String` to `serde_json::from_str` (read as its text), and line 89 writes `|&s|` over `&String` items (read as comparing each ongoing token with the listing's). The missing-file path parses `""` and then unwraps, so it promises no "empty working set". The constructor starts from already-decoded listings.
- `LimitOrderParams`, `ErrorResponse` and `OngoingOrder`: declared but never used.
- async/await: the operations are sequential, with no concurrency to model.
- The `println!("Buy: …")` of the scan is the `bought` sequence of the result, one token per printed line. The `client` argument of the scan is unused in the source and is not a parameter.
- The `else ""` branch of the signing-string choice (src/Kucoin/kucoin_client.rs:144-147): unreachable, because a request kind is either Balance or Trade.
