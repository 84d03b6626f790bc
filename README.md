# Bybit positions follower — a Dafny model

This project models the core of a small trading bot for the Bybit derivatives
exchange. For each symbol it is told to open, the bot checks that no position
exists, opens one with a market buy and then follows it. Following means
polling the position every two seconds and reacting to its unrealised PnL.

The model covers three parts of the bot:

- **The position follower** (class `Position`, test.py). A `Position` is built
  from the exchange's position object. A size text of `""` or `"0"` means the
  position is flat. Each poll refreshes five market fields, or marks the
  position closed. Then `follow` picks one of three branches:
  - a PnL below -0.3 takes the stop-out branch, which only logs;
  - a PnL from -0.3 up to (not including) -0.2 takes the protective branch. It
    is meant to place one limit sell at the entry price, unless an earlier one
    was accepted. As written it never does, because the constructor already
    raises the flag that guards it (test.py:85; see Findings). The model
    proves this about the code as written, and gives the rest of the model
    the corrected constructor;
  - any other PnL only logs.

  `Position` is a class whose methods update its fields in place. They are
  proved against pure functions: `Init`, `Update`, `StepSpec`, and `Run` for
  the `while self.opened` loop. The lemmas are stated about those functions.
- **Request building** (class `Bybit`, test.py). This covers the signed
  headers of `http_request`, and the rule that a POST carries the payload as
  its body while any other method puts it after `?` in the URL. It also covers
  the query strings of `get_orders`, `get_position` and `show_positions`, the
  hand-written JSON body of `place_order` and `close_position`, and the
  open-or-refuse decision of `check_position`. `follow_position` is a method of
  a `Bybit` class that records the new `Position` in its `openedPositions` map.
  Each query string or JSON body has a decoder for the flat format the client
  writes. Take values that hold no delimiter and nothing a URL or JSON reader
  would decode or stop at. For those, a lemma proves that decoding gives back
  exactly the parameters or fields that were written.
- **Signing** (authorise.py). The signed message is the timestamp, the API key,
  the configured receive window and the payload, concatenated in that order.
  The HMAC-SHA256 is a function parameter that returns a 64-character
  lowercase hex digest. A lemma proves that every built request passes the
  exchange's check, which recomputes the HMAC from the headers and from the
  payload as the model builds it: the body of a POST, or the text after the
  `?` of the URL handed to the HTTP session.

The bot's help text (test.py:22-30) promises more than the code does. The
model follows the code:

- The help text describes a stop-loss ladder with percentage thresholds
  (-5 %, -8 %, +5 %, +10 %). The code implements none of it. It compares the
  absolute unrealised PnL with -0.3 and -0.2 (test.py:126-128). `stopLoss` is
  computed (test.py:83) but never read.
- The help text's stop-out cancels the limit order and closes the position at
  market. The code's `stop_loss` only logs (test.py:111-117).
- The client opens a database session, but `self.db` is never used
  (test.py:156).
- The constructor computes `pnlPercent` against `positionValue` (test.py:84).
  `update_position` computes it against `avgPrice` (test.py:104).

Some behaviour of the code is kept as written and stated as a lemma:

- A flat poll closes the position but still takes the branch test, using the
  previous poll's PnL (`FlatPollDecidesOnStalePnl`).
- `check_position` treats an empty size text as an existing position, while a
  `Position` treats it as flat (`EmptySizeIsFlatButRefused`).
- The flatness test compares the size text, so a size of `"0.0"` gives an open
  position of size zero (`ZeroDecimalTextIsNotFlat`).
- A rejected limit order leaves the flag down, so the next poll in the band
  places the order again. At most one placement is ever accepted, and it is
  always the last one (`RunAcceptsAtMostOneLimit`).

The files:

- `wrappers.dfy`: the `Option` type.
- `decimal.dfy`: the decimal texts read by `int()` and `float()` and written by `str()`.
- `text.dfy`: query strings and flat JSON objects, with their decoders.
- `authorise.dfy`: signing.
- `follower.dfy`: the position follower.
- `exchange.dfy`: the Bybit client.
- `commands.dfy`: the command arguments, the `/show` reply and `Position.__str__`.

## Model

| member | source | states |
|---|---|---|
| `Decimal.NatToText` | test.py:173 | the timestamp text is non-empty, all digits, has no leading zero and denotes the clock value |
| `Decimal.NatToTextRoundTrip` | test.py:173 | reading the timestamp text back with `int()` gives the clock value |
| `Decimal.ParseInt` | test.py:80-81 | `int()` of a decimal text: a text without a minus sign reads as a non-negative number; with `NatToTextRoundTrip` it reads back what `str()` wrote |
| `Decimal.ParseReal` | test.py:75-79 | `float()` of a `[-]digits[.digits]` text: a text without a minus sign reads as a non-negative number; its value is fixed by `ParseRealWhole`, `ParseRealFraction` and `ParseRealNegative`, and `ZeroTexts` fixes the zero cases |
| `Decimal.ParseRealWhole` | test.py:75-79 | a non-empty run of digits reads as its decimal value |
| `Decimal.ParseRealFraction` | test.py:75-79 | `w.f`, with at least one digit in all, reads as the integer written by the digits of `w` and `f` together, divided by ten to the number of digits of `f` |
| `Decimal.ParseRealNegative` | test.py:75-79 | a leading minus negates the value of the rest, and the text does not parse when the rest does not |
| `Decimal.DigitsValueAppend` | test.py:75-79 | the value of two digit runs written one after the other is the first shifted by the length of the second, plus the second |
| `Decimal.ZeroTexts` | test.py:72-77 | `"0"` and `"0.0"` both read as zero, and `""` does not parse |
| `Text.SplitJoin` | test.py:192-196 | splitting text joined with a one-character separator gives back the parts, when no part contains it |
| `Text.QueryRoundTrip` | test.py:192-196 | a `k=v&k=v` query string reads back as the pairs it was built from. This holds for keys without `=` and for keys and values without `&`, `%`, `+` or `#`, which the client writes unencoded |
| `Text.JsonObjectRoundTrip` | test.py:206-213 | a `{"k": "v",...}` body reads back as its fields, in order. This holds for keys and values without `"`, `\`, `,` or a control character (U+0000 to U+001F), which the client writes unescaped |
| `Authorise.PreImage` | authorise.py:8 | the signed message is timestamp, API key, configured receive window and payload, back to back, in that order |
| `Authorise.GenSignature` | authorise.py:6-11 | the signature is the HMAC, keyed by the secret, of that message, and is a 64-character lowercase hex digest |
| `Authorise.PreImageInjective` | authorise.py:8 | for one API key and timestamps of one length, distinct timestamps or payloads give distinct signed messages |
| `Authorise.SecretOnlyKeysTheHmac` | authorise.py:8-9 | two secrets sign the very same message; the secret is used only as the HMAC key |
| `Follower.Round2` | test.py:84 | `round(x, 2)` is a whole number of hundredths within 0.005 of `x` |
| `Follower.Init` | test.py:71-88 | opened exactly when the size text is not `""`/`"0"`; flat gives size 0; otherwise every field comes from the snapshot, stopLoss is 0.92 times avgPrice, pnlPercent is within rounding of PnL/positionValue·100, and no limit order is open (corrected, see Findings) |
| `Follower.InitAsWritten` | test.py:71-88 | as written, a freshly opened position already has its limit flag raised |
| `Follower.SameFieldsSameInit` | test.py:72-85 | the constructor reads only the KEYS fields |
| `Follower.Update` | test.py:93-107 | a live snapshot changes only markPrice, positionValue, unrealisedPnl, updatedTime and pnlPercent (now against avgPrice); a flat one sets opened false and size 0 and leaves everything else, PnL included, unchanged |
| `Follower.Classify` | test.py:126-142 | stop-out exactly when PnL < -0.3, protective branch exactly when -0.3 ≤ PnL < -0.2, nothing otherwise |
| `Follower.StepSpec` | test.py:124-142 | an order is placed exactly when the flag is down and the refreshed PnL is in the band; the order is a Sell/Limit of qty 1 at avgPrice; the flag and the order id change only on a reply of `OK`; nothing else changes beyond the refresh |
| `Follower.StopOutIsInert` | test.py:111-127 | the stop-out branch places no order and changes nothing beyond the refresh |
| `Follower.FlatPollDecidesOnStalePnl` | test.py:99-131 | a flat poll closes the position, and it still places an order exactly when the flag is down and the previous PnL is in the band |
| `Follower.Run` | test.py:123-144 | the `while self.opened` loop over the polls given. It places at most one order per poll and makes no more polls than it is given. The three `Run` lemmas below state which orders it places, which it accepts, and when it stops |
| `Follower.RunPlacesOnlyProtectiveSells` | test.py:129-131 | every order the loop places is the position's Sell/Limit of qty 1 at its entry price |
| `Follower.RunAcceptsAtMostOneLimit` | test.py:129-140 | nothing is placed once the flag is up; every placement but the last was rejected; the flag and id end up set exactly when the last placement was accepted |
| `Follower.RunStopsAtFlat` | test.py:123-144 | the loop runs only while the position is open: an open position with a poll available polls at least once, a run with no poll leaves the state unchanged, the loop stops right after the first flat poll and otherwise only when the polls run out, and a closed position is never polled |
| `Follower.AsWrittenPlacesNoLimitOrder` | test.py:85-131 | as written, `follow` never places the protective limit sell, on any sequence of polls |
| `Follower.LimitBranchDeadAsWritten` | test.py:128-131 | a PnL in the band after opening leads to the protective sell with the corrected constructor, and to no order with the one as written |
| `Follower.ZeroDecimalTextIsNotFlat` | test.py:72-77 | a `"0.0"` size text opens a position whose size is zero |
| `Follower.Position.constructor` | test.py:71-88 | the new object's attributes are `Init` of the snapshot |
| `Follower.Position.UpdatePosition` | test.py:93-108 | the attributes become `Update` of the old ones |
| `Follower.Position.StopLoss` | test.py:111-117 | changes nothing |
| `Follower.Position.Step` | test.py:124-143 | the attributes and the order placed are those of `StepSpec` |
| `Follower.Position.Follow` | test.py:118-144 | the attributes, the orders placed and the polls made are those of `Run` |
| `Exchange.SignedHeaders` | test.py:175-182 | exactly six headers in the source's order: API key, signature, sign type `2`, timestamp, configured receive window, JSON content type, each with that value |
| `Exchange.HttpRequest` | test.py:169-187 | method defaults to GET and payload to empty; the headers are exactly those six; POST sends the payload as the body to base URL + endpoint; other methods send no body to base URL + endpoint + `?` + payload; the timestamp header is the signed timestamp and the signature is over this payload |
| `Exchange.BuiltRequestsAuthenticate` | test.py:173-186 | every built GET or POST passes the exchange's recomputation of the HMAC from the headers and the payload as built (POST body, or the URL text after `?`) |
| `Exchange.GetOrdersQuery` | test.py:189-197 | the query is `category` followed by `orderId` if one is given, else `symbol` if one is given, else nothing |
| `Exchange.GetOrdersRequest` | test.py:189-199 | a GET of `/v5/order/realtime` with that query |
| `Exchange.GetOrdersReadsBack` | test.py:192-198 | the exchange reads the order id in preference to the symbol, and neither when both are absent or empty |
| `Exchange.GetPositionQuery` | test.py:237-240 | the query is `category=linear` then `symbol` |
| `Exchange.GetPositionRequest` | test.py:237-242 | a GET of `/v5/position/list?category=linear&symbol=<symbol>` |
| `Exchange.ShowPositionsQuery` | test.py:230-233 | the query is `category=linear` then `settleCoin` (default USDT) |
| `Exchange.ShowPositionsRequest` | test.py:230-236 | a GET of `/v5/position/list?category=linear&settleCoin=<coin>` |
| `Exchange.PositionQueriesReadBack` | test.py:233-240 | the exchange reads both position-list queries as exactly their two parameters |
| `Exchange.PlaceOrderBody` | test.py:202-213 | the hand-written JSON body, with the defaults qty `0`, reduce `false` and price `null`. It has no contract of its own: `PlaceOrderBodyReadsBack` states what it carries |
| `Exchange.PlaceOrderBodyReadsBack` | test.py:202-213 | the body reads back as category `linear`, symbol, side, orderType, qty, timeInForce `GTC`, reduceOnly, price, in that order |
| `Exchange.PlaceOrderRequest` | test.py:202-216 | a POST of that body to `/v5/order/create`, signed over the body |
| `Exchange.ClosePositionBody` | test.py:218-219 | `close_position(s)` is `place_order(s, "Sell", "Market", reduce="true")` with qty `0` and price `null` |
| `Exchange.ClosePositionReadsBack` | test.py:218-219 | the exchange reads a close as a reduce-only Sell/Market with qty `0` and price `"null"` |
| `Exchange.CheckPosition` | test.py:244-257 | a non-zero retCode places nothing; a size text of exactly `"0"` places one Buy/Market of qty 1; any other size places nothing and returns `<symbol>: already opened not by Bybit positions follower bot` |
| `Exchange.EmptySizeIsFlatButRefused` | test.py:252-257 | an empty size text is refused by `check_position` but is flat for a `Position` |
| `Exchange.FilterKeys` | test.py:225 | the kept object has exactly the KEYS fields, with the snapshot's values |
| `Exchange.FilterKeysKeepsInit` | test.py:221-226 | filtering to KEYS changes nothing the constructor builds |
| `Exchange.Bybit.constructor` | test.py:148-159 | credentials stored, base URL from configuration, both position maps empty |
| `Exchange.Bybit.FollowPosition` | test.py:221-228 | the new Position is recorded under the symbol, nothing else in the maps changes, and it is followed as `Run` from `Init` of the first listed position |
| `Commands.Words` | test.py:43 | `split()` yields non-empty words without whitespace. Whitespace is every character `str.isspace()` accepts |
| `Commands.WordsCollapse` | test.py:43 | for any text, the words joined by single spaces are the text trimmed, with each whitespace run squeezed to one space (`Collapse`, a character-by-character definition). With `Words`' contract, this fixes the words and their order |
| `Commands.WordsJoin` | test.py:43 | splitting words joined by single spaces gives the words back |
| `Commands.CommandArgs` | test.py:43-49 | the words after the command word. It has no contract of its own: `WordsCollapse` and `CommandArgsOfJoined` state what it yields |
| `Commands.CommandArgsOfJoined` | test.py:43-49 | `/open A B` and `/close A B` name exactly the symbols after the command |
| `Commands.ShowReplyNoPositions` | test.py:59-64 | the placeholder is sent exactly when no position is listed; otherwise the reply ends with the block separator |
| `Commands.ShowReply` | test.py:59-64 | the `/show` message: one block per position, or the placeholder. Its meaning is stated by `ShowReplyNoPositions` and by `AppendBlock` for each block |
| `Commands.BuildShowReply` | test.py:59-64 | the handler's loops build the reply `ShowReply` specifies |
| `Commands.AppendBlock` | test.py:61-63 | one position adds its `key: value | ` entries in KEYS order, then `\n***\n` |
| `Commands.Items` | test.py:91 | item i of `__str__` is the i-th KEYS name, `: `, and that attribute's text |
| `Commands.PositionText` | test.py:90-91 | `__str__`: those items joined by `  \|\|  `. It has no contract of its own: `Items` states the content |

## Findings

| source | as written | input that shows it | evidently intended | confidence | as-written member | corrected member |
|---|---|---|---|---|---|---|
| test.py:85 | `limit_opened = True` at construction, so the `if not self.limit_opened` branch (test.py:129-138) can never place the protective limit sell | a position opened from a live snapshot whose next poll reports an unrealised PnL of -0.25 | the flag starts false; it is raised only when the exchange accepts the limit order (test.py:133-136), which the help text and the `else` log 'limit already opened' both assume | medium, not executed | `Follower.AsWrittenPlacesNoLimitOrder` (about `Follower.InitAsWritten`) | `Follower.RunAcceptsAtMostOneLimit` (about `Follower.Init`) |

## Left out

- The Telegram bot, its handlers, `bot.polling`, `main` and `asyncio.run` (test.py:18-58, 272-280) are user-interface I/O. The argument split and the `/show` text are modelled.
- Sending requests (`requests.Session`, test.py:157, 184-186) is network I/O. A request is modelled as its method, URL, headers and body.
- `asyncio.gather` (in `process_tokens`, which `run_bot` calls, in the `/close` handler, and in `main` at test.py:276) and `asyncio.sleep` (test.py:143, 248) are concurrency and timing only.
- The HMAC-SHA256 is a function parameter. `time.time()` is a millisecond parameter.
- The values of `API_KEY`, `SECRET_KEY`, `BASE_URL` and `RECV_WINDOW` are constants left unspecified. config.py is not part of this model.
- database.py declares tables only, and `self.db` is never used. `closed_positions` is never written. So there is no ledger to model.
- `get_symbols` (test.py:161-167) is not called by the bot and is missing an `await`.
- Logging (loguru) is left out. The `get_orders` response is only logged, so the model of `get_orders` is its request.
- The stop-loss ladder and the percentage thresholds of the help text (test.py:25-30) are not implemented by the code, so they are not modelled.
- `resp.json()` on the already decoded reply (test.py:132) would raise. The model passes the decoded reply, as intended.
- `self.follow_position(symbol)` is not awaited (test.py:254), so following never starts after `check_position`. `Exchange.CheckPosition` and `Exchange.Bybit.FollowPosition` model the two intended steps separately.
- Crash paths become preconditions: missing keys (KeyError), texts that do not parse (ValueError), an empty position list (IndexError), and a zero positionValue or avgPrice (ZeroDivisionError).
- Decimal.ParseReal: reads only `[-]digits[.digits]` with the ASCII digits 0-9. Python's `float()` also reads a leading `+`, exponents, `inf`/`nan`, surrounding whitespace, underscores between digits, and the decimal digits of other scripts (such as Arabic-Indic or fullwidth digits). The exchange sends none of these.
- Decimal.ParseInt: reads only `[-]digits` with the ASCII digits 0-9. Python's `int()` also reads a leading `+`, surrounding whitespace, underscores between digits, and the decimal digits of other scripts. The exchange sends none of these.
- The client neither URL-encodes query values nor escapes JSON strings (test.py:192-196, 206-213, 233, 240). The round-trip lemmas therefore hold only for text that needs neither (`Text.QueryText`, `Text.JsonText`; the latter also excludes the control characters U+0000 to U+001F, which JSON allows in a string only escaped). What a real reader makes of other text, such as a symbol containing `"` or `&`, is not modelled.
- Exchange.BuiltRequestsAuthenticate: the HTTP library percent-encodes characters such as a space, `"` or non-ASCII text in a GET URL after it was signed (test.py:186), so for such a query the exchange would see a different text from the one signed. The lemma is about the URL as the client builds it, not as it is sent.
- Prices and PnL are exact reals, not binary doubles. `Follower.Round2` rounds ties to the even hundredth of the exact value.
- A flat `Position` has default values for the attributes the source leaves unset. Reading them in the source would raise AttributeError.
- The text that `str()` gives a float is not modelled. So `__str__` takes its attribute texts as input (`Commands.Items`, `Commands.PositionText`). The limit order of `follow` carries qty 1 and the price as a number, not the body text.
- Exchange.CheckPosition: the open outcome carries the body of the market buy it sends, not the exchange's reply that the source returns.
- Follower.Position.Follow: runs over a finite sequence of polls. The source loop is unbounded and ends only on a flat snapshot.
- Exchange.Bybit.FollowPosition: follows over a finite sequence of polls, like `Follow`.
