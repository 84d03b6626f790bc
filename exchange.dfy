/**
 * The exchange client (class Bybit in test.py): how each request is built —
 * endpoint, method, query string or JSON body, and signed headers — the
 * open-or-refuse decision of `check_position`, and `follow_position`, which
 * records a new Position and follows it. Sending requests is not modelled:
 * a request is the value that would be sent.
 */
module Exchange {
  import opened Wrappers
  import opened Decimal
  import opened Text
  import opened Authorise
  import opened Follower

  /** Process configuration (config.py is not part of this model). */
  const API_KEY: string
  const SECRET_KEY: string
  const BASE_URL: string

  const ORDER_REALTIME: string := "/v5/order/realtime"
  const ORDER_CREATE: string := "/v5/order/create"
  const POSITION_LIST: string := "/v5/position/list"

  type Hmac = (string, string) -> HexDigest

  /** A built HTTP request: method (verb), full URL, headers in order, and the body a POST carries. */
  datatype Request = Request(verb: string, url: string, headers: seq<(string, string)>, body: Option<string>)

  /** The value of the first header with this name. */
  function Lookup(headers: seq<(string, string)>, name: string): Option<string>
  {
    if headers == [] then None
    else if headers[0].0 == name then Some(headers[0].1)
    else Lookup(headers[1..], name)
  }

  /** A name's first occurrence decides its value. */
  lemma {:induction false} LookupAt(headers: seq<(string, string)>, i: nat, name: string)
    requires i < |headers| && headers[i].0 == name
    requires forall j :: 0 <= j < i ==> headers[j].0 != name
    ensures Lookup(headers, name) == Some(headers[i].1)
  {
    if i > 0 {
      LookupAt(headers[1..], i - 1, name);
    }
  }

  // ---------------------------------------------------------------------------
  // http_request

  /**
   * `http_request(endpoint, method, payload)` with the clock reading
   * `time.time() * 1000` given as a whole number of milliseconds.
   */
  function HttpRequest(endpoint: string, verb: string := "GET", payload: string := "", clockMs: nat,
                       hmacSha256: Hmac): (r: Request)
    ensures r.verb == verb
    ensures |r.headers| == |HEADER_NAMES| && forall i :: 0 <= i < |r.headers| ==> r.headers[i].0 == HEADER_NAMES[i]
    ensures Lookup(r.headers, "X-BAPI-API-KEY") == Some(API_KEY)
    ensures Lookup(r.headers, "X-BAPI-SIGN") ==
            Some(GenSignature(API_KEY, SECRET_KEY, payload, NatToText(clockMs), hmacSha256))
    ensures Lookup(r.headers, "X-BAPI-SIGN-TYPE") == Some("2")
    ensures Lookup(r.headers, "X-BAPI-TIMESTAMP") == Some(NatToText(clockMs))
    ensures Lookup(r.headers, "X-BAPI-RECV-WINDOW") == Some(RECV_WINDOW)
    ensures Lookup(r.headers, "Content-Type") == Some("application/json")
    ensures verb == "POST" ==> r.url == BASE_URL + endpoint && r.body == Some(payload)
    ensures verb != "POST" ==> r.url == BASE_URL + endpoint + "?" + payload && r.body == None
  {
    var timeStamp := NatToText(clockMs);
    var signature := GenSignature(API_KEY, SECRET_KEY, payload, timeStamp, hmacSha256);
    var headers := SignedHeaders(signature, timeStamp);
    if verb == "POST" then Request(verb, BASE_URL + endpoint, headers, Some(payload))
    else Request(verb, BASE_URL + endpoint + "?" + payload, headers, None)
  }

  /** The names of the headers `http_request` sends, in the order it writes them. */
  const HEADER_NAMES: seq<string> :=
    ["X-BAPI-API-KEY", "X-BAPI-SIGN", "X-BAPI-SIGN-TYPE", "X-BAPI-TIMESTAMP", "X-BAPI-RECV-WINDOW", "Content-Type"]

  /** The header dictionary of `http_request`, in its order. */
  function SignedHeaders(signature: string, timeStamp: string): (hs: seq<(string, string)>)
    ensures |hs| == |HEADER_NAMES| && forall i :: 0 <= i < |hs| ==> hs[i].0 == HEADER_NAMES[i]
    ensures Lookup(hs, "X-BAPI-API-KEY") == Some(API_KEY)
    ensures Lookup(hs, "X-BAPI-SIGN") == Some(signature)
    ensures Lookup(hs, "X-BAPI-SIGN-TYPE") == Some("2")
    ensures Lookup(hs, "X-BAPI-TIMESTAMP") == Some(timeStamp)
    ensures Lookup(hs, "X-BAPI-RECV-WINDOW") == Some(RECV_WINDOW)
    ensures Lookup(hs, "Content-Type") == Some("application/json")
  {
    var hs := [
      ("X-BAPI-API-KEY", API_KEY),
      ("X-BAPI-SIGN", signature),
      ("X-BAPI-SIGN-TYPE", "2"),
      ("X-BAPI-TIMESTAMP", timeStamp),
      ("X-BAPI-RECV-WINDOW", RECV_WINDOW),
      ("Content-Type", "application/json")];
    LookupAt(hs, 0, "X-BAPI-API-KEY");
    LookupAt(hs, 1, "X-BAPI-SIGN");
    LookupAt(hs, 2, "X-BAPI-SIGN-TYPE");
    LookupAt(hs, 3, "X-BAPI-TIMESTAMP");
    LookupAt(hs, 4, "X-BAPI-RECV-WINDOW");
    LookupAt(hs, 5, "Content-Type");
    hs
  }

  /** The payload the exchange authenticates: a POST's body, otherwise the URL's query part. */
  function SignedPayload(r: Request): string
  {
    if r.body.Some? then r.body.value
    else if '?' in r.url then r.url[IndexOf(r.url, '?') + 1..]
    else ""
  }

  /**
   * The exchange's check of a request, from the request as built: the
   * signature header must be the HMAC, under the account's secret, of the
   * timestamp, API key and receive-window headers followed by the payload.
   */
  predicate ExchangeAccepts(r: Request, secretKey: string, hmacSha256: Hmac)
  {
    var ts, key, window, sign :=
      Lookup(r.headers, "X-BAPI-TIMESTAMP"), Lookup(r.headers, "X-BAPI-API-KEY"),
      Lookup(r.headers, "X-BAPI-RECV-WINDOW"), Lookup(r.headers, "X-BAPI-SIGN");
    ts.Some? && key.Some? && window.Some? && sign.Some? &&
    sign.value == hmacSha256(secretKey, ts.value + key.value + window.value + SignedPayload(r))
  }

  /** Every request the client builds passes the exchange's signature check, GET and POST alike. */
  lemma BuiltRequestsAuthenticate(endpoint: string, verb: string, payload: string, clockMs: nat, hmacSha256: Hmac)
    requires '?' !in BASE_URL + endpoint
    ensures ExchangeAccepts(HttpRequest(endpoint, verb, payload, clockMs, hmacSha256), SECRET_KEY, hmacSha256)
  {
    var r := HttpRequest(endpoint, verb, payload, clockMs, hmacSha256);
    if verb != "POST" {
      var prefix := BASE_URL + endpoint;
      assert r.url == prefix + "?" + payload;
      assert r.url[|prefix|] == '?' && r.url[..|prefix|] == prefix;
      assert IndexOf(r.url, '?') == |prefix|;
      assert r.url[|prefix| + 1..] == payload;
    }
  }

  // ---------------------------------------------------------------------------
  // Query strings

  /** Python truthiness of an optional string argument: absent and empty are both false. */
  predicate Truthy(o: Option<string>) { o.Some? && o.value != "" }

  /** The parameters `get_orders` sends: the order id in preference to the symbol. */
  function GetOrdersParams(category: string, symbol: Option<string>, orderId: Option<string>): seq<(string, string)>
  {
    [("category", category)] +
    (if Truthy(orderId) then [("orderId", orderId.value)]
     else if Truthy(symbol) then [("symbol", symbol.value)]
     else [])   // the source only logs "order_id or symbol are required"
  }

  /** The query string `get_orders` builds. */
  function GetOrdersQuery(category: string := "linear", symbol: Option<string> := None,
                          orderId: Option<string> := None): (r: string)
    ensures r == Query(GetOrdersParams(category, symbol, orderId))
  {
    var params := "category=" + category;
    assert QueryItems([("category", category)]) == [QueryItem(("category", category))];
    if Truthy(orderId) then QueryOfTwo(("category", category), ("orderId", orderId.value)); params + "&orderId=" + orderId.value
    else if Truthy(symbol) then QueryOfTwo(("category", category), ("symbol", symbol.value)); params + "&symbol=" + symbol.value
    else params
  }

  /** `get_orders`: a GET of the open-orders endpoint with that query. */
  function GetOrdersRequest(clockMs: nat, hmacSha256: Hmac, category: string := "linear",
                            symbol: Option<string> := None, orderId: Option<string> := None): (r: Request)
    ensures r.verb == "GET" && r.body == None
    ensures r.url == BASE_URL + ORDER_REALTIME + "?" + GetOrdersQuery(category, symbol, orderId)
  {
    HttpRequest(ORDER_REALTIME, "GET", GetOrdersQuery(category, symbol, orderId), clockMs, hmacSha256)
  }

  /** What the exchange reads from the `get_orders` query: the id if given, else the symbol, else neither. */
  lemma GetOrdersReadsBack(category: string, symbol: Option<string>, orderId: Option<string>)
    requires QueryText(category)
    requires symbol.Some? ==> QueryText(symbol.value)
    requires orderId.Some? ==> QueryText(orderId.value)
    ensures var ps := ParseQuery(GetOrdersQuery(category, symbol, orderId));
      && ps[0] == ("category", category)
      && (Truthy(orderId) ==> ps == [("category", category), ("orderId", orderId.value)])
      && (!Truthy(orderId) && Truthy(symbol) ==> ps == [("category", category), ("symbol", symbol.value)])
      && (!Truthy(orderId) && !Truthy(symbol) ==> ps == [("category", category)])
  {
    var head := ("category", category);
    if Truthy(orderId) {
      QueryRoundTrip([head, ("orderId", orderId.value)]);
    } else if Truthy(symbol) {
      QueryRoundTrip([head, ("symbol", symbol.value)]);
    } else {
      QueryRoundTrip([head]);
    }
  }

  /** The query string `get_position` builds. */
  function GetPositionQuery(symbol: string := ""): (r: string)
    ensures r == Query([("category", "linear"), ("symbol", symbol)])
  {
    QueryOfTwo(("category", "linear"), ("symbol", symbol));
    "category=linear&symbol=" + symbol
  }

  /** `get_position`: a GET of the position list for one symbol. */
  function GetPositionRequest(clockMs: nat, hmacSha256: Hmac, symbol: string := ""): (r: Request)
    ensures r.verb == "GET" && r.body == None
    ensures r.url == BASE_URL + POSITION_LIST + "?category=linear&symbol=" + symbol
  {
    UrlWithQuery(BASE_URL + POSITION_LIST, "category=linear&symbol=", symbol);
    HttpRequest(POSITION_LIST, "GET", GetPositionQuery(symbol), clockMs, hmacSha256)
  }

  /** The query string `show_positions` builds. */
  function ShowPositionsQuery(settleCoin: string := "USDT"): (r: string)
    ensures r == Query([("category", "linear"), ("settleCoin", settleCoin)])
  {
    QueryOfTwo(("category", "linear"), ("settleCoin", settleCoin));
    "category=linear&settleCoin=" + settleCoin
  }

  /** `show_positions`: a GET of every position settled in one coin. */
  function ShowPositionsRequest(clockMs: nat, hmacSha256: Hmac, settleCoin: string := "USDT"): (r: Request)
    ensures r.verb == "GET" && r.body == None
    ensures r.url == BASE_URL + POSITION_LIST + "?category=linear&settleCoin=" + settleCoin
  {
    UrlWithQuery(BASE_URL + POSITION_LIST, "category=linear&settleCoin=", settleCoin);
    HttpRequest(POSITION_LIST, "GET", ShowPositionsQuery(settleCoin), clockMs, hmacSha256)
  }

  /** A GET URL with a query made of a fixed head and a caller's value. */
  lemma UrlWithQuery(prefix: string, head: string, value: string)
    ensures prefix + "?" + (head + value) == prefix + "?" + head + value
  {
  }

  /** The exchange reads the two position-list queries as exactly their two parameters. */
  lemma PositionQueriesReadBack(symbol: string, settleCoin: string)
    requires QueryText(symbol) && QueryText(settleCoin)
    ensures ParseQuery(GetPositionQuery(symbol)) == [("category", "linear"), ("symbol", symbol)]
    ensures ParseQuery(ShowPositionsQuery(settleCoin)) == [("category", "linear"), ("settleCoin", settleCoin)]
  {
    QueryRoundTrip([("category", "linear"), ("symbol", symbol)]);
    QueryRoundTrip([("category", "linear"), ("settleCoin", settleCoin)]);
  }

  // ---------------------------------------------------------------------------
  // place_order and close_position

  /** The fields of an order-create body, in the order `place_order` writes them. */
  function OrderFields(symbol: string, side: string, orderType: string, qty: string, reduce: string,
                       price: string): seq<(string, string)>
  {
    [("category", "linear"), ("symbol", symbol), ("side", side), ("orderType", orderType),
     ("qty", qty), ("timeInForce", "GTC"), ("reduceOnly", reduce), ("price", price)]
  }

  /**
   * The JSON body `place_order` writes by hand. Every value is a quoted
   * string, so the default price is the string "null", not JSON null.
   */
  function PlaceOrderBody(symbol: string, side: string, orderType: string, qty: string := "0",
                          reduce: string := "false", price: string := "null"): string
  {
    JsonObject(OrderFields(symbol, side, orderType, qty, reduce, price))
  }

  /** Caller values the flat body carries unchanged (see `JsonText`). */
  predicate OrderArgsSafe(symbol: string, side: string, orderType: string, qty: string, reduce: string, price: string)
  {
    JsonText(symbol) && JsonText(side) && JsonText(orderType) && JsonText(qty) && JsonText(reduce) && JsonText(price)
  }

  /**
   * What the exchange reads from a `place_order` body: linear category and
   * GTC always, the caller's values in their fixed places.
   */
  lemma PlaceOrderBodyReadsBack(symbol: string, side: string, orderType: string, qty: string,
                                reduce: string, price: string)
    requires OrderArgsSafe(symbol, side, orderType, qty, reduce, price)
    ensures var fs := ParseJsonObject(PlaceOrderBody(symbol, side, orderType, qty, reduce, price));
      && fs == Some(OrderFields(symbol, side, orderType, qty, reduce, price))
      && fs.value[0] == ("category", "linear") && fs.value[5] == ("timeInForce", "GTC")
  {
    OrderFieldsSafe(symbol, side, orderType, qty, reduce, price);
    JsonObjectRoundTrip(OrderFields(symbol, side, orderType, qty, reduce, price));
  }

  /** The fixed names and values of an order body need no escaping either. */
  lemma OrderFieldsSafe(symbol: string, side: string, orderType: string, qty: string,
                        reduce: string, price: string)
    requires OrderArgsSafe(symbol, side, orderType, qty, reduce, price)
    ensures JsonSafe(OrderFields(symbol, side, orderType, qty, reduce, price))
  {
    LettersJsonText("category");
    LettersJsonText("linear");
    LettersJsonText("symbol");
    LettersJsonText("side");
    LettersJsonText("orderType");
    LettersJsonText("qty");
    LettersJsonText("timeInForce");
    LettersJsonText("GTC");
    LettersJsonText("reduceOnly");
    LettersJsonText("price");
  }

  /** A text of ASCII letters needs no escaping in a JSON string. */
  lemma LettersJsonText(s: string)
    requires forall i :: 0 <= i < |s| ==> 'A' <= s[i] <= 'Z' || 'a' <= s[i] <= 'z'
    ensures JsonText(s)
  {
  }

  /** `place_order`: a POST of that body to the order-create endpoint. */
  function PlaceOrderRequest(clockMs: nat, hmacSha256: Hmac, symbol: string, side: string, orderType: string,
                             qty: string := "0", reduce: string := "false", price: string := "null"): (r: Request)
    ensures r.verb == "POST" && r.url == BASE_URL + ORDER_CREATE
    ensures r.body == Some(PlaceOrderBody(symbol, side, orderType, qty, reduce, price))
    ensures Lookup(r.headers, "X-BAPI-SIGN") ==
            Some(GenSignature(API_KEY, SECRET_KEY, r.body.value, NatToText(clockMs), hmacSha256))
  {
    HttpRequest(ORDER_CREATE, "POST", PlaceOrderBody(symbol, side, orderType, qty, reduce, price), clockMs, hmacSha256)
  }

  /** `close_position`: a reduce-only market sell with the default quantity and price. */
  function ClosePositionBody(symbol: string): (r: string)
    ensures r == PlaceOrderBody(symbol, "Sell", "Market", "0", "true", "null")
  {
    PlaceOrderBody(symbol, "Sell", "Market", reduce := "true")
  }

  /** What the exchange reads from a `close_position` body. */
  lemma ClosePositionReadsBack(symbol: string)
    requires JsonText(symbol)
    ensures ParseJsonObject(ClosePositionBody(symbol)) ==
      Some([("category", "linear"), ("symbol", symbol), ("side", "Sell"), ("orderType", "Market"),
            ("qty", "0"), ("timeInForce", "GTC"), ("reduceOnly", "true"), ("price", "null")])
  {
    PlaceOrderBodyReadsBack(symbol, "Sell", "Market", "0", "true", "null");
  }

  // ---------------------------------------------------------------------------
  // check_position and follow_position

  /** The decoded reply of the position-list endpoint. */
  datatype PositionList = PositionList(retCode: int, retMsg: string, list: seq<Snapshot>)

  datatype CheckOutcome =
    | ApiError                        // non-zero retCode: logged, nothing returned
    | Opened(orderBody: string)       // the market buy that was placed
    | AlreadyOpened(message: string)  // an existing position is left alone

  const ALREADY_OPENED_SUFFIX: string := ": already opened not by Bybit positions follower bot"

  /** `check_position`: open with a market buy only when the exchange reports the size text "0". */
  function CheckPosition(symbol: string, response: PositionList): (r: CheckOutcome)
    requires response.retCode == 0 ==> |response.list| > 0 && "size" in response.list[0]
    ensures r.ApiError? <==> response.retCode != 0
    ensures r.Opened? <==> response.retCode == 0 && response.list[0]["size"] == "0"
    ensures r.Opened? ==> r.orderBody == PlaceOrderBody(symbol, "Buy", "Market", "1")
    ensures r.AlreadyOpened? ==> r.message == symbol + ALREADY_OPENED_SUFFIX
  {
    if response.retCode != 0 then ApiError
    else if response.list[0]["size"] == "0" then Opened(PlaceOrderBody(symbol, "Buy", "Market", "1"))
    else AlreadyOpened(symbol + ALREADY_OPENED_SUFFIX)
  }

  /**
   * An empty size text counts as flat for a Position but as an existing
   * position for `check_position`, which then refuses to open.
   */
  lemma EmptySizeIsFlatButRefused(symbol: string, response: PositionList)
    requires response.retCode == 0 && |response.list| > 0 && "size" in response.list[0]
    requires response.list[0]["size"] == ""
    ensures CheckPosition(symbol, response).AlreadyOpened?
    ensures !Init(response.list[0]).isOpen
  {}

  /** `{key: position[key] for key in KEYS}`. */
  function FilterKeys(position: Snapshot): (r: Snapshot)
    requires HasKeys(position)
    ensures forall k :: k in r <==> k in KEYS
    ensures forall k :: k in r ==> r[k] == position[k]
  {
    map k | k in KEYS :: position[k]
  }

  /** Filtering to KEYS drops nothing the Position constructor reads. */
  lemma FilterKeysKeepsInit(position: Snapshot)
    requires HasKeys(position) && CanInit(position)
    ensures CanInit(FilterKeys(position))
    ensures Init(FilterKeys(position)) == Init(position)
  {
    SameFieldsSameInit(position, FilterKeys(position));
  }

  class Bybit {
    // Stored by the constructor but never read: requests use the configuration constants.
    const apiKey: string
    const secretKey: string
    const recvWindow: string
    const baseUrl: string
    var openedPositions: map<string, Position>
    var closedPositions: map<string, Position>

    constructor (apiKey: string, secretKey: string, recvWindow: string)
      ensures this.apiKey == apiKey && this.secretKey == secretKey && this.recvWindow == recvWindow
      ensures baseUrl == BASE_URL
      ensures openedPositions == map[] && closedPositions == map[]
    {
      this.apiKey := apiKey;
      this.secretKey := secretKey;
      this.recvWindow := recvWindow;
      baseUrl := BASE_URL;
      openedPositions := map[];
      closedPositions := map[];
    }

    /**
     * `follow_position`: read the first listed position, keep its KEYS, record
     * a new Position under the symbol and follow it over the given polls.
     */
    method FollowPosition(symbol: string, response: PositionList, ticks: seq<Tick>)
      returns (position: Position, placements: seq<Placement>, polls: nat)
      requires |response.list| > 0 && HasKeys(response.list[0]) && CanInit(response.list[0])
      requires Ready(Init(response.list[0]), ticks)
      modifies this
      ensures fresh(position)
      ensures openedPositions == old(openedPositions)[symbol := position]
      ensures closedPositions == old(closedPositions)
      ensures RunResult(position.State(), placements, polls) == Run(Init(response.list[0]), ticks)
    {
      var kept := FilterKeys(response.list[0]);
      FilterKeysKeepsInit(response.list[0]);
      position := new Position(kept);
      openedPositions := openedPositions[symbol := position];
      placements, polls := position.Follow(ticks);
    }
  }
}
