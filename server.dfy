/** The push server of server.js: four in-memory registries (users, sessions,
    stream registrations, prices), the request handlers that change them and
    the timer that moves prices and broadcasts them to subscribed users. */
module Server {

  import opened Seqs

  /** The only tickers the server accepts, in the insertion order of its price map. */
  const SupportedStocks: seq<string> := ["GOOG", "TSLA", "AMZN", "META", "NVDA"]

  /** Identifies one response object kept open as a server-sent event stream. */
  type StreamId = nat

  /** One pushed event, `data: {"ticker":…,"price":…}`; its text encoding is not modelled. */
  datatype Message = Message(ticker: string, price: real)

  /** The HTTP statuses the handlers answer with. */
  datatype Status = OK | BadRequest | Unauthorized | NotFound {
    function Code(): int {
      match this
      case OK => 200
      case BadRequest => 400
      case Unauthorized => 401
      case NotFound => 404
    }
  }

  /** A handler's answer: a value with status 200, or an error status. */
  datatype Reply<T> = Ok(value: T) | Fail(status: Status)

  datatype Option<T> = None | Some(value: T)

  /** One entry of the session map: token -> email. */
  datatype Entry = Entry(token: string, email: string)

  // ---------------------------------------------------------------------
  // The session map as an insertion-ordered sequence of entries

  /** Tokens are keys of a map: each occurs at most once. */
  ghost predicate UniqueTokens(sessions: seq<Entry>) {
    forall i, j :: 0 <= i < j < |sessions| ==> sessions[i].token != sessions[j].token
  }

  /** The keys of the session map, in iteration order. */
  function Tokens(sessions: seq<Entry>): (r: seq<string>)
    ensures forall t :: t in r <==> HasToken(sessions, t)
  {
    var r := seq(|sessions|, i requires 0 <= i < |sessions| => sessions[i].token);
    assert forall t :: t in r <==> HasToken(sessions, t) by {
      forall t ensures t in r <==> HasToken(sessions, t) {
        var k := KeyIndex(sessions, t);
        if k < |sessions| {
          assert r[k] == t;
        }
        if t in r {
          var i :| 0 <= i < |r| && r[i] == t;
          assert sessions[i].token == t;
        }
      }
    }
    r
  }

  /** Position of the first entry with key `token`, or |sessions| when there is none. */
  function KeyIndex(sessions: seq<Entry>, token: string): (i: nat)
    ensures i <= |sessions|
    ensures i < |sessions| ==> sessions[i].token == token
    ensures forall j :: 0 <= j < i ==> sessions[j].token != token
  {
    if sessions == [] then 0
    else if sessions[0].token == token then 0
    else 1 + KeyIndex(sessions[1..], token)
  }

  /** `sessions.has(token)` */
  predicate HasToken(sessions: seq<Entry>, token: string) {
    KeyIndex(sessions, token) < |sessions|
  }

  /** `sessions.get(token)` */
  function Lookup(sessions: seq<Entry>, token: string): (r: Option<string>)
    ensures r.Some? <==> HasToken(sessions, token)
    ensures r.Some? ==> exists i :: 0 <= i < |sessions| && sessions[i] == Entry(token, r.value)
  {
    var i := KeyIndex(sessions, token);
    if i < |sessions| then Some(sessions[i].email) else None
  }

  /** With unique tokens, looking up an entry's token finds that entry's email. */
  lemma LookupEntry(sessions: seq<Entry>, i: nat)
    requires UniqueTokens(sessions) && i < |sessions|
    ensures Lookup(sessions, sessions[i].token) == Some(sessions[i].email)
  {
    var k := KeyIndex(sessions, sessions[i].token);
    assert k <= i;
  }

  /** `sessions.set(token, email)`: an existing key keeps its position, a new key is appended. */
  function SetEntry(sessions: seq<Entry>, token: string, email: string): seq<Entry> {
    var i := KeyIndex(sessions, token);
    if i < |sessions| then sessions[i := Entry(token, email)] else sessions + [Entry(token, email)]
  }

  /** The token of the first session entry whose email is `email`, as the
      broadcast finds it with `Array.from(sessions.entries()).find(...)`. */
  function FirstTokenOf(sessions: seq<Entry>, email: string): (r: Option<string>)
    ensures r.Some? ==> exists i :: (0 <= i < |sessions| && sessions[i] == Entry(r.value, email)
      && forall j :: 0 <= j < i ==> sessions[j].email != email)
    ensures r.None? ==> forall i :: 0 <= i < |sessions| ==> sessions[i].email != email
  {
    if sessions == [] then None
    else if sessions[0].email == email then Some(sessions[0].token)
    else
      var r := FirstTokenOf(sessions[1..], email);
      assert r.Some? ==> exists i :: (1 <= i < |sessions| && sessions[i] == Entry(r.value, email)
        && forall j :: 0 <= j < i ==> sessions[j].email != email) by {
        if r.Some? {
          var k :| (0 <= k < |sessions[1..]| && sessions[1..][k] == Entry(r.value, email)
            && forall j :: 0 <= j < k ==> sessions[1..][j].email != email);
          assert sessions[k + 1] == Entry(r.value, email);
          assert forall j :: 1 <= j < k + 1 ==> sessions[j] == sessions[1..][j - 1];
        }
      }
      r
  }

  /** The signed-in email for a token, as `/subscriptions` and `/subscribe`
      test it: an unknown token and an empty email (falsy in JavaScript) both fail. */
  function SignedIn(sessions: seq<Entry>, token: string): (r: Option<string>)
    ensures r.Some? <==> Lookup(sessions, token).Some? && Lookup(sessions, token).value != ""
    ensures r.Some? ==> r == Lookup(sessions, token)
  {
    match Lookup(sessions, token)
    case None => None
    case Some(email) => if email == "" then None else Some(email)
  }

  lemma {:induction false} KeyIndexAfterSet(sessions: seq<Entry>, token: string, email: string, other: string)
    ensures KeyIndex(SetEntry(sessions, token, email), token) == KeyIndex(sessions, token)
      || (KeyIndex(sessions, token) == |sessions| && KeyIndex(SetEntry(sessions, token, email), token) == |sessions|)
    ensures other != token ==>
      KeyIndex(SetEntry(sessions, token, email), other) == KeyIndex(sessions, other)
      || (KeyIndex(sessions, other) == |sessions| && KeyIndex(SetEntry(sessions, token, email), other) == |sessions| + 1)
  {
    var r := SetEntry(sessions, token, email);
    var i := KeyIndex(sessions, token);
    assert forall j :: 0 <= j < |sessions| ==> r[j].token == sessions[j].token;
    var k := KeyIndex(r, token);
    if i < |sessions| {
      assert r[i].token == token;
      assert k == i;
    } else {
      assert r[|sessions|].token == token;
      assert k == |sessions|;
    }
    if other != token {
      var a := KeyIndex(sessions, other);
      var b := KeyIndex(r, other);
      if a < |sessions| {
        assert r[a].token == other;
        assert b == a;
      } else {
        assert |r| == |sessions| + 1 || |r| == |sessions|;
        if |r| == |sessions| + 1 {
          assert r[|sessions|].token != other;
        }
        assert b == |r|;
      }
    }
  }

  /** `sessions.set(token, email)` maps `token` to `email` and leaves every other key's value alone. */
  lemma SetEntryLookup(sessions: seq<Entry>, token: string, email: string, other: string)
    ensures Lookup(SetEntry(sessions, token, email), token) == Some(email)
    ensures other != token ==> Lookup(SetEntry(sessions, token, email), other) == Lookup(sessions, other)
  {
    KeyIndexAfterSet(sessions, token, email, other);
  }

  /** `sessions.set` keeps the key order of a JavaScript Map: an existing key stays
      where it was, a new key goes last. */
  lemma SetEntryKeyOrder(sessions: seq<Entry>, token: string, email: string)
    ensures Tokens(SetEntry(sessions, token, email))
      == if HasToken(sessions, token) then Tokens(sessions) else Tokens(sessions) + [token]
  {
    var r := SetEntry(sessions, token, email);
    if HasToken(sessions, token) {
      assert Tokens(r) == Tokens(sessions);
    } else {
      assert Tokens(r) == Tokens(sessions) + [token];
    }
  }

  /** `sessions.set` keeps the keys unique. */
  lemma SetEntryUnique(sessions: seq<Entry>, token: string, email: string)
    requires UniqueTokens(sessions)
    ensures UniqueTokens(SetEntry(sessions, token, email))
  {
    var r := SetEntry(sessions, token, email);
    var k := KeyIndex(sessions, token);
    forall i, j | 0 <= i < j < |r| ensures r[i].token != r[j].token {
      if k == |sessions| && j == |sessions| {
        assert r[i] == sessions[i];
      }
    }
  }

  /** Keys are never removed by `sessions.set`. */
  lemma SetEntryKeepsKeys(sessions: seq<Entry>, token: string, email: string, other: string)
    ensures HasToken(SetEntry(sessions, token, email), other) <==> HasToken(sessions, other) || other == token
  {
    SetEntryLookup(sessions, token, email, other);
  }

  /** With unique keys, the token the broadcast picks for an email maps back to that email. */
  lemma FirstTokenMapsBack(sessions: seq<Entry>, email: string)
    requires UniqueTokens(sessions)
    requires FirstTokenOf(sessions, email).Some?
    ensures Lookup(sessions, FirstTokenOf(sessions, email).value) == Some(email)
  {
    var t := FirstTokenOf(sessions, email).value;
    var i :| 0 <= i < |sessions| && sessions[i] == Entry(t, email);
    var k := KeyIndex(sessions, t);
    assert k <= i;
    assert k == i;
  }

  // ---------------------------------------------------------------------
  // Subscription lists

  /** A subscription list the server can hold: supported tickers, each once. */
  ghost predicate Subscribable(subs: seq<string>) {
    NoDuplicates(subs) && forall t :: t in subs ==> t in SupportedStocks
  }

  /** The `/subscribe` update: push `ticker` unless the list already includes it. */
  function AddSubscription(subs: seq<string>, ticker: string): seq<string> {
    if ticker in subs then subs else subs + [ticker]
  }

  /** A successful subscribe: the ticker is present exactly once afterwards, the
      earlier subscriptions keep their order in front of it, nothing else is added,
      the list stays duplicate-free, and subscribing again changes nothing. */
  lemma AddSubscriptionSpec(subs: seq<string>, ticker: string)
    requires NoDuplicates(subs)
    ensures ticker in AddSubscription(subs, ticker)
    ensures subs <= AddSubscription(subs, ticker)
    ensures forall t :: t in AddSubscription(subs, ticker) <==> t in subs || t == ticker
    ensures NoDuplicates(AddSubscription(subs, ticker))
    ensures multiset(AddSubscription(subs, ticker))[ticker] == 1
    ensures AddSubscription(AddSubscription(subs, ticker), ticker) == AddSubscription(subs, ticker)
  {
    var r := AddSubscription(subs, ticker);
    assert NoDuplicates(r) by {
      if ticker !in subs {
        forall i, j | 0 <= i < j < |r| ensures r[i] != r[j] {
          if j == |subs| { assert r[i] == subs[i]; }
        }
      }
    }
    NoDuplicatesCount(r, ticker);
  }

  // ---------------------------------------------------------------------
  // Pushed messages

  /** The messages written for a subscription list: one per subscribed ticker
      that has a price, in subscription order, carrying that price. */
  function Feed(subs: seq<string>, prices: map<string, real>): (r: seq<Message>)
    ensures |r| <= |subs|
  {
    if subs == [] then []
    else
      (if subs[0] in prices then [Message(subs[0], prices[subs[0]])] else [])
      + Feed(subs[1..], prices)
  }

  lemma {:induction false} FeedAppend(subs: seq<string>, ticker: string, prices: map<string, real>)
    ensures Feed(subs + [ticker], prices)
      == Feed(subs, prices) + (if ticker in prices then [Message(ticker, prices[ticker])] else [])
  {
    var last := if ticker in prices then [Message(ticker, prices[ticker])] else [];
    if subs == [] {
      assert [ticker][1..] == [];
    } else {
      var head := if subs[0] in prices then [Message(subs[0], prices[subs[0]])] else [];
      var whole := subs + [ticker];
      assert whole[0] == subs[0] && whole[1..] == subs[1..] + [ticker];
      FeedAppend(subs[1..], ticker, prices);
      calc {
        Feed(whole, prices);
        head + Feed(subs[1..] + [ticker], prices);
        head + (Feed(subs[1..], prices) + last);
        (head + Feed(subs[1..], prices)) + last;
      }
    }
  }

  /** When every subscribed ticker has a price (always so on the server), the
      feed holds exactly one message per subscription, in order. */
  lemma {:induction false} FeedCovers(subs: seq<string>, prices: map<string, real>)
    requires forall t :: t in subs ==> t in prices
    ensures |Feed(subs, prices)| == |subs|
    ensures forall i :: 0 <= i < |subs| ==> Feed(subs, prices)[i] == Message(subs[i], prices[subs[i]])
  {
    if subs != [] {
      FeedCovers(subs[1..], prices);
    }
  }

  /** The loop of `user.subscriptions.forEach(... es.write(...))`: appends the
      feed for `subs` to what a stream has already received. */
  method AppendFeed(written: seq<Message>, subs: seq<string>, prices: map<string, real>)
    returns (r: seq<Message>)
    ensures r == written + Feed(subs, prices)
  {
    r := written;
    var i := 0;
    while i < |subs|
      invariant 0 <= i <= |subs|
      invariant r == written + Feed(subs[..i], prices)
    {
      var ticker := subs[i];
      if ticker in prices {
        r := r + [Message(ticker, prices[ticker])];
      }
      assert subs[..i + 1] == subs[..i] + [ticker];
      FeedAppend(subs[..i], ticker, prices);
      i := i + 1;
    }
    assert subs[..i] == subs;
  }

  // ---------------------------------------------------------------------
  // Prices

  /** The server's price change for one `Math.random()` draw `u`: (u - 0.5) * 10. */
  function Change(u: real): real {
    (u - 0.5) * 10.0
  }

  /** `Math.max(1, price + change)` */
  function NextPrice(price: real, change: real): (r: real)
    ensures r >= 1.0 && r >= price + change
    ensures r == 1.0 || r == price + change
  {
    if price + change < 1.0 then 1.0 else price + change
  }

  /** With a draw in [0, 1) and a price already at the floor or above, one tick
      moves the price by at most 5. */
  lemma NextPriceBounded(price: real, u: real)
    requires 0.0 <= u < 1.0 && price >= 1.0
    ensures -5.0 <= NextPrice(price, Change(u)) - price <= 5.0
  {
  }

  lemma SupportedDistinct()
    ensures NoDuplicates(SupportedStocks)
  {
    assert SupportedStocks[0][0] == 'G' && SupportedStocks[1][0] == 'T' && SupportedStocks[2][0] == 'A';
    assert SupportedStocks[3][0] == 'M' && SupportedStocks[4][0] == 'N';
  }

  /** The prices after one tick. The `forEach` visits the tickers in the map's
      insertion order `order`, so the ticker at position i there takes the
      i-th draw of `draws`. */
  function TickedPrices(order: seq<string>, prices: map<string, real>, draws: seq<real>): (r: map<string, real>)
    requires |draws| == |order|
    requires forall t :: t in prices ==> t in order
  {
    map t | t in prices :: NextPrice(prices[t], Change(draws[IndexOf(order, t)]))
  }

  /** A tick keeps the set of tickers, floors every price at 1 and moves the
      ticker at position i with the i-th draw. */
  lemma TickedPricesSpec(order: seq<string>, prices: map<string, real>, draws: seq<real>)
    requires NoDuplicates(order) && |draws| == |order|
    requires forall t :: t in prices <==> t in order
    ensures TickedPrices(order, prices, draws).Keys == prices.Keys
    ensures forall t :: t in prices ==> TickedPrices(order, prices, draws)[t] >= 1.0
    ensures forall i :: 0 <= i < |order| ==>
      TickedPrices(order, prices, draws)[order[i]] == NextPrice(prices[order[i]], Change(draws[i]))
  {
    forall i | 0 <= i < |order| ensures IndexOf(order, order[i]) == i {
      IndexOfDistinct(order, i);
    }
  }

  /** The server's price map: exactly the supported tickers, each priced at least 1. */
  ghost predicate PriceTable(prices: map<string, real>) {
    && (forall t :: t in prices <==> t in SupportedStocks)
    && (forall t :: t in prices ==> prices[t] >= 1.0)
  }

  /** A tick of the server's price map is again a price map of the server. */
  lemma TickKeepsPriceTable(prices: map<string, real>, draws: seq<real>)
    requires PriceTable(prices) && |draws| == |SupportedStocks|
    ensures PriceTable(TickedPrices(SupportedStocks, prices, draws))
  {
    SupportedDistinct();
    TickedPricesSpec(SupportedStocks, prices, draws);
  }

  /** Prices after a run of ticks, one draw sequence per tick. */
  function Ticks(order: seq<string>, prices: map<string, real>, rounds: seq<seq<real>>): map<string, real>
    requires forall t :: t in prices <==> t in order
    requires forall k :: 0 <= k < |rounds| ==> |rounds[k]| == |order|
    decreases |rounds|
  {
    if rounds == [] then prices
    else
      var next := TickedPrices(order, prices, rounds[0]);
      assert next.Keys == prices.Keys;
      Ticks(order, next, rounds[1..])
  }

  /** However many ticks run, the tickers stay the same and every price stays at least 1. */
  lemma {:induction false} TicksKeepFloor(order: seq<string>, prices: map<string, real>, rounds: seq<seq<real>>)
    requires NoDuplicates(order)
    requires forall t :: t in prices <==> t in order
    requires forall t :: t in prices ==> prices[t] >= 1.0
    requires forall k :: 0 <= k < |rounds| ==> |rounds[k]| == |order|
    ensures Ticks(order, prices, rounds).Keys == prices.Keys
    ensures forall t :: t in prices ==> Ticks(order, prices, rounds)[t] >= 1.0
    decreases |rounds|
  {
    if rounds != [] {
      TickedPricesSpec(order, prices, rounds[0]);
      TicksKeepFloor(order, TickedPrices(order, prices, rounds[0]), rounds[1..]);
    }
  }

  // ---------------------------------------------------------------------
  // Broadcast targets

  /** The stream a broadcast writes to for `email`: that of the FIRST session
      token mapped to the email, if the token is non-empty and has a stream.
      Later tokens of the same email are never considered. */
  function StreamOf(sessions: seq<Entry>, eventSources: map<string, StreamId>, email: string): (r: Option<StreamId>)
    ensures r.Some? <==> (FirstTokenOf(sessions, email).Some? && FirstTokenOf(sessions, email).value != ""
      && FirstTokenOf(sessions, email).value in eventSources)
    ensures r.Some? ==> (FirstTokenOf(sessions, email).Some?
      && FirstTokenOf(sessions, email).value in eventSources
      && r.value == eventSources[FirstTokenOf(sessions, email).value])
  {
    match FirstTokenOf(sessions, email)
    case None => None
    case Some(token) => if token != "" && token in eventSources then Some(eventSources[token]) else None
  }

  /** Registrations are one stream per token and one token per stream. */
  ghost predicate Injective(eventSources: map<string, StreamId>) {
    forall a, b :: a in eventSources && b in eventSources && a != b ==> eventSources[a] != eventSources[b]
  }

  /** Registering a stream id not used before keeps registrations injective. */
  lemma RegisterFresh(eventSources: map<string, StreamId>, outbox: map<StreamId, seq<Message>>, token: string, stream: StreamId)
    requires Injective(eventSources) && forall t :: t in eventSources ==> eventSources[t] in outbox
    requires stream !in outbox
    ensures Injective(eventSources[token := stream])
  {
  }

  /** With unique tokens and injective registrations, no two users share a broadcast stream. */
  lemma StreamOwnerUnique(sessions: seq<Entry>, eventSources: map<string, StreamId>, e1: string, e2: string)
    requires UniqueTokens(sessions) && Injective(eventSources)
    requires StreamOf(sessions, eventSources, e1).Some?
    requires StreamOf(sessions, eventSources, e1) == StreamOf(sessions, eventSources, e2)
    ensures e1 == e2
  {
    var t1 := FirstTokenOf(sessions, e1).value;
    var t2 := FirstTokenOf(sessions, e2).value;
    assert t1 == t2;
    FirstTokenMapsBack(sessions, e1);
    FirstTokenMapsBack(sessions, e2);
  }

  /** The loop of `stockPrices.forEach(...)`: sets each ticker's price to
      max(1, price + change), one draw per ticker in map order. */
  method TickPrices(order: seq<string>, prices: map<string, real>, draws: seq<real>) returns (next: map<string, real>)
    requires NoDuplicates(order) && |draws| == |order|
    requires forall t :: t in prices <==> t in order
    ensures next == TickedPrices(order, prices, draws)
  {
    next := prices;
    for i := 0 to |order|
      invariant next.Keys == prices.Keys
      invariant forall k :: 0 <= k < i ==> next[order[k]] == NextPrice(prices[order[k]], Change(draws[k]))
      invariant forall k :: i <= k < |order| ==> next[order[k]] == prices[order[k]]
    {
      var ticker := order[i];
      next := next[ticker := NextPrice(next[ticker], Change(draws[i]))];
    }
    TickedPricesSpec(order, prices, draws);
    forall t | t in next ensures next[t] == TickedPrices(order, prices, draws)[t] {
      var k := IndexOf(order, t);
      assert next[order[k]] == NextPrice(prices[order[k]], Change(draws[k]));
    }
  }

  /** The loop of `users.forEach(...)` in the broadcast: appends each user's feed
      to the stream of the first session token mapped to the user's email, and
      leaves every stream no user's first token points at as it was. */
  method Fanout(users: map<string, seq<string>>, sessions: seq<Entry>, eventSources: map<string, StreamId>,
                prices: map<string, real>, outbox: map<StreamId, seq<Message>>)
    returns (box: map<StreamId, seq<Message>>)
    requires UniqueTokens(sessions) && Injective(eventSources)
    requires forall t :: t in eventSources ==> eventSources[t] in outbox
    ensures box.Keys == outbox.Keys
    ensures forall e :: e in users && StreamOf(sessions, eventSources, e).Some? ==>
      var s := StreamOf(sessions, eventSources, e).value;
      box[s] == outbox[s] + Feed(users[e], prices)
    ensures forall s :: s in box && (forall e :: e in users ==> StreamOf(sessions, eventSources, e) != Some(s)) ==>
      box[s] == outbox[s]
  {
    box := outbox;
    var todo := users.Keys;
    while todo != {}
      invariant todo <= users.Keys
      invariant box.Keys == outbox.Keys
      invariant forall e :: e in users && e !in todo && StreamOf(sessions, eventSources, e).Some? ==>
        var s := StreamOf(sessions, eventSources, e).value;
        box[s] == outbox[s] + Feed(users[e], prices)
      invariant forall s :: s in box && (forall e :: e in users && e !in todo ==> StreamOf(sessions, eventSources, e) != Some(s)) ==>
        box[s] == outbox[s]
      decreases todo
    {
      var email :| email in todo;
      var target := StreamOf(sessions, eventSources, email);
      if target.Some? {
        var s := target.value;
        forall e | StreamOf(sessions, eventSources, e) == Some(s) ensures e == email {
          StreamOwnerUnique(sessions, eventSources, email, e);
        }
        var fed := AppendFeed(box[s], users[email], prices);
        box := box[s := fed];
      }
      todo := todo - {email};
    }
  }

  // ---------------------------------------------------------------------
  // Routing of the price lookup

  /** The `pathname` that `url.parse` reports for a request path: everything
      before the query ('?') or the fragment ('#'). */
  function Pathname(path: string): (p: string)
    ensures p <= path
    ensures '?' !in p && '#' !in p
    ensures |p| == |path| || path[|p|] == '?' || path[|p|] == '#'
  {
    var q, h := IndexOf(path, '?'), IndexOf(path, '#');
    path[..if q < h then q else h]
  }

  /** The router's guard for the price lookup as written: `pathname.startsWith("/price?")`. */
  predicate PriceRouteAsWritten(pathname: string) {
    "/price?" <= pathname
  }

  /** The guard as written never matches a parsed pathname, so the lookup is unreachable. */
  lemma PriceRouteUnreachable(path: string)
    ensures !PriceRouteAsWritten(Pathname(path))
  {
    var p := Pathname(path);
    if |p| > 6 {
      assert p[6] != "/price?"[6];
    }
  }

  /** The guard the lookup evidently needs: the pathname is exactly "/price". */
  predicate PriceRoute(pathname: string) {
    pathname == "/price"
  }

  /** With that guard a request for `/price?ticker=T` reaches the lookup for any T. */
  lemma PriceRouteReached(ticker: string)
    ensures PriceRoute(Pathname("/price?ticker=" + ticker))
  {
    var path := "/price?ticker=" + ticker;
    assert path[..7] == "/price?";
    assert IndexOf(path, '?') == 6;
    assert IndexOf(path, '#') >= 6;
  }

  // ---------------------------------------------------------------------
  // The server state

  /** Tokens are unique, every session's email has a user record, and every
      user's list holds supported tickers once each. */
  ghost predicate Accounts(users: map<string, seq<string>>, sessions: seq<Entry>) {
    && UniqueTokens(sessions)
    && (forall i :: 0 <= i < |sessions| ==> sessions[i].email in users)
    && (forall e :: e in users ==> Subscribable(users[e]))
  }

  /** Every registered token is a session token whose stream was opened, and no
      two tokens share a stream. */
  ghost predicate Streams(sessions: seq<Entry>, eventSources: map<string, StreamId>, outbox: map<StreamId, seq<Message>>) {
    && (forall token :: token in eventSources ==> HasToken(sessions, token) && eventSources[token] in outbox)
    && Injective(eventSources)
  }

  class StockServer {
    /** email -> subscribed tickers */
    var users: map<string, seq<string>>
    /** token -> email, in insertion order */
    var sessions: seq<Entry>
    /** token -> open stream */
    var eventSources: map<string, StreamId>
    /** everything written so far to each stream that was ever opened */
    var outbox: map<StreamId, seq<Message>>
    /** ticker -> current price */
    var prices: map<string, real>

    ghost predicate Valid()
      reads this
    {
      Accounts(users, sessions) && Streams(sessions, eventSources, outbox) && PriceTable(prices)
    }

    constructor ()
      ensures Valid()
      ensures users == map[] && sessions == [] && eventSources == map[] && outbox == map[]
      ensures prices == map["GOOG" := 150.0, "TSLA" := 250.0, "AMZN" := 180.0, "META" := 320.0, "NVDA" := 500.0]
    {
      users := map[];
      sessions := [];
      eventSources := map[];
      outbox := map[];
      prices := map["GOOG" := 150.0, "TSLA" := 250.0, "AMZN" := 180.0, "META" := 320.0, "NVDA" := 500.0];
    }

    /** POST /login with a freshly generated `token`. */
    method Login(email: string, token: string) returns (status: Status, session: string)
      requires Valid()
      modifies this
      ensures Valid()
      ensures status == OK && session == token
      ensures users == if email in old(users) then old(users) else old(users)[email := []]
      ensures sessions == SetEntry(old(sessions), token, email)
      ensures eventSources == old(eventSources) && outbox == old(outbox) && prices == old(prices)
    {
      if email !in users {
        users := users[email := []];
      }
      SetEntryUnique(sessions, token, email);
      forall other | other in eventSources ensures HasToken(SetEntry(sessions, token, email), other) {
        SetEntryKeepsKeys(sessions, token, email, other);
      }
      sessions := SetEntry(sessions, token, email);
      status, session := OK, token;
    }

    /** GET /subscriptions?session=token */
    function Subscriptions(token: string): (r: Reply<seq<string>>)
      requires Valid()
      reads this
      ensures r.Fail? <==> SignedIn(sessions, token).None?
      ensures r.Fail? ==> r.status == Unauthorized
      ensures r.Ok? ==> r.value == users[SignedIn(sessions, token).value] && Subscribable(r.value)
    {
      match SignedIn(sessions, token)
      case None => Fail(Unauthorized)
      case Some(email) => Ok(users[email])
    }

    /** POST /subscribe {session: token, ticker} */
    method Subscribe(token: string, ticker: string) returns (status: Status)
      requires Valid()
      modifies this
      ensures Valid()
      ensures sessions == old(sessions) && eventSources == old(eventSources)
      ensures outbox == old(outbox) && prices == old(prices)
      ensures ticker !in SupportedStocks ==> status == BadRequest && users == old(users)
      ensures ticker in SupportedStocks && SignedIn(sessions, token).None? ==>
        status == Unauthorized && users == old(users)
      ensures ticker in SupportedStocks && SignedIn(sessions, token).Some? ==>
        var email := SignedIn(sessions, token).value;
        status == OK && users == old(users)[email := AddSubscription(old(users)[email], ticker)]
    {
      if ticker !in SupportedStocks {
        return BadRequest;
      }
      var signedIn := SignedIn(sessions, token);
      if signedIn.None? {
        return Unauthorized;
      }
      var email := signedIn.value;
      AddSubscriptionSpec(users[email], ticker);
      if ticker !in users[email] {
        users := users[email := users[email] + [ticker]];
      }
      status := OK;
    }

    /** The body of the price lookup: the current price of `ticker`, or 404. */
    function Price(ticker: string): (r: Reply<real>)
      requires Valid()
      reads this
      ensures r.Ok? <==> ticker in SupportedStocks
      ensures r.Fail? ==> r.status == NotFound
      ensures r.Ok? ==> r.value == prices[ticker] && r.value >= 1.0
    {
      if ticker in prices then Ok(prices[ticker]) else Fail(NotFound)
    }

    /** GET /events?session=token, answered on the new response object `stream`:
        registers the stream for the token, replacing any earlier one, and
        flushes the current price of every subscribed ticker. */
    method OpenStream(token: string, stream: StreamId) returns (status: Status)
      requires Valid()
      requires stream !in outbox
      modifies this
      ensures Valid()
      ensures users == old(users) && sessions == old(sessions) && prices == old(prices)
      ensures !HasToken(sessions, token) ==>
        status == Unauthorized && eventSources == old(eventSources) && outbox == old(outbox)
      ensures HasToken(sessions, token) ==>
        var subs := users[Lookup(sessions, token).value];
        && status == OK
        && eventSources == old(eventSources)[token := stream]
        && outbox == old(outbox)[stream := Feed(subs, prices)]
        && |outbox[stream]| == |subs|
        && forall i :: 0 <= i < |subs| ==> outbox[stream][i] == Message(subs[i], prices[subs[i]])
    {
      if !HasToken(sessions, token) {
        return Unauthorized;
      }
      RegisterFresh(eventSources, outbox, token, stream);
      eventSources := eventSources[token := stream];
      var email := Lookup(sessions, token).value;
      var written := AppendFeed([], users[email], prices);
      assert written == Feed(users[email], prices);
      outbox := outbox[stream := written];
      FeedCovers(users[email], prices);
      status := OK;
    }

    /** The `close` event of the request that opened a stream for `token`:
        removes whatever stream is registered for the token now. */
    method CloseStream(token: string)
      requires Valid()
      modifies this
      ensures Valid()
      ensures eventSources == old(eventSources) - {token}
      ensures users == old(users) && sessions == old(sessions)
      ensures outbox == old(outbox) && prices == old(prices)
    {
      eventSources := eventSources - {token};
    }

    /** One timer tick: move every price with one draw per ticker, then broadcast. */
    method Tick(draws: seq<real>)
      requires Valid()
      requires |draws| == |SupportedStocks|
      modifies this
      ensures Valid()
      ensures prices == TickedPrices(SupportedStocks, old(prices), draws)
      ensures users == old(users) && sessions == old(sessions) && eventSources == old(eventSources)
      ensures outbox.Keys == old(outbox).Keys
      ensures forall e :: e in users && StreamOf(sessions, eventSources, e).Some? ==>
        var s := StreamOf(sessions, eventSources, e).value;
        outbox[s] == old(outbox)[s] + Feed(users[e], prices)
      ensures forall s :: s in outbox && (forall e :: e in users ==> StreamOf(sessions, eventSources, e) != Some(s)) ==>
        outbox[s] == old(outbox)[s]
    {
      UpdatePrices(draws);
      Broadcast();
    }

    /** `stockPrices.forEach(...)`: each price becomes max(1, price + change). */
    method UpdatePrices(draws: seq<real>)
      requires Valid()
      requires |draws| == |SupportedStocks|
      modifies this
      ensures Valid()
      ensures prices == TickedPrices(SupportedStocks, old(prices), draws)
      ensures users == old(users) && sessions == old(sessions)
      ensures eventSources == old(eventSources) && outbox == old(outbox)
    {
      SupportedDistinct();
      var next := TickPrices(SupportedStocks, prices, draws);
      TickKeepsPriceTable(prices, draws);
      prices := next;
    }

    /** `users.forEach(...)`: each user's feed goes to the stream of the first
        session token mapped to that user's email, if it has one. */
    method Broadcast()
      requires Valid()
      modifies this
      ensures Valid()
      ensures users == old(users) && sessions == old(sessions)
      ensures eventSources == old(eventSources) && prices == old(prices)
      ensures outbox.Keys == old(outbox).Keys
      ensures forall e :: e in users && StreamOf(sessions, eventSources, e).Some? ==>
        var s := StreamOf(sessions, eventSources, e).value;
        outbox[s] == old(outbox)[s] + Feed(users[e], prices)
      ensures forall s :: s in outbox && (forall e :: e in users ==> StreamOf(sessions, eventSources, e) != Some(s)) ==>
        outbox[s] == old(outbox)[s]
    {
      outbox := Fanout(users, sessions, eventSources, prices, outbox);
    }
  }
}
