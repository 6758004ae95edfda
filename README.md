# Stock dashboard: verified model of the push server and the dashboard logic

This project models the two core files of a small stock-broker dashboard:

- **server.js**: an HTTP server with four in-memory registries:
  - users (email → subscribed tickers);
  - sessions (token → email, a JavaScript `Map` with insertion order);
  - stream registrations (token → open server-sent-event response);
  - prices (ticker → price).

  Its request handlers change these registries: log in, list subscriptions, subscribe, price lookup, open a stream, and the stream's close event. A timer moves every price and then pushes the subscribed prices to each user's stream.
- **src/App.jsx**: the React dashboard's logic:
  - the `STOCKS` catalogue and the initial price records;
  - the once-a-second random walk of each record (clamp, trend, high/low band);
  - `validateEmail` and the login/logout handlers;
  - `toggleSubscription`;
  - `getSortedStocks`, the watchlist filter and sort.

Modules and files:

| file | module | models |
|---|---|---|
| `seqs.dfy` | `Seqs` | duplicate-free sequences and first-index search, shared by the others |
| `server.dfy` | `Server` | the server: the session map as an insertion-ordered sequence, subscription lists, pushed messages, the price tick, broadcast targets, the price route, and the class `StockServer` whose methods are the handlers and the timer |
| `scenarios.dfy` | `Scenarios` | concrete runs of `StockServer`, including the two ways a user loses updates (only the first token is served; a close drops a newer stream) |
| `market.dfy` | `Market` | the catalogue, price records, initial records and the client tick |
| `email.dfy` | `EmailCheck` | `validateEmail` against its regular expression, and `trim` |
| `login.dfy` | `LoginForm` | the login form's state and its handlers |
| `watchlist.dfy` | `Watchlist` | `toggleSubscription` and `getSortedStocks` |

Modelling choices:

- **Server state.** `StockServer` keeps the registries as fields that its methods reassign. `Valid()` is the invariant every handler keeps:
  - tokens are unique;
  - every session's email has a user;
  - subscription lists hold supported tickers, each once;
  - every registered token is a session token;
  - no two tokens share a stream;
  - the price map holds exactly the supported tickers, each priced at least 1.
- **The session map.** It is a sequence of `Entry(token, email)`. `SetEntry` follows `Map.set`: an existing key keeps its place and a new key goes last. The broadcast depends on this order, because it serves the *first* token whose email matches.
- **Streams.** Each `res` object used as a stream is a `StreamId`. Everything written to a stream is kept in `outbox`, a map from stream id to the sequence of `Message(ticker, price)` values written to it.
- **Randomness.** `Math.random()` values are parameters (`draws`), one per ticker, in the order the source visits the tickers. The new session token of `/login` is also a parameter.
- **Route parsing.** `url.parse` is modelled only as far as the price route needs it: `Pathname` cuts a request path at its first '?' or '#'.

Where the specification and the code disagree, the model follows the code:

- The specification describes the server's price move as a random delta within a fixed percentage. The code adds an absolute `(u - 0.5) * 10` (server.js:30), so `Server.Change` does the same.
- The specification lists `GET /price?ticker=…` as a working route. The code's guard cannot match any parsed pathname (server.js:116; see Findings). The handler body is modelled as `Server.StockServer.Price`.

## Model

| member | source | states |
|---|---|---|
| Server.KeyIndex | server.js:12 | the position of a token in the session map: the first entry with that key, or the length when there is none |
| Server.Lookup | server.js:78 | `sessions.get` finds an email exactly when the token is a key, and that email is stored under the token |
| Server.LookupEntry | server.js:78 | with unique tokens, looking up an entry's token returns that entry's email |
| Server.SetEntryLookup | server.js:69 | `sessions.set(token, email)` maps the token to the email and leaves every other key's value alone |
| Server.SetEntryKeyOrder | server.js:69 | `sessions.set` keeps an existing key in place and appends a new key at the end |
| Server.SetEntryUnique | server.js:69 | `sessions.set` keeps the keys unique |
| Server.SetEntryKeepsKeys | server.js:69 | after `sessions.set` a token is a key iff it was one before or is the token set |
| Server.Tokens | server.js:12 | the keys of the session map, in order, are exactly the tokens `sessions.has` accepts |
| Server.FirstTokenOf | server.js:40-42 | the `find` over session entries returns the token of the first entry with that email, or nothing when no entry has it |
| Server.FirstTokenMapsBack | server.js:40-42 | with unique tokens, the token found for an email maps back to that email |
| Server.SignedIn | server.js:78-79 | the `!email` test fails for an unknown token and for an empty email, and otherwise yields the stored email |
| Server.AddSubscriptionSpec | server.js:106-109 | a subscribe leaves the ticker present exactly once, keeps earlier subscriptions in order before it, adds nothing else, keeps the list duplicate-free and is idempotent |
| Server.FeedCovers | server.js:154-157 | when every subscribed ticker has a price, the written messages are exactly one per subscription, in order, each with the current price |
| Server.AppendFeed | server.js:45-50 | the write loop appends the feed of the subscription list to what the stream already holds |
| Server.NextPrice | server.js:31 | `Math.max(1, price + change)` is at least 1 and at least price + change, and equals one of them |
| Server.NextPriceBounded | server.js:30-31 | with a draw in [0, 1), one tick moves a price of at least 1 by at most 5 |
| Server.SupportedDistinct | server.js:8 | the supported tickers are distinct |
| Server.TickedPricesSpec | server.js:29-32 | a tick keeps the set of tickers, floors every price at 1, and moves the ticker at position i of the map order with the i-th draw |
| Server.TickKeepsPriceTable | server.js:29-32 | a tick of the server's price map still holds exactly the supported tickers, each priced at least 1 |
| Server.TicksKeepFloor | server.js:28-32 | after any number of ticks the tickers are unchanged and every price is at least 1 |
| Server.TickPrices | server.js:29-32 | the `forEach` loop computes the tick of every price in map order |
| Server.StreamOf | server.js:39-44 | an email has a broadcast target exactly when the first session token found for it is non-empty and registered, and the target is that token's stream |
| Server.RegisterFresh | server.js:144-145 | registering a stream id that was never used keeps registrations one stream per token |
| Server.StreamOwnerUnique | server.js:39-46 | no two users share a broadcast stream |
| Server.Fanout | server.js:39-52 | each user's feed is appended to the stream of the user's first token, and every stream no user targets is unchanged |
| Server.Pathname | server.js:56-57 | the parsed pathname of a plain path is its prefix up to the first '?' or '#' (or the whole path when neither occurs), and contains neither |
| Server.PriceRouteUnreachable | server.js:116 | the guard `pathname.startsWith("/price?")` fails for every request path |
| Server.PriceRouteReached | server.js:116 | the route test `pathname === "/price"` accepts `/price?ticker=…` |
| Server.StockServer.constructor | server.js:10-20 | empty users, sessions and streams, and the five seed prices |
| Server.StockServer.Login | server.js:60-74 | creates an empty subscription list for an unseen email and keeps a known one; sets the token in the session map; answers 200 with the token; changes nothing else |
| Server.StockServer.Subscriptions | server.js:76-88 | 401 exactly when the token is unknown or maps to an empty email; otherwise the user's list, which holds supported tickers once each |
| Server.StockServer.Subscribe | server.js:90-114 | an unsupported ticker gives 400 before the token is checked; then an unknown token gives 401; both change nothing; otherwise 200 and the ticker is added once |
| Server.StockServer.Price | server.js:117-125 | a supported ticker yields its current price, which is at least 1; any other ticker gives 404 |
| Server.StockServer.OpenStream | server.js:129-160 | an unknown token gives 401 and changes nothing; otherwise the stream replaces the token's registration and receives one message per subscription, in order, with the current price |
| Server.StockServer.CloseStream | server.js:147-149 | removes the token's registration, whichever stream it holds now, and changes nothing else |
| Server.StockServer.Tick | server.js:28-53 | moves every price and then broadcasts the post-tick prices to each user's first-token stream |
| Server.StockServer.UpdatePrices | server.js:29-32 | replaces the price map by its tick and keeps the price-map invariant |
| Server.StockServer.Broadcast | server.js:39-52 | appends each user's feed to the first-token stream and leaves every other stream as it was |
| Scenarios.LoggedIn | server.js:60-74 | after one login the user exists with no subscriptions and the token maps to the email |
| Scenarios.SubscribedToGoog | server.js:90-157 | subscribing and opening a stream flushes the current GOOG price to the new stream |
| Scenarios.Requests | server.js:76-126 | the listed subscriptions, a 404 for an unknown ticker, and a 400 for an unsupported subscribe |
| Scenarios.GoogAfterTick | server.js:14-32 | GOOG, first in the price map, moves with the tick's first draw |
| Scenarios.OneTick | server.js:28-52 | after one tick the stream holds the opening price and one update at most 5 away from it |
| Scenarios.UnknownToken | server.js:76-135 | an unissued token gets 401 from listing, subscribing and opening a stream |
| Scenarios.LoggedInTwice | server.js:60-74 | a second login appends a second token for the same email |
| Scenarios.SecondSessionStream | server.js:129-157 | a stream opened with the second token receives the opening flush |
| Scenarios.OnlyFirstTokenServed | server.js:39-44 | a stream opened with a user's second token receives no broadcast |
| Scenarios.ReopenedThenClosed | server.js:144-149 | re-opening with the same token and then closing the first connection leaves no registration |
| Scenarios.CloseDropsNewerStream | server.js:144-149 | after that close the newer stream receives no broadcast |
| Market.CatalogListed | src/App.jsx:14-20 | the catalogue's symbols are distinct and its base prices positive |
| Market.InitialRecords | src/App.jsx:45-56 | one record per catalogue symbol, with current, previous, high and low at the base price, no change and a neutral trend; the records are well formed |
| Market.TrendOf | src/App.jsx:81-86 | "up", "down" and "neutral" exactly by the sign of new price minus old price |
| Market.Step | src/App.jsx:67-89 | the new price is the maximum of the moved price and half the base price; previous, change and trend follow the move; high never falls, low never rises, and the price stays inside the band |
| Market.WellFormedIsReady | src/App.jsx:68 | well-formed records have every symbol's record with a non-zero price |
| Market.NextPrices | src/App.jsx:64-92 | every catalogue symbol's record is replaced by its step with that symbol's draw, other keys keep their records, and well-formed records stay well formed |
| Market.WalkKeepsBand | src/App.jsx:63-94 | over any number of ticks high never falls, low never rises, the price stays at least half its base price and inside the band |
| EmailCheck.ValidEmailMatches | src/App.jsx:99-102 | every string `validateEmail` accepts matches the regular expression |
| EmailCheck.MatchValidates | src/App.jsx:99-102 | every string the regular expression matches is accepted |
| EmailCheck.ValidateEmailMatchesPattern | src/App.jsx:99-102 | `validateEmail` accepts exactly the strings matching `^[^\s@]+@[^\s@]+\.[^\s@]+$` |
| EmailCheck.TrimStart | src/App.jsx:107 | drops exactly the leading whitespace |
| EmailCheck.TrimEnd | src/App.jsx:107 | drops exactly the trailing whitespace |
| EmailCheck.TrimEmpty | src/App.jsx:107 | `trim()` is empty iff the string is all whitespace |
| EmailCheck.BlankIsInvalid | src/App.jsx:107-115 | a blank string never passes `validateEmail` |
| LoginForm.LoginError | src/App.jsx:107-115 | no error exactly for a valid email; blank input gives "Email is required"; any other invalid input gives the invalid-address message |
| LoginForm.Form.constructor | src/App.jsx:23-25 | logged out, with empty email and error |
| LoginForm.Form.EditEmail | src/App.jsx:191-194 | takes the typed text and clears the error |
| LoginForm.Form.HandleLogin | src/App.jsx:104-120 | shows the error `LoginError` gives; logs in exactly when the email is valid (or already logged in); keeps the email |
| LoginForm.Form.HandleLogout | src/App.jsx:122-126 | logs out and clears the email, keeping the error text |
| Watchlist.Without | src/App.jsx:130 | the filter removes every occurrence of the symbol, keeps every other element with its count, and keeps lists duplicate-free |
| Watchlist.ToggleSpec | src/App.jsx:128-135 | toggling flips the symbol's membership, appends when absent, changes no other symbol, and keeps lists duplicate-free |
| Watchlist.WithoutAbsent | src/App.jsx:130 | filtering out an absent symbol returns the list unchanged |
| Watchlist.WithoutAppend | src/App.jsx:129-131 | filtering out a just-appended symbol undoes the append |
| Watchlist.ToggleTwice | src/App.jsx:128-135 | toggling twice restores the set of symbols, and the very list when the symbol was absent |
| Watchlist.LexLessIrreflexive | src/App.jsx:157-159 | no symbol is less than itself under JavaScript string comparison |
| Watchlist.LexLessTransitive | src/App.jsx:157-159 | JavaScript string comparison is transitive |
| Watchlist.LexLessTotal | src/App.jsx:157-159 | of two different symbols, one is less than the other |
| Watchlist.Insert | src/App.jsx:142-161 | inserting adds exactly that stock |
| Watchlist.Sort | src/App.jsx:142-161 | the sort returns a permutation of its input |
| Watchlist.Subscribed | src/App.jsx:138-140 | the watchlist filter keeps exactly the catalogue stocks whose symbol is subscribed, each at most once |
| Watchlist.SubscribedDistinct | src/App.jsx:138-140 | the filter keeps symbols distinct |
| Watchlist.InsertOrdered | src/App.jsx:156-160 | inserting a stock with a new symbol into a symbol-ordered list keeps it ordered |
| Watchlist.SortOrdered | src/App.jsx:142-161 | sorting by symbol a list with distinct symbols gives an ordered list |
| Watchlist.Arrange | src/App.jsx:137-162 | the result is a permutation of the list, or of its subscribed part in watchlist mode |
| Watchlist.ArrangedBySymbol | src/App.jsx:137-162 | sorted by symbol, the result is strictly ascending for "asc" and strictly descending otherwise |
| Watchlist.SortedStocksSpec | src/App.jsx:137-162 | `getSortedStocks` returns a permutation of `STOCKS`, or of its subscribed part, strictly ordered by symbol when sorted by symbol |

## Left out

- HTTP plumbing is not modelled: request bodies, `JSON.parse` (which can throw), headers, and the route dispatch other than the price guard (server.js:56-64, 90-94). Each handler takes its already-parsed arguments, as strings.
- Non-string or missing query values and JSON fields (`undefined` tokens or tickers) are not modelled.
- Static file serving with `fs.readFile` is filesystem I/O and is not modelled (server.js:162-180).
- `generateSessionId` and `Math.random` are randomness. The token and the draws are parameters, and tokens are not assumed fresh.
- Timers and the event-stream transport are not modelled. The tick, the opening of a stream and its `close` event are explicit method calls.
- The text written to a stream, `data: {JSON}\n\n`, is not modelled. `Message(ticker, price)` stands for it.
- The order in which the broadcast visits users (the `users` map order) is not modelled. Stream ids are distinct, so the outcome does not depend on it.
- The opening flush writes `stockPrices.get(ticker)` without a guard, while the broadcast skips tickers it cannot find. The model uses the guarded form for both. Under `Valid()` every subscribed ticker has a price, so the two coincide (`Server.FeedCovers`).
- Floating point is not modelled: prices are `real`, and the `toFixed` display and IEEE rounding are left out.
- React rendering, hooks, the `localStorage` save and restore (src/App.jsx:32-43, 117, 123, 134) and all markup are left out.
- Sorts by price or by change: JavaScript's order for tied keys is not fixed, because the comparator never returns 0. For these sorts the model claims only that the result is a permutation.
- `Watchlist.LexLess` compares Unicode scalar values. JavaScript compares UTF-16 code units, and the two orders differ only for characters outside the Basic Multilingual Plane.
- Server.Pathname: covers only plain origin-form paths. Node's `url.parse` also turns backslashes into '/', percent-escapes some characters and reduces an absolute-form target such as `http://h/price` to `/price`; none of that is modelled.
- Server.StockServer.OpenStream: requires a stream id that was never used. Each connection is a new response object, and this keeps registrations one stream per token.
- Market.Step: requires a non-zero current price. The source would compute an infinite or NaN `changePercent` for a zero price; base prices are positive and the clamp keeps every price above zero.
- Market.NextPrices: requires a record for every catalogue symbol. The source would throw on a missing record; after `InitialRecords` every symbol has one (`Market.WellFormedIsReady`).

## Findings

| source | as written | input that shows it | evidently intended | confidence | as-written member | corrected member |
|---|---|---|---|---|---|---|
| server.js:116 | the price route is guarded by `pathname.startsWith("/price?")`, but `url.parse` strips the query, so no pathname contains '?' and the lookup is never reached | `GET /price?ticker=GOOG` has pathname `/price`, falls through to the static file handler instead | route on `pathname === "/price"` and answer with the price lookup | not executed | Server.PriceRouteUnreachable | Server.PriceRouteReached |
