/** Runs of the server model that show its behaviour end to end, including the
    two ways a user can be left without price updates. Each run starts from a
    fresh server; `draws` stands for the tick's `Math.random()` values. */
module Scenarios {

  import opened Server

  /** A fresh server after "a@b.com" logs in with token "T1". */
  method LoggedIn() returns (server: StockServer)
    ensures fresh(server) && server.Valid()
    ensures server.users == map["a@b.com" := []]
    ensures server.sessions == [Entry("T1", "a@b.com")]
    ensures server.eventSources == map[] && server.outbox == map[]
    ensures "GOOG" in server.prices && server.prices["GOOG"] == 150.0
  {
    server := new StockServer();
    var status, token := server.Login("a@b.com", "T1");
    assert server.sessions == [Entry("T1", "a@b.com")];
  }

  /** ... who then subscribes to GOOG and opens stream 1. */
  method SubscribedToGoog() returns (server: StockServer)
    ensures fresh(server) && server.Valid()
    ensures server.users == map["a@b.com" := ["GOOG"]]
    ensures server.sessions == [Entry("T1", "a@b.com")]
    ensures server.eventSources == map["T1" := 1]
    ensures server.outbox == map[1 := [Message("GOOG", 150.0)]]
    ensures server.prices["GOOG"] == 150.0
  {
    server := LoggedIn();
    assert SignedIn(server.sessions, "T1") == Some("a@b.com");
    assert AddSubscription([], "GOOG") == ["GOOG"];
    var status := server.Subscribe("T1", "GOOG");
    assert server.users == map["a@b.com" := ["GOOG"]];
    assert HasToken(server.sessions, "T1");
    status := server.OpenStream("T1", 1);
    assert server.outbox[1] == Feed(["GOOG"], server.prices);
    assert server.outbox[1] == [Message("GOOG", 150.0)];
  }

  /** A signed-in user lists the subscriptions, asks for the price of an
      unknown ticker and tries to subscribe to an unsupported one. */
  method Requests() returns (listed: Reply<seq<string>>, unknownPrice: Reply<real>, unsupported: Status)
    ensures listed == Ok(["GOOG"])
    ensures unknownPrice == Fail(NotFound)
    ensures unsupported == BadRequest && unsupported.Code() == 400
  {
    var server := SubscribedToGoog();
    assert SignedIn(server.sessions, "T1") == Some("a@b.com");
    listed := server.Subscriptions("T1");
    unknownPrice := server.Price("DOGE");
    unsupported := server.Subscribe("T1", "DOGE");
  }

  /** GOOG comes first in the price map, so it takes the tick's first draw. */
  lemma GoogAfterTick(prices: map<string, real>, draws: seq<real>)
    requires PriceTable(prices) && |draws| == |SupportedStocks|
    ensures "GOOG" in TickedPrices(SupportedStocks, prices, draws)
    ensures TickedPrices(SupportedStocks, prices, draws)["GOOG"] == NextPrice(prices["GOOG"], Change(draws[0]))
  {
    SupportedDistinct();
    TickedPricesSpec(SupportedStocks, prices, draws);
    assert SupportedStocks[0] == "GOOG";
  }

  /** One tick after the stream opened: the stream holds the opening price and
      one update, which moved the price by at most 5. */
  method OneTick(draws: seq<real>) returns (received: seq<Message>)
    requires |draws| == |SupportedStocks|
    requires forall i :: 0 <= i < |draws| ==> 0.0 <= draws[i] < 1.0
    ensures |received| == 2 && received[0] == Message("GOOG", 150.0)
    ensures received[1] == Message("GOOG", NextPrice(150.0, Change(draws[0])))
    ensures -5.0 <= received[1].price - received[0].price <= 5.0
  {
    var server := SubscribedToGoog();
    assert StreamOf(server.sessions, server.eventSources, "a@b.com") == Some(1);
    ghost var before := server.prices;
    server.Tick(draws);
    GoogAfterTick(before, draws);
    NextPriceBounded(150.0, draws[0]);
    received := server.outbox[1];
    assert received == [Message("GOOG", 150.0)] + Feed(["GOOG"], server.prices);
  }

  /** A token that was never issued is refused by every handler that needs one. */
  method UnknownToken() returns (listed: Reply<seq<string>>, subscribed: Status, streamed: Status)
    ensures listed == Fail(Unauthorized) && subscribed == Unauthorized && streamed == Unauthorized
    ensures listed.status.Code() == subscribed.Code() == streamed.Code() == 401
  {
    var server := new StockServer();
    var status, token := server.Login("a@b.com", "T1");
    listed := server.Subscriptions("nonexistent");
    subscribed := server.Subscribe("nonexistent", "GOOG");
    streamed := server.OpenStream("nonexistent", 0);
  }

  /** A fresh server after "a@b.com" logs in twice, with "T1" and then "T2". */
  method LoggedInTwice() returns (server: StockServer)
    ensures fresh(server) && server.Valid()
    ensures server.users == map["a@b.com" := []]
    ensures server.sessions == [Entry("T1", "a@b.com"), Entry("T2", "a@b.com")]
    ensures server.eventSources == map[] && server.outbox == map[]
    ensures "GOOG" in server.prices && server.prices["GOOG"] == 150.0
  {
    server := LoggedIn();
    var status, second := server.Login("a@b.com", "T2");
    assert KeyIndex([Entry("T1", "a@b.com")], "T2") == 1 by {
      assert "T1" != "T2" by { assert "T1"[1] != "T2"[1]; }
    }
  }

  /** ... who then subscribes to GOOG and opens stream 7 with the second token only. */
  method SecondSessionStream() returns (server: StockServer)
    ensures fresh(server) && server.Valid()
    ensures server.users == map["a@b.com" := ["GOOG"]]
    ensures server.sessions == [Entry("T1", "a@b.com"), Entry("T2", "a@b.com")]
    ensures server.eventSources == map["T2" := 7]
    ensures server.outbox == map[7 := [Message("GOOG", 150.0)]]
  {
    server := LoggedInTwice();
    LookupEntry(server.sessions, 1);
    assert SignedIn(server.sessions, "T2") == Some("a@b.com");
    assert AddSubscription([], "GOOG") == ["GOOG"];
    var status := server.Subscribe("T2", "GOOG");
    assert server.users == map["a@b.com" := ["GOOG"]];
    status := server.OpenStream("T2", 7);
    assert server.outbox[7] == Feed(["GOOG"], server.prices);
    assert server.outbox[7] == [Message("GOOG", 150.0)];
  }

  /** The broadcast looks only at a user's first token, so the stream opened
      with the second one receives nothing after its opening flush. */
  method OnlyFirstTokenServed(draws: seq<real>) returns (received: seq<Message>)
    requires |draws| == |SupportedStocks|
    ensures received == [Message("GOOG", 150.0)]
  {
    var server := SecondSessionStream();
    assert FirstTokenOf(server.sessions, "a@b.com") == Some("T1");
    assert StreamOf(server.sessions, server.eventSources, "a@b.com") == None;
    server.Tick(draws);
    received := server.outbox[7];
  }

  /** ... who then opens a second stream with the same token, after which the
      first connection closes. */
  method ReopenedThenClosed() returns (server: StockServer)
    ensures fresh(server) && server.Valid()
    ensures server.users == map["a@b.com" := ["GOOG"]]
    ensures server.sessions == [Entry("T1", "a@b.com")]
    ensures server.eventSources == map[]
    ensures server.outbox == map[1 := [Message("GOOG", 150.0)], 2 := [Message("GOOG", 150.0)]]
  {
    server := SubscribedToGoog();
    assert HasToken(server.sessions, "T1");
    var status := server.OpenStream("T1", 2);
    assert server.outbox[2] == Feed(["GOOG"], server.prices);
    assert server.outbox[2] == [Message("GOOG", 150.0)];
    server.CloseStream("T1");
  }

  /** The close handler of the first connection removes the token's
      registration, so the newer stream is no longer served either. */
  method CloseDropsNewerStream(draws: seq<real>) returns (registered: bool, received: seq<Message>)
    requires |draws| == |SupportedStocks|
    ensures !registered
    ensures received == [Message("GOOG", 150.0)]
  {
    var server := ReopenedThenClosed();
    registered := "T1" in server.eventSources;
    assert StreamOf(server.sessions, server.eventSources, "a@b.com") == None;
    server.Tick(draws);
    received := server.outbox[2];
  }
}
