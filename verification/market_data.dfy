/**
 * The in-memory market-data store: exchange -> symbol -> latest ticker, a
 * per-exchange market-info list replaced wholesale, and a late-bound
 * broadcast hook invoked after every ticker write.
 */
module MarketData {
  import opened Wrappers
  import opened SharedTypes

  /** One exchange's tickers, as a JavaScript `Map<string, Ticker>`: the
      values by symbol and the symbols in insertion order. */
  datatype ExchangeData = ExchangeData(order: seq<string>, tickers: map<string, Ticker>)
  {
    /** The order lists every stored symbol exactly once. */
    ghost predicate WellFormed()
    {
      && (forall i, j :: 0 <= i < j < |order| ==> order[i] != order[j])
      && (forall k :: k in tickers <==> k in order)
    }
  }

  /** A map with nothing in it. */
  const EMPTY_DATA: ExchangeData := ExchangeData([], map[])

  /** `map.get(symbol)`. */
  function Get(d: ExchangeData, symbol: string): (r: Option<Ticker>)
    ensures r.Some? <==> symbol in d.tickers
    ensures r.Some? ==> r.value == d.tickers[symbol]
  {
    if symbol in d.tickers then Some(d.tickers[symbol]) else None
  }

  /** `map.set(symbol, t)`: a new key goes last, an existing key keeps its
      place. */
  function Set(d: ExchangeData, symbol: string, t: Ticker): (r: ExchangeData)
    ensures r.tickers.Keys == d.tickers.Keys + {symbol}
    ensures r.tickers[symbol] == t
    ensures |d.order| <= |r.order| <= |d.order| + 1 && r.order[..|d.order|] == d.order
  {
    if symbol in d.tickers then ExchangeData(d.order, d.tickers[symbol := t])
    else ExchangeData(d.order + [symbol], d.tickers[symbol := t])
  }

  /** `Array.from(map.values())`: the stored tickers in insertion order. */
  function Values(d: ExchangeData): (r: seq<Ticker>)
    requires d.WellFormed()
    ensures |r| == |d.order|
    ensures forall i :: 0 <= i < |r| ==> r[i] == d.tickers[d.order[i]]
  {
    seq(|d.order|, i requires 0 <= i < |d.order| && d.WellFormed() => d.tickers[d.order[i]])
  }

  /** After a set, the key reads back the value just stored. */
  lemma GetAfterSet(d: ExchangeData, symbol: string, t: Ticker)
    ensures Get(Set(d, symbol, t), symbol) == Some(t)
  {
  }

  /** A set leaves every other key as it was. */
  lemma GetAfterSetOther(d: ExchangeData, symbol: string, t: Ticker, other: string)
    requires other != symbol
    ensures Get(Set(d, symbol, t), other) == Get(d, other)
  {
  }

  /** A set keeps the map well formed, keeps the existing order, and appends
      the key exactly when it was absent. */
  lemma SetKeepsOrder(d: ExchangeData, symbol: string, t: Ticker)
    requires d.WellFormed()
    ensures Set(d, symbol, t).WellFormed()
    ensures symbol in d.tickers ==> Set(d, symbol, t).order == d.order
    ensures symbol !in d.tickers ==> Set(d, symbol, t).order == d.order + [symbol]
  {
    var r := Set(d, symbol, t);
    if symbol !in d.tickers {
      assert symbol !in d.order;
      forall k ensures k in r.tickers <==> k in r.order {
        assert k in r.order <==> k in d.order || k == symbol;
      }
    }
  }

  /** The registered broadcast callback, identified by an opaque handle. */
  type CallbackId = nat

  /** One invocation of the broadcast callback. */
  datatype BroadcastCall = BroadcastCall(callback: CallbackId, exchange: Exchange, symbol: string)

  /** The module-level state of `server/store/marketData.ts`. */
  class MarketDataStore {
    /** `marketDataStore`: exchange -> symbol -> ticker. */
    var data: map<Exchange, ExchangeData>
    /** `marketInfoStore`: exchange -> market list. */
    var info: map<Exchange, seq<MarketInfo>>
    /** `broadcastCallback`. */
    var callback: Option<CallbackId>
    /** Every callback invocation so far, oldest first. */
    var broadcasts: seq<BroadcastCall>

    ghost predicate Valid()
      reads this
    {
      forall e :: e in data ==> data[e].WellFormed()
    }

    /** The state at module load: empty stores, no callback. */
    constructor ()
      ensures Valid()
      ensures data == map[] && info == map[] && callback == None && broadcasts == []
    {
      data := map[];
      info := map[];
      callback := None;
      broadcasts := [];
    }

    /** `setBroadcastCallback`: the new callback replaces any earlier one. */
    method SetBroadcastCallback(cb: CallbackId)
      requires Valid()
      modifies this
      ensures Valid()
      ensures callback == Some(cb)
      ensures data == old(data) && info == old(info) && broadcasts == old(broadcasts)
    {
      callback := Some(cb);
    }

    /** `setMarketInfo`: the exchange's list is replaced wholesale. */
    method SetMarketInfo(exchange: Exchange, markets: seq<MarketInfo>)
      requires Valid()
      modifies this
      ensures Valid()
      ensures info == old(info)[exchange := markets]
      ensures GetMarketInfo(exchange) == Some(markets)
      ensures data == old(data) && callback == old(callback) && broadcasts == old(broadcasts)
    {
      info := info[exchange := markets];
    }

    /** `getMarketInfo`: the list last set for the exchange, if any. */
    function GetMarketInfo(exchange: Exchange): (r: Option<seq<MarketInfo>>)
      reads this
      ensures r.Some? <==> exchange in info
      ensures r.Some? ==> r.value == info[exchange]
    {
      if exchange in info then Some(info[exchange]) else None
    }

    /** `getTickerData`: absent when the exchange has no map or the symbol is
      not in it. */
    function GetTickerData(exchange: Exchange, symbol: string): (r: Option<Ticker>)
      reads this
      ensures exchange !in data ==> r == None
      ensures exchange in data ==> r == Get(data[exchange], symbol)
    {
      if exchange in data then Get(data[exchange], symbol) else None
    }

    /** `getExchangeData`: the exchange's map, if it has one. */
    function GetExchangeData(exchange: Exchange): (r: Option<ExchangeData>)
      reads this
      ensures r.Some? <==> exchange in data
      ensures r.Some? ==> r.value == data[exchange]
    {
      if exchange in data then Some(data[exchange]) else None
    }

    /** `getAllMarketData`: the whole store. */
    function GetAllMarketData(): (r: map<Exchange, ExchangeData>)
      reads this
      ensures forall e, s :: e in r ==> Get(r[e], s) == GetTickerData(e, s)
      ensures forall e :: GetExchangeData(e) == (if e in r then Some(r[e]) else None)
    {
      data
    }

    /** `updateTickerData`: stores `t` under (exchange, symbol), creating the
        exchange's map on first use, then calls the callback once with
        (exchange, symbol) when one is registered. The ticker's own `e` and `s`
        fields play no part in where it is stored. */
    method UpdateTickerData(exchange: Exchange, symbol: string, t: Ticker)
      requires Valid()
      modifies this
      ensures Valid()
      ensures exchange in old(data) ==> data == old(data)[exchange := Set(old(data)[exchange], symbol, t)]
      ensures exchange !in old(data) ==> data == old(data)[exchange := Set(EMPTY_DATA, symbol, t)]
      ensures GetTickerData(exchange, symbol) == Some(t)
      ensures forall e, s :: (e, s) != (exchange, symbol) ==> GetTickerData(e, s) == old(GetTickerData(e, s))
      ensures info == old(info) && callback == old(callback)
      ensures broadcasts == old(broadcasts) +
        (if callback.Some? then [BroadcastCall(callback.value, exchange, symbol)] else [])
    {
      var exchangeData: ExchangeData;
      if exchange in data {
        exchangeData := data[exchange];
      } else {
        exchangeData := EMPTY_DATA;
      }
      SetKeepsOrder(exchangeData, symbol, t);
      data := data[exchange := Set(exchangeData, symbol, t)];
      if callback.Some? {
        broadcasts := broadcasts + [BroadcastCall(callback.value, exchange, symbol)];
      }
    }

    /** `clearExchangeData`: the exchange's whole map goes; other exchanges
        are untouched. */
    method ClearExchangeData(exchange: Exchange)
      requires Valid()
      modifies this
      ensures Valid()
      ensures data == old(data) - {exchange}
      ensures GetExchangeData(exchange) == None
      ensures forall s :: GetTickerData(exchange, s) == None
      ensures forall e, s :: e != exchange ==> GetTickerData(e, s) == old(GetTickerData(e, s))
      ensures info == old(info) && callback == old(callback) && broadcasts == old(broadcasts)
    {
      data := data - {exchange};
    }
  }

  /** The only callback invoked is the one registered last: two
      registrations followed by a write log one call, to the second. */
  method LatestCallbackWins(store: MarketDataStore, first: CallbackId, second: CallbackId,
                            exchange: Exchange, symbol: string, t: Ticker)
    requires store.Valid()
    modifies store
    ensures store.broadcasts == old(store.broadcasts) + [BroadcastCall(second, exchange, symbol)]
  {
    store.SetBroadcastCallback(first);
    store.SetBroadcastCallback(second);
    store.UpdateTickerData(exchange, symbol, t);
  }
}
