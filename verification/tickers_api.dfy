/**
 * `GET /api/tickers?symbols=exchange:symbol,...`: the tickers of a list of
 * exchange-qualified keys, in request order, read from the store.
 */
module TickersApi {
  import opened Wrappers
  import opened Strings
  import opened SharedTypes
  import opened MarketData

  /** The comma-separated keys of the `symbols` parameter, each trimmed. */
  function SymbolKeys(param: string): (r: seq<string>)
    ensures |r| == |Split(param, ',')|
    ensures forall i :: 0 <= i < |r| ==> r[i] == Trim(Split(param, ',')[i])
  {
    var segments := Split(param, ',');
    seq(|segments|, i requires 0 <= i < |segments| => Trim(segments[i]))
  }

  /** The stored ticker for one `exchange:symbol` key: its first two
      ':'-separated parts are the exchange name and the symbol, anything after
      them is ignored; a key with fewer than two parts or an unknown exchange
      name finds nothing. */
  function LookupKey(store: MarketDataStore, key: string): (r: Option<Ticker>)
    reads store
    ensures r.Some? ==>
      var parts := Split(key, ':');
      && |parts| >= 2
      && ExchangeOfName(parts[0]).Some?
      && r == store.GetTickerData(ExchangeOfName(parts[0]).value, parts[1])
    ensures var parts := Split(key, ':');
      |parts| >= 2 && ExchangeOfName(parts[0]).Some? ==>
        r == store.GetTickerData(ExchangeOfName(parts[0]).value, parts[1])
  {
    var parts := Split(key, ':');
    if |parts| < 2 then None
    else
      match ExchangeOfName(parts[0])
      case None => None
      case Some(exchange) => store.GetTickerData(exchange, parts[1])
  }

  /** The keys' tickers in key order, with the keys that find nothing dropped. */
  function Found(store: MarketDataStore, keys: seq<string>): (r: seq<Ticker>)
    reads store
    ensures |r| <= |keys|
    ensures forall j :: 0 <= j < |r| ==> exists i :: 0 <= i < |keys| && LookupKey(store, keys[i]) == Some(r[j])
  {
    if keys == [] then []
    else
      var rest := Found(store, keys[1..]);
      assert forall j :: 0 <= j < |rest| ==> exists i :: 1 <= i < |keys| && LookupKey(store, keys[i]) == Some(rest[j]) by {
        forall j | 0 <= j < |rest| ensures exists i :: 1 <= i < |keys| && LookupKey(store, keys[i]) == Some(rest[j]) {
          var i :| 0 <= i < |keys[1..]| && LookupKey(store, keys[1..][i]) == Some(rest[j]);
          assert keys[1..][i] == keys[i + 1];
        }
      }
      match LookupKey(store, keys[0])
      case None => rest
      case Some(t) => [t] + rest
  }

  /** The handler: no parameter or an empty one gives no tickers; otherwise
      every comma-separated key is trimmed and looked up. */
  function Tickers(store: MarketDataStore, symbols: Option<string>): (r: seq<Ticker>)
    reads store
    ensures symbols == None || symbols == Some("") ==> r == []
    ensures symbols.Some? ==> |r| <= |Split(symbols.value, ',')|
    ensures forall j :: 0 <= j < |r| ==>
      exists i :: 0 <= i < |Split(symbols.value, ',')| && LookupKey(store, Trim(Split(symbols.value, ',')[i])) == Some(r[j])
  {
    if symbols == None || symbols.value == "" then []
    else Found(store, SymbolKeys(symbols.value))
  }

  /** Results follow the order of the keys: the keys of a concatenation find
      the concatenation of what each part finds. */
  lemma {:induction false} FoundAppend(store: MarketDataStore, a: seq<string>, b: seq<string>)
    ensures Found(store, a + b) == Found(store, a) + Found(store, b)
    decreases |a|
  {
    if a == [] {
      assert a + b == b;
    } else {
      var head := if LookupKey(store, a[0]).Some? then [LookupKey(store, a[0]).value] else [];
      assert [a[0]] + a[1..] == a;
      assert [a[0]] + (a[1..] + b) == a + b;
      calc {
        Found(store, a + b);
        { FoundCons(store, a[0], a[1..] + b); }
        head + Found(store, a[1..] + b);
        { FoundAppend(store, a[1..], b); }
        head + (Found(store, a[1..]) + Found(store, b));
        (head + Found(store, a[1..])) + Found(store, b);
        { FoundCons(store, a[0], a[1..]); }
        Found(store, a) + Found(store, b);
      }
    }
  }

  /** One step of `Found`: the first key's ticker, if any, comes first. */
  lemma FoundCons(store: MarketDataStore, key: string, rest: seq<string>)
    ensures Found(store, [key] + rest) ==
      (if LookupKey(store, key).Some? then [LookupKey(store, key).value] else []) + Found(store, rest)
  {
    assert ([key] + rest)[0] == key;
    assert ([key] + rest)[1..] == rest;
  }

  /** A single key finds its stored ticker, or nothing. */
  lemma FoundSingle(store: MarketDataStore, key: string)
    ensures Found(store, [key]) == (if LookupKey(store, key).Some? then [LookupKey(store, key).value] else [])
  {
  }

  /** An empty segment, such as the one between two adjacent commas, finds
      nothing. */
  lemma EmptyKeyFindsNothing(store: MarketDataStore)
    ensures LookupKey(store, "") == None
  {
    assert Split("", ':') == [""];
  }

  /** A key with exactly one ':' finds the ticker stored under its exchange
      and symbol. */
  lemma {:induction false} LookupQualifiedKey(store: MarketDataStore, exchange: Exchange, symbol: string)
    requires ':' !in symbol
    ensures LookupKey(store, ExchangeName(exchange) + ":" + symbol) == store.GetTickerData(exchange, symbol)
  {
    ExchangeNameIsLowercase(exchange);
    SplitAround(ExchangeName(exchange), symbol, ':');
    SplitNoSep(ExchangeName(exchange), ':');
    SplitNoSep(symbol, ':');
    assert ExchangeName(exchange) + ":" + symbol == ExchangeName(exchange) + [':'] + symbol;
  }

  /** Whatever follows a second ':' is ignored: `exchange:symbol:rest` finds
      what `exchange:symbol` finds. */
  lemma {:induction false} ExtraPartsIgnored(store: MarketDataStore, exchange: Exchange, symbol: string, rest: string)
    requires ':' !in symbol
    ensures LookupKey(store, ExchangeName(exchange) + ":" + symbol + ":" + rest) == store.GetTickerData(exchange, symbol)
  {
    var name := ExchangeName(exchange);
    ExchangeNameIsLowercase(exchange);
    SplitAround(symbol, rest, ':');
    SplitNoSep(symbol, ':');
    SplitAround(name, symbol + [':'] + rest, ':');
    SplitNoSep(name, ':');
    assert name + ":" + symbol + ":" + rest == name + [':'] + (symbol + [':'] + rest);
  }

  /** A key padded with one space on each side trims to itself. */
  lemma PaddedKeyTrims(x: string)
    requires x != [] && !IsSpace(x[0]) && !IsSpace(x[|x| - 1])
    ensures Trim([' '] + x + [' ']) == x
  {
    var s := [' '] + x + [' '];
    assert s[1..] == x + [' '];
    assert TrimStart(x + [' ']) == x + [' '];
    assert TrimStart(s) == x + [' '];
    assert (x + [' '])[..|x + [' ']| - 1] == x;
    assert TrimEnd(x + [' ']) == TrimEnd(x) == x;
  }

  /** Two keys, each padded with one space, around a comma, are the two keys. */
  lemma {:induction false} PaddedPairKeys(k1: string, k2: string)
    requires k1 != [] && ',' !in k1 && !IsSpace(k1[0]) && !IsSpace(k1[|k1| - 1])
    requires k2 != [] && ',' !in k2 && !IsSpace(k2[0]) && !IsSpace(k2[|k2| - 1])
    ensures SymbolKeys(" " + k1 + " , " + k2 + " ") == [k1, k2]
  {
    var first, second := [' '] + k1 + [' '], [' '] + k2 + [' '];
    assert " " + k1 + " , " + k2 + " " == first + [','] + second;
    assert Split(first + [','] + second, ',') == [first, second] by {
      assert ',' !in first && ',' !in second;
      SplitAround(first, second, ',');
      SplitNoSep(first, ',');
      SplitNoSep(second, ',');
    }
    PaddedKeyTrims(k1);
    PaddedKeyTrims(k2);
  }

  /** An `exchange:symbol` key neither starts nor ends with white space when
      its symbol does not end with it, and holds no comma when its symbol
      holds none. */
  lemma QualifiedKeyShape(exchange: Exchange, symbol: string)
    requires symbol != [] && ',' !in symbol && !IsSpace(symbol[|symbol| - 1])
    ensures var k := ExchangeName(exchange) + ":" + symbol;
      k != [] && ',' !in k && !IsSpace(k[0]) && !IsSpace(k[|k| - 1])
  {
    ExchangeNameIsLowercase(exchange);
    var k := ExchangeName(exchange) + ":" + symbol;
    assert k[|k| - 1] == symbol[|symbol| - 1];
  }

  /** Whitespace around the keys is ignored and results come in request
      order: a request of the shape ` upbit:KRW-BTC , upbit:ETH-USDT ` returns
      the two stored tickers in that order. */
  lemma WhitespaceAroundKeys(store: MarketDataStore, e1: Exchange, s1: string, t1: Ticker,
                             e2: Exchange, s2: string, t2: Ticker)
    requires s1 != [] && ':' !in s1 && ',' !in s1 && !IsSpace(s1[|s1| - 1])
    requires s2 != [] && ':' !in s2 && ',' !in s2 && !IsSpace(s2[|s2| - 1])
    requires store.GetTickerData(e1, s1) == Some(t1)
    requires store.GetTickerData(e2, s2) == Some(t2)
    ensures var k1, k2 := ExchangeName(e1) + ":" + s1, ExchangeName(e2) + ":" + s2;
      Tickers(store, Some(" " + k1 + " , " + k2 + " ")) == [t1, t2]
  {
    var k1, k2 := ExchangeName(e1) + ":" + s1, ExchangeName(e2) + ":" + s2;
    QualifiedKeyShape(e1, s1);
    QualifiedKeyShape(e2, s2);
    PaddedPairKeys(k1, k2);
    LookupQualifiedKey(store, e1, s1);
    LookupQualifiedKey(store, e2, s2);
    var param := " " + k1 + " , " + k2 + " ";
    assert param[0] == ' ';
    assert Tickers(store, Some(param)) == Found(store, [k1, k2]);
    assert [k1, k2] == [k1] + [k2];
    FoundAppend(store, [k1], [k2]);
    FoundSingle(store, k1);
    FoundSingle(store, k2);
  }
}
