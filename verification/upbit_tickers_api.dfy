/**
 * `GET /api/upbit/tickers[?symbols=KRW-BTC,KRW-ETH]`: every stored upbit
 * ticker, or the requested symbols' tickers in request order.
 */
module UpbitTickersApi {
  import opened Wrappers
  import opened Strings
  import opened SharedTypes
  import opened MarketData

  /** The requested symbols: the comma-separated segments, trimmed, with the
      empty ones discarded, in request order. */
  function RequestedSymbols(param: string): (r: seq<string>)
    ensures forall i :: 0 <= i < |r| ==> r[i] != []
    ensures |r| <= |Split(param, ',')|
  {
    NonEmptyTrimmed(Split(param, ','))
  }

  /** The non-empty trimmed forms of `segments`, in order. */
  function NonEmptyTrimmed(segments: seq<string>): (r: seq<string>)
    ensures forall i :: 0 <= i < |r| ==> r[i] != []
    ensures |r| <= |segments|
  {
    if segments == [] then [] else Kept(segments[0]) + NonEmptyTrimmed(segments[1..])
  }

  /** A segment's contribution: its trimmed form, unless that is empty. */
  function Kept(segment: string): (r: seq<string>)
    ensures |r| <= 1
    ensures forall i :: 0 <= i < |r| ==> r[i] == Trim(segment) != []
    ensures Trim(segment) != [] ==> r == [Trim(segment)]
  {
    var t := Trim(segment);
    if t == [] then [] else [t]
  }

  /** Every requested symbol is already trimmed. */
  lemma {:induction false} RequestedAreTrimmed(segments: seq<string>)
    ensures forall i :: 0 <= i < |NonEmptyTrimmed(segments)| ==>
      Trim(NonEmptyTrimmed(segments)[i]) == NonEmptyTrimmed(segments)[i]
  {
    if segments != [] {
      RequestedAreTrimmed(segments[1..]);
      TrimSpec(segments[0]);
      TrimOfTrimmed(Trim(segments[0]));
      assert NonEmptyTrimmed(segments) == Kept(segments[0]) + NonEmptyTrimmed(segments[1..]);
    }
  }

  /** The stored tickers of `symbols` in order, skipping absent ones; a
      symbol requested twice appears twice. */
  function Select(d: ExchangeData, symbols: seq<string>): (r: seq<Ticker>)
    ensures |r| <= |symbols|
  {
    if symbols == [] then []
    else
      var last := symbols[|symbols| - 1];
      Select(d, symbols[..|symbols| - 1]) + (if last in d.tickers then [d.tickers[last]] else [])
  }

  /** Every selected ticker is the stored value of a requested symbol. */
  lemma {:induction false} SelectedAreStored(d: ExchangeData, symbols: seq<string>)
    ensures forall j :: 0 <= j < |Select(d, symbols)| ==>
      exists i :: 0 <= i < |symbols| && Get(d, symbols[i]) == Some(Select(d, symbols)[j])
  {
    if symbols == [] {
      assert Select(d, symbols) == [];
    } else {
      var front := symbols[..|symbols| - 1];
      SelectedAreStored(d, front);
      var r := Select(d, symbols);
      var last := symbols[|symbols| - 1];
      assert r == Select(d, front) + (if last in d.tickers then [d.tickers[last]] else []);
      forall j | 0 <= j < |r|
        ensures exists i :: 0 <= i < |symbols| && Get(d, symbols[i]) == Some(r[j])
      {
        if j < |Select(d, front)| {
          var i :| 0 <= i < |front| && Get(d, front[i]) == Some(Select(d, front)[j]);
          assert front[i] == symbols[i] && r[j] == Select(d, front)[j];
          assert 0 <= i < |symbols| && Get(d, symbols[i]) == Some(r[j]);
        } else {
          assert last in d.tickers && r[j] == d.tickers[last];
          assert Get(d, symbols[|symbols| - 1]) == Some(r[j]);
        }
      }
    }
  }

  /** The handler's answer, as a specification: nothing without upbit data;
      all upbit tickers in insertion order without a `symbols` parameter (or
      with an empty one); otherwise the requested symbols' tickers. */
  function UpbitTickersSpec(store: MarketDataStore, symbols: Option<string>): (r: seq<Ticker>)
    reads store
    requires store.Valid()
    ensures store.GetExchangeData(Upbit).None? ==> r == []
    ensures forall j :: 0 <= j < |r| ==> Upbit in store.data && r[j] in store.data[Upbit].tickers.Values
  {
    match store.GetExchangeData(Upbit)
    case None => []
    case Some(d) =>
      if symbols == None || symbols.value == "" then
        ValuesAreStored(d);
        Values(d)
      else
        var requested := RequestedSymbols(symbols.value);
        SelectedInValues(d, requested);
        Select(d, requested)
  }

  /** Every ticker `values()` lists is a stored value. */
  lemma ValuesAreStored(d: ExchangeData)
    requires d.WellFormed()
    ensures forall j :: 0 <= j < |Values(d)| ==> Values(d)[j] in d.tickers.Values
  {
    forall j | 0 <= j < |Values(d)| ensures Values(d)[j] in d.tickers.Values {
      assert d.order[j] in d.tickers;
    }
  }

  /** Every selected ticker is a stored value. */
  lemma SelectedInValues(d: ExchangeData, symbols: seq<string>)
    ensures forall j :: 0 <= j < |Select(d, symbols)| ==> Select(d, symbols)[j] in d.tickers.Values
  {
    var r := Select(d, symbols);
    SelectedAreStored(d, symbols);
    forall j | 0 <= j < |r| ensures r[j] in d.tickers.Values {
      var i :| 0 <= i < |symbols| && Get(d, symbols[i]) == Some(r[j]);
      assert symbols[i] in d.tickers;
    }
  }

  /** The handler: reads the upbit map once, then pushes the stored ticker of
      each requested symbol onto the result in a loop. */
  method UpbitTickers(store: MarketDataStore, symbols: Option<string>) returns (results: seq<Ticker>)
    requires store.Valid()
    ensures results == UpbitTickersSpec(store, symbols)
  {
    var exchangeData := store.GetExchangeData(Upbit);
    if exchangeData.None? {
      return [];
    }
    var d := exchangeData.value;
    if symbols == None || symbols.value == "" {
      return Values(d);
    }
    var requested := RequestedSymbols(symbols.value);
    results := [];
    for i := 0 to |requested|
      invariant results == Select(d, requested[..i])
    {
      assert requested[..i + 1][..i] == requested[..i];
      var ticker := Get(d, requested[i]);
      if ticker.Some? {
        results := results + [ticker.value];
      }
    }
    assert requested[..|requested|] == requested;
  }

  /** Selection follows request order: the symbols of a concatenation select
      the concatenation of what each part selects. */
  lemma {:induction false} SelectAppend(d: ExchangeData, a: seq<string>, b: seq<string>)
    ensures Select(d, a + b) == Select(d, a) + Select(d, b)
    decreases |b|
  {
    if b == [] {
      assert a + b == a;
    } else {
      var b' := b[..|b| - 1];
      SelectAppend(d, a, b');
      assert (a + b)[..|a + b| - 1] == a + b';
      assert (a + b)[|a + b| - 1] == b[|b| - 1];
    }
  }

  /** A symbol requested twice that is stored yields its ticker twice. */
  lemma RepeatedSymbol(d: ExchangeData, symbol: string)
    requires symbol in d.tickers
    ensures Select(d, [symbol, symbol]) == [d.tickers[symbol], d.tickers[symbol]]
  {
    assert [symbol, symbol][..1] == [symbol];
  }

  /** Without upbit data the answer is empty whatever the parameter. */
  lemma NoUpbitData(store: MarketDataStore, symbols: Option<string>)
    requires store.Valid() && Upbit !in store.data
    ensures UpbitTickersSpec(store, symbols) == []
  {
  }

  /** Only upbit is read: two stores with the same upbit map answer alike,
      whatever else they hold. */
  lemma OnlyUpbitRead(a: MarketDataStore, b: MarketDataStore, symbols: Option<string>)
    requires a.Valid() && b.Valid()
    requires a.GetExchangeData(Upbit) == b.GetExchangeData(Upbit)
    ensures UpbitTickersSpec(a, symbols) == UpbitTickersSpec(b, symbols)
  {
  }

  /** The segments of a concatenation request what each part requests, in
      order. */
  lemma {:induction false} NonEmptyTrimmedAppend(a: seq<string>, b: seq<string>)
    ensures NonEmptyTrimmed(a + b) == NonEmptyTrimmed(a) + NonEmptyTrimmed(b)
    decreases |a|
  {
    if a == [] {
      assert a + b == b;
    } else {
      assert [a[0]] + a[1..] == a;
      assert [a[0]] + (a[1..] + b) == a + b;
      calc {
        NonEmptyTrimmed(a + b);
        { NonEmptyTrimmedCons(a[0], a[1..] + b); }
        Kept(a[0]) + NonEmptyTrimmed(a[1..] + b);
        { NonEmptyTrimmedAppend(a[1..], b); }
        Kept(a[0]) + (NonEmptyTrimmed(a[1..]) + NonEmptyTrimmed(b));
        (Kept(a[0]) + NonEmptyTrimmed(a[1..])) + NonEmptyTrimmed(b);
        { NonEmptyTrimmedCons(a[0], a[1..]); }
        NonEmptyTrimmed(a) + NonEmptyTrimmed(b);
      }
    }
  }

  /** One step of `NonEmptyTrimmed`. */
  lemma NonEmptyTrimmedCons(segment: string, rest: seq<string>)
    ensures NonEmptyTrimmed([segment] + rest) == Kept(segment) + NonEmptyTrimmed(rest)
  {
    assert ([segment] + rest)[0] == segment;
    assert ([segment] + rest)[1..] == rest;
  }

  /** Segments that are empty once trimmed, as in `KRW-BTC, ,,KRW-ETH`,
      request nothing. */
  lemma BlankSegmentsDropped(a: seq<string>, blank: string, b: seq<string>)
    requires Trim(blank) == []
    ensures NonEmptyTrimmed(a + [blank] + b) == NonEmptyTrimmed(a + b)
  {
    assert NonEmptyTrimmed([blank]) == [] by {
      assert [blank][1..] == [];
      assert Kept(blank) == [];
    }
    NonEmptyTrimmedAppend(a + [blank], b);
    NonEmptyTrimmedAppend(a, [blank]);
    NonEmptyTrimmedAppend(a, b);
    calc {
      NonEmptyTrimmed(a + [blank] + b);
      NonEmptyTrimmed(a + [blank]) + NonEmptyTrimmed(b);
      (NonEmptyTrimmed(a) + NonEmptyTrimmed([blank])) + NonEmptyTrimmed(b);
      { assert NonEmptyTrimmed(a) + [] == NonEmptyTrimmed(a); }
      NonEmptyTrimmed(a) + NonEmptyTrimmed(b);
    }
  }
}
