/**
 * The wire schema shared by server and client: the exchange enumeration and
 * its name/id bijection, the ticker record, the seven-slot compact ticker
 * tuple whose positions are fixed by one schema, market information and the
 * tagged union of server-to-client messages.
 */
module SharedTypes {
  import opened Wrappers

  /** The supported exchanges, in the order of the `EXCHANGES` array. */
  datatype Exchange = Upbit | Binance

  /** `EXCHANGES`: the exchange names; an exchange's id is its index here. */
  const EXCHANGES: seq<string> := ["upbit", "binance"]

  /** `ExchangeIdType`: the ids 0 and 1. */
  type ExchangeId = i: int | 0 <= i <= 1

  /** The runtime name of an exchange (the `ExchangeType` string). */
  function ExchangeName(e: Exchange): string
  {
    match e
    case Upbit => "upbit"
    case Binance => "binance"
  }

  /** Exchange names are non-empty runs of lower-case ASCII letters. */
  lemma ExchangeNameIsLowercase(e: Exchange)
    ensures ExchangeName(e) != []
    ensures forall i :: 0 <= i < |ExchangeName(e)| ==> 'a' <= ExchangeName(e)[i] <= 'z'
  {
  }

  /** `EXCHANGE_TO_ID`: the id of an exchange is the index of its name in
      `EXCHANGES`. */
  function ExchangeToId(e: Exchange): (id: ExchangeId)
    ensures EXCHANGES[id] == ExchangeName(e)
  {
    match e
    case Upbit => 0
    case Binance => 1
  }

  /** The exchange a wire id stands for. */
  function ExchangeOfId(id: ExchangeId): (e: Exchange)
    ensures ExchangeToId(e) == id
  {
    if id == 0 then Upbit else Binance
  }

  /** The exchange named `name`, when `name` is one of `EXCHANGES`. */
  function ExchangeOfName(name: string): (r: Option<Exchange>)
    ensures r.Some? <==> name in EXCHANGES
    ensures r.Some? ==> ExchangeName(r.value) == name
  {
    if name == "upbit" then Some(Upbit)
    else if name == "binance" then Some(Binance)
    else None
  }

  /** Ids are array indices: the name at index `i` maps to id `i`, and names
      and ids determine each other. */
  lemma ExchangeIdsAreIndices(i: ExchangeId, e: Exchange)
    ensures ExchangeOfName(EXCHANGES[i]) == Some(ExchangeOfId(i))
    ensures ExchangeOfName(ExchangeName(e)) == Some(e)
    ensures ExchangeOfId(ExchangeToId(e)) == e
  {
  }

  /** `PriceDirection`: -1 down, 0 even, 1 up. */
  type PriceDirection = d: int | -1 <= d <= 1

  /** `Ticker`: one symbol's latest quote. JavaScript numbers are modelled as
      integers. */
  datatype Ticker = Ticker(
    e: string,           // exchange
    s: string,           // symbol
    p: int,              // price
    d: PriceDirection,   // price direction
    c24: int,            // change over 24h, percent
    cp24: int,           // change over 24h, amount
    p24: int)            // traded value over 24h

  /** `MarketInfo`: the metadata of one listed symbol. */
  datatype MarketInfo = MarketInfo(symbol: string, korean_name: string, english_name: string)

  /** The fields of `TickerCompactSchema`. */
  datatype CompactField =
    | ExchangeField | SymbolField | PriceField | PriceDirectionField
    | Change24hField | ChangePrice24hField | Price24hField

  /** The number of slots of a compact ticker. */
  const COMPACT_SLOTS: nat := 7

  /** `TickerCompactSchema[f].index`, which `TickerCompactIndex` copies field
      by field: the position of each field on the wire. */
  function SchemaIndex(f: CompactField): (i: nat)
    ensures i < COMPACT_SLOTS
  {
    match f
    case ExchangeField => 0
    case SymbolField => 1
    case PriceField => 2
    case PriceDirectionField => 3
    case Change24hField => 4
    case ChangePrice24hField => 5
    case Price24hField => 6
  }

  /** The field stored at position `i` of a compact ticker. */
  function FieldAt(i: nat): (f: CompactField)
    requires i < COMPACT_SLOTS
    ensures SchemaIndex(f) == i
  {
    [ExchangeField, SymbolField, PriceField, PriceDirectionField,
     Change24hField, ChangePrice24hField, Price24hField][i]
  }

  /** The schema indices are exactly 0..6, each used by exactly one field. */
  lemma SchemaIsBijection(f: CompactField, g: CompactField)
    ensures FieldAt(SchemaIndex(f)) == f
    ensures SchemaIndex(f) == SchemaIndex(g) ==> f == g
  {
  }

  /** `TickerCompact`: the seven slots typed in schema order. */
  type TickerCompact = (ExchangeId, string, int, PriceDirection, int, int, int)

  /** One slot of a compact ticker on the wire: a number or a string. */
  datatype WireValue = Num(n: int) | Str(s: string)

  /** The wire value of field `f` of a compact ticker. */
  function SlotValue(c: TickerCompact, f: CompactField): WireValue
  {
    match f
    case ExchangeField => Num(c.0)
    case SymbolField => Str(c.1)
    case PriceField => Num(c.2)
    case PriceDirectionField => Num(c.3)
    case Change24hField => Num(c.4)
    case ChangePrice24hField => Num(c.5)
    case Price24hField => Num(c.6)
  }

  /** The compact form of a ticker; absent when the ticker's exchange name is
      not one of `EXCHANGES`, which has no id. */
  function ToCompact(t: Ticker): (r: Option<TickerCompact>)
    ensures r.Some? <==> t.e in EXCHANGES
    ensures r.Some? ==> EXCHANGES[r.value.0] == t.e && r.value.1 == t.s
  {
    match ExchangeOfName(t.e)
    case None => None
    case Some(e) => Some((ExchangeToId(e), t.s, t.p, t.d, t.c24, t.cp24, t.p24))
  }

  /** The ticker a compact tuple describes. */
  function FromCompact(c: TickerCompact): (t: Ticker)
    ensures t.e == EXCHANGES[c.0]
  {
    Ticker(ExchangeName(ExchangeOfId(c.0)), c.1, c.2, c.3, c.4, c.5, c.6)
  }

  /** Encoding: each field is placed at its schema index. */
  function Encode(c: TickerCompact): (w: seq<WireValue>)
    ensures |w| == COMPACT_SLOTS
    ensures forall f: CompactField :: w[SchemaIndex(f)] == SlotValue(c, f)
  {
    seq(COMPACT_SLOTS, i requires 0 <= i < COMPACT_SLOTS => SlotValue(c, FieldAt(i)))
  }

  /** Decoding by position: each field is read at its `TickerCompactIndex`;
      a tuple of the wrong length or with a slot of the wrong kind or range
      is rejected. */
  function Decode(w: seq<WireValue>): (r: Option<TickerCompact>)
    ensures r.Some? ==> |w| == COMPACT_SLOTS
    ensures r.Some? ==> 0 <= r.value.0 <= 1 && -1 <= r.value.3 <= 1
    ensures r.Some? ==> w[SchemaIndex(SymbolField)] == Str(r.value.1)
  {
    if |w| != COMPACT_SLOTS then None
    else
      var ex := w[SchemaIndex(ExchangeField)];
      var sy := w[SchemaIndex(SymbolField)];
      var pr := w[SchemaIndex(PriceField)];
      var di := w[SchemaIndex(PriceDirectionField)];
      var ch := w[SchemaIndex(Change24hField)];
      var cp := w[SchemaIndex(ChangePrice24hField)];
      var vo := w[SchemaIndex(Price24hField)];
      if ex.Num? && 0 <= ex.n <= 1 && sy.Str? && pr.Num? && di.Num? && -1 <= di.n <= 1
         && ch.Num? && cp.Num? && vo.Num?
      then Some((ex.n, sy.s, pr.n, di.n, ch.n, cp.n, vo.n))
      else None
  }

  /** Decoding an encoded tuple gives it back. */
  lemma DecodeEncode(c: TickerCompact)
    ensures Decode(Encode(c)) == Some(c)
  {
    var w := Encode(c);
    assert w[0] == SlotValue(c, ExchangeField) && w[1] == SlotValue(c, SymbolField);
    assert w[2] == SlotValue(c, PriceField) && w[3] == SlotValue(c, PriceDirectionField);
    assert w[4] == SlotValue(c, Change24hField) && w[5] == SlotValue(c, ChangePrice24hField);
    assert w[6] == SlotValue(c, Price24hField);
  }

  /** Decoding accepts only encodings: whatever decodes re-encodes to the same
      wire tuple. */
  lemma EncodeDecode(w: seq<WireValue>, c: TickerCompact)
    requires Decode(w) == Some(c)
    ensures Encode(c) == w
  {
    var e := Encode(c);
    forall i | 0 <= i < COMPACT_SLOTS ensures e[i] == w[i] {
      assert e[SchemaIndex(FieldAt(i))] == SlotValue(c, FieldAt(i));
    }
  }

  /** A ticker whose exchange is known survives compaction, encoding, decoding
      by position and expansion unchanged. */
  lemma TickerRoundTrip(t: Ticker)
    requires t.e in EXCHANGES
    ensures ToCompact(t).Some?
    ensures Decode(Encode(ToCompact(t).value)) == Some(ToCompact(t).value)
    ensures FromCompact(ToCompact(t).value) == t
  {
    DecodeEncode(ToCompact(t).value);
  }

  /** `WebSocketMessage`: the tagged union of server-to-client messages. */
  datatype WebSocketMessage =
    | WsConnected(id: string, message: string)
    | WsSymbolDict(data: seq<string>)
    | WsSymbolAdd(symbolId: int, symbol: string)
    | WsTickers(d: seq<TickerCompact>, ts: int)
    | WsError(code: string, message: string)

  /** The `t` discriminator of a message. */
  function Tag(m: WebSocketMessage): string
  {
    match m
    case WsConnected(_, _) => "connected"
    case WsSymbolDict(_) => "symbolDict"
    case WsSymbolAdd(_, _) => "symbolAdd"
    case WsTickers(_, _) => "tickers"
    case WsError(_, _) => "error"
  }

  /** The tags are pairwise distinct: the tag alone tells a receiver which
      variant it holds. */
  lemma TagsDistinct(m: WebSocketMessage, n: WebSocketMessage)
    ensures Tag(m) == Tag(n) <==>
      (m.WsConnected? && n.WsConnected?) || (m.WsSymbolDict? && n.WsSymbolDict?)
      || (m.WsSymbolAdd? && n.WsSymbolAdd?) || (m.WsTickers? && n.WsTickers?)
      || (m.WsError? && n.WsError?)
  {
  }
}
