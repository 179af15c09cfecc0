/** The trading platform's records and constants as the script engine sees
    them. Prices and volumes are floats on the platform; here they are
    `real`s that the engine only passes through. Exchanges are given by their
    value string ("CFFEX", "SHFE", ...). Timestamps are left out. */
module Trader {

  /** The reference every order sent by the script engine carries. */
  const AppName: string := "ScriptTrader"

  datatype Direction = Long | Short | Net

  /** `Direction.value`: the text that position identifiers are built from. */
  function DirectionValue(d: Direction): (v: string)
    ensures |v| == 1
  {
    match d
    case Long => "多"
    case Short => "空"
    case Net => "净"
  }

  datatype Offset = NoOffset | Open | Close | CloseToday | CloseYesterday

  datatype OrderType = Limit | Market | Stop | Fak | Fok | Rfq

  datatype Status = Submitting | NotTraded | PartTraded | AllTraded | Cancelled | Rejected

  datatype Interval = Minute | Hour | Daily | Weekly | TickInterval

  function DirectionName(d: Direction): string {
    match d
    case Long => "LONG"
    case Short => "SHORT"
    case Net => "NET"
  }

  function OffsetName(o: Offset): string {
    match o
    case NoOffset => "NONE"
    case Open => "OPEN"
    case Close => "CLOSE"
    case CloseToday => "CLOSETODAY"
    case CloseYesterday => "CLOSEYESTERDAY"
  }

  function OrderTypeName(t: OrderType): string {
    match t
    case Limit => "LIMIT"
    case Market => "MARKET"
    case Stop => "STOP"
    case Fak => "FAK"
    case Fok => "FOK"
    case Rfq => "RFQ"
  }

  function StatusName(s: Status): string {
    match s
    case Submitting => "SUBMITTING"
    case NotTraded => "NOTTRADED"
    case PartTraded => "PARTTRADED"
    case AllTraded => "ALLTRADED"
    case Cancelled => "CANCELLED"
    case Rejected => "REJECTED"
  }

  function IntervalName(i: Interval): string {
    match i
    case Minute => "MINUTE"
    case Hour => "HOUR"
    case Daily => "DAILY"
    case Weekly => "WEEKLY"
    case TickInterval => "TICK"
  }

  /** One cell of a table row: a string, a number, or an enum member by name. */
  datatype Field = Text(text: string) | Number(number: real) | Member(name: string)

  /** A record's attribute dictionary (`__dict__`): one table row. */
  type Row = map<string, Field>

  /** `symbol.exchange`, the key the platform files instruments under. */
  function VtSymbolOf(symbol: string, exchange: string): string {
    symbol + "." + exchange
  }

  datatype ContractData = ContractData(
    gatewayName: string, symbol: string, exchange: string,
    name: string, size: real, pricetick: real)
  {
    function VtSymbol(): string { VtSymbolOf(symbol, exchange) }
  }

  datatype TickData = TickData(
    gatewayName: string, symbol: string, exchange: string,
    name: string, lastPrice: real, volume: real)

  datatype OrderData = OrderData(
    gatewayName: string, symbol: string, exchange: string, orderid: string,
    orderType: OrderType, direction: Direction, offset: Offset,
    price: real, volume: real, traded: real, status: Status, reference: string)
  {
    function VtOrderId(): string { gatewayName + "." + orderid }

    /** `OrderData.create_cancel_request`: a cancel for this order on its
        own instrument. */
    function CreateCancelRequest(): (req: CancelRequest)
      ensures req.orderid == orderid
      ensures req.symbol == symbol && req.exchange == exchange
    {
      CancelRequest(orderid, symbol, exchange)
    }
  }

  datatype TradeData = TradeData(
    gatewayName: string, symbol: string, exchange: string,
    orderid: string, tradeid: string, direction: Direction, offset: Offset,
    price: real, volume: real)
  {
    /** The id of the order this trade filled: gateway and order id joined
        by ".". */
    function VtOrderId(): (id: string)
      ensures |id| == |gatewayName| + 1 + |orderid|
      ensures id[..|gatewayName|] == gatewayName && id[|gatewayName|] == '.'
      ensures id[|gatewayName| + 1..] == orderid
    {
      gatewayName + "." + orderid
    }
  }

  datatype PositionData = PositionData(
    gatewayName: string, symbol: string, exchange: string,
    direction: Direction, volume: real, frozen: real, price: real)
  {
    /** The key the platform files a position under. */
    function VtPositionId(): string {
      gatewayName + "." + VtSymbolOf(symbol, exchange) + "." + DirectionValue(direction)
    }
  }

  datatype AccountData = AccountData(
    gatewayName: string, accountid: string, balance: real, frozen: real)

  datatype BarData = BarData(
    gatewayName: string, symbol: string, exchange: string, interval: Interval,
    openPrice: real, highPrice: real, lowPrice: real, closePrice: real, volume: real)

  datatype OrderRequest = OrderRequest(
    symbol: string, exchange: string, direction: Direction, orderType: OrderType,
    volume: real, price: real, offset: Offset, reference: string)

  datatype CancelRequest = CancelRequest(orderid: string, symbol: string, exchange: string)

  datatype SubscribeRequest = SubscribeRequest(symbol: string, exchange: string)

  /** A bar-history query. `start` is the caller's "%Y%m%d" text (the date
      parsing is not modelled) and `end` the clock reading taken when the
      query is built. */
  datatype HistoryRequest = HistoryRequest(
    symbol: string, exchange: string, start: string, end: int, interval: Interval)

  /** A log line: its message and the source tag. */
  datatype LogData = LogData(msg: string, gatewayName: string)

  /* The rows below keep the attributes this model gives each record, plus
     the derived `vt_*` keys; each row agrees with its record on the
     gateway and on the key the host files the record under. */

  function ContractRow(c: ContractData): (r: Row)
    ensures "gateway_name" in r && r["gateway_name"] == Text(c.gatewayName)
    ensures "vt_symbol" in r && r["vt_symbol"] == Text(c.VtSymbol())
    ensures "size" in r && r["size"] == Number(c.size)
  {
    map["gateway_name" := Text(c.gatewayName), "symbol" := Text(c.symbol),
        "exchange" := Text(c.exchange), "name" := Text(c.name),
        "size" := Number(c.size), "pricetick" := Number(c.pricetick),
        "vt_symbol" := Text(c.VtSymbol())]
  }

  function TickRow(t: TickData): (r: Row)
    ensures "gateway_name" in r && r["gateway_name"] == Text(t.gatewayName)
    ensures "vt_symbol" in r && r["vt_symbol"] == Text(VtSymbolOf(t.symbol, t.exchange))
    ensures "last_price" in r && r["last_price"] == Number(t.lastPrice)
  {
    map["gateway_name" := Text(t.gatewayName), "symbol" := Text(t.symbol),
        "exchange" := Text(t.exchange), "name" := Text(t.name),
        "last_price" := Number(t.lastPrice), "volume" := Number(t.volume),
        "vt_symbol" := Text(VtSymbolOf(t.symbol, t.exchange))]
  }

  function OrderRow(o: OrderData): (r: Row)
    ensures "gateway_name" in r && r["gateway_name"] == Text(o.gatewayName)
    ensures "vt_orderid" in r && r["vt_orderid"] == Text(o.VtOrderId())
    ensures "status" in r && r["status"] == Member(StatusName(o.status))
  {
    map["gateway_name" := Text(o.gatewayName), "symbol" := Text(o.symbol),
        "exchange" := Text(o.exchange), "orderid" := Text(o.orderid),
        "type" := Member(OrderTypeName(o.orderType)),
        "direction" := Member(DirectionName(o.direction)),
        "offset" := Member(OffsetName(o.offset)),
        "price" := Number(o.price), "volume" := Number(o.volume),
        "traded" := Number(o.traded), "status" := Member(StatusName(o.status)),
        "reference" := Text(o.reference),
        "vt_symbol" := Text(VtSymbolOf(o.symbol, o.exchange)),
        "vt_orderid" := Text(o.VtOrderId())]
  }

  function TradeRow(t: TradeData): (r: Row)
    ensures "gateway_name" in r && r["gateway_name"] == Text(t.gatewayName)
    ensures "vt_orderid" in r && r["vt_orderid"] == Text(t.VtOrderId())
    ensures "vt_tradeid" in r && r["vt_tradeid"] == Text(t.gatewayName + "." + t.tradeid)
  {
    map["gateway_name" := Text(t.gatewayName), "symbol" := Text(t.symbol),
        "exchange" := Text(t.exchange), "orderid" := Text(t.orderid),
        "tradeid" := Text(t.tradeid),
        "direction" := Member(DirectionName(t.direction)),
        "offset" := Member(OffsetName(t.offset)),
        "price" := Number(t.price), "volume" := Number(t.volume),
        "vt_symbol" := Text(VtSymbolOf(t.symbol, t.exchange)),
        "vt_orderid" := Text(t.VtOrderId()),
        "vt_tradeid" := Text(t.gatewayName + "." + t.tradeid)]
  }

  function PositionRow(p: PositionData): (r: Row)
    ensures "gateway_name" in r && r["gateway_name"] == Text(p.gatewayName)
    ensures "vt_positionid" in r && r["vt_positionid"] == Text(p.VtPositionId())
    ensures "direction" in r && r["direction"] == Member(DirectionName(p.direction))
  {
    map["gateway_name" := Text(p.gatewayName), "symbol" := Text(p.symbol),
        "exchange" := Text(p.exchange),
        "direction" := Member(DirectionName(p.direction)),
        "volume" := Number(p.volume), "frozen" := Number(p.frozen),
        "price" := Number(p.price),
        "vt_symbol" := Text(VtSymbolOf(p.symbol, p.exchange)),
        "vt_positionid" := Text(p.VtPositionId())]
  }

  function AccountRow(a: AccountData): (r: Row)
    ensures "gateway_name" in r && r["gateway_name"] == Text(a.gatewayName)
    ensures "vt_accountid" in r && r["vt_accountid"] == Text(a.gatewayName + "." + a.accountid)
    ensures "available" in r && r["available"] == Number(a.balance - a.frozen)
  {
    map["gateway_name" := Text(a.gatewayName), "accountid" := Text(a.accountid),
        "balance" := Number(a.balance), "frozen" := Number(a.frozen),
        "available" := Number(a.balance - a.frozen),
        "vt_accountid" := Text(a.gatewayName + "." + a.accountid)]
  }

  function BarRow(b: BarData): (r: Row)
    ensures "gateway_name" in r && r["gateway_name"] == Text(b.gatewayName)
    ensures "vt_symbol" in r && r["vt_symbol"] == Text(VtSymbolOf(b.symbol, b.exchange))
    ensures "interval" in r && r["interval"] == Member(IntervalName(b.interval))
  {
    map["gateway_name" := Text(b.gatewayName), "symbol" := Text(b.symbol),
        "exchange" := Text(b.exchange), "interval" := Member(IntervalName(b.interval)),
        "open_price" := Number(b.openPrice), "high_price" := Number(b.highPrice),
        "low_price" := Number(b.lowPrice), "close_price" := Number(b.closePrice),
        "volume" := Number(b.volume),
        "vt_symbol" := Text(VtSymbolOf(b.symbol, b.exchange))]
  }
}
