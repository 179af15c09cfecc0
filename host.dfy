/** The host platform the script engine drives, reduced to what the engine
    can observe: the tables its lookups read, and the calls that change
    something in the host, each kind recorded in its own sequence. Lookups
    are not recorded. How the host fills its tables, routes
    orders to gateways and talks to the network is not part of this model. */
module Host {
  import opened Python
  import opened Trader
  import opened Accessor

  /** A Python dict as its items in insertion order. */
  type Dict<V> = seq<(string, V)>

  /** `d.get(key)`: the value filed under `key`, if any. */
  function Get<V>(d: Dict<V>, key: string): (r: Option<V>)
    ensures r.Some? ==> (key, r.value) in d
    ensures r.None? ==> forall k :: 0 <= k < |d| ==> d[k].0 != key
  {
    if d == [] then None
    else if d[0].0 == key then Some(d[0].1)
    else Get(d[1..], key)
  }

  /** Keys are pairwise distinct, as in every dict Python can build. */
  predicate KeysDistinct<V>(d: Dict<V>) {
    forall i, j :: 0 <= i < j < |d| ==> d[i].0 != d[j].0
  }

  /** With distinct keys, a lookup finds every entry the dict lists, so
      `get` and `values()` agree. */
  lemma {:induction false} GetFindsEveryEntry<V>(d: Dict<V>, key: string, v: V)
    requires KeysDistinct(d)
    requires (key, v) in d
    ensures Get(d, key) == Some(v)
    decreases |d|
  {
    if d[0] != (key, v) {
      var i :| 0 <= i < |d| && d[i] == (key, v);
      assert d[1..][i - 1] == (key, v);
      assert KeysDistinct(d[1..]) by {
        forall i', j' | 0 <= i' < j' < |d| - 1
          ensures d[1..][i'].0 != d[1..][j'].0
        {
          assert d[1..][i'] == d[i' + 1] && d[1..][j'] == d[j' + 1];
        }
      }
      GetFindsEveryEntry(d[1..], key, v);
    }
  }

  /** `list(d.values())` */
  function Values<V>(d: Dict<V>): (r: seq<V>)
    ensures |r| == |d|
    ensures forall k :: 0 <= k < |d| ==> r[k] == d[k].1
  {
    seq(|d|, k requires 0 <= k < |d| => d[k].1)
  }

  /** The host tables the engine reads. */
  datatype HostState = HostState(
    contracts: Dict<ContractData>,    // by vt_symbol
    orders: Dict<OrderData>,          // by vt_orderid
    activeOrders: Dict<OrderData>,    // by vt_orderid, orders still working
    ticks: Dict<TickData>,            // by vt_symbol, latest tick
    positions: Dict<PositionData>,    // by vt_positionid
    accounts: Dict<AccountData>,      // by vt_accountid
    trades: Dict<TradeData>)          // by vt_tradeid

  /** A request together with the gateway it was routed to. */
  datatype Routed<T> = Routed(req: T, gatewayName: string)

  /** An order request, its gateway, and the order id the host handed back. */
  datatype SentOrder = SentOrder(req: OrderRequest, gatewayName: string, vtOrderId: string)

  datatype Connection = Connection(setting: map<string, string>, gatewayName: string)

  datatype Email = Email(subject: string, content: string)

  /** The state-changing calls the engine has made into the host, one
      sequence per kind, each oldest first. The order between calls of
      different kinds is not kept, and lookups are not recorded. */
  datatype HostCalls = HostCalls(
    sent: seq<SentOrder>,
    cancels: seq<Routed<CancelRequest>>,
    subscribes: seq<Routed<SubscribeRequest>>,
    connects: seq<Connection>,
    emails: seq<Email>)

  const NoCalls := HostCalls([], [], [], [], [])

  /** The host trading engine (`MainEngine`). */
  class MainEngine {
    var state: HostState
    var calls: HostCalls
    /** The order id the host answers its n-th order request with (the
        gateways' numbering, which the engine does not see into). */
    const orderIdFor: nat -> string

    constructor (state: HostState, orderIdFor: nat -> string)
      ensures this.state == state && calls == NoCalls
      ensures this.orderIdFor == orderIdFor
    {
      this.state := state;
      this.calls := NoCalls;
      this.orderIdFor := orderIdFor;
    }

    /** `main_engine.send_order(req, gateway_name)` */
    method SendOrder(req: OrderRequest, gatewayName: string) returns (vtOrderId: string)
      modifies this
      ensures state == old(state)
      ensures vtOrderId == orderIdFor(|old(calls.sent)|)
      ensures calls == old(calls).(sent := old(calls.sent) + [SentOrder(req, gatewayName, vtOrderId)])
    {
      vtOrderId := orderIdFor(|calls.sent|);
      calls := calls.(sent := calls.sent + [SentOrder(req, gatewayName, vtOrderId)]);
    }

    /** `main_engine.cancel_order(req, gateway_name)` */
    method CancelOrder(req: CancelRequest, gatewayName: string)
      modifies this
      ensures state == old(state)
      ensures calls == old(calls).(cancels := old(calls.cancels) + [Routed(req, gatewayName)])
    {
      calls := calls.(cancels := calls.cancels + [Routed(req, gatewayName)]);
    }

    /** `main_engine.subscribe(req, gateway_name)` */
    method Subscribe(req: SubscribeRequest, gatewayName: string)
      modifies this
      ensures state == old(state)
      ensures calls == old(calls).(subscribes := old(calls.subscribes) + [Routed(req, gatewayName)])
    {
      calls := calls.(subscribes := calls.subscribes + [Routed(req, gatewayName)]);
    }

    /** `main_engine.connect(setting, gateway_name)` */
    method Connect(setting: map<string, string>, gatewayName: string)
      modifies this
      ensures state == old(state)
      ensures calls == old(calls).(connects := old(calls.connects) + [Connection(setting, gatewayName)])
    {
      calls := calls.(connects := calls.connects + [Connection(setting, gatewayName)]);
    }

    /** `main_engine.send_email(subject, content)` */
    method SendEmail(subject: string, content: string)
      modifies this
      ensures state == old(state)
      ensures calls == old(calls).(emails := old(calls.emails) + [Email(subject, content)])
    {
      calls := calls.(emails := calls.emails + [Email(subject, content)]);
    }
  }

  /** A host lookup by key (`get_tick`, `get_order`, ...). It takes exactly
      one positional argument: called with none it raises TypeError. A key
      that is not filed gives None. */
  function KeyLookup<V>(d: Dict<V>): (f: Call -> Outcome<Data<V>>)
    ensures f(NoArgs) == Raised(TypeError)
    ensures forall key :: f(OneArg(ArgStr(key))).Ok?
    ensures forall key :: f(OneArg(ArgStr(key))) == Ok(Null) <==> Get(d, key).None?
  {
    (c: Call) =>
      match c
      case NoArgs => Raised(TypeError)
      case OneArg(ArgNone) => Ok(Null)
      case OneArg(ArgStr(key)) => Ok(Found(Get(d, key)))
      case OneArg(ArgRequest(_)) => Raised(TypeError)  // an unhashable key
  }

  /** A host listing (`get_all_contracts`, ...), which the engine only ever
      calls with no argument. That a call with an argument raises TypeError
      is an assumption of this model; the engine never takes that branch. */
  function Listing<V>(d: Dict<V>): (f: Call -> Outcome<Data<V>>)
    ensures f(NoArgs).Ok? && f(NoArgs).value.List?
    ensures |f(NoArgs).value.items| == |d|
    ensures forall k :: 0 <= k < |d| ==> f(NoArgs).value.items[k] == Some(d[k].1)
    ensures forall a :: f(OneArg(a)) == Raised(TypeError)
  {
    (c: Call) =>
      match c
      case NoArgs => Ok(List(Somes(Values(d))))
      case OneArg(_) => Raised(TypeError)
  }

  /** The market-data feed: whether `init()` succeeds, and the bars
      `query_bar_history(req)` returns for each query. */
  datatype Datafeed = Datafeed(initOk: bool, history: HistoryRequest -> Data<BarData>)

  /** `datafeed.query_bar_history` as a callable: it takes the query object. */
  function HistoryQuery(feed: Datafeed): (f: Call -> Outcome<Data<BarData>>)
    ensures forall req :: f(OneArg(ArgRequest(req))) == Ok(feed.history(req))
    ensures f(NoArgs) == Raised(TypeError)
    ensures forall key :: f(OneArg(ArgStr(key))) == Raised(TypeError)
  {
    (c: Call) =>
      match c
      case OneArg(ArgRequest(req)) => Ok(feed.history(req))
      case _ => Raised(TypeError)
  }
}
