/** What the script engine's operations are specified against: the log
    texts it emits, the worker-thread bookkeeping, and reference
    definitions of what its loops build (one slot per key, the trades of
    one order, one subscription per resolvable symbol), with the lemmas
    that say what those definitions mean. */
module EngineSpec {
  import opened Python
  import opened Trader
  import opened Host

  const DatafeedReadyMessage: string := "数据服务初始化成功"
  const StartMessage: string := "策略交易脚本启动"
  const StopMessage: string := "策略交易脚本停止"
  /** What a crash report starts with; the traceback text follows it. */
  const CrashPrefix: string := "触发异常已停止\n"
  const EmailSubject: string := "脚本策略引擎通知"

  /** A worker thread, identified by the script path it was started on. */
  datatype Thread = Thread(target: string)

  /** What happened to worker threads: started, or joined to completion. */
  datatype ThreadEvent = Started(thread: Thread) | Joined(thread: Thread)

  /** How a script run ends: the module loads and its `run` returns, or the
      import, the reload or `run` raises, with the formatted traceback. */
  datatype ScriptRun = Finished | Crashed(trace: string)

  /** Threads started and not yet joined. A worker whose script has
      returned or crashed still counts until it is joined. */
  function UnjoinedThreads(events: seq<ThreadEvent>): (n: int)
    ensures -|events| <= n <= |events|
  {
    if events == [] then 0
    else (if events[0].Started? then 1 else -1) + UnjoinedThreads(events[1..])
  }

  /** A start adds one unjoined thread, a join removes one. */
  lemma {:induction false} UnjoinedThreadsAppend(events: seq<ThreadEvent>, e: ThreadEvent)
    ensures UnjoinedThreads(events + [e]) == UnjoinedThreads(events) + (if e.Started? then 1 else -1)
    decreases |events|
  {
    if events == [] {
      assert [e][1..] == [];
    } else {
      assert (events + [e])[0] == events[0];
      assert (events + [e])[1..] == events[1..] + [e];
      UnjoinedThreadsAppend(events[1..], e);
    }
  }

  /** The slots `get_ticks` and `get_orders` fill: for each key in order,
      what the host has under it, or None. */
  function LookupAll<V>(d: Dict<V>, keys: seq<string>): (r: seq<Option<V>>)
    ensures |r| == |keys|
    ensures forall k :: 0 <= k < |keys| ==> r[k] == Get(d, keys[k])
  {
    if keys == [] then []
    else LookupAll(d, keys[..|keys| - 1]) + [Get(d, keys[|keys| - 1])]
  }

  /** The trades `get_trades` keeps: those of one order, in list order. */
  function TradesOf(trades: seq<TradeData>, vtOrderId: string): (r: seq<TradeData>)
    ensures |r| <= |trades|
    ensures forall k :: 0 <= k < |r| ==> r[k].VtOrderId() == vtOrderId
  {
    if trades == [] then []
    else
      var last := trades[|trades| - 1];
      TradesOf(trades[..|trades| - 1], vtOrderId)
      + (if last.VtOrderId() == vtOrderId then [last] else [])
  }

  /** Exactly the trades that belong to the order are kept. */
  lemma {:induction false} TradesOfKeepsExactlyMatches(trades: seq<TradeData>, vtOrderId: string)
    ensures forall t :: t in TradesOf(trades, vtOrderId) <==> t in trades && t.VtOrderId() == vtOrderId
    decreases |trades|
  {
    if trades != [] {
      var init := trades[..|trades| - 1];
      TradesOfKeepsExactlyMatches(init, vtOrderId);
      assert trades == init + [trades[|trades| - 1]];
    }
  }

  /** Filtering a concatenation filters each side and keeps their order. */
  lemma {:induction false} TradesOfAppend(a: seq<TradeData>, b: seq<TradeData>, vtOrderId: string)
    ensures TradesOf(a + b, vtOrderId) == TradesOf(a, vtOrderId) + TradesOf(b, vtOrderId)
    decreases |b|
  {
    if b == [] {
      assert a + b == a;
    } else {
      var init := b[..|b| - 1];
      assert (a + b)[..|a + b| - 1] == a + init;
      assert (a + b)[|a + b| - 1] == b[|b| - 1];
      TradesOfAppend(a, init, vtOrderId);
    }
  }

  /** The subscription a resolved contract gets, routed to its gateway. */
  function SubscribeFor(c: ContractData): (s: Routed<SubscribeRequest>)
    ensures s.req.symbol == c.symbol && s.req.exchange == c.exchange
    ensures s.gatewayName == c.gatewayName
  {
    Routed(SubscribeRequest(c.symbol, c.exchange), c.gatewayName)
  }

  /** The subscriptions `subscribe` issues: one per symbol the host has a
      contract for, in input order; the others are skipped. */
  function SubscribeRequests(contracts: Dict<ContractData>, symbols: seq<string>)
    : (r: seq<Routed<SubscribeRequest>>)
    ensures forall x :: x in r ==>
      exists j :: 0 <= j < |symbols| && Get(contracts, symbols[j]).Some?
        && x == SubscribeFor(Get(contracts, symbols[j]).value)
  {
    if symbols == [] then []
    else
      SubscribeRequests(contracts, symbols[..|symbols| - 1])
      + match Get(contracts, symbols[|symbols| - 1])
        case None => []
        case Some(c) => [SubscribeFor(c)]
  }

  lemma {:induction false} SubscribeRequestsAtMostOnePerSymbol(contracts: Dict<ContractData>, symbols: seq<string>)
    ensures |SubscribeRequests(contracts, symbols)| <= |symbols|
    decreases |symbols|
  {
    if symbols != [] {
      SubscribeRequestsAtMostOnePerSymbol(contracts, symbols[..|symbols| - 1]);
    }
  }

  /** Subscribing a concatenation subscribes each side in turn. */
  lemma {:induction false} SubscribeRequestsAppend(contracts: Dict<ContractData>, a: seq<string>, b: seq<string>)
    ensures SubscribeRequests(contracts, a + b) == SubscribeRequests(contracts, a) + SubscribeRequests(contracts, b)
    decreases |b|
  {
    if b == [] {
      assert a + b == a;
    } else {
      var init := b[..|b| - 1];
      assert (a + b)[..|a + b| - 1] == a + init;
      assert (a + b)[|a + b| - 1] == b[|b| - 1];
      SubscribeRequestsAppend(contracts, a, init);
    }
  }

  /** When every symbol resolves, request k is the k-th symbol's. */
  lemma {:induction false} SubscribeRequestsAllKnown(contracts: Dict<ContractData>, symbols: seq<string>)
    requires forall k :: 0 <= k < |symbols| ==> Get(contracts, symbols[k]).Some?
    ensures |SubscribeRequests(contracts, symbols)| == |symbols|
    ensures forall k :: 0 <= k < |symbols| ==>
      SubscribeRequests(contracts, symbols)[k] == SubscribeFor(Get(contracts, symbols[k]).value)
    decreases |symbols|
  {
    if symbols != [] {
      SubscribeRequestsAllKnown(contracts, symbols[..|symbols| - 1]);
    }
  }

  /** When no symbol resolves, nothing is subscribed. */
  lemma {:induction false} SubscribeRequestsNoneKnown(contracts: Dict<ContractData>, symbols: seq<string>)
    requires forall k :: 0 <= k < |symbols| ==> Get(contracts, symbols[k]).None?
    ensures SubscribeRequests(contracts, symbols) == []
    decreases |symbols|
  {
    if symbols != [] {
      SubscribeRequestsNoneKnown(contracts, symbols[..|symbols| - 1]);
    }
  }

  /** The position id `get_position_` looks up:
      gateway, vt_symbol and direction value joined with ".". */
  function PositionId(c: ContractData, direction: Direction): (id: string)
    ensures id != ""
    ensures id[|id| - 1] == DirectionValue(direction)[0]
  {
    c.gatewayName + "." + c.VtSymbol() + "." + DirectionValue(direction)
  }

  /** The id agrees with the key the host files positions under. */
  lemma PositionIdIsHostKey(c: ContractData, p: PositionData)
    requires c.gatewayName == p.gatewayName && c.symbol == p.symbol && c.exchange == p.exchange
    ensures PositionId(c, p.direction) == p.VtPositionId()
  {
  }

  /** Different directions of one contract give different position ids. */
  lemma PositionIdSeparatesDirections(c: ContractData, d1: Direction, d2: Direction)
    requires d1 != d2
    ensures PositionId(c, d1) != PositionId(c, d2)
  {
  }

  /** The order request `send_order` builds for a resolved contract. */
  function OrderRequestFor(c: ContractData, direction: Direction, offset: Offset,
                           orderType: OrderType, price: real, volume: real): (req: OrderRequest)
    ensures req.symbol == c.symbol && req.exchange == c.exchange
    ensures req.direction == direction && req.offset == offset && req.orderType == orderType
    ensures req.price == price && req.volume == volume
    ensures req.reference == AppName
  {
    OrderRequest(c.symbol, c.exchange, direction, orderType, volume, price, offset, AppName)
  }
}
