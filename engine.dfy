/** The script engine (`ScriptEngine`): the one run slot for a user script,
    and the facade the script trades and queries through. */
module Engine {
  import opened Python
  import opened Trader
  import opened Accessor
  import opened Host
  import opened EngineSpec

  class ScriptEngine {
    const mainEngine: MainEngine
    const datafeed: Datafeed

    /** The run slot is occupied; a script polls this to stop early. */
    var strategyActive: bool
    /** The worker thread of the current run, if any. */
    var strategyThread: Option<Thread>
    /** Worker threads started and joined, in order. */
    var threadEvents: seq<ThreadEvent>
    /** Every message `write_log` has emitted, in order. */
    var logs: seq<LogData>
    /** The module names the worker has attempted to import, in order,
        whether or not the import succeeded. */
    var imports: seq<string>

    /** What holds in every state the engine can reach. An occupied slot
        holds a handle; a held handle is the last worker started, and that
        worker has not been joined. */
    ghost predicate Valid()
      reads this
      ensures Valid() ==> UnjoinedThreads(threadEvents) >= 0
      ensures Valid() && strategyActive ==> UnjoinedThreads(threadEvents) >= 1
    {
      && (strategyActive ==> strategyThread.Some?)
      && (strategyThread.Some? ==>
            threadEvents != [] && threadEvents[|threadEvents| - 1] == Started(strategyThread.value))
      && UnjoinedThreads(threadEvents) >= (if strategyThread.Some? then 1 else 0)
    }

    /** The one-worker invariant: the slot is occupied exactly when a handle
        is held, and exactly that many workers are unjoined, so never more
        than one. A script that stops itself breaks it (`StopStrategy` with
        `callerIsWorker`); every other operation keeps it. */
    ghost predicate Exclusive()
      reads this
      ensures Exclusive() ==> Valid() && UnjoinedThreads(threadEvents) <= 1
    {
      && Valid()
      && strategyActive == strategyThread.Some?
      && UnjoinedThreads(threadEvents) == (if strategyActive then 1 else 0)
    }

    constructor (mainEngine: MainEngine, datafeed: Datafeed)
      ensures Exclusive()
      ensures this.mainEngine == mainEngine && this.datafeed == datafeed
      ensures !strategyActive && strategyThread == None
      ensures threadEvents == [] && logs == [] && imports == []
    {
      this.mainEngine := mainEngine;
      this.datafeed := datafeed;
      strategyActive := false;
      strategyThread := None;
      threadEvents := [];
      logs := [];
      imports := [];
    }

    /** Initialises the data feed and reports success in the log. */
    method Init()
      modifies this`logs
      ensures logs == old(logs) + (if datafeed.initOk then [LogData(DatafeedReadyMessage, AppName)] else [])
    {
      if datafeed.initOk {
        WriteLog(DatafeedReadyMessage);
      }
    }

    /** Starts `scriptPath` on a worker thread unless a script is already
        running; a second start is a no-op. */
    method StartStrategy(scriptPath: string)
      requires Valid()
      modifies this`strategyActive, this`strategyThread, this`threadEvents, this`logs
      ensures Valid()
      ensures old(Exclusive()) ==> Exclusive()
      ensures old(strategyActive) ==>
        strategyActive && strategyThread == old(strategyThread)
        && threadEvents == old(threadEvents) && logs == old(logs)
      ensures !old(strategyActive) ==>
        strategyActive && strategyThread == Some(Thread(scriptPath))
        && threadEvents == old(threadEvents) + [Started(Thread(scriptPath))]
        && logs == old(logs) + [LogData(StartMessage, AppName)]
    {
      if strategyActive {
        return;
      }
      strategyActive := true;
      strategyThread := Some(Thread(scriptPath));
      UnjoinedThreadsAppend(threadEvents, Started(Thread(scriptPath)));
      threadEvents := threadEvents + [Started(Thread(scriptPath))];
      WriteLog(StartMessage);
    }

    /** What the worker thread runs: derive the module name from the path,
        import and reload that module, and call its `run`. A failure there is
        logged once with the crash prefix and the run slot stays occupied.
        An empty path has no last part: IndexError escapes before anything
        is imported or logged. */
    method RunStrategy(scriptPath: string, run: ScriptRun) returns (r: Outcome<()>)
      requires Valid()
      modifies this`logs, this`imports
      ensures Valid()
      ensures old(Exclusive()) ==> Exclusive()
      ensures ModuleName(scriptPath).None? ==>
        r == Raised(IndexError) && logs == old(logs) && imports == old(imports)
      ensures ModuleName(scriptPath).Some? ==>
        r == Ok(()) && imports == old(imports) + [ModuleName(scriptPath).value]
      ensures ModuleName(scriptPath).Some? && run.Finished? ==> logs == old(logs)
      ensures ModuleName(scriptPath).Some? && run.Crashed? ==>
        logs == old(logs) + [LogData(CrashPrefix + run.trace, AppName)]
    {
      var parts := PathParts(scriptPath);
      if parts == [] {
        return Raised(IndexError);
      }
      var scriptName := parts[|parts| - 1];
      var moduleName := DeleteAll(scriptName, ".py");
      imports := imports + [moduleName];
      if run.Crashed? {
        WriteLog(CrashPrefix + run.trace);
      }
      return Ok(());
    }

    /** Stops the running script: clears the slot, joins its worker, drops
        the handle and logs. A stop while idle is a no-op. When the caller
        is the worker itself (the script calling `stop_strategy` on the
        engine it was given), the join raises RuntimeError: the slot is
        already cleared, but the handle stays and nothing is logged. The
        exception then ends the script, which `RunStrategy` logs as a
        crash. */
    method StopStrategy(callerIsWorker: bool := false) returns (r: Outcome<()>)
      requires Valid()
      modifies this`strategyActive, this`strategyThread, this`threadEvents, this`logs
      ensures Valid()
      ensures old(Exclusive()) && !(old(strategyActive) && callerIsWorker) ==> Exclusive()
      ensures !old(strategyActive) ==>
        r == Ok(()) && !strategyActive && strategyThread == old(strategyThread)
        && threadEvents == old(threadEvents) && logs == old(logs)
      ensures old(strategyActive) && callerIsWorker ==>
        r == Raised(RuntimeError) && !strategyActive && strategyThread == old(strategyThread)
        && threadEvents == old(threadEvents) && logs == old(logs)
      ensures old(strategyActive) && !callerIsWorker ==>
        r == Ok(()) && !strategyActive && strategyThread == None
        && threadEvents == old(threadEvents) + [Joined(old(strategyThread).value)]
        && logs == old(logs) + [LogData(StopMessage, AppName)]
    {
      if !strategyActive {
        return Ok(());
      }
      strategyActive := false;
      if strategyThread.Some? {
        if callerIsWorker {
          return Raised(RuntimeError);
        }
        UnjoinedThreadsAppend(threadEvents, Joined(strategyThread.value));
        threadEvents := threadEvents + [Joined(strategyThread.value)];
      }
      strategyThread := None;
      WriteLog(StopMessage);
      return Ok(());
    }

    method ConnectGateway(setting: map<string, string>, gatewayName: string)
      modifies mainEngine
      ensures mainEngine.state == old(mainEngine.state)
      ensures mainEngine.calls
        == old(mainEngine.calls).(connects := old(mainEngine.calls.connects) + [Connection(setting, gatewayName)])
    {
      mainEngine.Connect(setting, gatewayName);
    }

    /** What `send_order` does to the host and returns: "" (the empty key)
        raises in the contract lookup, an unknown contract gives "" with no
        host call, and a known one sends exactly one request to the
        contract's gateway and returns the id the host answered with. */
    twostate predicate OrderPlaced(vtSymbol: string, price: real, volume: real, direction: Direction,
                                   offset: Offset, orderType: OrderType, new r: Outcome<string>)
      reads mainEngine
      ensures OrderPlaced(vtSymbol, price, volume, direction, offset, orderType, r) ==>
        && |mainEngine.calls.sent| <= |old(mainEngine.calls.sent)| + 1
        && mainEngine.calls.cancels == old(mainEngine.calls.cancels)
        && mainEngine.calls.subscribes == old(mainEngine.calls.subscribes)
        && mainEngine.calls.connects == old(mainEngine.calls.connects)
        && mainEngine.calls.emails == old(mainEngine.calls.emails)
    {
      && mainEngine.state == old(mainEngine.state)
      && (vtSymbol == "" ==> r == Raised(TypeError) && mainEngine.calls == old(mainEngine.calls))
      && (vtSymbol != "" && Get(old(mainEngine.state.contracts), vtSymbol).None? ==>
            r == Ok("") && mainEngine.calls == old(mainEngine.calls))
      && (vtSymbol != "" && Get(old(mainEngine.state.contracts), vtSymbol).Some? ==>
            var c := Get(old(mainEngine.state.contracts), vtSymbol).value;
            var vtOrderId := mainEngine.orderIdFor(|old(mainEngine.calls.sent)|);
            && mainEngine.calls == old(mainEngine.calls).(sent := old(mainEngine.calls.sent)
                 + [SentOrder(OrderRequestFor(c, direction, offset, orderType, price, volume), c.gatewayName, vtOrderId)])
            && r == Ok(vtOrderId))
    }

    method SendOrder(vtSymbol: string, price: real, volume: real, direction: Direction,
                     offset: Offset, orderType: OrderType) returns (r: Outcome<string>)
      modifies mainEngine
      ensures OrderPlaced(vtSymbol, price, volume, direction, offset, orderType, r)
    {
      var contract := GetContract(vtSymbol);
      if contract.Raised? {
        return Raised(contract.error);
      }
      if contract.value == Raw(Null) {
        return Ok("");
      }
      var c := contract.value.data.rec;
      var vtOrderId := mainEngine.SendOrder(
        OrderRequestFor(c, direction, offset, orderType, price, volume), c.gatewayName);
      return Ok(vtOrderId);
    }

    /** Opens a long position: `send_order` with (LONG, OPEN). */
    method Buy(vtSymbol: string, price: real, volume: real, orderType: OrderType := Limit)
      returns (r: Outcome<string>)
      modifies mainEngine
      ensures OrderPlaced(vtSymbol, price, volume, Long, Open, orderType, r)
    {
      r := SendOrder(vtSymbol, price, volume, Long, Open, orderType);
    }

    /** Closes a long position: `send_order` with (SHORT, CLOSE). */
    method Sell(vtSymbol: string, price: real, volume: real, orderType: OrderType := Limit)
      returns (r: Outcome<string>)
      modifies mainEngine
      ensures OrderPlaced(vtSymbol, price, volume, Direction.Short, Close, orderType, r)
    {
      r := SendOrder(vtSymbol, price, volume, Direction.Short, Close, orderType);
    }

    /** Opens a short position: `send_order` with (SHORT, OPEN). */
    method Short(vtSymbol: string, price: real, volume: real, orderType: OrderType := Limit)
      returns (r: Outcome<string>)
      modifies mainEngine
      ensures OrderPlaced(vtSymbol, price, volume, Direction.Short, Open, orderType, r)
    {
      r := SendOrder(vtSymbol, price, volume, Direction.Short, Open, orderType);
    }

    /** Closes a short position: `send_order` with (LONG, CLOSE). */
    method Cover(vtSymbol: string, price: real, volume: real, orderType: OrderType := Limit)
      returns (r: Outcome<string>)
      modifies mainEngine
      ensures OrderPlaced(vtSymbol, price, volume, Long, Close, orderType, r)
    {
      r := SendOrder(vtSymbol, price, volume, Long, Close, orderType);
    }

    /** Subscribes every symbol the host has a contract for, in input
        order, each on its contract's gateway; the rest are skipped. */
    method Subscribe(vtSymbols: seq<string>)
      modifies mainEngine
      ensures mainEngine.state == old(mainEngine.state)
      ensures mainEngine.calls == old(mainEngine.calls).(subscribes :=
        old(mainEngine.calls.subscribes) + SubscribeRequests(old(mainEngine.state.contracts), vtSymbols))
    {
      for i := 0 to |vtSymbols|
        invariant mainEngine.state == old(mainEngine.state)
        invariant mainEngine.calls == old(mainEngine.calls).(subscribes :=
          old(mainEngine.calls.subscribes) + SubscribeRequests(mainEngine.state.contracts, vtSymbols[..i]))
      {
        assert vtSymbols[..i + 1][..i] == vtSymbols[..i];
        var contract := Get(mainEngine.state.contracts, vtSymbols[i]);
        if contract.Some? {
          var c := contract.value;
          mainEngine.Subscribe(SubscribeRequest(c.symbol, c.exchange), c.gatewayName);
        }
      }
      assert vtSymbols[..|vtSymbols|] == vtSymbols;
    }

    /** Cancels a known order on its gateway; an unknown id is ignored. The
        empty id raises in the order lookup. */
    method CancelOrder(vtOrderId: string) returns (r: Outcome<()>)
      modifies mainEngine
      ensures mainEngine.state == old(mainEngine.state)
      ensures vtOrderId == "" ==> r == Raised(TypeError) && mainEngine.calls == old(mainEngine.calls)
      ensures vtOrderId != "" && Get(old(mainEngine.state.orders), vtOrderId).None? ==>
        r == Ok(()) && mainEngine.calls == old(mainEngine.calls)
      ensures vtOrderId != "" && Get(old(mainEngine.state.orders), vtOrderId).Some? ==>
        var o := Get(old(mainEngine.state.orders), vtOrderId).value;
        && r == Ok(())
        && mainEngine.calls == old(mainEngine.calls).(cancels :=
             old(mainEngine.calls.cancels) + [Routed(CancelRequest(o.orderid, o.symbol, o.exchange), o.gatewayName)])
    {
      var order := GetOrder(vtOrderId);
      if order.Raised? {
        return Raised(order.error);
      }
      if order.value == Raw(Null) {
        return Ok(());
      }
      var o := order.value.data.rec;
      mainEngine.CancelOrder(o.CreateCancelRequest(), o.gatewayName);
      return Ok(());
    }

    function GetTick(vtSymbol: string, useDf: bool := false): (r: Outcome<Answer<TickData>>)
      reads mainEngine
      ensures vtSymbol == "" ==> r == Raised(TypeError)
      ensures vtSymbol != "" ==> r == Ok(Shape(Found(Get(mainEngine.state.ticks, vtSymbol)), useDf, TickRow))
    {
      GetData(KeyLookup(mainEngine.state.ticks), ArgStr(vtSymbol), useDf, TickRow)
    }

    /** One slot per symbol, in input order, None where the host has no
        tick; as a table of the ticks found with `use_df`. */
    method GetTicks(vtSymbols: seq<string>, useDf: bool := false) returns (r: Answer<TickData>)
      ensures !useDf ==> r.Raw? && r.data.List? && r.data.items == LookupAll(mainEngine.state.ticks, vtSymbols)
      ensures useDf ==> r == ToDf(LookupAll(mainEngine.state.ticks, vtSymbols), TickRow)
    {
      var ticks: seq<Option<TickData>> := [];
      for i := 0 to |vtSymbols|
        invariant ticks == LookupAll(mainEngine.state.ticks, vtSymbols[..i])
      {
        assert vtSymbols[..i + 1][..i] == vtSymbols[..i];
        var tick := Get(mainEngine.state.ticks, vtSymbols[i]);
        ticks := ticks + [tick];
      }
      assert vtSymbols[..|vtSymbols|] == vtSymbols;
      if !useDf {
        return Raw(List(ticks));
      } else {
        return ToDf(ticks, TickRow);
      }
    }

    function GetOrder(vtOrderId: string, useDf: bool := false): (r: Outcome<Answer<OrderData>>)
      reads mainEngine
      ensures vtOrderId == "" ==> r == Raised(TypeError)
      ensures vtOrderId != "" ==> r == Ok(Shape(Found(Get(mainEngine.state.orders, vtOrderId)), useDf, OrderRow))
    {
      GetData(KeyLookup(mainEngine.state.orders), ArgStr(vtOrderId), useDf, OrderRow)
    }

    /** One slot per order id, in input order, None where the host has no
        such order; as a table of the orders found with `use_df`. */
    method GetOrders(vtOrderIds: seq<string>, useDf: bool := false) returns (r: Answer<OrderData>)
      ensures !useDf ==> r.Raw? && r.data.List? && r.data.items == LookupAll(mainEngine.state.orders, vtOrderIds)
      ensures useDf ==> r == ToDf(LookupAll(mainEngine.state.orders, vtOrderIds), OrderRow)
    {
      var orders: seq<Option<OrderData>> := [];
      for i := 0 to |vtOrderIds|
        invariant orders == LookupAll(mainEngine.state.orders, vtOrderIds[..i])
      {
        assert vtOrderIds[..i + 1][..i] == vtOrderIds[..i];
        var order := Get(mainEngine.state.orders, vtOrderIds[i]);
        orders := orders + [order];
      }
      assert vtOrderIds[..|vtOrderIds|] == vtOrderIds;
      if !useDf {
        return Raw(List(orders));
      } else {
        return ToDf(orders, OrderRow);
      }
    }

    /** The trades of one order, in the host's order. */
    method GetTrades(vtOrderId: string, useDf: bool := false) returns (r: Answer<TradeData>)
      ensures !useDf ==>
        r.Raw? && r.data.List? && r.data.items == Somes(TradesOf(Values(mainEngine.state.trades), vtOrderId))
      ensures useDf ==> r == ToDf(Somes(TradesOf(Values(mainEngine.state.trades), vtOrderId)), TradeRow)
    {
      var trades: seq<TradeData> := [];
      var allTrades := Values(mainEngine.state.trades);
      for i := 0 to |allTrades|
        invariant trades == TradesOf(allTrades[..i], vtOrderId)
      {
        assert allTrades[..i + 1][..i] == allTrades[..i];
        var trade := allTrades[i];
        if trade.VtOrderId() == vtOrderId {
          trades := trades + [trade];
        }
      }
      assert allTrades[..|allTrades|] == allTrades;
      if !useDf {
        return Raw(List(Somes(trades)));
      } else {
        return ToDf(Somes(trades), TradeRow);
      }
    }

    function GetAllActiveOrders(useDf: bool := false): (r: Outcome<Answer<OrderData>>)
      reads mainEngine
      ensures r == Ok(Shape(List(Somes(Values(mainEngine.state.activeOrders))), useDf, OrderRow))
    {
      GetData(Listing(mainEngine.state.activeOrders), ArgNone, useDf, OrderRow)
    }

    function GetContract(vtSymbol: string, useDf: bool := false): (r: Outcome<Answer<ContractData>>)
      reads mainEngine
      ensures vtSymbol == "" ==> r == Raised(TypeError)
      ensures vtSymbol != "" ==> r == Ok(Shape(Found(Get(mainEngine.state.contracts, vtSymbol)), useDf, ContractRow))
    {
      GetData(KeyLookup(mainEngine.state.contracts), ArgStr(vtSymbol), useDf, ContractRow)
    }

    function GetAllContracts(useDf: bool := false): (r: Outcome<Answer<ContractData>>)
      reads mainEngine
      ensures r == Ok(Shape(List(Somes(Values(mainEngine.state.contracts))), useDf, ContractRow))
    {
      GetData(Listing(mainEngine.state.contracts), ArgNone, useDf, ContractRow)
    }

    function GetAccount(vtAccountId: string, useDf: bool := false): (r: Outcome<Answer<AccountData>>)
      reads mainEngine
      ensures vtAccountId == "" ==> r == Raised(TypeError)
      ensures vtAccountId != "" ==>
        r == Ok(Shape(Found(Get(mainEngine.state.accounts, vtAccountId)), useDf, AccountRow))
    {
      GetData(KeyLookup(mainEngine.state.accounts), ArgStr(vtAccountId), useDf, AccountRow)
    }

    function GetAllAccounts(useDf: bool := false): (r: Outcome<Answer<AccountData>>)
      reads mainEngine
      ensures r == Ok(Shape(List(Somes(Values(mainEngine.state.accounts))), useDf, AccountRow))
    {
      GetData(Listing(mainEngine.state.accounts), ArgNone, useDf, AccountRow)
    }

    function GetPosition(vtPositionId: string, useDf: bool := false): (r: Outcome<Answer<PositionData>>)
      reads mainEngine
      ensures vtPositionId == "" ==> r == Raised(TypeError)
      ensures vtPositionId != "" ==>
        r == Ok(Shape(Found(Get(mainEngine.state.positions, vtPositionId)), useDf, PositionRow))
    {
      GetData(KeyLookup(mainEngine.state.positions), ArgStr(vtPositionId), useDf, PositionRow)
    }

    /** `get_position_`: the position of a contract in one direction. An
        unknown contract gives None; the id built for a known one is never
        empty, so this lookup never raises. */
    function GetPositionFor(vtSymbol: string, direction: Direction, useDf: bool := false)
      : (r: Outcome<Answer<PositionData>>)
      reads mainEngine
      ensures Get(mainEngine.state.contracts, vtSymbol).None? ==> r == Ok(Raw(Null))
      ensures Get(mainEngine.state.contracts, vtSymbol).Some? ==>
        var c := Get(mainEngine.state.contracts, vtSymbol).value;
        r == Ok(Shape(Found(Get(mainEngine.state.positions, PositionId(c, direction))), useDf, PositionRow))
    {
      match Get(mainEngine.state.contracts, vtSymbol)
      case None => Ok(Raw(Null))
      case Some(contract) =>
        GetData(KeyLookup(mainEngine.state.positions), ArgStr(PositionId(contract, direction)), useDf, PositionRow)
    }

    function GetAllPositions(useDf: bool := false): (r: Outcome<Answer<PositionData>>)
      reads mainEngine
      ensures r == Ok(Shape(List(Somes(Values(mainEngine.state.positions))), useDf, PositionRow))
    {
      GetData(Listing(mainEngine.state.positions), ArgNone, useDf, PositionRow)
    }

    /** Bar history of a contract from `startDate` to the clock reading
        `now`: an empty list for an unknown contract (even with `use_df`),
        otherwise what the data feed returns for the query. */
    function GetBars(vtSymbol: string, startDate: string, interval: Interval, now: int, useDf: bool := false)
      : (r: Outcome<Answer<BarData>>)
      reads mainEngine
      ensures Get(mainEngine.state.contracts, vtSymbol).None? ==> r == Ok(Raw(List([])))
      ensures Get(mainEngine.state.contracts, vtSymbol).Some? ==>
        var c := Get(mainEngine.state.contracts, vtSymbol).value;
        r == Ok(Shape(datafeed.history(HistoryRequest(c.symbol, c.exchange, startDate, now, interval)), useDf, BarRow))
    {
      match Get(mainEngine.state.contracts, vtSymbol)
      case None => Ok(Raw(List([])))
      case Some(contract) =>
        var req := HistoryRequest(contract.symbol, contract.exchange, startDate, now, interval);
        GetData(HistoryQuery(datafeed), ArgRequest(req), useDf, BarRow)
    }

    /** Emits one log line tagged with the engine's name. */
    method WriteLog(msg: string)
      modifies this`logs
      ensures logs == old(logs) + [LogData(msg, AppName)]
    {
      logs := logs + [LogData(msg, AppName)];
    }

    method SendEmail(msg: string)
      modifies mainEngine
      ensures mainEngine.state == old(mainEngine.state)
      ensures mainEngine.calls
        == old(mainEngine.calls).(emails := old(mainEngine.calls.emails) + [Email(EmailSubject, msg)])
    {
      mainEngine.SendEmail(EmailSubject, msg);
    }
  }

  /** Starting twice and stopping twice: one worker is started and joined,
      one start and one stop message are logged. */
  method StartTwiceStopTwice(engine: ScriptEngine, first: string, second: string)
    requires engine.Exclusive() && !engine.strategyActive
    modifies engine
    ensures engine.Exclusive() && !engine.strategyActive && engine.strategyThread == None
    ensures engine.threadEvents == old(engine.threadEvents) + [Started(Thread(first)), Joined(Thread(first))]
    ensures engine.logs == old(engine.logs) + [LogData(StartMessage, AppName), LogData(StopMessage, AppName)]
  {
    engine.StartStrategy(first);
    engine.StartStrategy(second);
    var _ := engine.StopStrategy();
    var _ := engine.StopStrategy();
  }

  /** A script that crashes leaves one crash report in the log and its run
      slot occupied, with the thread handle still held, until a stop. */
  method CrashKeepsSlotOccupied(engine: ScriptEngine, scriptPath: string, trace: string)
    requires engine.Exclusive() && !engine.strategyActive
    requires ModuleName(scriptPath).Some?
    modifies engine
    ensures engine.Exclusive() && engine.strategyActive
    ensures engine.strategyThread == Some(Thread(scriptPath))
    ensures engine.logs == old(engine.logs)
      + [LogData(StartMessage, AppName), LogData(CrashPrefix + trace, AppName)]
  {
    engine.StartStrategy(scriptPath);
    var _ := engine.RunStrategy(scriptPath, Crashed(trace));
  }

  /** A script that stops itself: the join raises, the script ends with a
      crash report, and no stop message is logged. The slot is free but the
      handle is still held and its worker never joined, so the one-worker
      invariant no longer holds. */
  method SelfStopLogsCrash(engine: ScriptEngine, scriptPath: string, trace: string)
    requires engine.Exclusive() && !engine.strategyActive
    requires ModuleName(scriptPath).Some?
    modifies engine
    ensures engine.Valid() && !engine.Exclusive()
    ensures !engine.strategyActive && engine.strategyThread == Some(Thread(scriptPath))
    ensures engine.threadEvents == old(engine.threadEvents) + [Started(Thread(scriptPath))]
    ensures engine.logs == old(engine.logs)
      + [LogData(StartMessage, AppName), LogData(CrashPrefix + trace, AppName)]
  {
    engine.StartStrategy(scriptPath);
    var stopped := engine.StopStrategy(callerIsWorker := true);
    assert stopped == Raised(RuntimeError);
    var _ := engine.RunStrategy(scriptPath, Crashed(trace));
  }

  /** Starting again after a script stopped itself starts a second worker
      while the first is still unjoined. */
  method RestartAfterSelfStop(engine: ScriptEngine, first: string, second: string, trace: string)
    requires engine.Exclusive() && !engine.strategyActive
    requires ModuleName(first).Some?
    modifies engine
    ensures engine.Valid() && engine.strategyActive
    ensures engine.strategyThread == Some(Thread(second))
    ensures UnjoinedThreads(engine.threadEvents) == 2
  {
    SelfStopLogsCrash(engine, first, trace);
    engine.StartStrategy(second);
    UnjoinedThreadsAppend(old(engine.threadEvents), Started(Thread(first)));
    UnjoinedThreadsAppend(old(engine.threadEvents) + [Started(Thread(first))], Started(Thread(second)));
  }
}
