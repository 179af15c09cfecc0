# ScriptTrader script engine, modelled in Dafny

This project models `ScriptEngine` from `vnpy_scripttrader/engine.py`. The
engine is the facade that a user-written trading script drives. It has three
parts:

- **Run slot.** `start_strategy`, `run_strategy` and `stop_strategy` run a
  script on a worker thread, at most one at a time unless a script stops
  itself.
- **Trading facade.** Orders, cancels, subscriptions and queries are
  forwarded to the host `MainEngine`.
- **Data accessor.** `get_data` and `to_df` hand results back either as
  records or as a table.

The host is reduced to what the engine can see:

- `Host.MainEngine.state` holds the host tables (contracts, orders, active
  orders, ticks, positions, accounts, trades). Each Python dict is kept as
  its items in insertion order. `Host.KeysDistinct` states that no key is
  filed twice. The engine's contracts do not assume it.
- `Host.MainEngine.calls` records the calls that change something in the
  host. These are order requests (with the id the host answered), cancels,
  subscriptions, gateway connections and e-mails. Each kind is kept in its
  own sequence, oldest first. The order between calls of different kinds is
  not kept. Lookups (`get_contract`, `get_tick`, `get_all_trades`, ...) read
  `state` and are not recorded.
- The data feed is a value: whether `init()` succeeds, and the bars it
  returns for each history query.
- The worker thread is a handle that is either present or absent. Starting
  and joining are recorded as thread events.
- A script run is an outcome: it finishes, or it crashes with a traceback
  text.

Files:

- `python.dfy`: Python helpers. Options, exceptions, `str.replace(p, "")`,
  and the parts of a POSIX path.
- `trader.dfy`: the platform records and enums, and a table row for each
  record. A row holds only the attributes the model keeps, not the whole
  `__dict__` (see "Left out").
- `accessor.dfy`: `get_data` and `to_df`.
- `host.dfy`: the host boundary.
- `engine_spec.dfy`: the reference definitions the engine's loops are proved
  against, with lemmas about them.
- `engine.dfy`: the `ScriptEngine` class.

## Behaviour worth knowing

- **Empty keys.** `get_data` routes a falsy `arg` to the zero-argument
  call (`if not arg`, engine.py:322). So `""` is treated like no key at all
  (`Accessor.EmptyKeyActsAsNoKey`). The host's single-key lookups take one
  positional argument, so called with none they raise TypeError. That
  exception reaches the script from `get_tick("")`, `get_order("")`,
  `get_contract("")`, `get_account("")` and `get_position("")`. It also
  reaches it from `send_order("")` and `cancel_order("")`, because those
  resolve through `get_contract` and `get_order`. The model states this in
  each member's contract. `subscribe`, `get_position_` and `get_bars` call
  the host's `get_contract` directly, so for them `""` is only an unknown
  symbol.
- **Empty tables.** `to_df` on a non-empty list whose elements are all None
  gives a table with no rows, not None (`Accessor.AllAbsentIsEmptyTable`).
- **Crashed scripts.** A crashed script is logged once and keeps its run
  slot until `stop_strategy` (`Engine.CrashKeepsSlotOccupied`). A crash
  does not free the slot.
- **A script that stops itself.** The script is handed the engine
  (engine.py:80), so it can call `stop_strategy` from its own thread. That
  clears the slot (engine.py:89), and the `join` at engine.py:92 then raises
  RuntimeError, because a thread cannot join itself. The handle is kept and
  no stop message is logged. The exception ends the script, which is logged
  as a crash (`Engine.SelfStopLogsCrash`). A later `start_strategy` then
  starts a second worker while the first was never joined
  (`Engine.RestartAfterSelfStop`). So the one-worker invariant
  (`Engine.ScriptEngine.Exclusive`) holds until a script stops itself. The
  weaker `Engine.ScriptEngine.Valid` always holds.

## Model

| member | source | states |
|---|---|---|
| Engine.ScriptEngine.constructor | vnpy_scripttrader/engine.py:42-49 | a new engine is idle: no thread handle, nothing logged |
| Engine.ScriptEngine.Init | vnpy_scripttrader/engine.py:51-55 | one "data service ready" log line exactly when the data feed initialises |
| Engine.ScriptEngine.Valid | vnpy_scripttrader/engine.py:57-95 | what holds in every reachable state. An occupied slot holds a handle, and a held handle is the last worker started, which is not yet joined |
| Engine.ScriptEngine.Exclusive | vnpy_scripttrader/engine.py:57-95 | the one-worker invariant. The slot is occupied exactly when a handle is held, and at most one worker is unjoined. It holds until a script stops itself |
| EngineSpec.UnjoinedThreads | vnpy_scripttrader/engine.py:63-65 | counts workers started and not yet joined; a finished or crashed worker still counts. Never more than the events recorded |
| Engine.ScriptEngine.StartStrategy | vnpy_scripttrader/engine.py:57-67 | if a script is already running, nothing changes. Otherwise the slot becomes active, the handle of one new worker for the path is stored, and exactly one start message is logged. Both invariants are kept |
| Engine.ScriptEngine.RunStrategy | vnpy_scripttrader/engine.py:69-83 | the module imported is the last path part with every ".py" deleted. A crash appends exactly one log line, the crash prefix followed by the trace. An empty path raises IndexError before anything is imported or logged. The slot and the handle are never touched |
| Engine.ScriptEngine.StopStrategy | vnpy_scripttrader/engine.py:85-95 | idle: nothing changes. Running, called from outside the worker: the worker is joined, the slot becomes inactive, the handle is dropped, and exactly one stop message is logged. Called from the worker itself: the join raises RuntimeError after the slot is cleared, the handle stays, nothing is joined or logged |
| Engine.StartTwiceStopTwice | vnpy_scripttrader/engine.py:57-95 | start, start, stop, stop starts and joins exactly one worker and logs one start and one stop |
| Engine.CrashKeepsSlotOccupied | vnpy_scripttrader/engine.py:57-83 | after a start and a crashed run, the slot is still active and the handle is still held |
| Engine.SelfStopLogsCrash | vnpy_scripttrader/engine.py:80-92 | a script that stops itself ends with one crash report and no stop message. The slot is free but the handle is still held, and the one-worker invariant is broken |
| Engine.RestartAfterSelfStop | vnpy_scripttrader/engine.py:57-92 | starting again after a self-stop leaves two workers unjoined |
| EngineSpec.UnjoinedThreadsAppend | vnpy_scripttrader/engine.py:63-65 | each start adds one unjoined worker and each join removes one |
| Engine.ScriptEngine.ConnectGateway | vnpy_scripttrader/engine.py:97-99 | exactly one connect call to the host, with the given setting and gateway |
| EngineSpec.OrderRequestFor | vnpy_scripttrader/engine.py:115-124 | the request carries the resolved contract's symbol and exchange, the given direction, order type, volume, price and offset, and the reference "ScriptTrader" |
| Engine.ScriptEngine.OrderPlaced | vnpy_scripttrader/engine.py:101-127 | the promise `send_order` makes. At most one order request reaches the host, and no cancel, subscription, connection or e-mail is issued |
| Engine.ScriptEngine.SendOrder | vnpy_scripttrader/engine.py:101-127 | an empty symbol raises TypeError with no host call. An unknown contract returns "" with no host call. A known contract sends exactly one request to its gateway and returns the host's id unchanged. The request carries the contract's symbol and exchange, the given direction, offset, type, price and volume, and the reference "ScriptTrader". Host tables are unchanged |
| Engine.ScriptEngine.Buy | vnpy_scripttrader/engine.py:140-148 | exactly `send_order` with (LONG, OPEN); the order type defaults to LIMIT |
| Engine.ScriptEngine.Sell | vnpy_scripttrader/engine.py:150-158 | exactly `send_order` with (SHORT, CLOSE); the order type defaults to LIMIT |
| Engine.ScriptEngine.Short | vnpy_scripttrader/engine.py:160-168 | exactly `send_order` with (SHORT, OPEN); the order type defaults to LIMIT |
| Engine.ScriptEngine.Cover | vnpy_scripttrader/engine.py:170-178 | exactly `send_order` with (LONG, CLOSE); the order type defaults to LIMIT |
| EngineSpec.PositionIdSeparatesDirections | vnpy_scripttrader/engine.py:265 | two directions of one contract never share a position id |
| Engine.ScriptEngine.Subscribe | vnpy_scripttrader/engine.py:129-138 | the subscriptions appended are exactly `SubscribeRequests` of the symbols, one per resolvable symbol in input order, each on its contract's gateway. Host tables are unchanged |
| EngineSpec.SubscribeRequestsAtMostOnePerSymbol | vnpy_scripttrader/engine.py:131-138 | never more subscriptions than symbols |
| EngineSpec.SubscribeRequestsAllKnown | vnpy_scripttrader/engine.py:131-138 | when every symbol resolves, the k-th subscription is for the k-th symbol's contract |
| EngineSpec.SubscribeFor | vnpy_scripttrader/engine.py:134-138 | a subscription is for the contract's symbol and exchange, on the contract's gateway |
| EngineSpec.SubscribeRequests | vnpy_scripttrader/engine.py:131-138 | every subscription issued is for the contract of some input symbol that resolves, on that contract's gateway |
| EngineSpec.SubscribeRequestsAppend | vnpy_scripttrader/engine.py:131-138 | subscribing a concatenation of symbol lists subscribes each list in turn, so mixed known and unknown symbols are handled one by one |
| EngineSpec.SubscribeRequestsNoneKnown | vnpy_scripttrader/engine.py:131-138 | unresolvable symbols are skipped silently: none resolving means no subscription |
| Engine.ScriptEngine.CancelOrder | vnpy_scripttrader/engine.py:180-187 | an empty id raises TypeError with no cancel. An unknown id issues no cancel. A known order gets exactly one cancel request (its orderid, symbol and exchange) on its own gateway |
| Engine.ScriptEngine.GetTick | vnpy_scripttrader/engine.py:189-191 | an empty symbol raises TypeError. Otherwise the host's tick or None, shaped by `use_df` |
| Engine.ScriptEngine.GetTicks | vnpy_scripttrader/engine.py:193-203 | one slot per symbol, in input order, holding the host's tick or None. With `use_df`, `to_df` of those slots |
| EngineSpec.LookupAll | vnpy_scripttrader/engine.py:195-198 | exactly as many slots as keys, and slot k is the host's entry for key k or None |
| Engine.ScriptEngine.GetOrder | vnpy_scripttrader/engine.py:205-207 | an empty id raises TypeError. Otherwise the host's order or None, shaped by `use_df` |
| Engine.ScriptEngine.GetOrders | vnpy_scripttrader/engine.py:209-219 | one slot per order id, in input order, holding the host's order or None. With `use_df`, `to_df` of those slots |
| Engine.ScriptEngine.GetTrades | vnpy_scripttrader/engine.py:221-233 | the trades whose `vt_orderid` equals the argument, in the host's order. With `use_df`, `to_df` of them |
| Trader.TradeData.VtOrderId | vnpy_scripttrader/engine.py:227 | a trade's order id is its gateway, ".", then its order id |
| EngineSpec.TradesOfKeepsExactlyMatches | vnpy_scripttrader/engine.py:226-228 | a trade is kept if and only if it is in the list and belongs to the order |
| EngineSpec.TradesOf | vnpy_scripttrader/engine.py:223-228 | never more trades than the host lists, and every trade kept belongs to the order |
| EngineSpec.TradesOfAppend | vnpy_scripttrader/engine.py:226-228 | the filter keeps the original order: filtering a concatenation concatenates the filtered parts |
| Engine.ScriptEngine.GetAllActiveOrders | vnpy_scripttrader/engine.py:235-237 | the zero-argument call: all active orders in host order, shaped by `use_df` |
| Engine.ScriptEngine.GetContract | vnpy_scripttrader/engine.py:239-241 | an empty symbol raises TypeError. Otherwise the host's contract or None, shaped by `use_df` |
| Engine.ScriptEngine.GetAllContracts | vnpy_scripttrader/engine.py:243-245 | all contracts in host order, shaped by `use_df` |
| Engine.ScriptEngine.GetAccount | vnpy_scripttrader/engine.py:247-249 | an empty id raises TypeError. Otherwise the host's account or None, shaped by `use_df` |
| Engine.ScriptEngine.GetAllAccounts | vnpy_scripttrader/engine.py:251-253 | all accounts in host order, shaped by `use_df` |
| Engine.ScriptEngine.GetPosition | vnpy_scripttrader/engine.py:255-257 | an empty id raises TypeError. Otherwise the host's position or None, shaped by `use_df` |
| Engine.ScriptEngine.GetPositionFor | vnpy_scripttrader/engine.py:259-266 | an unknown contract gives None. A known one looks up `gateway.vt_symbol.direction` and never raises |
| EngineSpec.PositionId | vnpy_scripttrader/engine.py:265 | the id is non-empty, so it always reaches the one-argument lookup, and it ends in the direction's value |
| EngineSpec.PositionIdIsHostKey | vnpy_scripttrader/engine.py:265 | the id built is the key the host files that contract's position under in that direction |
| Trader.DirectionValue | vnpy_scripttrader/engine.py:265 | each direction's value is a single character |
| Engine.ScriptEngine.GetAllPositions | vnpy_scripttrader/engine.py:268-270 | all positions in host order, shaped by `use_df` |
| Engine.ScriptEngine.GetBars | vnpy_scripttrader/engine.py:272-295 | an unknown contract gives an empty list, even with `use_df`. A known one gives the feed's bars for the contract's symbol and exchange, from the start date to the clock reading, shaped by `use_df` |
| Engine.ScriptEngine.WriteLog | vnpy_scripttrader/engine.py:297-303 | exactly one log line, tagged "ScriptTrader", is appended |
| Engine.ScriptEngine.SendEmail | vnpy_scripttrader/engine.py:305-308 | exactly one e-mail to the host, with the engine's fixed subject |
| Host.MainEngine.SendOrder | vnpy_scripttrader/engine.py:126 | the host records the request with its gateway and answers with its next order id; its tables are unchanged |
| Host.MainEngine.CancelOrder | vnpy_scripttrader/engine.py:187 | the host records the cancel with its gateway |
| Host.MainEngine.Subscribe | vnpy_scripttrader/engine.py:138 | the host records the subscription with its gateway |
| Host.MainEngine.Connect | vnpy_scripttrader/engine.py:99 | the host records the connection with its setting and gateway; its tables are unchanged |
| Host.MainEngine.SendEmail | vnpy_scripttrader/engine.py:308 | the host records the e-mail with its subject and content; its tables are unchanged |
| Trader.OrderData.CreateCancelRequest | vnpy_scripttrader/engine.py:186 | the cancel names the order's own order id, symbol and exchange |
| Host.Values | vnpy_scripttrader/engine.py:224 | a listing gives one value per entry, in table order |
| Host.Get | vnpy_scripttrader/engine.py:132 | a lookup gives a value filed under the key, or None only when no entry has that key |
| Host.GetFindsEveryEntry | vnpy_scripttrader/engine.py:132 | when keys are distinct, every listed entry is found by looking up its key, so lookups and listings agree |
| Host.KeyLookup | vnpy_scripttrader/engine.py:191 | a host lookup by key raises TypeError when called with no argument. Called with a string key it never raises, and it gives None exactly when the key is not filed |
| Host.Listing | vnpy_scripttrader/engine.py:237 | a host listing called with no argument gives every value of its table, in table order, none of them None. The model assumes that a call with an argument raises TypeError; the engine never makes one |
| Host.HistoryQuery | vnpy_scripttrader/engine.py:295 | the feed's history query gives the feed's bars for a query object. Called without one it raises TypeError |
| Accessor.ToDf | vnpy_scripttrader/engine.py:311-317 | None exactly for an empty list. A non-empty list always gives a table, whose rows come from the elements that are not None |
| Accessor.Rows | vnpy_scripttrader/engine.py:316 | never more rows than elements. One row per element only when no element is None |
| Accessor.Truthy | vnpy_scripttrader/engine.py:322 | an argument is falsy exactly when it is None or "" |
| Accessor.RowsAppend | vnpy_scripttrader/engine.py:316 | rows of a concatenation are the rows of each part, in order |
| Trader.ContractRow | vnpy_scripttrader/engine.py:316 | a contract's row carries its gateway, its vt_symbol and its size |
| Trader.TickRow | vnpy_scripttrader/engine.py:316 | a tick's row carries its gateway, its vt_symbol and its last price |
| Trader.OrderRow | vnpy_scripttrader/engine.py:316 | an order's row carries its gateway, its vt_orderid and its status |
| Trader.TradeRow | vnpy_scripttrader/engine.py:316 | a trade's row carries its gateway, the vt_orderid of its order and its vt_tradeid |
| Trader.PositionRow | vnpy_scripttrader/engine.py:316 | a position's row carries its gateway, its vt_positionid and its direction |
| Trader.AccountRow | vnpy_scripttrader/engine.py:316 | an account's row carries its gateway, its vt_accountid and its available funds, balance minus frozen |
| Trader.BarRow | vnpy_scripttrader/engine.py:316 | a bar's row carries its gateway, its vt_symbol and its interval |
| Accessor.RowsOfRecords | vnpy_scripttrader/engine.py:316 | a list of records gives exactly one row per record, in list order |
| Accessor.RowsOfAbsent | vnpy_scripttrader/engine.py:316 | None elements give no row |
| Accessor.AllAbsentIsEmptyTable | vnpy_scripttrader/engine.py:311-317 | a non-empty list of Nones gives a zero-row table, not None |
| Accessor.CallFor | vnpy_scripttrader/engine.py:322-325 | the zero-argument call exactly when `arg` is falsy (None or ""); otherwise `arg` itself is passed |
| Accessor.Shape | vnpy_scripttrader/engine.py:327-334 | without `use_df` the data is untouched. With it, None stays None (and only None or an empty list give None), one record becomes a one-row table, and a list goes to `to_df` |
| Accessor.GetData | vnpy_scripttrader/engine.py:320-334 | with a truthy `arg` the result is the one-argument call's result, shaped; with a falsy one it is the zero-argument call's. An exception from the call propagates |
| Accessor.EmptyKeyActsAsNoKey | vnpy_scripttrader/engine.py:322 | `arg=""` behaves exactly as no `arg` |
| Python.DeleteAllShortens | vnpy_scripttrader/engine.py:75 | deleting ".py" never lengthens the name |
| Python.DeleteAllWithoutOccurrence | vnpy_scripttrader/engine.py:75 | a name without ".py" is imported under that name unchanged |
| Python.DeleteAllTrailingPy | vnpy_scripttrader/engine.py:75 | deleting ".py" from `stem.py` gives the stem with its own ".py"s deleted |
| Python.Split | vnpy_scripttrader/engine.py:71-74 | splitting a path gives at least one piece, and no piece holds a separator |
| Python.SplitAtSeparator | vnpy_scripttrader/engine.py:71-74 | splitting `x/y` splits `x` and `y` independently |
| Python.SplitPiece | vnpy_scripttrader/engine.py:71-74 | a name without a separator is a single piece |
| Python.Components | vnpy_scripttrader/engine.py:71-74 | path parts are never empty and never "." |
| Python.ComponentsAppend | vnpy_scripttrader/engine.py:71-74 | parts of joined piece lists are the joined parts |
| Python.LastComponentIsName | vnpy_scripttrader/engine.py:74 | the script name of `dir/name` is `name`, whatever the directory |
| Python.ModuleNameOfScript | vnpy_scripttrader/engine.py:74-75 | `dir/stem.py` is imported as `stem` with every ".py" in it deleted too |
| Python.ModuleNameOfDemo | vnpy_scripttrader/engine.py:74-75 | `strategies/demo.py` is imported as `demo` |
| Python.ModuleNameOfDottedStem | vnpy_scripttrader/engine.py:74-75 | `scripts/my.pyth.py` is imported as `myth`, so this is not only a suffix strip |
| Python.DeleteAll | vnpy_scripttrader/engine.py:75 | `str.replace(".py", "")` only deletes: every character of the result comes from the input |
| Python.PathParts | vnpy_scripttrader/engine.py:71-74 | no part is empty, and the first part is the root "/" exactly when the path is absolute |
| Python.ScriptName | vnpy_scripttrader/engine.py:74 | there is a last part exactly when the path has parts. That part is non-empty and is one of them |
| Python.ModuleName | vnpy_scripttrader/engine.py:74-75 | a module name exists exactly when a script name does. It is never longer than the script name and uses only its characters |
| Python.EmptyPathHasNoScriptName | vnpy_scripttrader/engine.py:74 | an empty path has no last part |

## Left out

- Real threads: `Thread.start` and the blocking `join`. The worker is a handle that is present or absent. `run_strategy` is a separate step that the model does not tie to a start: it may be taken in any state, any number of times. The join is a recorded completion step. Cooperative stopping (a script polling `strategy_active`) is not modelled beyond the field itself.
- Module loading: `sys.path.append` and `importlib.import_module` / `reload`. The model records the module name imported. Whether loading and `run` succeed is the `ScriptRun` outcome.
- The script's own actions. A running script calls the facade's operations. Each of those is modelled on its own. `stop_strategy` from the script's own thread is the one case whose outcome depends on the caller, and `StopStrategy`'s `callerIsWorker` flag models it. How the script's calls interleave with calls from other threads is not modelled.
- Paths: only POSIX paths are modelled. A root of exactly two slashes and Windows drive letters and backslashes are not.
- `write_log`: the `print` and the event-bus publish are not modelled. The log line's timestamp is left out. A log line is its message and its source tag.
- Host internals: how the host routes orders, numbers them and fills its tables. The host is the `state` tables plus the `calls` record. Its order ids come from a function of the request count.
- CrashKeepsSlotOccupied: fixes one interleaving, with the crash report logged after the start message. In the source the worker starts (engine.py:65) before the start message is logged (engine.py:67), so a crash report can come first. A worker can also still be running after `stop_strategy` has cleared `strategy_active` (engine.py:89). The model does not capture these other orderings.
- Timestamps: `datetime.now()` is replaced by a clock parameter. The record fields that hold datetimes are left out.
- GetBars: does not model `datetime.strptime` raising ValueError for a malformed start date. Date parsing is left out, and the start date text is passed through as given.
- Prices and volumes: floats are modelled as exact `real` numbers. They are mostly passed through. The one value computed from them is an account row's `available`, which is `balance - frozen`. The platform computes it with floating-point rounding and the model computes it exactly.
- Tables: a pandas DataFrame is modelled as its rows, one field map per record. The column order is not modelled.
- Table rows: each record keeps only some of the platform's attributes, so its row is a subset of `__dict__`. For example, a tick row has no turnover, open interest, price limits or order-book depth. A contract row has no product or minimum volume. No row has the `extra` attribute that every record inherits.
- Host tables: `Host.Dict` can hold a key twice, which no Python dict can. The engine's contracts do not require `Host.KeysDistinct`. On such a table a listing shows every duplicate, while a lookup returns only the first.
- The Qt widget (`ui/widget.py`) and the command-line wiring (`cli.py`). Both only forward to the engine.
