# Design-pattern examples, modelled in Dafny

This project models the core of a collection of small JavaScript programs, each
showing one design pattern, and proves what those programs promise. The
programs are not run: each is restated in Dafny, one module per program,
and the properties the code and its demo scripts rely on are proved about
that restatement.

- **Factories.** The payment-processor table with its fallback
  (`PaymentFactory`) and the enemy factory with `takeDamage` (`EnemyFactory`).
- **Singleton.** The logger whose every `new Logger()` returns one shared
  instance (`SingletonLogger`).
- **Prototype.** Document templates cloned through the prototype chain,
  with reads that walk the chain and writes that shadow (`Prototype`).
- **Decorators.** Pizza decorators, including the `HotSauce` decorator that
  reads a property nobody sets (`PizzaDecorators`); curried pizza toppings
  folded with `reduce` (`PizzaToppings`); order add-ons (`OrderAddOns`).
- **Adapter.** The old user-API record mapped to the new shape (`ApiAdapter`).
- **Composite.** Role tables keyed by name and by role object, the tree
  display with connectors (`RoleTables`, over the generic `RoleGraph`
  collector); immutable roles built by spread copies and the word-count
  `reduce` (`ImmutableRoles`); the directory tree (`FileSystem`); the
  per-user memoisation caches built from nested `Map`s, with a time-bound,
  a size-bounded (LRU) and an MRU variant (`MemoCache`, over `JsMap`, an
  insertion-ordered model of JavaScript's `Map`).
- **Proxy.** The caching data-service proxies, class-based and
  closure-based (`CacheProxy`), and the lazily loaded image (`LazyImage`).
- **Observer.** The event emitter (`EventEmitter`), the stock ticker
  (`StockTicker`) and the weather station (`WeatherStation`).
- **Strategy.** The compression strategies, closure-based and class-based
  (`CompressionClosures`, `CompressionClasses`), and the bubble, merge and
  quick sorts behind a `Sorter` (`Sorting`).
- **Command.** The smart-home remote with undo history (`SmartHome`) and the
  transaction managers that roll back in reverse order (`BankRollback`,
  `TransactionManager`).
- **MVC.** The to-do model, view and controller (`TodoMvc`).

Every `console.log` is modelled as a line (or an event) that the operation
returns. A thrown exception is an error value. The clock (`Date.now`,
`new Date().toISOString()`) and the moment a `setTimeout` fires are
parameters. Objects whose fields the code updates in place are Dafny classes
with `modifies` clauses. Object identity becomes a reference or an explicit
id. `Seqs`, `Strings` and `Wrappers` hold the shared sequence, string and
`Option`/`Result` helpers.

## Model

| member | source | states |
|---|---|---|
| ApiAdapter.Adapt | 10_exercises/04_exercise.js:30-38 | each old field (`user_id`, `user_name`, `user_email`) becomes the new field of the same meaning |
| ApiAdapter.AdaptRoundTrip | 10_exercises/04_exercise.js:30-38 | the adaptation is a bijection between old and new records: converting back and forth in either order gives back the input |
| ApiAdapter.GetFormattedData | 10_exercises/04_exercise.js:30-38 | the adapter returns the old service's record 101 / Alice / alice@example.com in the new shape |
| ApiAdapter.Render | 10_exercises/04_exercise.js:19-21 | the rendered line begins with `User Profile: `, the user's id and a separator |
| ApiAdapter.ClientCode | 10_exercises/04_exercise.js:42-47 | the client prints the single line `User Profile: 101 \| Alice \| alice@example.com` |
| PaymentFactory.GetPaymentProcessor | 01_factory/solution.js:11-17 | `"paypall"` selects PayPal, `"stripe"` selects Stripe, and every other type, and only those, falls back to the unsupported processor |
| PaymentFactory.ProcessLine | 01_factory/solution.js:1-9 | a processor's line starts with `processing $` and the amount, and ends with that processor's channel text |
| PaymentFactory.ProcessorsDistinct | 01_factory/solution.js:1-9 | two different processors never log the same line for one amount |
| PaymentFactory.PaymentOrder | 01_factory/solution.js:19-22 | an order logs exactly one line, the selected processor's for the amount |
| PaymentFactory.Script | 01_factory/solution.js:24-26 | the script logs PayPal 450, Stripe 300, then the unsupported line for 100 |
| CacheProxy.DataServiceFetch | 06_proxy/solution2.js:2-5 | the service's answer ends with the key it was asked for |
| CacheProxy.Proxy.constructor | 06_proxy/solution2.js:9-12 | a new proxy wraps the given service with an empty cache |
| CacheProxy.Proxy.FetchData | 06_proxy/solution2.js:13-21 | a truthy cached entry is returned without calling the service; otherwise the service is called once and its answer stored under the key; either way the answer equals the service's, and every cached entry stays the service's answer for its key |
| CacheProxy.DataServiceDemo | 06_proxy/solution2.js:23-27 | both fetches of `key1` return `Data for key1`, and the service runs once |
| CacheProxy.FetchUserFromApi | 06_proxy/solution.js:1-4 | the API's answer ends with the key it was asked for |
| CacheProxy.CreatCacheProxy | 06_proxy/solution.js:6-19 | each call builds a new proxy over the given function with its own empty cache |
| CacheProxy.UserApiDemo | 06_proxy/solution.js:20-22 | both fetches of `key1` return `Data with key:key1`, and the API runs once |
| MemoCache.PutStore | 05_composite/mapUseCase.js:28-31 | replacing one user's store for one function leaves the users, their permissions and every other store unchanged, and keeps keys unique |
| MemoCache.UserSystem.constructor | 05_composite/mapUseCase.js:6 | the user system starts as an empty `Map` |
| MemoCache.UserSystem.Register | 05_composite/mapUseCase.js:9-10 | registering a user records its permissions with an empty cache, replacing any earlier record |
| MemoCache.UserSystem.Cached | 05_composite/mapUseCase.js:24-43 | an unknown user gets `null` and nothing changes; a stored argument is a hit that returns the stored result without calling the function; a miss calls it once and stores what it returns, or stores nothing when it throws; no other user's or function's store changes |
| MemoCache.UserSystem.CachedTimeBound | 05_composite/mapUseCase.js:73-96 | the function is not called exactly when the entry is live (`now < expiry`), and then its value is returned unchanged; otherwise the stale entry is deleted, the function is called once, and its result is stored with expiry `later + ttl`; a throwing function leaves the stale entry deleted; an unknown user gets `null` and nothing changes; an entry stored by `cached` is a bare value without an `expiry` field and is never live |
| MemoCache.UserSystem.CachedTimeBoundDefault | 05_composite/mapUseCase.js:73-96 | with the default `ttl` of 5000: an unknown user gets `null` and nothing changes; a live entry is returned without calling the function; otherwise the entry is deleted, the function called once, and a returned result stored with expiry `later + 5000`, while a throw leaves the entry deleted and stores nothing |
| MemoCache.BoundedPut | 05_composite/mapUseCase.js:119-125 | every store of the global LRU table has unique keys and at most `limit` entries, and putting back a store within that bound keeps the table bounded |
| MemoCache.Refresh | 05_composite/mapUseCase.js:127-133 | a hit keeps the store's size and key uniqueness |
| MemoCache.RefreshMovesToBack | 05_composite/mapUseCase.js:127-133 | a hit moves the key to the most recent position and changes no value |
| MemoCache.Admit | 05_composite/mapUseCase.js:135-143 | after a miss the store still has unique keys and at most `MAX_CACHE_SIZE` (3) entries |
| MemoCache.AdmitEvictsOldest | 05_composite/mapUseCase.js:135-143 | the new key goes last, and the first-inserted key is dropped exactly when the size would exceed 3 |
| MemoCache.AdmitKeepsValues | 05_composite/mapUseCase.js:135-143 | the new key maps to the new result, and every other key keeps its value unless it was the evicted oldest one |
| MemoCache.SizeCache.constructor | 05_composite/mapUseCase.js:120 | the global LRU cache starts empty |
| MemoCache.SizeCache.SizeCached | 05_composite/mapUseCase.js:121-145 | a hit returns the stored value without calling the function and refreshes the key; a miss calls it once and admits its result with eviction of the oldest; a throw leaves the store as it was; other functions' stores never change |
| MemoCache.MruCache.constructor | 05_composite/mapUseCase.js:161 | the global MRU cache starts empty |
| MemoCache.MruCache.CachedMru | 05_composite/mapUseCase.js:162-185 | a hit returns the stored value and reorders nothing; a miss calls the function once, and its result is kept only when the store had fewer than `MAX_CACHE_SIZE_MRU` (2) entries, because the key deleted on overflow is always the one just added |
| MemoCache.FetchUserData | 05_composite/mapUseCase.js:13-16 | every user gets the profile with posts 1, 2, 3 and friends X, Y |
| MemoCache.FetchUserPermissions | 05_composite/mapUseCase.js:18-21 | every user may read, and may write exactly when the id is not 1 |
| MemoCache.CallTwice | 05_composite/mapUseCase.js:47-48 | two calls in a row for one user return the same result with one call of the function, the argument is appended to that store, and nothing else changes |
| MemoCache.UsageDemo | 05_composite/mapUseCase.js:46-56 | Alice's and Bob's four calls each return the profile twice and their own permissions twice, with four API calls in all |
| MemoCache.TimeBoundDemo | 05_composite/mapUseCase.js:97-103 | starting from the store `cached` left for Alice's argument 1, the first default-`ttl` call for argument 5 is a miss; when the timer's call comes at least 5000 ms after that entry was stored, it has expired, and both calls return the profile, with two API calls |
| MemoCache.SearchDatabase | 05_composite/mapUseCase.js:146-149 | the search result ends with the query |
| MemoCache.SizeCachedDemo | 05_composite/mapUseCase.js:150 | the first `SizeCached` of `banana` is a miss that returns `Results for banana` after one search |
| MemoCache.FetchTransactionHistory | 05_composite/mapUseCase.js:187-190 | the history text names the user id |
| MemoCache.MruDemo | 05_composite/mapUseCase.js:192 | the first `cachedMRU` of user 3 is a miss that returns that user's history after one fetch |
| EventEmitter.EmitLinesAppend | 07_observer/example2.js:17-21 | listeners registered later are called later: emitting to two lists in turn prints the first list's lines, then the second's |
| EventEmitter.Emitter.constructor | 07_observer/example2.js:9-10 | a new emitter has no events |
| EventEmitter.Emitter.On | 07_observer/example2.js:13-16 | the listener is appended to its event's list, the list is created on first use, and every other event's list is untouched |
| EventEmitter.Emitter.Emit | 07_observer/example2.js:17-21 | each listener of the event is called with the data in registration order; an unknown event prints nothing |
| EventEmitter.NewsPublisher.constructor | 07_observer/example2.js:26-27 | a publisher owns a new emitter with no listeners |
| EventEmitter.NewsPublisher.OnNews | 07_observer/example2.js:34-36 | the listener is appended to the `news published` listeners, and no other event gains any |
| EventEmitter.NewsPublisher.PublishNews | 07_observer/example2.js:30-33 | the publisher's own line comes first, then every news listener's lines in registration order |
| EventEmitter.PublishToTwo | 07_observer/example2.js:41-51 | two subscribers registered in turn receive any news in that order, after the publisher's line |
| EventEmitter.Usage | 07_observer/example2.js:41-51 | the usage code prints the publishing line, then Subscriber1's and Subscriber2's lines for `NEW SCIENCE DISCOVERY` |
| StockTicker.Investor.constructor | 07_observer/stock_price_update.js:25-27 | an investor keeps its name |
| StockTicker.OneLinePerInvestor | 07_observer/stock_price_update.js:17-21 | a notification tells each subscribed investor exactly once, in subscription order, with the symbol and the price |
| StockTicker.Stock.constructor | 07_observer/stock_price_update.js:2-6 | a new stock has its symbol and price and no observers |
| StockTicker.Stock.Subscribe | 07_observer/stock_price_update.js:7-9 | the observer is appended and the price is unchanged |
| StockTicker.Stock.UnSubscribe | 07_observer/stock_price_update.js:10-12 | every other observer stays, in order, and this one is gone however often it was subscribed |
| StockTicker.Stock.Notify | 07_observer/stock_price_update.js:17-21 | the lines are those of updating each observer in list order with the current symbol and price |
| StockTicker.Stock.SetPrice | 07_observer/stock_price_update.js:13-16 | the new price is stored first, so every observer is told the new price; the observers are unchanged |
| StockTicker.AnnounceToTwo | 07_observer/stock_price_update.js:33-41 | two investors subscribed in turn to a stock with no observers are told of a new price in that order |
| StockTicker.Script | 07_observer/stock_price_update.js:33-41 | the move of `PSO` to 155 is announced to Ali, then Kizer, and the stock's price is 155 |
| WeatherStation.Observer.constructor | 10_exercises/07_exercise.js:43-66 | an observer has its kind for life |
| WeatherStation.UpdateLines | 10_exercises/07_exercise.js:38-65 | the alert system prints a line exactly when the condition is `Storm`; the mobile app and the dashboard always print one line; the base observer prints nothing; no observer prints more than one line |
| WeatherStation.NotifyLinesAppend | 10_exercises/07_exercise.js:24-26 | notifying a list made of two parts prints the first part's lines, then the second's |
| WeatherStation.StormAlertOnly | 10_exercises/07_exercise.js:60-66 | the storm alert is printed exactly when an alert system receives a `Storm` reading |
| WeatherStation.Station.constructor | 10_exercises/07_exercise.js:8-11 | a new station has no observers and no reading |
| WeatherStation.Station.AddObserver | 10_exercises/07_exercise.js:14-16 | the observer is appended, even one already present, and the reading is unchanged |
| WeatherStation.Station.RemoveObserver | 10_exercises/07_exercise.js:19-21 | every other observer stays, in order, and every occurrence of this one is gone |
| WeatherStation.Station.NotifyObservers | 10_exercises/07_exercise.js:24-26 | each observer is updated with the stored reading, in list order |
| WeatherStation.Station.SetWeather | 10_exercises/07_exercise.js:29-33 | the station reports the reading, stores it, and notifies every observer with it; the observers are unchanged |
| WeatherStation.Update | 10_exercises/07_exercise.js:38-65 | an observer's update prints what its kind prints for the reading |
| WeatherStation.SubscribedApps | 10_exercises/07_exercise.js:77-84 | the mobile app, the dashboard and the alert system print two lines for a calm reading and three for a storm, the third being the alert |
| WeatherStation.ThreeReadings | 10_exercises/07_exercise.js:82-84 | two calm readings and then a storm print three, three and four lines, the last being the alert |
| WeatherStation.ClientCode | 10_exercises/07_exercise.js:69-84 | the client's sunny and rainy readings print three lines each, and the storm four, ending in the alert |
| TransactionManager.FundCommandsPair | 09_command/solution2.js:5-15 | a credit or deduction command never throws, and its undo prints the counterpart of its execute line for the same amount and account |
| TransactionManager.Executes | 09_command/solution2.js:28 | the execute closures are taken one per command, in list order |
| TransactionManager.Undos | 09_command/solution2.js:41 | the undo closures are taken one per command, in list order |
| TransactionManager.RunStepsPrints | 09_command/solution2.js:28 | a `forEach` over closures fails exactly when some closure throws; it prints one line per closure when none does, and fewer otherwise |
| TransactionManager.RunStepsStops | 09_command/solution2.js:27-34 | when a closure throws, the earlier ones have printed their lines, the later ones never run, and its error escapes |
| TransactionManager.UndosReversed | 09_command/solution2.js:37-41 | undoing in reverse runs the undos of later commands before those of earlier ones |
| TransactionManager.Manager.constructor | 09_command/solution2.js:18-19 | a new manager has no commands |
| TransactionManager.Manager.AddCommand | 09_command/solution2.js:21-23 | the command is appended |
| TransactionManager.Manager.Run | 09_command/solution2.js:28 | the loop calls each closure in order until one throws, printing exactly what the closures print |
| TransactionManager.Manager.RollbackTransaction | 09_command/solution2.js:37-43 | every undo runs on a reversed copy, so the list stays as it was, and the closing line is printed unless an undo throws, whose error then escapes |
| TransactionManager.Manager.ExecuteTransaction | 09_command/solution2.js:25-35 | when every execute returns, the transaction commits; when one throws, the later ones do not run, every command is rolled back in reverse order, and the error is rethrown, or the rollback's error when an undo throws too |
| TransactionManager.ClientCode | 09_command/solution2.js:49-54 | the client's credit of 100 and deduction of 200 both run and the transaction commits |
| FileSystem.Component.Abstract | 10_exercises/05_exercise.js:7-10 | a bare component has its name, and no size and no children |
| FileSystem.Component.File | 10_exercises/05_exercise.js:19-22 | a file has its name and size and no children |
| FileSystem.Component.Directory | 10_exercises/05_exercise.js:31-34 | a new directory has its name and no children |
| FileSystem.Component.Add | 10_exercises/05_exercise.js:36-38 | the component is appended to the directory's children |
| FileSystem.Component.Remove | 10_exercises/05_exercise.js:40-42 | every other child stays, in order, and every occurrence of this component is gone |
| FileSystem.Component.ShowDetails | 10_exercises/05_exercise.js:12-47 | the method prints exactly what the recursive description of the tree prints, and throws where a bare component is reached |
| FileSystem.RemoveChildMembers | 10_exercises/05_exercise.js:40-42 | the filter keeps exactly the children that are not the component |
| FileSystem.FileLine | 10_exercises/05_exercise.js:24-26 | a file's line starts with the indent it is shown at |
| FileSystem.DirectoryLine | 10_exercises/05_exercise.js:44-45 | a directory's line starts with the indent it is shown at |
| FileSystem.ChildrenStop | 10_exercises/05_exercise.js:46 | once a child has thrown, the children after it print nothing |
| FileSystem.AllIndentedAppend | 10_exercises/05_exercise.js:46 | the lines of children shown one after another at an indent are all indented |
| FileSystem.DeeperIndented | 10_exercises/05_exercise.js:46 | a line indented two spaces deeper is still indented by the outer indent |
| FileSystem.DetailsIndented | 10_exercises/05_exercise.js:44-47 | every line a component prints starts with its indent, and every line below a directory's own starts with the indent two spaces deeper |
| FileSystem.ChildrenIndented | 10_exercises/05_exercise.js:46 | every line printed for a list of children starts with the indent they are shown at |
| FileSystem.FilesOnly | 10_exercises/05_exercise.js:44-47 | a directory holding only files throws nothing and prints its own line and one per file |
| FileSystem.FilesLines | 10_exercises/05_exercise.js:46 | a list of files prints one line each and throws nothing |
| FileSystem.ShowRoot | 10_exercises/05_exercise.js:62-67 | a root over two directories of files throws nothing and prints three lines plus one per file |
| FileSystem.ClientCode | 10_exercises/05_exercise.js:51-67 | the client's tree of Root, Documents with two files and Pictures with one prints six lines and throws nothing |
| SmartHome.Thermostat.constructor | 10_exercises/09_exercise.js:25 | a new thermostat has no temperature |
| SmartHome.Thermostat.SetTemperature | 10_exercises/09_exercise.js:26-29 | the temperature is stored and reported |
| SmartHome.Thermostat.Reset | 10_exercises/09_exercise.js:30-32 | a reset only reports; the temperature stays |
| SmartHome.DeviceEvent | 10_exercises/09_exercise.js:50-114 | the light and door commands only ever switch the light or the lock |
| SmartHome.DeviceUndoIsOpposite | 10_exercises/09_exercise.js:45-114 | each light and door command undoes by the opposite device operation, which is what its counterpart command executes, and never by its own |
| SmartHome.Command.LightOnCommand | 10_exercises/09_exercise.js:46-49 | the command turns a light on and holds no temperature |
| SmartHome.Command.LightOffCommand | 10_exercises/09_exercise.js:59-62 | the command turns a light off and holds no temperature |
| SmartHome.Command.LockDoorCommand | 10_exercises/09_exercise.js:92-95 | the command locks a door and holds no temperature |
| SmartHome.Command.UnlockDoorCommand | 10_exercises/09_exercise.js:105-108 | the command unlocks a door and holds no temperature |
| SmartHome.Command.SetTemperatureCommand | 10_exercises/09_exercise.js:72-77 | the command holds its thermostat and target, and `prevTemp` starts as `null` |
| SmartHome.Command.Execute | 10_exercises/09_exercise.js:44-114 | the thermostat command records the thermostat's current temperature, `undefined` included, then sets the target; the others only drive their device |
| SmartHome.Command.Undo | 10_exercises/09_exercise.js:44-114 | the thermostat command sets any recorded temperature back, and before any `execute` it resets and the temperature stays; the others run the opposite device operation |
| SmartHome.Pop | 10_exercises/09_exercise.js:129 | popping an empty history yields nothing and leaves it empty; otherwise it yields the last command and the rest |
| SmartHome.LastInFirstOut | 10_exercises/09_exercise.js:123-135 | after pushing commands on a history, as many pops return them in reverse order and leave the earlier history as it was |
| SmartHome.RemoteControl.constructor | 10_exercises/09_exercise.js:119-121 | a new remote has an empty history |
| SmartHome.RemoteControl.ExecuteCommand | 10_exercises/09_exercise.js:123-126 | the command runs, then is pushed on the history |
| SmartHome.RemoteControl.Undo | 10_exercises/09_exercise.js:128-135 | the most recent command is popped and undone; on an empty history nothing runs and the remote warns that there is nothing to undo |
| SmartHome.SetTemperatureUndoRestores | 10_exercises/09_exercise.js:78-88 | undoing the thermostat command right after it ran puts the thermostat back to the temperature it had, `undefined` included |
| SmartHome.ClientCode | 10_exercises/09_exercise.js:139-150 | the light goes on, the thermostat to 22, the door locks, then the undo unlocks the door and leaves two commands in the history |
| TodoMvc.SpliceOne | 11_Architectural_Patterns/MVC.js:14-17 | `splice(index, 1)` removes the element at a valid index; an index at or past the end removes nothing; a negative index counts back from the end, and one beyond the front removes the first element |
| TodoMvc.RemoveExactly | 11_Architectural_Patterns/MVC.js:14-17 | removing a valid index drops that item alone and keeps the others in order |
| TodoMvc.TodoModel.constructor | 11_Architectural_Patterns/MVC.js:5-7 | a new model has no items |
| TodoMvc.TodoModel.AddTodo | 11_Architectural_Patterns/MVC.js:9-12 | the item is appended and the whole list is returned |
| TodoMvc.TodoModel.RemoveTodo | 11_Architectural_Patterns/MVC.js:14-17 | the list after `splice(index, 1)`, with no check of the index, is stored and returned |
| TodoMvc.NumberedFromOne | 11_Architectural_Patterns/MVC.js:33-35 | the item at position `k` is on line `k` of the listing, numbered `k + 1` |
| TodoMvc.ScreenShape | 11_Architectural_Patterns/MVC.js:28-38 | the screen opens with the header and ends with the rule; an empty list shows the placeholder, and otherwise each item has its numbered line |
| TodoMvc.TodoView.ShowTodos | 11_Architectural_Patterns/MVC.js:28-38 | the loop prints exactly the screen for the list |
| TodoMvc.TodoView.ShowMessage | 11_Architectural_Patterns/MVC.js:40-42 | the message is printed as one line |
| TodoMvc.TodoController.constructor | 11_Architectural_Patterns/MVC.js:49-52 | the controller holds the given model and view |
| TodoMvc.TodoController.AddTodo | 11_Architectural_Patterns/MVC.js:54-58 | the item is appended, reported, and the new list shown |
| TodoMvc.TodoController.RemoveTodo | 11_Architectural_Patterns/MVC.js:60-70 | an index outside the list only warns and leaves the items alone; a valid one removes exactly that item, reports the item it held and shows the list, one shorter |
| TodoMvc.TodoController.ShowTodos | 11_Architectural_Patterns/MVC.js:72-74 | the current list is shown |
| TodoMvc.ClientCode | 11_Architectural_Patterns/MVC.js:80-89 | after three additions and the removal of index 1, the list holds the first and third items and the final screen has four lines |
| BankRollback.RunAction | 09_command/problem.js:1-8 | `deductFunds` and `creditFunds` never throw and print one line |
| BankRollback.AllActionsRun | 09_command/problem.js:14-16 | the actions all complete exactly when none of them throws |
| BankRollback.LaterActionsNotRun | 09_command/problem.js:14-21 | when an action is the first to throw, the earlier ones ran, it ran and threw, and the later ones never run |
| BankRollback.UndoCommand | 09_command/problem.js:40-50 | a command is undone, with a line, exactly when its action is `deductFunds` or `creditFunds` |
| BankRollback.UndoMatchesAction | 09_command/problem.js:40-50 | undoing a deduction or credit reverses exactly the operation its action printed, on the same account and amount |
| BankRollback.UndoLinesAppend | 09_command/problem.js:36 | undoing one list after another prints their undo lines one after the other |
| BankRollback.RollbackReversesOrder | 09_command/problem.js:23-38 | rolling back steps that ran as a first part then a second undoes the second part before the first |
| BankRollback.ReverseInPlace | 09_command/problem.js:36 | `reverse()` leaves the array holding its old contents in reverse order |
| BankRollback.RollbackTransaction | 09_command/problem.js:35-38 | the caller's array is left reversed, every command is undone in that order, and the rollback is reported |
| BankRollback.ExecuteTransaction | 09_command/problem.js:12-22 | when no action throws, the transaction commits and the array is unchanged; when one throws, the later ones do not run, every command is undone in reverse order, the array is left reversed and the error is rethrown |
| BankRollback.ExampleUsage | 09_command/problem.js:53-58 | the deduction from 12345 and the credit to 67890 both run and the transaction commits |
| RoleGraph.ReachAllSnoc | 05_composite/problem.js:33-36 | visiting one more inherited role appends what that role reaches |
| RoleGraph.ReachGrants | 05_composite/problem.js:27-39 | the recursion meets a permission exactly when the role holds it or inherits, at any depth, a role that holds it |
| RoleGraph.ReachAllGrants | 05_composite/problem.js:33-36 | the recursion over a list of inherited roles meets a permission exactly when one of them is granted it |
| RoleGraph.CollectStep | 05_composite/problem.js:33-36 | collecting one more inherited role into the shared set adds exactly that role's permissions |
| RoleGraph.AddEach | 05_composite/problem.js:29-31 | adding each permission to the insertion-ordered set appends those not yet present, in order |
| RoleGraph.CollectPermissions | 05_composite/problem.js:27-39 | the recursive collection adds to the shared set everything the role reaches, in the order the recursion meets it |
| RoleGraph.GetPermissions | 05_composite/problem.js:24-43 | the result is each permission the role reaches, at its first occurrence; an absent role yields `[]` |
| RoleGraph.PermissionsExact | 05_composite/problem.js:24-43 | the resolved permissions have no repeats and are exactly the ones the role is granted |
| RoleGraph.OwnPermissionsFirst | 05_composite/problem.js:28-31 | a role's own permissions, without repeats, come first in its resolved permissions |
| RoleGraph.NoInheritsOwnOnly | 05_composite/problem.js:28-33 | a role that inherits nothing resolves to its own permissions only |
| RoleGraph.ReachLeaf | 05_composite/problem.js:28-33 | a role inheriting nothing reaches its own permissions only |
| RoleGraph.ReachSingleHeir | 05_composite/problem.js:28-36 | a role inheriting one role reaches its own permissions, then that role's |
| RoleGraph.ReachTwoHeirs | 05_composite/problem_tree.js:48-56 | a role inheriting two roles reaches its own permissions, then the first role's, then the second's |
| RoleGraph.Display | 05_composite/problem.js:45-58 | an absent role prints nothing; a present one prints its name line and its permissions line at the indent, and nothing more when it inherits nothing |
| RoleGraph.DisplayLeaf | 05_composite/problem.js:45-51 | a role inheriting nothing is displayed as its two lines |
| RoleGraph.DisplaySingleHeir | 05_composite/problem.js:45-58 | a role inheriting one role is displayed as its two lines, then that role two spaces deeper |
| RoleGraph.DisplayShape | 05_composite/problem.js:45-58 | the display has two lines per role visited (a role reached twice counts twice); every line starts with the indent, and every line after the role's own two is an inherited role's, two spaces further in |
| RoleGraph.DisplayAllShape | 05_composite/problem.js:52-56 | the displays of the inherited roles have two lines per role visited, each starting with their indent |
| RoleGraph.ChildPrefix | 05_composite/problem_tree.js:77 | the children's prefix extends the parent's by three characters |
| RoleGraph.Tree | 05_composite/problem_tree.js:64-80 | an absent role draws nothing; a present one draws its connector line and its permissions line under the prefix, and nothing more when it inherits nothing |
| RoleGraph.TreeOneKid | 05_composite/problem_tree.js:73-79 | a role inheriting one role is drawn above that role, drawn as the last child |
| RoleGraph.TreeTwoKids | 05_composite/problem_tree.js:73-79 | a role inheriting two roles is drawn above the first, drawn as a middle child, and the second, drawn as the last |
| RoleGraph.TreeUnderPrefix | 05_composite/problem_tree.js:64-80 | every line of a tree starts with the prefix it was drawn at |
| RoleGraph.TreeKidsUnderPrefix | 05_composite/problem_tree.js:75-79 | every line drawn for the inherited roles starts with their prefix |
| RoleGraph.WithPermissionsSameLines | 05_composite/problem_tree.js:84-110 | `displayRoleHierarchyWithPermissions` draws exactly what `displayRoleHierarchy` draws |
| RoleTables.ChainRanked | 05_composite/problem.js:1-13 | the three-role chain has no inheritance cycle |
| RoleTables.ChainFacts | 05_composite/problem.js:1-13 | the chain table holds Employee, Manager and Administrator with their permissions and inherited roles, and no Intern |
| RoleTables.ChainAdministrator | 05_composite/problem.js:63 | the Administrator resolves to delete, approve and read, in that order, and a name not in the table to nothing |
| RoleTables.ChainDisplay | 05_composite/problem.js:60-61 | the Administrator's hierarchy prints two lines for each role on the chain, six in all |
| RoleTables.DiamondRanked | 05_composite/problem_tree.js:27-43 | the diamond table has no inheritance cycle |
| RoleTables.DiamondFacts | 05_composite/problem_tree.js:27-43 | the diamond table holds Employee, Manager, Auditor and Administrator with their permissions and inherited roles |
| RoleTables.DiamondMiddle | 05_composite/problem_tree.js:31-38 | Manager and Auditor each reach their own permission, then Employee's |
| RoleTables.DiamondReach | 05_composite/problem_tree.js:44-63 | the Administrator's recursion meets Employee's permission twice, once through each parent |
| RoleTables.DiamondAdministrator | 05_composite/problem_tree.js:44-63 | yet the Administrator resolves to four distinct permissions, Employee's appearing once |
| RoleTables.DiamondTree | 05_composite/problem_tree.js:82-114 | the tree draws Employee under both parents, ten lines in all, with Manager as the middle child and Auditor as the last; the second display draws the same lines |
| RoleTables.ObjectRanked | 05_composite/problem_usingMap.js:22-44 | the object-keyed Map has no inheritance cycle |
| RoleTables.ObjectFacts | 05_composite/problem_usingMap.js:2-44 | the Map holds the three role objects with their permissions and inherited roles, and no other object, even one with a role's name |
| RoleTables.ObjectAdministrator | 05_composite/problem_usingMap.js:47-66 | the Administrator object resolves to delete, approve and read; another object with the same name resolves to nothing, since Map keys are compared by identity |
| RoleTables.ObjectReach | 05_composite/problem_usingMap.js:50-62 | the Administrator object's recursion meets delete, approve and read, once each |
| RoleTables.ObjectDisplay | 05_composite/problem_usingMap.js:69-86 | displaying the Administrator object prints exactly the lines the string-keyed chain prints |
| ImmutableRoles.CreateRole | 05_composite/solution2.js:8-14 | a new role has its name, no permissions and no sub-roles |
| ImmutableRoles.AddPermission | 05_composite/solution2.js:24-29 | the copy has the permission appended to the role's own, and the same name and sub-roles |
| ImmutableRoles.AddRole | 05_composite/solution2.js:41-46 | the copy has the sub-role appended, and the same name and permissions |
| ImmutableRoles.GetPermissions | 05_composite/solution2.js:65-71 | the result has no repeats |
| ImmutableRoles.DedupMerge | 05_composite/solution2.js:68 | building a set from two sets' elements is building it from the elements they were made of |
| ImmutableRoles.PermissionsArePreorder | 05_composite/solution2.js:65-71 | the `reduce` yields the permissions of a pre-order walk, own first, each at its first occurrence |
| ImmutableRoles.MergedIsPreorder | 05_composite/solution2.js:66-69 | after any number of sub-roles, the accumulator is the walk over the own permissions and those sub-roles, without repeats |
| ImmutableRoles.MergedStep | 05_composite/solution2.js:66-69 | one more step of the `reduce` extends the walk by the next sub-role's |
| ImmutableRoles.FlattenStep | 05_composite/solution2.js:66-69 | the walk over one more sub-role is the walk so far, then that sub-role's |
| ImmutableRoles.FlattenHolds | 05_composite/solution2.js:65-71 | the walk meets a permission exactly when the role or a role composed into it at any depth grants it |
| ImmutableRoles.FlattenFirstHolds | 05_composite/solution2.js:66-69 | the walk over the first sub-roles meets a permission exactly when one of them grants it |
| ImmutableRoles.PermissionsExact | 05_composite/solution2.js:65-71 | `getPermissions` has no repeats and holds exactly the permissions granted by the role and every role composed into it |
| ImmutableRoles.OwnPermissionsLead | 05_composite/solution2.js:69 | the role's own permissions, without repeats, come first and in their own order, since they seed the set |
| ImmutableRoles.CreatedRoleEmpty | 05_composite/solution2.js:8-14 | a new role grants nothing and displays as its name line and an empty permissions line |
| ImmutableRoles.AddPermissionGrants | 05_composite/solution2.js:24-29 | adding a permission grants it on top of all the role granted before, and nothing else |
| ImmutableRoles.AddRoleMerges | 05_composite/solution2.js:41-46 | composing a sub-role in merges its permissions after all the others, one more step of the `reduce` |
| ImmutableRoles.AddRoleGrants | 05_composite/solution2.js:41-46 | after `addRole` the permissions are exactly those of both roles |
| ImmutableRoles.MergedPrefix | 05_composite/solution2.js:66-69 | two roles with the same own permissions and the same first sub-roles have the same accumulator after those steps |
| ImmutableRoles.MergedNext | 05_composite/solution2.js:66-69 | the accumulator after one more step is the set of the old one and the next sub-role's permissions |
| ImmutableRoles.DisplayRole | 05_composite/solution2.js:78-82 | the display opens with the role line and the permissions joined by commas, both at the indent |
| ImmutableRoles.DisplayRoleShape | 05_composite/solution2.js:78-82 | two lines per role in the tree; every line starts with the indent, and every line below the first two one space further in |
| ImmutableRoles.DisplaySubRolesShape | 05_composite/solution2.js:81 | the sub-role displays have two lines per role in the sub-role trees, each starting with their indent |
| ImmutableRoles.OccurrencesPositive | 05_composite/solution2.js:117-120 | a word has a positive count exactly when it occurs in the list |
| ImmutableRoles.CountWords | 05_composite/solution2.js:117-120 | the counting `reduce` gives each word the number of its occurrences and no key to a word that never occurs, keyed in order of first occurrence |
| ImmutableRoles.NextCount | 05_composite/solution2.js:118 | `(acc[word] \|\| 0) + 1` is one more than the stored count, or 1 for a word not yet counted |
| ImmutableRoles.CountedNone | 05_composite/solution2.js:120 | the empty object counts no words |
| ImmutableRoles.CountStep | 05_composite/solution2.js:117-119 | counting one more word keeps every count right and the keys in order of first occurrence |
| ImmutableRoles.OccurrencesSnoc | 05_composite/solution2.js:118 | one more word adds one to its own count and nothing to the others' |
| ImmutableRoles.CountKeys | 05_composite/solution2.js:118 | setting a word's count keeps the keys in order of first occurrence |
| ImmutableRoles.CountLookups | 05_composite/solution2.js:118 | setting the next count of a word gives the counts of the longer list |
| ImmutableRoles.TallyNext | 05_composite/solution2.js:118 | one more occurrence of a word gives it a count one more than its occurrences before, so its first occurrence counts 1 |
| ImmutableRoles.TallyOther | 05_composite/solution2.js:118 | an occurrence of one word leaves the count of every other word as it was |
| ImmutableRoles.AdminPermissions | 05_composite/solution2.js:104 | the admin role resolves to delete, approve and read, from the top of the chain down |
| ImmutableRoles.ChainPermissions | 05_composite/solution2.js:65-71 | a role whose walk meets three distinct permissions grants exactly those, in walk order |
| ImmutableRoles.AdminWalk | 05_composite/solution2.js:97-100 | the walk over the admin role meets its own permission, then the manager's, then the employee's |
| ImmutableRoles.ManagerWalk | 05_composite/solution2.js:92-95 | the walk over the manager role meets its own permission, then the employee's |
| ImmutableRoles.Merged | 05_composite/solution2.js:66-69 | the `reduce` accumulator after any number of sub-roles has no repeats |
| Sorting.SwapKeepsElements | 10_exercises/08_exercise.js:22 | the destructuring swap keeps the same elements |
| Sorting.BubbleStep | 10_exercises/08_exercise.js:21-23 | one step of the inner loop keeps the array's length |
| Sorting.PassStep | 10_exercises/08_exercise.js:20-24 | each step of a pass keeps the elements, leaves the sorted tail alone, and carries a largest element seen so far one position on |
| Sorting.BubblePass | 10_exercises/08_exercise.js:20-24 | a pass over the unsorted prefix keeps the elements, leaves the tail alone, and ends with a largest element of the prefix at its last position |
| Sorting.BubbleSort | 10_exercises/08_exercise.js:16-27 | the result is sorted and a permutation of the input |
| Sorting.GrowSorted | 10_exercises/08_exercise.js:19-25 | after each pass the sorted tail grows by one position, and no element before it exceeds any in it |
| Sorting.ConsSorted | 10_exercises/08_exercise.js:49 | a sorted array stays sorted with an element in front that bounds it |
| Sorting.SortedTail | 10_exercises/08_exercise.js:46-47 | the rest of a sorted array after its head is sorted, and the head bounds it |
| Sorting.LowerBoundElements | 10_exercises/08_exercise.js:64-65 | a bound of some elements bounds every arrangement of them |
| Sorting.SortedUnique | 10_exercises/08_exercise.js:8-85 | two sorted arrangements of the same numbers are equal, so every strategy must return the same array |
| Sorting.InsertSorted | 10_exercises/08_exercise.js:8-85 | inserting into a sorted array keeps it sorted and adds exactly that element |
| Sorting.OrderedSorted | 10_exercises/08_exercise.js:8-85 | the reference sorted form of an array is sorted and a permutation of it |
| Sorting.IsOrdered | 10_exercises/08_exercise.js:8-85 | every sorted permutation of an array is its reference sorted form |
| Sorting.MergeTieTakesRight | 10_exercises/08_exercise.js:46-47 | on equal heads `merge` takes the right element first and keeps the left array whole |
| Sorting.MergeElements | 10_exercises/08_exercise.js:43-50 | `merge` keeps exactly the elements of both inputs |
| Sorting.MergeSorted | 10_exercises/08_exercise.js:43-50 | `merge` of two sorted arrays is sorted |
| Sorting.Merge | 10_exercises/08_exercise.js:43-50 | the loop and the appended remainders give the merge of the two arrays, a permutation of both, sorted when both inputs are |
| Sorting.MergeStep | 10_exercises/08_exercise.js:45-48 | with both arrays non-empty, the strictly smaller left head is taken, and otherwise the right head |
| Sorting.MergeDrained | 10_exercises/08_exercise.js:49 | once one array is empty, the other follows as it is |
| Sorting.MergeSort | 10_exercises/08_exercise.js:32-41 | the result is sorted and a permutation of the input, and an array of at most one element comes back as it was |
| Sorting.PartitionElements | 10_exercises/08_exercise.js:63-66 | every element other than the pivot goes to exactly one side |
| Sorting.PartitionBounds | 10_exercises/08_exercise.js:64-65 | the left side is below the pivot and the right side is not |
| Sorting.Partition | 10_exercises/08_exercise.js:63-66 | the loop puts, in order, the elements below the pivot on the left and the others on the right, and loses none |
| Sorting.JoinSorted | 10_exercises/08_exercise.js:68 | two sorted sides around a pivot that separates them make a sorted whole |
| Sorting.QuickSortStep | 10_exercises/08_exercise.js:59-68 | the sorted sides of the partition around the last element make a sorted permutation of the input |
| Sorting.QuickSort | 10_exercises/08_exercise.js:55-69 | the result is sorted and a permutation of the input; an array of at most one element comes back as it was; otherwise it is the sorted left side, the pivot and the sorted right side |
| Sorting.Sorter.constructor | 10_exercises/08_exercise.js:74-76 | the sorter holds the given strategy |
| Sorting.Sorter.SetStrategy | 10_exercises/08_exercise.js:78-80 | later sorts use the new strategy |
| Sorting.Sorter.Sort | 10_exercises/08_exercise.js:82-84 | the bare strategy, and only it, throws its error; the three concrete strategies all return the one sorted form of the input |
| Sorting.DemoOrdered | 10_exercises/08_exercise.js:88 | the client's numbers in ascending order are 2, 3, 4, 5, 8 |
| Sorting.Demo | 10_exercises/08_exercise.js:88-97 | the bubble, merge and quick sorts each return 2, 3, 4, 5, 8 for the client's numbers |
| PizzaDecorators.ToppingPrice | 03_decorator/solution2.js:1-4 | every topping's price constant is positive |
| PizzaDecorators.DecoratorPassesThrough | 03_decorator/solution2.js:37-47 | the bare `ToppingDecorator` passes the wrapped pizza's price and description through |
| PizzaDecorators.HotSauceThrows | 03_decorator/solution2.js:81-92 | as written, a pizza's price and description are defined exactly when no hot sauce is on it, and then they are the intended ones; hot sauce anywhere in the chain throws |
| PizzaDecorators.HotSauceOnBasicThrows | 03_decorator/solution2.js:86-88 | hot sauce on the basic pizza throws reading `getPrice` of `undefined`, where 11 was intended |
| PizzaDecorators.IntendedPriceIsSum | 03_decorator/solution2.js:1-92 | the intended price is the basic price plus the price of every topping on the pizza |
| PizzaDecorators.LeadingSpaceStep | 03_decorator/solution2.js:59-61 | one cheese or pepperoni adds one leading space and its name at the end |
| PizzaDecorators.LeadingSpacesAccumulate | 03_decorator/solution2.js:59-76 | the description of a chain without hot sauce is one leading space per topping, `Basic pizza`, and the toppings' names in the order added |
| PizzaDecorators.ClientCode | 03_decorator/solution2.js:94-108 | the client's pizzas cost 10, 12, 13 and 15, and the deluxe one is described with two leading spaces, then pepperoni, then cheese |
| PizzaToppings.CreatePizza | 03_decorator/hOrderF.js:6-8 | the base pizza is `Base_pizza` at the basic price |
| PizzaToppings.AddTopping | 03_decorator/hOrderF.js:10-17 | the new pizza costs the topping's price more, and its description is the old one followed by the topping's suffix |
| PizzaToppings.SuffixesAppend | 03_decorator/hOrderF.js:21-24 | the suffixes of toppings added in two parts are the suffixes of the first part, then of the second |
| PizzaToppings.NoToppingsIsBase | 03_decorator/hOrderF.js:19-25 | with no toppings the result is the base pizza |
| PizzaToppings.PriceIsBasePlusToppings | 03_decorator/hOrderF.js:19-25 | the price is the base price plus the sum of the toppings' prices |
| PizzaToppings.DescriptionInOrder | 03_decorator/hOrderF.js:19-25 | the description is the base description followed by one suffix per topping, in list order |
| PizzaToppings.OneByOneIsAtOnce | 03_decorator/hOrderF.js:19-25 | adding one more topping by `addTopping` gives the pizza made with the longer list at once |
| PizzaToppings.TwoToppings | 03_decorator/hOrderF.js:35-39 | two toppings added in turn give both suffixes in order and both prices added |
| PizzaToppings.ClientCodeStepByStep | 03_decorator/hOrderF.js:31-39 | cheese then pepperoni on the base pizza cost 12 and then 15, the same pizza as making it with both at once |
| PizzaToppings.ClientCodeAtOnce | 03_decorator/hOrderF.js:42-43 | cheese, pepperoni and hot sauce at once cost 16 |
| OrderAddOns.FeaturePrice | 10_exercises/03_exercise.js:32-60 | every add-on has a positive price |
| OrderAddOns.DecoratorPassesThrough | 10_exercises/03_exercise.js:17-29 | the bare `OrderDecorator` passes cost and description through and adds no feature |
| OrderAddOns.CostIsBasePlusFeatures | 10_exercises/03_exercise.js:6-60 | an order costs the base 50 plus the price of each feature added |
| OrderAddOns.CostBounds | 10_exercises/03_exercise.js:6-60 | every order costs at least the base, and strictly more with any feature |
| OrderAddOns.DescriptionLists | 10_exercises/03_exercise.js:6-60 | the description is `Base Order` followed by ` + <feature>` for each feature, in the order added |
| OrderAddOns.ClientCode | 10_exercises/03_exercise.js:62-76 | gift wrap, expedited shipping and a personal message in turn raise 50 to 55, 70 and 73 |
| EnemyFactory.AttackLine | 10_exercises/01_exercise.js:13-15 | an attack line starts with the enemy's name and ends with `!`, for the dragon's override as for the others |
| EnemyFactory.DamageLine | 10_exercises/01_exercise.js:19-21 | a damage line starts with the enemy's name and `takes` |
| EnemyFactory.Enemy.constructor | 10_exercises/01_exercise.js:7-11 | a new enemy has the given name, health and attack power |
| EnemyFactory.Enemy.Attack | 10_exercises/01_exercise.js:13-15 | an attack logs the enemy's attack line and changes nothing |
| EnemyFactory.Enemy.TakeDamage | 10_exercises/01_exercise.js:17-22 | health drops by exactly the damage, with no lower bound, and the line reports the health after the hit |
| EnemyFactory.StatsOf | 10_exercises/01_exercise.js:51-62 | exactly Goblin, Orc and Dragon are known; each is named after its type with positive health and attack power, and only the dragon breathes fire |
| EnemyFactory.EnemyTable | 10_exercises/01_exercise.js:26-41 | Goblin has 30 health and 5 attack, Orc 60 and 12, Dragon 200 and 25 |
| EnemyFactory.CreateEnemy | 10_exercises/01_exercise.js:51-62 | a known type gives a new enemy with that type's stats; any other type throws `Unknown enemy type: <type>` |
| EnemyFactory.OverkillGoblin | 10_exercises/01_exercise.js:17-18 | a goblin hit for 40 is left at -10 health |
| EnemyFactory.Turn | 10_exercises/01_exercise.js:72-75 | an enemy's turn logs its attack, then takes 10 damage and logs the health left |
| EnemyFactory.GameExample | 10_exercises/01_exercise.js:66-75 | the goblin, orc and dragon each log two lines and are left with 20, 50 and 190 health |
| LazyImage.RealImage.constructor | 10_exercises/06_exercise.js:9-12 | a real image is for the given file; the load it prints is the `Loading` event of the proxy's display |
| LazyImage.RealImage.Display | 10_exercises/06_exercise.js:18-20 | a real image's display logs that file being displayed |
| LazyImage.DisplayEvents | 10_exercises/06_exercise.js:30-36 | every display ends by displaying the file, and loads first exactly when nothing was loaded |
| LazyImage.ProxyImage.constructor | 10_exercises/06_exercise.js:25-28 | a new proxy is for the given file and has loaded nothing |
| LazyImage.ProxyImage.Display | 10_exercises/06_exercise.js:30-36 | the first display creates the real image, which loads, and later ones reuse it; every display displays the file |
| LazyImage.LoadedDisplaysOnly | 10_exercises/06_exercise.js:30-36 | once the image is loaded, every display only displays |
| LazyImage.LoadsAtMostOnce | 10_exercises/06_exercise.js:30-36 | a new proxy loads exactly once, before its first display, however often it is displayed |
| LazyImage.ClientCode | 10_exercises/06_exercise.js:40-49 | nothing loads until the first display; `photo1.png` loads once for two displays, then `photo2.png` loads and displays |
| SingletonLogger.Entry | 10_exercises/02_exercise.js:22-23 | an entry is the timestamp in brackets, a space and the message, and both can be read back from it |
| SingletonLogger.EntryInjective | 10_exercises/02_exercise.js:23 | entries with timestamps of one length are equal only for equal timestamps and messages |
| SingletonLogger.Logger.constructor | 10_exercises/02_exercise.js:17 | the first instance starts with no logs |
| SingletonLogger.Logger.Log | 10_exercises/02_exercise.js:21-26 | logging appends exactly one entry and prints it |
| SingletonLogger.Logger.GetLogs | 10_exercises/02_exercise.js:28-30 | every entry is returned, in the order logged |
| SingletonLogger.LoggerClass.constructor | 10_exercises/02_exercise.js:11 | before any `new Logger()` there is no instance |
| SingletonLogger.LoggerClass.New | 10_exercises/02_exercise.js:12-19 | the first `new Logger()` records a new logger with no logs; every later one returns that same logger, logs and all |
| SingletonLogger.ExampleUsage | 10_exercises/02_exercise.js:35-42 | both `new Logger()` calls give the same instance, which holds both entries in call order |
| SingletonLogger.SameLine | 10_exercises/02_exercise.js:41 | the identity check prints `Logger1 === Logger2 ? ` and the result |
| CompressionClosures.ZipCompressionStrategy | 08_strategy/solution.js:1-5 | the ZIP strategy answers with a `Compressed using ` message |
| CompressionClosures.GzipCompressionStrategy | 08_strategy/solution.js:7-11 | the GZIP strategy answers with a `Compressed using ` message |
| CompressionClosures.StrategiesIgnoreData | 08_strategy/solution.js:1-11 | both strategies ignore their data, and they answer differently from each other |
| CompressionClosures.Context.constructor | 08_strategy/solution.js:23 | the context holds the given strategy |
| CompressionClosures.Context.SetStrategy | 08_strategy/solution.js:24-26 | later compressions use the new strategy |
| CompressionClosures.Context.Compress | 08_strategy/solution.js:28-30 | a compression is the current strategy applied to the data |
| CompressionClosures.ExampleUsage | 08_strategy/solution.js:36-42 | the same data is compressed with ZIP, then with GZIP after the switch |
| CompressionClasses.CompressWith | 08_strategy/solution2.js:1-18 | the base strategy, and only it, throws its message naming the data; the others return `Compressed ` followed by the data |
| CompressionClasses.CompressInjective | 08_strategy/solution2.js:7-18 | each concrete strategy gives different results for different data |
| CompressionClasses.CompressionContext.constructor | 08_strategy/solution2.js:21-23 | the context holds the given strategy |
| CompressionClasses.CompressionContext.SetStrategy | 08_strategy/solution2.js:24-26 | later compressions use the new strategy |
| CompressionClasses.CompressionContext.Compress | 08_strategy/solution2.js:27-29 | a compression does whatever the current strategy does, throwing included |
| CompressionClasses.ExampleUsage | 08_strategy/solution2.js:31-37 | the data is compressed with ZIP, then with GZIP after the switch, and neither throws |
| Prototype.JsObject.Create | 01A_prototypePattern/prototype.js:25 | `Object.create(proto)` makes an object with that prototype and no own properties |
| Prototype.JsObject.Clone | 01A_prototypePattern/prototype.js:11-13 | a clone has the original as its prototype and no own properties, so it reads every property as the original does |
| Prototype.JsObject.Assign | 01A_prototypePattern/prototype.js:26-27 | an assignment sets that own property and no other |
| Prototype.GetIsNearest | 01A_prototypePattern/prototype.js:14-16 | a property read yields the value of the nearest object on the prototype chain that owns it, and `undefined` exactly when none does |
| Prototype.ReadThrough | 01A_prototypePattern/prototype.js:38-40 | a property an object does not own is read from its prototype as the prototype holds it now |
| Prototype.OwnShadows | 01A_prototypePattern/prototype.js:43-45 | an own property shadows whatever the prototype chain holds |
| Prototype.DocumentTemplatePrototype | 01A_prototypePattern/prototype.js:10-17 | the template prototype has no title or content anywhere on its chain |
| Prototype.CreateDocumentTemplate | 01A_prototypePattern/prototype.js:24-30 | a new template lies over the prototype and reads the given title and content |
| Prototype.CloneAndShadow | 01A_prototypePattern/prototype.js:32-48 | a clone made before the master's assignments shows the master's new values; a clone that assigns its own shows those |
| Prototype.ClientCode | 01A_prototypePattern/prototype.js:32-48 | the finance report shows what the master shows, the finance title and content, and the HR report its own |
| JsMap.Lookup | 05_composite/mapUseCase.js:33-37 | `get` yields a value exactly for a present key |
| JsMap.Set | 05_composite/mapUseCase.js:41 | `set` on a present key keeps its position and on a new key appends it; the key then maps to the new value, every other key keeps its value, and keys stay unique |
| JsMap.Delete | 05_composite/mapUseCase.js:90 | `delete` removes the key from the key order and its value, and every other key keeps its value |
| JsMap.DeleteValid | 05_composite/mapUseCase.js:129 | deleting keeps keys unique and shrinks the map by one exactly when the key was present |
| JsMap.SetNewKey | 05_composite/mapUseCase.js:94 | `set` of a new key appends an entry |
| JsMap.DeleteAbsent | 05_composite/mapUseCase.js:90 | deleting an absent key changes nothing |
| JsMap.DeleteJustSet | 05_composite/mapUseCase.js:94 | setting a new key and deleting it restores the map exactly |
| JsMap.MoveToBack | 05_composite/mapUseCase.js:128-130 | deleting a present key and setting it again moves it to the end of the key order and keeps every value |
| JsMap.DeleteOldest | 05_composite/mapUseCase.js:140-141 | deleting the first key of `keys()` drops it from the front of the key order |
| Seqs.Add | 05_composite/problem.js:29-31 | `Set.add` keeps the earlier elements in front, adds the element at most once and keeps elements unique |
| Seqs.AddAll | 05_composite/problem.js:29-31 | adding many elements keeps the earlier ones in front and keeps elements unique |
| Seqs.AddAllMembers | 05_composite/problem.js:29-31 | after adding, the set holds exactly the old elements and the new ones |
| Seqs.Dedup | 05_composite/solution2.js:68 | `Array.from(new Set(xs))` has no repeats |
| Seqs.DedupMembers | 05_composite/solution2.js:68 | and it holds exactly the elements of `xs` |
| Seqs.RemoveAll | 07_observer/stock_price_update.js:11 | a `filter` on `!==` leaves no occurrence of the element, and changes nothing when it was absent |
| Seqs.RemoveAllMembers | 07_observer/stock_price_update.js:11 | the filter keeps exactly the other elements |
| Seqs.Reverse | 09_command/problem.js:36 | `reverse()` puts the element at each position at the mirrored position |
| Seqs.ReverseAppend | 09_command/problem.js:36 | reversing two parts in turn puts the second part first, each reversed |
| Strings.IntToString | 01_factory/solution.js:2 | a number's text starts with a minus sign exactly when it is negative |
| Strings.ParseNatToString | 01_factory/solution.js:2 | a non-negative number can be read back from its decimal text |
| Strings.Join | 05_composite/solution2.js:80 | `join` of no elements is empty and of one element is that element |
| Strings.JoinSnoc | 05_composite/solution2.js:80 | joining one more element appends the separator and that element, so `join` builds from left to right |
| Strings.JoinLength | 05_composite/solution2.js:80 | the joined string is as long as all elements together plus one separator between each two neighbours |

## Left out

- Console output is not real I/O. Each operation returns its lines (or trace events), and a demo returns the lines its script prints.
- The clock is not modelled. `Date.now()` and `new Date().toISOString()` are parameters. `cachedTimeBound` reads the clock twice (05_composite/mapUseCase.js:85 and 94), so it takes two readings.
- `setTimeout` is not modelled. `MemoCache.TimeBoundDemo` takes the moment the timer fires as a parameter, and only requires it to be at least 5000 ms after the first call stored its entry.
- Object identity is modelled by Dafny references, or by explicit ids where the code keys a `Map` by a function or role object: `FnId` for memoised functions, `RoleObject.id` for role objects. A JavaScript `Map` keyed by an object is an insertion-ordered association list (`JsMap`).
- Plain-object key quirks are not modelled. Processor tables, caches, the emitter's event table and the role tables are maps from string keys. So `processors["constructor"]` (01_factory/solution.js:16), key coercion to strings (06_proxy/solution.js:10) and inherited property names such as `toString` used as event or role names behave as absent keys.
- Numbers are unbounded integers. Prices, costs, temperatures, sizes and amounts are never fractional in the code, and no floating point is modelled.
- The "System State" dump (05_composite/mapUseCase.js:58-62) is not modelled, because it prints the `Map`s through Node's object inspector.
- `MemoCache.UserSystem.CachedTimeBound` tags what `cached` stores (`Plain`) apart from its own `{ value, expiry }` records (`Stamped`) and never treats a `Plain` entry as live. JavaScript has no such tag: destructuring a stored `null` or `undefined` result throws a `TypeError`, and a stored object result with a numeric `expiry` later than the clock would be returned as live. No path of the script mixes the two memoizers on one user, function and argument, so this difference is not modelled.
- `MemoCache.UserSystem.Cached`, `MemoCache.UserSystem.CachedTimeBound`, `MemoCache.SizeCache.SizeCached` and `MemoCache.MruCache.CachedMru`: their console lines ("Returning cached result…", "expired, recomputing...", "cache hit:", "removed oldest key:" and the fetchers' "Fetching…" lines) are not returned. The count `calls` of function invocations and the returned value stand in for them, and the demos state the values the script prints.
- `CacheProxy.Proxy.FetchData`: the "Returning cached data…" / "cache hit…" lines of the proxies and the "Fetching…" lines of the services are not returned. The count `calls` of service invocations stands in for them.
- `WeatherStation.Station.NotifyObservers` requires a stored reading. Before any `setWeather` the code passes `null` to every observer, and the concrete observers then throw on reading its fields. Only `setWeather` calls `notifyObservers` in the code, so that path is not modelled.
- `TodoModel.getTodos` (11_Architectural_Patterns/MVC.js:19-21) is not a separate member. Each caller reads the `todos` field directly.
- The bare `Command` interface (10_exercises/09_exercise.js:10-13) is not a command kind, because no code ever instantiates it.
- The stray `r;` at 10_exercises/09_exercise.js:151 is not modelled. It throws a `ReferenceError` that ends the demo script.
- `SmartHome.ClientCode` does not return the "--- Undoing last 2 commands ---" header line (10_exercises/09_exercise.js:149).
- `ImmutableRoles.CountWords`: the printed object's layout (05_composite/solution2.js:121) is not modelled. The count is a map from each word to its number of occurrences, with the keys in first-occurrence order. A plain object enumerates integer-like keys first, in ascending order (`["b", "1", "a"]` gives `1, b, a`), so the key order stated holds only for words that are not integer-like, as in the script.
- `WeatherStation.UpdatedLine`: `JSON.stringify` is modelled only for conditions that need no escaping.
- The sorts' console messages (10_exercises/08_exercise.js) are not returned. Each sort returns only the sorted sequence.
- `Sorting.Merge` works on values. `shift` draining the argument arrays is modelled by consuming two sequences, so the emptied caller arrays are not modelled.
- Acyclic role graphs and directory trees are assumed. The recursive collectors and displays would not terminate on a cycle, so `RoleGraph` requires a rank map that orders every `inherits` edge, and `FileSystem` requires a depth bound on the directory tree (`Finite`).
- `PizzaToppings.AddTopping`: currying is a function of two arguments, and the fresh object it returns is a value. Inputs are therefore unchanged by construction rather than by proof.
- The logger's "All logs:" print of the log array (10_exercises/02_exercise.js:42) is not modelled. `SingletonLogger.ExampleUsage` returns the log array itself.
- `Prototype.JsObject`: the template's `toString` method is modelled as a function of the object's resolved `title` and `content`. It is not a property that is inherited along the chain.
- The exact text of the role displays' demo output is not spelled out. The demo members prove its shape (line counts, order, which role each line names) rather than every character.
- Server and HTTP examples, the asynchronous notification adapters, the wrapper around Node's `events` module and the comment-only MVVM file are not part of this model. They consist of calls into libraries and the network.

## Findings

| source | as written | input that shows it | evidently intended | confidence | as-written member | corrected member |
|---|---|---|---|---|---|---|
| 03_decorator/solution2.js:86-91 | `HotSauce` reads `this.pizza`, but the inherited constructor sets `this.Pizza`, so `getPrice` and `getDescription` read a property of `undefined` | `new HotSauce(new Pizza()).getPrice()` throws "Cannot read properties of undefined (reading 'getPrice')" | price 11, the basic 10 plus the hot sauce's 1, and the wrapped description followed by `, hot sauce` | not executed | PizzaDecorators.HotSauceThrows | PizzaDecorators.IntendedPriceIsSum |
