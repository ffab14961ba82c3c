# Verified models of the zlink sample services

This project models the parts of the sample services that hold real state machines, protocols or
arithmetic, and proves what they promise.

| file | what it models |
|---|---|
| `orders`, `order_document` | the ShoppingMall order workflow: functions on the shared document, and the class that changes it in place |
| `order_laws`, `order_stock`, `order_runs`, `order_cuts`, `order_hooks`, `order_repeats`, `order_outcomes`, `order_floor`, `order_concurrency` | what holds in every document any interleaving of calls reaches, and what clients are shown of it |
| `state_store` | the Redis lock and update protocol that makes one call atomic |
| `commerce_api`, `shop` | idempotency keys and order ids, and the API and the workflow on their shared state |
| `numerals`, `strings`, `arith`, `binary64`, `decimal`, `decimal_wire` | amounts: normal form of decimals, and their way through a binary64 JSON number |
| `quest`, `quest_store`, `quest_proofs`, `quest_answers`, `quest_order`, `quest_cache`, `game_api` | the GameQuest event stream, its projection cache and the edge that feeds it |
| `dispatch`, `dispatch_protocol`, `dispatch_proofs`, `dispatch_counts`, `dispatch_effects` | DeliveryDispatch offers, courier actors and the lossy network between them |
| `evidence` | the recorded delivery statuses and `has_sequence` |
| `framing`, `command44`, `proxy` | the ZMP proxy: incremental frame parser, command-44 reader, message filter |

Code that changes things step by step is a class or a method with loops, proved against functions; the
functions are then what the lemmas speak about. A call that throws is a function returning `None` or
`Err`, and a document change that throws is not saved. Protocols are labelled steps: `Next` gives the
step of a label, `Execute` or `Run` the state after a list of them, and the theorems quantify over all
lists.

Assumptions stated in the model:

- A lock token is unique (the code draws a clock reading and 64 random bits).
- A Redis command that is answered, or whose connection breaks, has taken effect by then or never will.
- Each delivery id is assigned once; closing a delivery erases its record, so a second assignment of
  the same id would start again at attempt 1.
- Reading the seed of a SKU that is not stocked throws, since a JSON null has no fields; this is the
  JSON library's behaviour and not part of this repository.
- JSON numbers round to nearest, ties to even (section 4.3.1 of IEEE 754-2019).

Where the code does not do what one may expect, the model keeps the code and proves when it matters:

- `reserve` looks at each line alone: an order with one SKU on two lines can take stock below zero
  (`OrderHooks.RepeatedSkuOversellsInARun`). A line with a negative quantity can do the same when it is
  released. The exact conditions for one reservation and one release are in
  `OrderFloor.TakeStaysNonNegativeExactly` and `OrderFloor.GiveStaysNonNegativeExactly`; with
  non-negative quantities and each SKU once per order neither happens
  (`OrderFloor.StockStaysNonNegative`).
- A reservation whose lines are covered but name a SKU that is not stocked (so with a quantity of zero
  or less) throws, and throws again while its lines stay covered (`OrderHooks.UnknownSkuThrowsInARun`;
  exact condition in `OrderCuts.ContinueEndsOrThrows`).
- When the lock's 30 seconds pass while its holder still works and another caller acquires, an update
  can be lost. Updates are atomic when every caller finishes in time, and more sharply when none
  acquires while another works (`StateStore.TimelyUpdatesAreAtomic`, `StateStore.UpdatesAreAtomic`);
  wherever callers overlap, the first can still store its document last, which is not what the functions
  in order make exactly when the second changes what the first made (`StateStore.OverlapCanLose`).
- From the 10000th order on, building the id throws (`CommerceApi.IdsUpTo9999`).
- A kill sent with an idempotency key that spells a snapshot id blocks that snapshot
  (`QuestCache.KillKeyCanBlockSync`; exact condition in `QuestCache.SyncReachesExactlyWhen`).
- A snapshot that was dropped can take effect when delivered again, if a kill with a negative count
  came in between (`QuestOrder.NegativeKillRevivesSnapshot`; exact condition in
  `QuestProofs.RedeliveryIsNothingExactly` and `QuestOrder.ExactlyOnceExactly`). The game edge sends
  every kill with the count 1, so its own traffic has none; negative item counts, which it passes on,
  do no harm.
- The edge's snapshot counts kills of every monster and unpublished kills, the quest counts wolves;
  `GameApi.OwnerAgreesExactly` says when the two agree.
- A delivery whose id begins another's line can be credited with the other's statuses
  (`Evidence.ColonIdsConfuse`; exact condition in `Evidence.HasSequenceIsRightExactly`).

## Model

| member | source | states |
|---|---|---|
| OrderDocument.CommerceDocument.AppendEvent | samples/ShoppingMall/Server/Common/workflow_logic.hpp:42-63 | an event is stored under the next version exactly when the expected version is the stream's length; otherwise nothing changes |
| OrderDocument.CommerceDocument.FoldStream | samples/ShoppingMall/Server/Common/workflow_logic.hpp:93-134 | the loop over the stream gives the fold of all its events |
| OrderDocument.CommerceDocument.SaveProjection | samples/ShoppingMall/Server/Common/workflow_logic.hpp:138-165 | only the order's read model changes, to the projection of its fold |
| OrderDocument.CommerceDocument.Rebuild | samples/ShoppingMall/Server/Common/workflow_logic.hpp:168-175 | throws exactly for an order without events, else restores the projection |
| OrderDocument.CommerceDocument.FindShort | samples/ShoppingMall/Server/Common/workflow_logic.hpp:202-212 | stops at the first line not covered by the stock, an unknown SKU counting as zero |
| OrderDocument.CommerceDocument.TakeLines | samples/ShoppingMall/Server/Common/workflow_logic.hpp:213-218 | subtracts line after line, and throws exactly when a SKU is not stocked |
| OrderDocument.CommerceDocument.GiveLines | samples/ShoppingMall/Server/Common/workflow_logic.hpp:235-241 | adds line after line, and throws exactly when a SKU is not stocked |
| OrderDocument.CommerceDocument.Reserve | samples/ShoppingMall/Server/Common/workflow_logic.hpp:186-224 | answers a known reservation id with its first result; otherwise takes all lines or none and records the outcome |
| OrderDocument.CommerceDocument.Release | samples/ShoppingMall/Server/Common/workflow_logic.hpp:227-244 | gives the recorded lines back once, whether or not the reservation was accepted |
| OrderDocument.CommerceDocument.Authorize | samples/ShoppingMall/Server/Common/workflow_logic.hpp:250-279 | answers a known payment id with its first result; otherwise decides by the payment method and records payment and failed attempt |
| OrderDocument.CommerceDocument.AdvanceOnce | samples/ShoppingMall/Server/Common/workflow_logic.hpp:297-414 | one step in place is the step the fold of the stream names; it tells moving, staying and throwing apart |
| OrderDocument.CommerceDocument.CommandApplied | samples/ShoppingMall/Server/Common/workflow_logic.hpp:434-445 | true exactly when the id is not empty and some event of the order bears it |
| OrderDocument.CommerceDocument.RunWorkflow | samples/ShoppingMall/Server/Common/workflow_logic.hpp:447-476 | the step loop with its breaks is the recursive definition, for every step limit |
| OrderDocument.CommerceDocument.Update | samples/ShoppingMall/Server/OrderWorkflow/main.cpp:87-159 | every call changes the stored document as specified, and leaves it alone when it throws |
| OrderLaws.AmountKept | samples/ShoppingMall/Shared/Contracts/decimal_amount.hpp:23-59 | an accepted amount is written as exactly the number it was read from, so the fold never throws on it |
| OrderLaws.FoldIsSummary | samples/ShoppingMall/Server/Common/workflow_logic.hpp:93-134 | a legal stream folds to an aggregate that can be read off its first three events and its length |
| OrderLaws.IdsInjective | samples/ShoppingMall/Server/Common/workflow_logic.hpp:286-294 | two orders never share a reservation or payment id |
| OrderLaws.ReserveAdvances | samples/ShoppingMall/Server/Common/workflow_logic.hpp:327-347 | at Created one event and one reservation are added and the stock moves as the reservation says; nothing of any other order changes |
| OrderLaws.AuthorizeAdvances | samples/ShoppingMall/Server/Common/workflow_logic.hpp:349-374 | at InventoryReserved one event and one payment are added, with the started amount; nothing else changes |
| OrderLaws.ReleaseAdvances | samples/ShoppingMall/Server/Common/workflow_logic.hpp:387-397 | after a failed payment one event and one release are added and the order's lines go back |
| OrderLaws.ReportAdvances | samples/ShoppingMall/Server/Common/workflow_logic.hpp:377-409 | confirming and failing only append their event |
| OrderLaws.StartAdvances | samples/ShoppingMall/Server/Common/workflow_logic.hpp:302-320 | the first event needs a start command, throws exactly for an amount from_wire refuses, and touches no stock |
| OrderLaws.AdvanceAdvances | samples/ShoppingMall/Server/Common/workflow_logic.hpp:297-414 | for a sound order the step stays exactly when the order is finished and otherwise follows an independent description that looks only at its event bodies and the stock |
| OrderStock.TakeChanges | samples/ShoppingMall/Server/Common/workflow_logic.hpp:213-218 | each SKU goes down by the total its lines ask for, and no SKU appears or disappears |
| OrderStock.GiveChanges | samples/ShoppingMall/Server/Common/workflow_logic.hpp:235-241 | giving back stocked lines never throws and raises each SKU by the total of its lines |
| OrderStock.HeldMoves | samples/ShoppingMall/Server/Common/workflow_logic.hpp:186-244 | touching one reservation id moves the held total by that id's own share |
| OrderStock.NextHolds | samples/ShoppingMall/Server/Common/workflow_logic.hpp:322-414 | a step moves stock between shelf and order and nothing else |
| OrderRuns.AdvanceKeeps | samples/ShoppingMall/Server/Common/workflow_logic.hpp:297-414 | every step keeps the order sound, the others untouched and the stock balanced; it stays or throws only in the named cases |
| OrderRuns.CallKeeps | samples/ShoppingMall/Server/OrderWorkflow/main.cpp:87-159 | every call keeps all orders sound and the stock balanced |
| OrderRuns.ReachableIsGood | samples/ShoppingMall/Server/OrderWorkflow/main.cpp:87-159 | so does any interleaving of calls for any number of orders |
| OrderRuns.StockIsConserved | samples/ShoppingMall/Server/Common/workflow_logic.hpp:186-244 | in every reachable document available stock plus what accepted, unreleased reservations hold is the initial stock, SKU by SKU |
| OrderRuns.OrdersFollowTheSaga | samples/ShoppingMall/Server/Common/workflow_logic.hpp:297-414 | in every reachable document a stream is a beginning of one of three sequences, numbered 1..n; reservation, payment and release exist exactly when their events do; a read model is the projection of the fold |
| OrderRuns.NothingIsRepeated | samples/ShoppingMall/Server/Common/workflow_logic.hpp:190-261 | the branches for a repeated effect, a version conflict, an unreadable amount and an unknown SKU on release are never reached from a step |
| OrderRuns.RebuildRestores | samples/ShoppingMall/Server/Common/workflow_logic.hpp:168-175 | deleting a projection and rebuilding it gives back the same document |
| OrderCuts.RunStepsEvolves | samples/ShoppingMall/Server/Common/workflow_logic.hpp:459-473 | a loop of max steps takes some number of the order's own steps, all it can without a hook, and throws only at the first |
| OrderCuts.CallEvolves | samples/ShoppingMall/Server/OrderWorkflow/main.cpp:87-159 | a call moves a started order some number of its own steps; calls on other orders that leave the stock alone move it none |
| OrderCuts.RestsWithin | samples/ShoppingMall/Server/Common/workflow_logic.hpp:322-414 | four steps bring any started order to rest |
| OrderCuts.CutsDoNotMatter | samples/ShoppingMall/Server/Common/workflow_logic.hpp:447-476 | however an order's calls are cut, with any limits, ids and hooks, once it has ended its events, records, public state and the stock are those of one uninterrupted call |
| OrderCuts.ContinueEndsOrThrows | samples/ShoppingMall/Server/OrderWorkflow/main.cpp:153-159 | a 16-step continue whose id is empty or borne by no event of the order, with no hook, ends Confirmed or Failed, unless the lines are covered and one names an unknown SKU; then and only then it throws |
| OrderCuts.FailureCostsNothing | samples/ShoppingMall/Server/Common/workflow_logic.hpp:322-414 | a new order is confirmed exactly when it is covered and its method pays, and takes exactly its lines; a failed order leaves the stock as it was |
| OrderCuts.GiveUndoesTake | samples/ShoppingMall/Server/Common/workflow_logic.hpp:213-241 | releasing undoes reserving, duplicate SKUs and negative quantities included |
| OrderCuts.TakeFailsExactly | samples/ShoppingMall/Server/Common/workflow_logic.hpp:213-218 | taking throws exactly when some line's SKU is not stocked |
| OrderHooks.FirstStartAnswersCreated | samples/ShoppingMall/Server/OrderWorkflow/main.cpp:87-105 | the first start of an order stores its one event, touches no stock and answers Created; it throws exactly for an amount from_wire refuses |
| OrderHooks.PreparedOrderWaits | samples/ShoppingMall/Server/CommerceApi/main.cpp:142-172 | with the hook set before the start, the start stops at Created, the scheduled continue reserves the lines and waits there, and with the hook cleared the order ends |
| OrderHooks.RepeatedSkuOversellsInARun | samples/ShoppingMall/Server/Common/workflow_logic.hpp:202-218 | from the seeded stock, an order with one SKU on two lines, each for all there is, ends confirmed and leaves the negative of it |
| OrderHooks.UnknownSkuThrowsInARun | samples/ShoppingMall/Server/Common/workflow_logic.hpp:213-218 | an order whose lines are covered while one names an unknown SKU can be started; continued, it throws and the document stays as it was |
| OrderHooks.HookHolds | samples/ShoppingMall/Server/Common/workflow_logic.hpp:417-431 | a loop takes no step where the hook names the folded status |
| OrderRepeats.AdvanceSigns | samples/ShoppingMall/Server/Common/workflow_logic.hpp:42-63 | whatever step is taken stores exactly one event, under the call's command id |
| OrderRepeats.RepeatChangesNothing | samples/ShoppingMall/Server/Common/workflow_logic.hpp:434-476 | repeating run_workflow at once with the same non-empty id, limit and hooks changes nothing at all |
| OrderRepeats.CallExtends | samples/ShoppingMall/Server/Common/workflow_logic.hpp:42-63 | no call removes or changes an event of any order, its id, version, command id and body included |
| OrderRepeats.StatusNeverGoesBack | samples/ShoppingMall/Server/Common/workflow_logic.hpp:138-158 | no call moves an order's public status backwards, compensation included |
| OrderRepeats.RunNeverGoesBack | samples/ShoppingMall/Server/Common/workflow_logic.hpp:138-158 | along any run the public status never goes back, and once Confirmed or Failed an order's events and state are final |
| OrderOutcomes.CurrentStateShows | samples/ShoppingMall/Server/Common/workflow_logic.hpp:138-158 | the public state, spelled out per last event: ids from the event on that reports them, the failing event's reason, the started address, amount and currency |
| OrderOutcomes.ReadModelsShow | samples/ShoppingMall/Server/Common/workflow_logic.hpp:160-175 | in every reachable document every read model shows its order's events so |
| OrderOutcomes.AppliedCommandOnlySaves | samples/ShoppingMall/Server/Common/workflow_logic.hpp:434-457 | a non-empty command id that some event of the order bears changes nothing but the order's read model |
| OrderOutcomes.StartStoresFirstEvent | samples/ShoppingMall/Server/OrderWorkflow/main.cpp:146-151 | the first start stores event 1 under its own command id, or under one made of its key |
| OrderOutcomes.RedeliveredStartChangesNothing | samples/ShoppingMall/Server/Common/workflow_logic.hpp:434-457 | a start that comes again under its id, at any later time and after any calls, changes at most the order's read model, and nothing where there is one |
| OrderOutcomes.NewOrderEnds | samples/ShoppingMall/Server/Common/workflow_logic.hpp:297-414 | a new order continued without a hook shows Confirmed with both ids when every line is covered and the method pays, Failed naming the first short line without ids, or Failed for the method's reason with the reservation id |
| OrderOutcomes.FirstReservation | samples/ShoppingMall/Server/Common/workflow_logic.hpp:202-224 | a reservation refuses naming the first line that is short and takes nothing, or takes every line, and throws exactly when a line's SKU is not stocked |
| OrderOutcomes.FirstRelease | samples/ShoppingMall/Server/Common/workflow_logic.hpp:227-244 | a release raises each SKU by the recorded lines and throws exactly when one of them names a SKU that is not stocked |
| OrderOutcomes.FirstAuthorization | samples/ShoppingMall/Server/Common/workflow_logic.hpp:250-279 | a payment is recorded as its method answers, an unknown method refusing, and a refusal also as a failed attempt; it throws exactly for an amount from_wire refuses |
| OrderOutcomes.ReserveAgain | samples/ShoppingMall/Server/Common/workflow_logic.hpp:186-199 | reserving again under an id, whatever is asked for, answers as at first and changes nothing |
| OrderOutcomes.AuthorizeAgain | samples/ShoppingMall/Server/Common/workflow_logic.hpp:250-262 | authorizing again under an id, by any method and for any readable amount, answers as at first and changes nothing |
| OrderOutcomes.ReleaseAgain | samples/ShoppingMall/Server/Common/workflow_logic.hpp:227-234 | a second release, and one of a reservation never made, changes nothing |
| OrderOutcomes.DeletedIsGone | samples/ShoppingMall/Server/CommerceApi/main.cpp:175-182 | deleting takes the order's read model away and nothing else; rebuilding throws exactly for an order without events |
| OrderConcurrency.ConcurrentCallsAreARun | samples/ShoppingMall/Server/Common/store.hpp:36-56 | workflow calls that run concurrently without overlapping leave a document some sequence of calls leaves |
| OrderConcurrency.ConcurrentStockIsConserved | samples/ShoppingMall/Server/Common/store.hpp:36-56 | so concurrent calls that each finish within the lock's time keep every order sound and the stock conserved |
| OrderFloor.CoveredLineByLine | samples/ShoppingMall/Server/Common/workflow_logic.hpp:202-212 | the check accepts exactly the lines that are each covered alone |
| OrderFloor.TakeStaysNonNegativeExactly | samples/ShoppingMall/Server/Common/workflow_logic.hpp:202-218 | an accepted reservation leaves no SKU negative exactly when no SKU's lines together ask for more than there is |
| OrderFloor.GiveStaysNonNegativeExactly | samples/ShoppingMall/Server/Common/workflow_logic.hpp:235-241 | a release leaves no SKU negative exactly when no SKU's lines together are more negative than its stock makes up for |
| OrderFloor.RepeatedSkuOversells | samples/ShoppingMall/Server/Common/workflow_logic.hpp:202-218 | two lines of one SKU, each for all there is, are accepted and leave the negative of it |
| OrderFloor.StockStaysNonNegative | samples/ShoppingMall/Server/Common/workflow_logic.hpp:186-244 | with non-negative quantities and each SKU once per order, no interleaving of calls takes stock below zero |
| StateStore.ReleaseSparesOthers | samples/ShoppingMall/Server/Common/store.hpp:117-131 | in every run, expired locks included, a release never removes another caller's lock |
| StateStore.UpdatesAreAtomic | samples/ShoppingMall/Server/Common/store.hpp:36-56 | in every run in which nobody acquires while another works, expired locks or not, the document is the finished functions applied in acquisition order, throwing ones skipped, and no two callers work at once |
| StateStore.HeldLocksDoNotOverlap | samples/ShoppingMall/Server/Common/store.hpp:96-132 | while no lock expires under its holder, nobody acquires while another works |
| StateStore.TimelyLocksHold | samples/ShoppingMall/Server/Common/store.hpp:99-113 | while every caller saves or gives up within 30 seconds of its lock, no lock expires under its holder |
| StateStore.TimelyUpdatesAreAtomic | samples/ShoppingMall/Server/Common/store.hpp:36-56 | so updates are atomic when every caller finishes within 30 seconds |
| StateStore.OverlapCanLose | samples/ShoppingMall/Server/Common/store.hpp:99-113 | wherever a second caller can acquire while a first works, the run can go on so that both finish and the first's document is stored; that is not what the functions in order make exactly when the second changes what the first made |
| StateStore.ExpiryCanLoseAnUpdate | samples/ShoppingMall/Server/Common/store.hpp:99-113 | any two functions have a run in which a lock expires under its holder and only the first function's document is stored; it differs from the functions in order exactly when the second changes it |
| StateStore.UpdateTakesEffect | samples/ShoppingMall/Server/Common/store.hpp:36-49 | an update whose function does not throw, with no other caller's step in between, leaves what its function makes of the document, the lock free and its entry done |
| StateStore.ThrowingUpdateSavesNothing | samples/ShoppingMall/Server/Common/store.hpp:36-49 | one whose function throws leaves the document as it was and the lock free |
| StateStore.AbandonedLockExpires | samples/ShoppingMall/Server/Common/store.hpp:99-132 | a lock nobody will release keeps every caller out for the rest of its 30 seconds, and no longer |
| StateStore.OnlySavesStore | samples/ShoppingMall/Server/Common/store.hpp:36-56 | only a save changes the document; only acquiring, a release and an expiry change the lock |
| StateStore.OutcomesAreKnown | samples/ShoppingMall/Server/Common/store.hpp:36-132 | in every run, expired locks included, an acquisition is pending exactly while its caller works on it |
| StateStore.RedisStateStore.AcquireLock | samples/ShoppingMall/Server/Common/store.hpp:99-113 | takes a free or expired lock within ten seconds, and gives up only while the lock outlived the last try |
| StateStore.RedisStateStore.Update | samples/ShoppingMall/Server/Common/store.hpp:36-49 | a call that gets the lock applies its function to what it found and saves unless it throws, however long it takes; when its lock ran out it overwrites what another stored and spares the other's lock; a call without the lock changes nothing |
| CommerceApi.OrderNumberOfId | samples/ShoppingMall/Server/CommerceApi/main.cpp:46-56 | the number can be read back from a padded order id, so ids of different numbers differ |
| CommerceApi.IdsUpTo9999 | samples/ShoppingMall/Server/CommerceApi/main.cpp:46-56 | an id exists exactly for the first 9999 numbers |
| CommerceApi.IdIsPadded | samples/ShoppingMall/Server/CommerceApi/main.cpp:52-54 | an id is "order-" and four digits that denote its number |
| CommerceApi.StartThrowsExactly | samples/ShoppingMall/Server/CommerceApi/main.cpp:46-78 | a start request throws exactly for an unknown cart, or when its key is new and all ids are given out |
| CommerceApi.FirstStart | samples/ShoppingMall/Server/CommerceApi/main.cpp:48-77 | a new key gets the next number's id, and its order is not started before and is afterwards |
| CommerceApi.FirstOrder | samples/ShoppingMall/Server/CommerceApi/main.cpp:48-55 | the first order ever started is order-0001 |
| CommerceApi.PlanKnowsStart | samples/ShoppingMall/Server/CommerceApi/main.cpp:57-77 | in every run a plan says already started exactly when a start request of the key went through and no create-pending took its order away since |
| CommerceApi.KeyKeepsIdExactly | samples/ShoppingMall/Server/CommerceApi/main.cpp:46-78 | over any interleaving of calls a mapped key keeps its order id exactly when no create-pending for it goes through |
| CommerceApi.KeysDoNotShareEffects | samples/ShoppingMall/Server/CommerceApi/main.cpp:46-156 | in every reachable state different keys have different orders, reservations and payments |
| CommerceApi.StartingAgain | samples/ShoppingMall/Server/CommerceApi/main.cpp:46-78 | a second start of a key, whatever happens between, plans the same command and knows it was started |
| Shop.OneOrderExactly | samples/ShoppingMall/Server/CommerceApi/main.cpp:46-156 | in every run of API and workflow together, all commands ever sent for a key are for the one order it has exactly when no create-pending took its order away after a command was sent |
| Shop.OneEffectPerKey | samples/ShoppingMall/Server/CommerceApi/main.cpp:46-156 | then all the orders ever started for the key, with requests, redeliveries and calls in any order, make at most one reservation and one payment, under the ids of the key's order, which no other key shares |
| Shop.PreparedKeyWaits | samples/ShoppingMall/Server/CommerceApi/main.cpp:142-172 | from any reachable state, preparing a new key, starting and continuing it leaves its order waiting at InventoryReserved with its lines held; clearing the stop and continuing ends it |
| Shop.CallKeepsOwned | samples/ShoppingMall/Server/Common/workflow_logic.hpp:190-261 | every reservation and payment stays filed under the id of its own order |
| CommerceApi.PrepareStopsItsOrderOnly | samples/ShoppingMall/Server/CommerceApi/main.cpp:142-156 | preparing a key stops its own order, under the id it had, and no other key's order |
| CommerceApi.CommerceStore.BuildId | samples/ShoppingMall/Server/CommerceApi/main.cpp:51-55 | pads to four digits, and throws when the padding's length wraps |
| CommerceApi.CommerceStore.Start | samples/ShoppingMall/Server/CommerceApi/main.cpp:46-78 | maps, validates the cart and marks started in one update; an unknown cart or an id that cannot be built saves nothing |
| CommerceApi.CommerceStore.Prepare | samples/ShoppingMall/Server/CommerceApi/main.cpp:142-156 | maps the key like a start and sets the order's stop hook |
| CommerceApi.CommerceStore.CreatePending | samples/ShoppingMall/Server/CommerceApi/main.cpp:121-132 | always allocates, and overwrites what the key had |
| Numerals.ToTextReadsBack | samples/ShoppingMall/Shared/Contracts/decimal_amount.hpp:33-34 | a number written in decimal reads back, without a leading zero |
| Numerals.ToTextIsOnlyNumeral | samples/ShoppingMall/Shared/Contracts/decimal_amount.hpp:33-34 | no other numeral without a leading zero denotes it |
| Decimal.NormalizeParts | samples/ShoppingMall/Shared/Contracts/decimal_amount.hpp:78-99 | stripping zeros in place gives the reduced parts, and refuses exactly what is out of range |
| Decimal.NormalizeText | samples/ShoppingMall/Shared/Contracts/decimal_amount.hpp:61-99 | the text is accepted or refused as specified and normalizes to the specified text |
| Decimal.ParseExactly | samples/ShoppingMall/Shared/Contracts/decimal_amount.hpp:61-83 | accepted are exactly an optional sign, digits, and optionally a point with digits, cut there |
| Decimal.NormalizeMeans | samples/ShoppingMall/Shared/Contracts/decimal_amount.hpp:84-98 | the result is the canonical numeral of the number spelled; out of range exactly when it has more than 28 digits behind the point or more than 29 that count |
| Decimal.InvalidExactly | samples/ShoppingMall/Shared/Contracts/decimal_amount.hpp:61-83 | refused as invalid is exactly what spells no such numeral |
| Decimal.NormalizeIdempotent | samples/ShoppingMall/Shared/Contracts/decimal_amount.hpp:61-99 | a normal form is its own normal form |
| Decimal.NormalizeCanonical | samples/ShoppingMall/Shared/Contracts/decimal_amount.hpp:56-99 | two accepted texts have the same normal form exactly when they denote the same number, so equality of decimals is equality of numbers |
| Binary64.RoundError | samples/ShoppingMall/Shared/Contracts/decimal_amount.hpp:27-28 | rounding to binary64 moves a number by at most half a step of its binade |
| Binary64.UnitOf | samples/ShoppingMall/Shared/Contracts/decimal_amount.hpp:23-34 | the unit of a number's last place is the largest with 53 bits, or the smallest there is |
| Binary64.RoundIsNearest | samples/ShoppingMall/Shared/Contracts/decimal_amount.hpp:23-34 | rounding gives the nearest multiple of that unit, the even one at a tie, or infinity |
| DecimalWire.RoundingStaysUnderHalf | samples/ShoppingMall/Shared/Contracts/decimal_amount.hpp:27-28 | dividing by 100 and multiplying back loses less than one half, so rounding finds the minor units again |
| DecimalWire.AmountSurvives | samples/ShoppingMall/Shared/Contracts/decimal_amount.hpp:23-59 | every number of minor units up to the limit comes back from its wire number |
| DecimalWire.FromWireUndoesToWire | samples/ShoppingMall/Shared/Contracts/decimal_amount.hpp:23-51 | a decimal that can be written is read back as itself |
| DecimalWire.ToWireUndoesFromWire | samples/ShoppingMall/Shared/Contracts/decimal_amount.hpp:23-51 | an accepted number is written back as itself |
| DecimalWire.FromWireAcceptsExactly | samples/ShoppingMall/Shared/Contracts/decimal_amount.hpp:23-35 | accepted are exactly the wire numbers of minor units up to the limit |
| DecimalWire.FromWireRefuses | samples/ShoppingMall/Shared/Contracts/decimal_amount.hpp:23-34 | invalid is exactly what is no finite non-negative number; out of range exactly the others that are no wire number of at most 3518437208883199 minor units |
| DecimalWire.ToWireRefuses | samples/ShoppingMall/Shared/Contracts/decimal_amount.hpp:37-55 | invalid is exactly a negative decimal; out of range exactly one with more than two digits behind the point or more than 3518437208883199 minor units |
| DecimalWire.MinorUnitsDetermine | samples/ShoppingMall/Shared/Contracts/decimal_amount.hpp:37-51 | a decimal that can be written is some number of minor units and is written as their wire number |
| QuestStore.QuestEventStore.Apply | samples/GameQuest/Server/QuestMission/main.cpp:66-130 | stream, cache and answer change as specified for every message, repeats, unknown kinds, dropped and completing ones included |
| QuestStore.QuestEventStore.ReplayStream | samples/GameQuest/Server/QuestMission/main.cpp:228-262 | the loop over the stream gives the folded projection |
| QuestStore.QuestEventStore.DeleteProjection | samples/GameQuest/Server/QuestMission/main.cpp:138-147 | one quest leaves the cache, the stream stays |
| QuestStore.QuestEventStore.RebuildProjection | samples/GameQuest/Server/QuestMission/main.cpp:149-155 | the cache becomes the replayed stream |
| QuestStore.QuestEventStore.RehydrateOwner | samples/GameQuest/Server/QuestMission/main.cpp:157-163 | the cache becomes the replayed stream and the counter goes up |
| QuestStore.QuestEventStore.Sync | samples/GameQuest/Server/QuestMission/main.cpp:367-389 | a positive snapshot is applied as a message of its own, otherwise the cache is returned |
| QuestProofs.AppendEffect | samples/GameQuest/Server/QuestMission/main.cpp:86-119 | an appending message changes its own quest's count and status as the rule says, rewards it at most once, and changes no other quest |
| QuestAnswers.AnswerTellsWhatHappened | samples/GameQuest/Server/QuestMission/main.cpp:66-133 | the answer names a completed quest exactly when its rewards rise, a reconciled one exactly when a Reconciled event of it is stored, and shows the new cache, the replay of a rewarded quest, or the old cache |
| QuestAnswers.MessageCounts | samples/GameQuest/Server/QuestMission/main.cpp:180-195 | what each kind of message makes of each quest's count, with its item, area and limit spelled out |
| QuestAnswers.StoredEventsAre | samples/GameQuest/Server/QuestMission/main.cpp:102-119 | the events stored for a message, field by field: the change of the count, and the completion and the reward when it first meets the requirement |
| QuestAnswers.StoredProgressIs | samples/GameQuest/Server/QuestMission/main.cpp:228-262 | the progress a stored message leaves of its quest, field by field |
| QuestAnswers.ReplayShowsTheLast | samples/GameQuest/Server/QuestMission/main.cpp:228-262 | replaying any stream shows of a quest the last status marked, the last count stated and the source, version and time of its last event |
| QuestAnswers.CountIsSumOfChanges | samples/GameQuest/Server/QuestMission/main.cpp:207-226 | in every run a quest's count is the sum of the changes its stream stores |
| QuestAnswers.DeletionHides | samples/GameQuest/Server/QuestMission/main.cpp:138-147 | deleting hides the quest from that player's cache and changes nothing else |
| QuestAnswers.RehydrationsAreCounted | samples/GameQuest/Server/QuestMission/main.cpp:157-163 | in every run the counter counts the rehydrations of the player's owner |
| QuestProofs.DecideKeepsQuest | samples/GameQuest/Server/QuestMission/main.cpp:86-119 | whatever the counts are, a quest stays active below its requirement and rewarded once at or above it, a reward stays, and a count falls only through a negative message of its own quest |
| QuestProofs.DeliveredIsAbsorbed | samples/GameQuest/Server/QuestMission/main.cpp:66-119 | a message delivered again at once stores nothing |
| QuestProofs.DroppedMessageStays | samples/GameQuest/Server/QuestMission/main.cpp:66-119 | a message that is no snapshot and stores nothing stores nothing after any other message, whatever the counts are |
| QuestProofs.SnapshotAbsorbedExactly | samples/GameQuest/Server/QuestMission/main.cpp:66-101 | a snapshot stores nothing exactly when its id is stored or the first hunt has its count |
| QuestProofs.AbsorbedStays | samples/GameQuest/Server/QuestMission/main.cpp:66-119 | a message that stores nothing, snapshots included, stores nothing after any other message but a negative kill |
| QuestProofs.ReachableOk | samples/GameQuest/Server/QuestMission/main.cpp:66-163 | every reachable stream has well-formed quests, whatever counts came |
| QuestProofs.AbsorbsSame | samples/GameQuest/Server/QuestMission/main.cpp:66-119 | whether a message is dropped does not depend on the time it was sent |
| QuestProofs.DeliveredIsInert | samples/GameQuest/Server/QuestMission/main.cpp:66-163 | after any run that delivered it, a message is inert, at whatever time it is sent again: one that is no snapshot always, a snapshot without negative kills |
| QuestProofs.RedeliveryIsNothingExactly | samples/GameQuest/Server/QuestMission/main.cpp:66-163 | in every run delivering a message again, with the same or another time, leaves the whole store as it is exactly when it is no snapshot, its id is stored or the first hunt has its count |
| QuestProofs.ExactlyOnce | samples/GameQuest/Server/QuestMission/main.cpp:66-163 | any run without negative kills, negative item counts included, leaves the same streams and caches as the run without its repeats, retries that carry a new time included |
| QuestOrder.ExactlyOnceExactly | samples/GameQuest/Server/QuestMission/main.cpp:66-163 | when ids name one message per player, at any number of times, repeats change nothing in a run exactly when every repeated snapshot was stored or still finds its count |
| QuestOrder.CountIsCappedTotal | samples/GameQuest/Server/QuestMission/main.cpp:86-119 | without snapshots a quest's count is the sum of the distinct messages' shares, a retry with a new time being the same message, capped at the requirement |
| QuestOrder.OrderDoesNotMatter | samples/GameQuest/Server/QuestMission/main.cpp:86-119 | the same messages in any order and with any repeats at any times leave every quest with the same count and status |
| QuestOrder.NegativeKillRevivesSnapshot | samples/GameQuest/Server/QuestMission/main.cpp:96-101 | any dropped snapshot takes effect when delivered again after a negative kill that brings the hunt below it |
| QuestCache.CacheIsReplayWithoutHidden | samples/GameQuest/Server/QuestMission/main.cpp:121-163 | in every run the cache is the replayed stream without the quests deleted since the last append, rebuild or rehydration |
| QuestCache.RewardedExactlyWhenMet | samples/GameQuest/Server/QuestMission/main.cpp:86-119 | in every run, whatever the counts are, a quest has one reward and rests rewarded exactly when its count meets the requirement, and none and active otherwise |
| QuestCache.AdditionFitsInt32 | samples/GameQuest/Server/QuestMission/main.cpp:96-98 | the count addition stays within 32 bits for event counts up to five below the maximum |
| QuestCache.SyncReachesExactlyWhen | samples/GameQuest/Server/QuestMission/main.cpp:368-388 | sync(n) brings the first hunt to n exactly when it had n before or no stored event bears the snapshot's id |
| QuestCache.KillKeyCanBlockSync | samples/GameQuest/Server/QuestMission/main.cpp:368-388 | a kill whose id spells the snapshot's id keeps sync(n) below n |
| QuestCache.SyncReaches | samples/GameQuest/Server/QuestMission/main.cpp:368-388 | in every run without negative kills that leaves snapshot ids to snapshots, sync(n) brings the first hunt to n |
| QuestCache.SyncAnswersTheCache | samples/GameQuest/Server/QuestMission/main.cpp:368-388 | a sync answers the cache as it stands afterwards, and one without kills changes nothing |
| GameApi.GameApiStore.RecordEvent | samples/GameQuest/Server/GameApi/main.cpp:61-72 | after any history of calls the store holds each player's first message of an id, the new message's id included, and loses none |
| GameApi.GameApiStore.AddUnpublishedKills | samples/GameQuest/Server/GameApi/main.cpp:74-78 | the player's snapshot rises by the count, every other player's stays |
| GameApi.GameApiStore.SnapshotKillCount | samples/GameQuest/Server/GameApi/main.cpp:80-92 | the loop gives the snapshot of the whole history of recorded and unpublished kills |
| GameApi.RecordingKeepsMessages | samples/GameQuest/Server/GameApi/main.cpp:61-72 | the edge records each distinct message once, retries with a new time included |
| GameApi.SnapshotIsSum | samples/GameQuest/Server/GameApi/main.cpp:61-92 | the snapshot is the distinct wolf kills, the distinct other kills and the unpublished kills together |
| GameApi.OwnerAgreesExactly | samples/GameQuest/Server/GameApi/main.cpp:61-92 | when every message reached the owner, in any order and with repeats at any times, its first-hunt count is the edge's snapshot capped at three exactly when the wolves alone make three or nothing but wolves was counted |
| Dispatch.DispatchState.TakePending | samples/DeliveryDispatch/Server/Dispatch/main.cpp:63-72 | everything waiting is handed over once, in order, and nothing stays |
| Dispatch.DispatchState.MakeOffer | samples/DeliveryDispatch/Server/Dispatch/main.cpp:75-87 | the offer opens under the next attempt number, which alone answers it |
| Dispatch.DispatchState.Settle | samples/DeliveryDispatch/Server/Dispatch/main.cpp:91-100 | a decision closes the open offer of its attempt and returns it; any other changes nothing, and so does the same decision again |
| Dispatch.DispatchState.Expired | samples/DeliveryDispatch/Server/Dispatch/main.cpp:103-115 | every overdue open offer is settled and returned once, and no other changes |
| Dispatch.DispatchState.Close | samples/DeliveryDispatch/Server/Dispatch/main.cpp:117-121 | no attempt of the delivery is answered any more |
| Dispatch.CourierActor.CourierDecision | samples/DeliveryDispatch/Server/CourierActorNode/main.cpp:109-134 | an offer is answered once, with the attempt the actor kept and the courier id the client claims |
| DispatchCounts.AnswersTheLastOffer | samples/DeliveryDispatch/Server/CourierActorNode/main.cpp:92-134 | a courier's decision answers the offer that reached its actor last, whatever happens in between, with that offer's attempt and any claimed id, and cannot be answered twice |
| DispatchProofs.PublishIsLegal | samples/DeliveryDispatch/Server/Dispatch/main.cpp:207-264 | each publish extends the delivery's statuses to the beginning of a legal ending |
| DispatchProofs.StepKeeps | samples/DeliveryDispatch/Server/Dispatch/main.cpp:207-264 | every step, failing and half-failing awaits included, keeps at most one waiting assignment, running continuation or open offer per delivery |
| DispatchProofs.DeliveriesStayInOrder | samples/DeliveryDispatch/Server/Dispatch/main.cpp:207-430 | in every run with lost, late, repeated and reordered messages: one holder per delivery; statuses are a beginning of Assigned, Reassigned.., then Accepted, PickedUp for candidate 0 only, Delivered, or Failed after the last candidate; attempt n goes to candidate n |
| DispatchProofs.AcceptedMeansAccepted | samples/DeliveryDispatch/Server/Dispatch/main.cpp:222-241 | Accepted is published for a courier only if in the run that courier's actor was told to accept the very attempt it kept |
| DispatchEffects.AcceptanceTakesEffect | samples/DeliveryDispatch/Server/Dispatch/main.cpp:222-235 | in every reachable state, deciding an accepted answer to the open offer of candidate k leads, whatever happens meanwhile and if no await of the continuation is lost, to exactly the success by k and an erased offer, within four awaits |
| DispatchEffects.DecliningTakesEffect | samples/DeliveryDispatch/Server/Dispatch/main.cpp:236-264 | so does a refused or overdue open offer: to the next candidate assigned and sent the next attempt, open for three seconds, or after the last candidate to exactly the failure and an erased offer |
| DispatchEffects.AssignmentTakesEffect | samples/DeliveryDispatch/Server/Dispatch/main.cpp:207-218 | an assignment that is begun assigns the delivery to the first candidate and offers it under attempt 1 |
| DispatchEffects.OfferCanBeAnswered | samples/DeliveryDispatch/Server/CourierActorNode/main.cpp:92-134 | an open offer that was sent can be delivered and answered, and the answer then waits last and answers it, whatever id the client claims |
| DispatchEffects.OfferExpiresExactly | samples/DeliveryDispatch/Server/Dispatch/main.cpp:103-115 | in every run an open offer can be swept away exactly from three seconds after it was made |
| DispatchEffects.LostAwaitsEnd | samples/DeliveryDispatch/Server/Dispatch/main.cpp:207-264 | a refused await leaves only the end of its continuation; one whose reply is lost has taken effect and ends it too |
| DispatchCounts.OffersAreBounded | samples/DeliveryDispatch/Server/Dispatch/main.cpp:246-264 | in every run the offers recorded for a delivery, and the offers sent, each counted step by step, are no more than the candidates |
| DispatchCounts.RunCounts | samples/DeliveryDispatch/Server/Dispatch/main.cpp:75-87 | as long as a delivery can go on, its attempt number is the number of offers made |
| DispatchCounts.SweepIsExpiries | samples/DeliveryDispatch/Server/Dispatch/main.cpp:422-429 | the sweep over all overdue offers at once is the same as expiring them one by one, with one continuation each |
| DispatchProofs.StaleDecisionsChangeNothing | samples/DeliveryDispatch/Server/Dispatch/main.cpp:400-421 | a decision for another attempt, or after closing, acceptance or failure, is dropped and changes nothing |
| DispatchProofs.EndingsAreFinal | samples/DeliveryDispatch/Server/Dispatch/main.cpp:222-264 | after Delivered or Failed nothing more is published about the delivery |
| Evidence.EvidenceStore.Append | samples/DeliveryDispatch/Server/Configuration/evidence_store.hpp:25-31 | the file stays the file of exactly the records appended, in order |
| Evidence.EvidenceStore.ReadLines | samples/DeliveryDispatch/Server/Configuration/evidence_store.hpp:33-45 | the loop gives the non-empty lines of the file |
| Evidence.OneLine | samples/DeliveryDispatch/Server/Configuration/evidence_store.hpp:33-45 | text without a line end is one line, if it is not empty |
| Evidence.LinesSplit | samples/DeliveryDispatch/Server/Configuration/evidence_store.hpp:33-45 | the lines of two texts with a line end between them are those of the one and those of the other |
| Evidence.LineNames | samples/DeliveryDispatch/Server/Configuration/evidence_store.hpp:25-31 | a record's line is its delivery id, its status and its courier or none, with colons between |
| Evidence.EvidenceStore.HasSequence | samples/DeliveryDispatch/Server/Configuration/evidence_store.hpp:47-65 | the loop is greedy matching; on the store's own file, unless another delivery's line begins like one of this, it answers whether the expected statuses are a subsequence of the delivery's |
| Evidence.GreedyMatchesExactly | samples/DeliveryDispatch/Server/Configuration/evidence_store.hpp:47-65 | greedy matching succeeds exactly when the expected statuses are a subsequence |
| Evidence.RecordsReadBack | samples/DeliveryDispatch/Server/Configuration/evidence_store.hpp:25-45 | unless another delivery's line begins like one of this, the statuses read from the file are the delivery's own, in order |
| Evidence.HasSequenceMeans | samples/DeliveryDispatch/Server/Configuration/evidence_store.hpp:47-65 | has_sequence then means: the expected statuses are a subsequence of that delivery's, colons in ids included |
| Evidence.HasSequenceIsRightExactly | samples/DeliveryDispatch/Server/Configuration/evidence_store.hpp:47-65 | has_sequence answers rightly for every expected list exactly when no line of another delivery begins with the id and a colon |
| Evidence.ColonFreeIdsAreSafe | samples/DeliveryDispatch/Server/Configuration/evidence_store.hpp:47-65 | ids without colons are never confused |
| Evidence.ColonIdsConfuse | samples/DeliveryDispatch/Server/Configuration/evidence_store.hpp:47-65 | a line of delivery d with status s is confusing for the delivery d:s |
| Framing.FrameParser.Feed | samples/ZoneWorld/Support/session_route_block_proxy.cpp:46-72 | the in-place loop takes off exactly the complete frames at the front and keeps the rest, or throws at a bad header |
| Framing.ChunkingInvariance | samples/ZoneWorld/Support/session_route_block_proxy.cpp:46-72 | any split of a stream meets a bad header exactly when the whole does, and otherwise yields the same frames and leftover |
| Framing.BytesConserved | samples/ZoneWorld/Support/session_route_block_proxy.cpp:46-72 | frames and leftover are the input, byte for byte |
| Framing.ParsesWritten | samples/ZoneWorld/Support/session_route_block_proxy.cpp:53-69 | bytes written as magic, version, flags, kind, four size bytes, for requests eight sequence bytes, and the body are taken off as that frame, and parsing goes on behind them |
| Framing.LeftoverIsNoFrame | samples/ZoneWorld/Support/session_route_block_proxy.cpp:50-65 | parsing stops exactly at a header without magic byte and version, or where no written frame stands in front |
| Framing.ParsedFramesWellFormed | samples/ZoneWorld/Support/session_route_block_proxy.cpp:53-69 | every frame parsed was written so, with its own flags and body |
| Framing.ParseUndoesWriting | samples/ZoneWorld/Support/session_route_block_proxy.cpp:46-72 | frames written one after another parse back to themselves |
| Command44.BodyReader.Skip | samples/ZoneWorld/Support/session_route_block_proxy.cpp:127-137 | moves on exactly when that many bytes are left, and throws otherwise |
| Command44.BodyReader.Number | samples/ZoneWorld/Support/session_route_block_proxy.cpp:93-113 | reads a big-endian number of that many bytes, or throws |
| Command44.BodyReader.Text | samples/ZoneWorld/Support/session_route_block_proxy.cpp:114-126 | reads a text behind its length, or throws |
| Command44.ReadIdentity | samples/ZoneWorld/Support/session_route_block_proxy.cpp:144-178 | reading in place gives the specified identity, and none where a bound is crossed |
| Command44.IdentityReadsLayout | samples/ZoneWorld/Support/session_route_block_proxy.cpp:144-178 | every written command-44 layout is read back to its actor, action and authorities |
| Command44.IdentityHasLayout | samples/ZoneWorld/Support/session_route_block_proxy.cpp:144-178 | conversely, a body that is read has such a layout |
| Proxy.Pump | samples/ZoneWorld/Support/session_route_block_proxy.cpp:180-226 | the loop's output is the messages of the chunks before the end, grouped by the more flag, without the armed lone commits |
| Proxy.GroupingIsExact | samples/ZoneWorld/Support/session_route_block_proxy.cpp:196-217 | messages and the open rest are the frames in order, cut after each last frame and only there |
| Proxy.CommitsAreBlockedExactly | samples/ZoneWorld/Support/session_route_block_proxy.cpp:203-213 | dropped is exactly an armed message of one frame whose body is a command-44 layout with the action commit; every other message is forwarded whole |
| Proxy.ReadsStopAtTheEnd | samples/ZoneWorld/Support/session_route_block_proxy.cpp:191-195 | what is read is everything before the first empty read |
| Proxy.ForwardAll | samples/ZoneWorld/Support/session_route_block_proxy.cpp:203-213 | when no message is blocked the output is all messages, byte-identical |
| Proxy.NothingBlockedNothingLost | samples/ZoneWorld/Support/session_route_block_proxy.cpp:180-217 | then output, open message and parser leftover together are the input |
| Proxy.OutputIgnoresChunking | samples/ZoneWorld/Support/session_route_block_proxy.cpp:180-217 | the output does not depend on how the source's bytes were cut into reads |
| Proxy.OutputIsABeginning | samples/ZoneWorld/Support/session_route_block_proxy.cpp:46-217 | with a bad header too: for any cut the output is a beginning of what the whole parse forwards, and all of it without a bad header |

## Left out

- The framework itself (routing, spots, actors, sessions, timers, relocation), sockets, RESP parsing, HTTP, files and logging: a send is a message step, a handler a transition.
- JSON text: events and records are datatypes. The order workflow's timestamps are left out of them; time elsewhere is an integer.
- 32-bit widths of stock, quantities and kill counts: integers are unbounded, except where QuestCache.AdditionFitsInt32 shows the width is kept.
- The reservation keeps its order id, outcome, reason and lines; the payment its order id, outcome, reason, amount and currency, as stored.
- OrderWorkflow: the timer that schedules a continue and closing a finished spot; a scheduled continue is a call that may come at any time.
- CommerceApi: the polling loops, and the read paths that only return a read model.
- Orders.Written and Orders.Read: give a default where the code would throw; OrderRuns.NothingIsRepeated shows that no reachable document has such an amount.
- Dispatch: the in-place sweep loop is split into one step per item, which allows more interleavings (DispatchCounts.SweepIsExpiries gives the loop over expired offers back); the order in which expired offers are returned is open.
- Dispatch liveness: a publish that fails ends its continuation and leaves the offer settled, so what a decision brings about is claimed for continuations that lose no await (DispatchEffects).
- Proxy: a failing write to the sink, and the line the proxy prints about a blocked commit.
- Evidence: statuses, couriers and ids with a newline in them, and statuses with a colon.
- Client scenarios, readiness checks, topology, Bingo, TicTacToe, SupportChat and the ZoneWorld movement rules.
