# Goji: routing, string patterns and graceful shutdown, verified

Goji is a Go web router with a graceful-shutdown package. This project models its three
hardest parts and proves what they promise.

**Routing.** `handle` inserts routes into a list that is ordered by prefix but never moves a
route past one that might match the same path. The list is built into a pseudo-trie, the trie
is encoded into relocatable bytecode, the bytecode is linked in place, and a small machine with
backward jumps interprets it against the request path. The promise is that the result is
indistinguishable from trying one route after another in the order they were added. That is
proved for every history of registrations, every path and every method: the machine takes the
same route, calls `Match` on the same patterns in the same order, leaves the same context and
collects the same methods as the naive router over the routes whose prefix starts the path.
Patterns are arbitrary: `Match` and `Run` are any functions that read and change a context of
any type. The machine never faults, executes no instruction twice, and sets its cursor only
where the path starts with what the current node of the trie spells. With string patterns the
result is told without any machine: the first route handled whose pattern the path splits into
and whose methods allow the request, with the values of that one split bound.

**String patterns.** Parsing is lossless, and the greedy matcher decides exactly whether the
path splits into the literals with one non-empty value between neighbours. The split is unique.
The first literal starts every matching path, so for string patterns the prefix filter can be
dropped from the promise altogether.

**Graceful shutdown.** Connections, shards and listeners are a protocol of atomic steps of any
number of goroutines over any number of connections. Each critical section of a connection is
broken up at every access to its shard, and `closeConns` wherever it holds no lock. `signal.go`
is a second protocol on top, with its five once-gates, its mutex and one goroutine per listener.
Where a promise fails, a run from the initial state shows it, and an equivalence says exactly
when it holds.

## How the files fit together

| file | content |
|---|---|
| `Bytes.dfy`, `Sequences.dfy`, `MethodSets.dfy`, `Options.dfy` | Go strings and their order, slices, sets of HTTP methods, values that may be missing |
| `StringPatterns.dfy` | parsing and matching of string patterns |
| `Routing.dfy` | routes, requests, and the naive router that serves as the specification |
| `NaiveRouter.dfy` | the law of the naive router, told by the calls of Match alone |
| `Tries.dfy` | what a trie for a route list is; its construction |
| `Bytecode.dfy` | a reference assembler with absolute addresses; the encoder and linker of the source, proved equal to it |
| `Nodes.dfy` | which node of the trie each place in its code belongs to |
| `Machines.dfy` | small-step semantics of the bytecode; compiled code simulates the naive router |
| `Cursors.dfy` | where the cursor is set, the path starts with the current node |
| `Runner.dfy` | the interpreter loop |
| `Insertion.dfy` | the insertion order and why it never shows; when the prefix filter never shows |
| `Router.dfy` | string patterns end to end; the router object and its dispatch |
| `MachineCache.dfy` | the cached machine under concurrency |
| `Draining.dfy`, `DrainingProofs.dfy`, `DrainingTheorems.dfy` | the draining protocol, its invariants, and its guarantees over whole runs |
| `Operations.dfy` | what each operation on a connection does, flag by flag and set by set |
| `Jobs.dfy` | what CloseIdle, Drain and DrainAll have done when they return |
| `IdleSets.dfy` | which connections a shard holds as idle without tracking them, and until when |
| `DrainingExamples.dfy` | runs that lose count, and runs that leave connections in the idle set |
| `Listener.dfy` | the connection and shard objects, method by method |
| `Shutdown.dfy` | the shutdown protocol |
| `ShutdownSteps.dfy`, `Passes.dfy` | single steps of a shutdown; what its passes have run, and what has been done when a call returns |
| `LateListeners.dfy` | which listeners are gone when the posthooks run |
| `ListenerShutdown.dfy` | both protocols together: the connections when `wait` is closed |

## Where the code and its documentation differ

The model follows the code in each case.

- The comment at `web/bytecode_compiler.go:11-14` calls a route plausible when it matches the
  method and its prefix starts the path. The runner calls `Match` before it looks at the method
  (`web/bytecode_runner.go:10-21`), so routes for other methods are tried too; that is how the
  list of valid methods comes about.
- `web/mux.go:199` spells the environment key `goji.web.validMethods`; the constant at
  `web/router.go:32` is `goji.web.ValidMethods`.
- Patterns must declare honest prefixes, which `web/pattern.go:14-21` asks for without saying what
  happens otherwise. A pattern that matches, or changes the context, outside its prefix is not
  tried (`Insertion.DishonestPrefixIsNotTried`). `Insertion.FilterIsSafeExactly` says for which
  routes the filter makes no difference: for exactly those whose `Match`, outside the prefix, leaves
  the context alone and, unless the route has no methods, refuses.
- `disown` asks whether a connection is disowned but not whether it is closed
  (`graceful/listener/conn.go:138-151`). Disowning a closed connection counts it down twice, and
  `Drain` may then return while a connection is open and in use
  (`DrainingExamples.DisownAfterCloseLosesCount`). `DrainingTheorems.WaitGroupIsExact` says exactly
  when the counters are right: whenever no closing or disowning is under way, they are the numbers of managed
  connections if and only if `disown` has never been called on a closed one.
- `markIdle` does not ask whether the connection is still tracked before it adds it to the idle set
  (`graceful/listener/conn.go:94-103`, `graceful/listener/shard.go:46-55`). A connection that was
  closed or disowned while busy, and is marked idle on a shard that does not drain, is held there
  although nothing tracks it (`DrainingExamples.ClosedStraysUntilDisowned`, `DisownedStrays`).
  `IdleSets.StrayExactly` says exactly which connections are: those added so and not removed since
  by a `disown`, the only step that does. Disowned ones stay for good. The guarantees of draining
  are not affected, since no sweep does anything to them.
- Posthooks are promised to run after all listening connections have been closed
  (`graceful/signal.go:68-69`). A listener registered after `closeListeners` took its list is missed:
  `LateListeners.LateListenerStaysOpen` is such a run, up to the close of `wait`.
  `LateListeners.PosthooksFindAllGone` says exactly when the promise holds: if and only if no
  listener has been registered since some `closeListeners` that is over took its list.

## Model

| member | source | states |
|---|---|---|
| Bytes.LeqByFirstDifference | web/router.go:137 | strings compare by the first byte in which they differ, a prefix being smaller |
| StringPatterns.BreakCharacters | web/string_pattern.go:101 | the break characters are slash, dot, semicolon and comma |
| StringPatterns.FindAllIsExact | web/string_pattern.go:103-113 | the parameters found are exactly the positions with a break character, a colon and a name byte; none is invented, none missed, and names are maximal |
| StringPatterns.CutPieces | web/string_pattern.go:114-129 | the loop cuts every literal, name and break byte out at the matches |
| StringPatterns.CutIsWellFormed | web/string_pattern.go:113-136 | names are free of break characters, literals before names end in one, each break byte is the first byte of the next literal or a slash at the end, and a wildcard tail ends in a slash |
| StringPatterns.NamesOf | web/string_pattern.go:103-119 | there is a name exactly where a break character, a colon and another byte follow one another; names are in order, disjoint, and go on to the next break character or the end |
| StringPatterns.PatternShape | web/string_pattern.go:113-136 | names, literals, break bytes and the wildcard tail of every parsed pattern, byte by byte |
| StringPatterns.RenderIsWoven | web/string_pattern.go:113-129 | rendering is interleaving literals and names with colons, computed independently from the right |
| StringPatterns.CutRendersBack | web/string_pattern.go:113-129 | literals and names interleaved with colons rebuild the parsed string |
| StringPatterns.ParseStringPattern | web/string_pattern.go:105-137 | parsing yields a well-formed pattern which, written out again with its star, is the raw string |
| StringPatterns.GreedyIsSound | web/string_pattern.go:38-73 | when the greedy walk succeeds, its values and remainder are a split of the path |
| StringPatterns.GreedyIsComplete | web/string_pattern.go:38-73 | every split of the path is the one the greedy walk finds |
| StringPatterns.MatchDecidesSplits | web/string_pattern.go:28-87 | a path matches if and only if it splits into literals and non-empty values free of slashes and break bytes, plus a remainder for wildcards; the split is unique |
| StringPatterns.SplitsMeans | web/string_pattern.go:38-73 | a split without recursion: one good value per parameter, woven between the literals, spells the path up to the rest |
| StringPatterns.ValueMeans | web/string_pattern.go:45-56 | a value is not empty and has neither a slash nor its break byte |
| StringPatterns.MatchStartsWithPrefix | web/string_pattern.go:19-21 | every matching path starts with what Prefix returns |
| StringPatterns.BindTakesLast | web/string_pattern.go:57-59 | a name that occurs several times is bound to the value at its last occurrence |
| StringPatterns.BindingMeans | web/string_pattern.go:57-85 | key by key: names have their last value, the star the suffix of the path from the slash on that closes the last literal, new values replace old ones, every other key stays, and nothing to bind leaves nil |
| StringPatterns.ScanValue | web/string_pattern.go:45-51 | a value ends at the first break byte or slash |
| StringPatterns.Walk | web/string_pattern.go:29-73 | the verdict is whether the path matches, dry or not, and a real run collects the values of the split, the star beginning with the slash |
| StringPatterns.Match | web/string_pattern.go:28-87 | dry and real runs agree; only a real, matching run on a context writes, and then the parameters are, key by key, the values of the one split, the star with its slash, and what was there under other keys |
| Tries.CommonPrefix | web/bytecode_compiler.go:128-138 | the longest string that both start with |
| Tries.BuildTrie | web/bytecode_compiler.go:96-126 | from an ordered list, terminates with a trie holding exactly these routes, in order, each at the node that spells its prefix |
| Tries.AppendSegment | web/bytecode_compiler.go:107-117 | closing a segment keeps the trie so far correct for one more stretch of routes |
| Tries.BuildTrieSegment | web/bytecode_compiler.go:140-165 | the routes below a node are grouped into children with non-empty prefixes and increasing first bytes |
| Tries.AppendTrie | web/bytecode_compiler.go:152-164 | one more group becomes one more child after the earlier ones |
| Tries.NextGroupSortsHigher | web/bytecode_compiler.go:150-156 | where the common prefix is empty, the next byte goes up; the order of the list is what makes siblings distinct |
| Tries.TrieShape | web/bytecode_compiler.go:96-165 | read in order, the trie gives every route index once, in order, at the node whose path is that route's prefix |
| Tries.SiblingsIncrease | web/bytecode_compiler.go:140-165 | any two siblings start with different bytes, the earlier with the smaller |
| Bytecode.ShiftHead | web/bytecode_compiler.go:190-196 | shifting in place moves every address and leaves route and cursor operands alone |
| Bytecode.LinkSub | web/bytecode_compiler.go:206-215 | linking in place resolves the placeholder to the next segment and moves every other address |
| Bytecode.MoveAssembled | web/bytecode_compiler.go:188-217 | linking code assembled for one place with an open exit gives exactly the code assembled for the new place and exit: every operand lands on its target |
| Bytecode.OneOpenExit | web/bytecode_compiler.go:201 | in the code of any trie exactly one operand is -1, at the jump between the heads and the subs |
| Bytecode.EncodeSegments | web/bytecode_compiler.go:176-184 | every segment is encoded relative to zero and the heads are measured |
| Bytecode.LinkHeads | web/bytecode_compiler.go:188-199 | the linked heads are those of the reference assembler at their final addresses |
| Bytecode.LinkSubs | web/bytecode_compiler.go:203-217 | the linked subs are those of the reference assembler, each leaving to the head of the next segment |
| Bytecode.EncodeTrie | web/bytecode_compiler.go:175-220 | encoding at zero and linking in place equals assembling the trie at its address with one open exit |
| Bytecode.AppendExpects | web/bytecode_compiler.go:241-246 | the rest of a prefix is expected three bytes at a time |
| Bytecode.AppendChild | web/bytecode_compiler.go:241-248 | a child's code is the rest of its prefix followed by its own trie |
| Bytecode.EncodeSegment | web/bytecode_compiler.go:222-251 | the head has one branch per child, to where that child's code starts |
| Bytecode.FlaggedIsMachine | web/bytecode_compiler.go:258-263 | flagging what is still open turns only the outermost jump into giving up |
| Bytecode.Compile | web/bytecode_compiler.go:253-265 | an ordered list compiles to the machine of a trie for exactly this list, the empty list to nothing |
| Machines.ChildImplausible | web/bytecode_compiler.go:8-18 | a child whose prefix does not continue the path holds no plausible route |
| Machines.LaterSiblingsImplausible | web/bytecode_compiler.go:203-211 | once a child's first byte agrees with the path, no later sibling holds a plausible route, so a failure inside may skip them |
| Machines.RunExpects | web/bytecode_runner.go:42-80 | the rest of a prefix is either consumed whole or leads to the failure address, visiting each instruction at most once |
| Machines.RunChildren | web/bytecode_compiler.go:234-249 | the branches and code of a segment's children do what the naive router does on their routes |
| Machines.RunTrie | web/bytecode_compiler.go:175-220 | the code of a trie does what the naive router does on its routes, then leaves by its exit |
| Machines.RunSegments | web/bytecode_compiler.go:188-217 | heads and subs together try the routes of all segments in order, through the backward jumps |
| Machines.CompiledRunsLikeNaive | web/bytecode_compiler.go:8-18 | compiled code takes the same route, makes the same calls of Match in the same order and collects the same methods as the naive router over the plausible routes; it never faults and halts within as many steps as it has instructions |
| Machines.EachInstructionOnce | web/bytecode_runner.go:32-82 | no instruction is executed twice for one request |
| Machines.NoCodeNoRoutes | web/bytecode_compiler.go:253-256 | the code is empty exactly for the empty list |
| Cursors.MachineMarks | web/bytecode_compiler.go:229-249 | in the code of any trie the cursor is set exactly where a segment begins, to the length of what its node spells |
| Cursors.CursorsFit | web/bytecode_runner.go:34-40 | at every step of every run the machine is at an instruction; where it sets the cursor, to k bytes, the path has them and they are what the current node of the trie spells |
| NaiveRouter.NaiveLaw | web/bytecode_runner.go:10-21 | for patterns of any kind: the route taken is the first whose Match succeeds, in the context left by the calls before it, and which has the request's method; then the context is what Run makes of it and exactly the routes up to it were called; if none is taken all were called and the methods are those of the matching ones |
| NaiveRouter.TakesMeans | web/bytecode_runner.go:10-21 | a route takes the request when its prefix starts the path, its Match succeeds in the context left by the calls before, and it shares a method bit with the request |
| NaiveRouter.ContextMeans | web/bytecode_runner.go:10-21 | each call of Match starts in the context that the call before left |
| Runner.MatchRoute | web/bytecode_runner.go:10-21 | one route is tried as the naive router tries it |
| Runner.Compare | web/bytecode_runner.go:42-66 | the byte comparison from the last byte down decides whether the instruction hits |
| Runner.Run | web/bytecode_runner.go:23-83 | the interpreter loop reports the naive router's route, calls, context and methods, within one turn per instruction |
| Insertion.InsertedIsOrdered | web/router.go:130-150 | inserting keeps every neighbouring pair in order or in the relation that the second is a prefix of the first |
| Insertion.MovedPastImplausible | web/router.go:134-140 | nothing a route is moved past can match a path that the route can |
| Insertion.InsertedIsAppended | web/router.go:126-154 | for every path, inserting a route has the effect of appending it |
| Insertion.BuiltKeepsInsertionOrder | web/router.go:126-154 | after any history the list is ordered, a permutation of the history, and for every path its plausible routes are the history's in the history's order |
| Insertion.ComparableInInsertionOrder | web/router.go:126-154 | of two routes with comparable prefixes the one handled first comes first |
| Insertion.FilterChangesNothing | web/bytecode_compiler.go:8-18 | where every route is skippable outside its prefix, trying only the plausible routes takes the same route with the same context and methods as trying all |
| Insertion.FilterIsSafeExactly | web/pattern.go:14-21 | trying only the plausible routes makes no difference, for any list of these routes and any context, if and only if each of them is skippable |
| Insertion.DishonestPrefixIsNotTried | web/pattern.go:14-21 | a pattern that matches outside its declared prefix is not skippable, and the filter makes the naive router miss it |
| Routers.AnyHistoryRoutesNaively | README.md:133-137 | whatever was handled in whatever order, the compiled machine routes as the naive router does over the plausible routes in the order they were handled |
| Routers.AnyHistoryTakesFirst | README.md:133-137 | so that law holds of the compiled machine, for the routes in the order they were handled whose prefix starts the path |
| Routers.StringHistoryRoutesNaively | README.md:133-137 | with string patterns, it routes as the naive router that tries every route, in as many steps as it has instructions |
| Routers.NaiveTakesFirst | web/string_pattern.go:19-74 | the naive router over string patterns takes the first route whose pattern the path splits into and whose methods allow the request, binding the values of the split; or none allows it and the context is unchanged |
| Routers.StringHistoryTakesFirst | README.md:133-137 | so does the compiled machine, for the routes in the order they were handled, within as many steps as it has instructions |
| Routers.BoundMeans | web/string_pattern.go:57-85 | what is bound then, key by key; the environment and everything else is as before |
| Routers.CollectedMethodsAreExact | web/mux.go:199-202 | the methods collected by a run that took no route are exactly those under which the same request would have been taken |
| Routers.MethodsDiffer | web/router.go:10-44 | of the nine named methods each shares a bit with itself only, not with another and not with any unknown one |
| Routers.NameLeqByFirstDifference | web/router.go:102 | the names are ordered by the first byte in which they differ |
| Routers.MethodList | web/router.go:96-102 | the names of exactly the collected methods, sorted, once each, in whatever order the map is visited |
| Routers.SortStrings | web/router.go:102 | the library's sort: a sorted permutation |
| Routers.Router.constructor | web/router.go:53-58 | a new router has no routes, no history and no machine |
| Routers.Router.Handle | web/router.go:126-154 | adds the route to the history, keeps the list what the history builds, and drops the cached machine |
| Routers.Router.CompileRoutes | web/router.go:67-76 | caches and returns the compilation of exactly the current routes |
| Routers.Router.GetMatch | web/router.go:78-112 | finds the first handled route whose prefix starts the path, whose Match succeeds and which has the method, having called Match on just the plausible routes up to it; otherwise stores the sorted methods that would have found a route in the environment as the patterns left it, or leaves it alone when no route matched |
| Routers.Router.ListIsExact | web/router.go:92-103 | a method is named just when the same request under it would have been taken |
| Routers.Router.ReportsMeans | web/router.go:92-103 | the names reported are strictly ordered and are exactly those of the nine under which the request would have been taken |
| Routers.StoresMeans | web/router.go:104-110 | the names are stored under their key and every other key of the environment stays |
| MachineCache.InvKept | web/router.go:67-82 | every shared access of every goroutine keeps the cache coherent |
| MachineCache.CacheIsCoherent | web/router.go:126-154 | in every state of every interleaving the stored machine is nil or the compilation of exactly the current routes |
| MachineCache.HistoryIsHandled | web/router.go:126-154 | the history is the routes of the finished handle calls, in order |
| MachineCache.HandledBeforeIsServed | web/router.go:78-84 | a request is served from the routes handled up to some point no earlier than its beginning: every route handled by then is among them |
| MachineCache.ServedLikeNaive | web/router.go:78-84 | each request runs on bytecode and routes of one snapshot, no older than the request, and so routes naively over the routes handled up to then |
| Draining.ProceedCore | graceful/listener/conn.go:94-110 | each access to the shard inside a critical section keeps flags, sets and locks in agreement |
| Draining.CoreKept | graceful/listener/shard.go:27-94 | every step of every goroutine keeps them in agreement; outside critical sections, tracked means neither closed nor disowned and idle means not busy |
| Draining.UninterruptedSection | graceful/listener/conn.go:64-151 | a critical section without interference has the effect stated for the objects |
| Operations.ReadAlone | graceful/listener/conn.go:35-62 | in Manual mode, or for a busy, closed or disowned connection, a Read changes no flag and no shard; otherwise the connection becomes busy, leaves the idle set, and nothing else changes |
| Operations.CloseAlone | graceful/listener/conn.go:64-79 | closes, untracks and uncounts a connection neither closed nor disowned, else changes nothing |
| Operations.SetReadDeadlineAlone | graceful/listener/conn.go:81-88 | leads to markIdle exactly in Deadline mode and unless disowned |
| Operations.MarkIdleAlone | graceful/listener/conn.go:94-110 | a busy connection becomes idle for itself and the shard, or is closed, untracked and uncounted if the shard drains |
| Operations.MarkInUseAlone | graceful/listener/conn.go:112-120 | a live idle connection becomes busy and leaves the idle set, else nothing changes |
| Operations.DisownAlone | graceful/listener/conn.go:138-151 | marks, untracks and uncounts a connection not disowned, else changes nothing |
| Operations.TakeAlone | graceful/listener/shard.go:83-93 | a turn of closeConns closes what is neither closed nor disowned, and unless closing all only if it is not busy |
| DrainingProofs.DrainingOnlyShrinks | graceful/listener/shard.go:27-55 | on a draining shard nothing is newly tracked and nothing tracked becomes idle outside a critical section |
| DrainingProofs.IdleIsInIdle | graceful/listener/shard.go:63-81 | the snapshot of idle connections misses none |
| DrainingProofs.SweepsKept | graceful/listener/shard.go:63-94 | a sweep under way still has before it every connection it must close, however stale its snapshot |
| DrainingTheorems.DrainingIsComplete | graceful/listener/shard.go:63-94 | once closeConns(_, true) has returned, every live connection of the shard outside a critical section is busy, then and later, and none is newly tracked; after closeConns(true, true) none is tracked |
| DrainingTheorems.DrainLeavesNothing | graceful/listener/listener.go:117-144 | under every interleaving without disowned closed connections, a waiting drain has emptied every shard behind it and a returned one all shards |
| DrainingTheorems.DrainClosesEverything | graceful/listener/listener.go:117-144 | after Drain or DrainAll every connection handed out is closed or disowned |
| Jobs.DrainReaches | graceful/listener/listener.go:117-144 | from when a call of Drain waits or has returned, every shard drains and no live connection outside a critical section is idle; after DrainAll every shard tracks nothing and all connections outside critical sections are closed or disowned, however disown is used |
| Jobs.DrainsOnlyWhenAsked | graceful/listener/shard.go:63-67 | no shard drains before Drain or DrainAll is called |
| Jobs.CloseIdleReaches | graceful/listener/listener.go:109-115 | a connection idle when CloseIdle is called, on whatever shard, has been in use, closed or disowned by the time it returns |
| Jobs.ShardsTakeTurns | graceful/listener/listener.go:80-81 | connections go to the shards in turn, beginning with shard 1 |
| DrainingTheorems.UseGoesOn | graceful/listener/conn.go:122-134 | no step but marking idle, closing, disowning or draining all ends the use of a connection |
| DrainingTheorems.InUseIsNotClosed | graceful/listener/shard.go:63-94 | after a successful read no CloseIdle and no Drain closes the connection until it is marked idle, stale snapshots included |
| Jobs.OnlyDeadlineDefers | graceful/listener/conn.go:81-88 | in the other modes SetReadDeadline never marks a connection idle; the mode never changes |
| Jobs.InUseInAutomaticMode | graceful/listener/conn.go:81-88 | in Automatic mode a connection read stays in use, deadlines notwithstanding, until a call marks it idle, closes or disowns it, or DrainAll takes it |
| DrainingTheorems.CountedKept | graceful/listener/conn.go:26-33 | every step keeps each counter equal to the balance over the shard's connections |
| DrainingTheorems.CounterInEveryState | graceful/listener/conn.go:64-151 | in every reachable state a shard's counter is the number of its connections past Add that are neither closed nor disowned, plus those still being closed, less those both closed and disowned |
| DrainingTheorems.WaitGroupIsExact | graceful/listener/conn.go:64-151 | while no closing or disowning is under way, every counter is the number of the shard's managed connections if and only if disown has never been called on a closed one |
| DrainingTheorems.ProperKeptExactly | graceful/listener/conn.go:138-151 | a step makes some connection closed and disowned if and only if it disowns a closed one |
| DrainingTheorems.ProperExactly | graceful/listener/conn.go:138-151 | over a run, no connection gets closed and disowned if and only if disown is never called on a closed one |
| DrainingTheorems.ProperNow | graceful/listener/conn.go:138-151 | the present state alone tells whether disown has ever been called on a closed connection |
| DrainingTheorems.ZeroMeansEmpty | graceful/listener/shard.go:96-98 | then a counter at zero means that nothing is tracked |
| DrainingExamples.DisownAfterCloseLosesCount | graceful/listener/conn.go:138-151 | a run from the initial state that closes and then disowns one of two connections: Drain returns while the other is in use, open and tracked |
| IdleSets.StrayStep | graceful/listener/shard.go:39-61 | a step makes a connection idle but untracked exactly if it is markIdle's, on a shard that does not drain, for a connection closed or disowned; and only disown's ends that |
| IdleSets.StrayExactly | graceful/listener/shard.go:46-55 | over any run, a connection is idle but untracked if and only if such a markIdle has added it and no disown has removed it since |
| IdleSets.CallBefore | graceful/listener/conn.go:94-110 | behind each such step is a call: markIdle of a connection that was busy, disown of one that was not disowned, with the flags as the call found them |
| IdleSets.StrayWasMarkedIdle | graceful/listener/conn.go:94-110 | every such connection was marked idle while busy, after it had been closed or disowned |
| IdleSets.StrayIsNotLive | graceful/listener/conn.go:122-134 | such a connection, while unlocked, is closed or disowned, and closeIfIdle does nothing to it |
| IdleSets.DisownedStrayIsForGood | graceful/listener/conn.go:138-151 | once it is disowned it is never removed |
| DrainingExamples.ClosedStraysUntilDisowned | graceful/listener/shard.go:46-55 | a run that closes a busy connection and marks it idle leaves it in the idle set, and disowning it then removes it |
| DrainingExamples.DisownedStrays | graceful/listener/shard.go:46-55 | a run that disowns a busy connection and marks it idle leaves it in the idle set |
| Listener.Shard.Track | graceful/listener/shard.go:27-37 | tracks a connection as idle unless draining |
| Listener.Shard.Disown | graceful/listener/shard.go:39-44 | forgets a connection |
| Listener.Shard.MarkIdle | graceful/listener/shard.go:46-55 | adds a connection to the idle ones unless draining |
| Listener.Shard.MarkInUse | graceful/listener/shard.go:57-61 | takes a connection out of the idle ones |
| Listener.Shard.CloseConns | graceful/listener/shard.go:63-94 | closes exactly the chosen connections that closing would close, and their wrapped connections, touches no other, counts them down, and leaves nothing idle, or nothing at all |
| Listener.Shard.Sweep | graceful/listener/shard.go:83-93 | the loop closes the wrapped connection of exactly the doomed connections of the snapshot, and of disowned ones when closing all, and removes the doomed |
| Listener.Conn.Init | graceful/listener/conn.go:26-33 | counts and tracks a new connection; while draining, closes it and leaves the counter as it was |
| Listener.Conn.Read | graceful/listener/conn.go:35-62 | a closed managed connection yields an error and no data; a live idle one becomes busy and leaves the idle set, except in Manual mode; nothing else changes |
| Listener.Conn.Close | graceful/listener/conn.go:64-79 | closes once, uncounts once; a disowned connection is closed without counting |
| Listener.Conn.SetReadDeadline | graceful/listener/conn.go:81-88 | marks idle in Deadline mode unless disowned, closing the wrapped connection only where that closes |
| Listener.Conn.MarkIdle | graceful/listener/conn.go:94-110 | a busy connection becomes idle, or is closed while draining |
| Listener.Conn.MarkInUse | graceful/listener/conn.go:112-120 | a live idle connection becomes busy |
| Listener.Conn.CloseIfIdle | graceful/listener/conn.go:122-134 | closes a live connection only if it is not busy |
| Listener.Conn.Disown | graceful/listener/conn.go:138-151 | untracks and uncounts a connection that was not disowned |
| Shutdown.InvKept | graceful/signal.go:168-223 | every step of every goroutine keeps gates, mutex, hooks and listeners in agreement with what has been observed |
| Shutdown.ShutdownIsOrderly | graceful/signal.go:168-223 | under every interleaving of graceful and forced shutdowns: prehooks before any listener is closed, posthooks after some closeListeners is over, wait closed once after them |
| Shutdown.OrderMeans | graceful/signal.go:168-223 | place by place in the log: what must have come before each event, what must not, and which events come once |
| Shutdown.PassesRunEachHookOnce | graceful/signal.go:171-195 | the hooks run are those that the end of the pass reports, once each, in order |
| Passes.RegisteredSoFar | graceful/signal.go:43-94 | hooks and listeners are at all times those of the registrations so far, in order |
| Passes.PrehooksRunAsRegistered | graceful/signal.go:171-177 | when the prehook pass is over, exactly the prehooks registered before the step that ended it have run, once each, in the order of their registration |
| Passes.PosthooksRunAsRegistered | graceful/signal.go:189-195 | the same for the posthooks |
| Passes.CallReturns | graceful/signal.go:168-200 | when shutdown has returned, the prehook pass, a closeListeners of its own kind and the posthook pass are over and wait is closed |
| Shutdown.NoPosthookBeforeDrained | graceful/signal.go:189-199 | once a posthook has run or wait is closed, some closeListeners has had every listener it found drained |
| LateListeners.TakenStep | graceful/signal.go:208-211 | a closeListeners takes the list of listeners once, at its lock, and keeps it |
| LateListeners.PosthooksFindAllGone | graceful/signal.go:68-69 | from the start of the posthook pass on, all registered listeners have been closed and drained if and only if none was registered since some closeListeners, now over, took its list |
| LateListeners.LateListenerStaysOpen | graceful/signal.go:189-199 | a run that registers a listener after closeListeners: posthook pass and wait are over while it is neither closed nor drained |
| ListenerShutdown.NoConnectionOutlivesWait | graceful/signal.go:213-221 | when wait has been closed, some closeListeners left no connection of any listener it found open: each is closed or disowned |
| ListenerShutdown.OverLeavesNoneOpen | graceful/signal.go:213-221 | a closeListeners that is over has left none open; a forced one has left nothing tracked, however disown is used |
| ListenerShutdown.ForcedShutdownLeavesNothing | graceful/signal.go:100-105 | when a forced shutdown has returned, the listeners a forced closeListeners found track nothing and have no connection open, in use or not |

## Left out

- Regular-expression patterns (`web/regexp_pattern.go`): arbitrary patterns here; their `Prefix` is not claimed to be sound, which rests on parts of Go's regexp package that are not part of this model.
- The regular expression that finds parameters: Go's leftmost, non-overlapping search is the function `FindAll`; the regexp engine itself is not part of this model.
- Handler and pattern type switches, `web/func_equal.go`, `web/match.go`, the check for an earlier match in `router.route`: handlers are tokens.
- The middleware stack and its pool, `web/middleware`, `web/mutil`, `graceful/middleware.go`, `bind`, `serve` and the HTTP server glue: simple or plumbing.
- Code addresses are unbounded: the model has no int32 overflow, and connection numbers do not wrap at 2^64.
- Aliasing of `URLParams`: the map is a value, so a later merge does not show through another reference to it.
- StringPatterns.CutPieces: the three preallocated slices are sequences updated at an index, and `Bytecode` and `Tries` use sequences for slices that never leave their function, so capacity and sharing are not modelled.
- The methods of `listener.T` and `graceful/signal.go` as objects: they wait for other goroutines, so they are modelled as protocol steps on values (`Draining.Step`, `Shutdown.Step`).
- Errors and blocking of the wrapped `net.Conn` and `net.Listener`: a read either returns data or an error, a close always returns.
- Signals, timeouts and the double-kick window of `sigLoop`: only calls to `shutdown` are modelled.
- A panic in a hook, and Go's panic on a negative WaitGroup counter: the counter is an integer that may go below zero.
