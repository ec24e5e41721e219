# Clarke–Wright route builder for arc routing, in Dafny

This project models the constructive part of a solver for the Capacitated Arc
Routing Problem, as written in `algoritmo_construtivo.py`. Required nodes,
edges and arcs become *clients* (services) with consecutive ids. Every client
starts on its own depot-to-depot route. A savings list kept as a min-heap of
negated savings drives the merging of routes (capacity, disjoint services, a
cap on clients per route, four ways of joining two stop sequences, a minimum
gain). Merging stops at the lower bound ceil(total demand / capacity).

The merge ends by running 2-opt, at most ten passes, on every active route
with at most 20 stops (lines 123-126). The file also provides three further
operations as separate functions; none of the shown code calls them:
- `aplicar_2opt_em_todas_rotas` runs 2-opt on every short route of a list.
- `refusao_pos_otimizacao` joins the best pair of routes while that gains
  something.
- `remover_rotas_inuteis` drops the routes without clients.

Modules, one per file:

- `Types` (types.dfy): clients, routes, the distance matrix, and what makes a
  route well formed. A well-formed route runs depot to depot, visits each
  client's endpoints in between, and caches its demand and service set.
- `Costs` (costs.dfy): transport cost, service cost and route cost; the
  total over a solution; the Clarke–Wright saving; the ceil bound. Also a
  `Tally` of routes (count, clients, services, demand, cost) that the builders'
  invariants track.
- `Sequences` (sequences.dfy): reversal, as Python's `[::-1]` and
  `[-2:0:-1]` slices compute it.
- `SavingsQueue` (savings_queue.dfy): the heap as a sorted sequence, ordered
  the way Python compares `(-saving, i, j)` tuples.
- `Catalogue` (catalogue.dfy): `preparar_clientes` and `inicializar_rotas`.
- `HeapMerge` (heap_merge.dfy): `calcular_savings_inicial` and
  `juntar_rotas_com_heap`. Route ids are keys of a map that only grows;
  the active ids are a set.
- `TwoOpt` (two_opt.dfy): `two_opt` and `aplicar_2opt_em_todas_rotas`. The
  latter rewrites an `array<Route>` in place.
- `Remerge` (remerge.dfy): `refusao_pos_otimizacao`.
- `Cleanup` (cleanup.dfy): `remover_rotas_inuteis`.

Distances are integers and the gain thresholds are integer parameters. Every
stage except `TwoOpt.ApplyTwoOptAll` works on values, so it never changes its
caller's routes. For `refusao_pos_otimizacao` that is what its `deepcopy`
(line 130) achieves. `TwoOpt.ApplyTwoOptAll` rewrites the routes of its array in
place, as the assignment at line 224 does to the route dicts of the caller's list.

Details of the code that the model keeps:
- A route's service cost is the sum of the `custo` of all its clients
  (line 237).
- The saving of a pair (i, j) is directed:
  `d[end_i][dep] + d[dep][start_j] - d[end_i][start_j]` (line 42).
- 2-opt reverses a segment `[i, j)` with `1 <= i`, `j - i >= 2` and
  `j <= len - 2`, so the first stop and the last two stops never move
  (lines 199-201).
- The merge pops pairs from a heap that keeps entries of retired routes and
  skips them (lines 55-58). For each pair it tries four orientations
  (lines 69-74).

## Model

| member | source | states |
|---|---|---|
| Catalogue.PrepareClients | algoritmo_construtivo.py:7-19 | one client per required node, edge and arc, in that group order; ids run 1..n in order; a node client has origin == destination == its vertex; demand and service cost are copied |
| Catalogue.InitialRoutes | algoritmo_construtivo.py:21-31 | one route per client, in client order, each the client's single-service route |
| Catalogue.InitialRoute | algoritmo_construtivo.py:24-29 | the route of one client: that client, its demand, its service key and the stops `[dep, origin, dest, dep]`; InitialRouteFacts states what it satisfies |
| Catalogue.InitialRouteFacts | algoritmo_construtivo.py:24-29 | a single-client route `[dep, origin, dest, dep]` is well formed, carries that client's demand and service key, and costs the round trip through the endpoints plus the client's service cost |
| Catalogue.InitialRoutesPartition | algoritmo_construtivo.py:21-31 | with distinct client ids no two initial routes share a service, and together they hold exactly the catalogue's services |
| Costs.DemandTotal | algoritmo_construtivo.py:51 | the sum of the routes' `demanda_total`, in order |
| Costs.TransportCost | algoritmo_construtivo.py:236 | the sum of `d[s[k]][s[k+1]]` over consecutive stops, written the same way at lines 82, 191 and 204; its properties are stated by TransportConcat, TransportLastEdge and TransportNonNegative |
| Costs.ServiceCost | algoritmo_construtivo.py:237 | the sum of the clients' `custo`, as at line 75; additive by ServiceCostConcat |
| Costs.RouteCost | algoritmo_construtivo.py:236-238 | transport cost plus service cost of one route |
| Costs.TotalCost | algoritmo_construtivo.py:233-238 | the sum of the route costs over a solution, in order; its additivity is SeqTallyConcat |
| Costs.Saving | algoritmo_construtivo.py:42 | the directed saving of joining a route ending at `last` to one starting at `first`; SavingIsJoinGain says what it saves |
| Costs.RouteSaving | algoritmo_construtivo.py:40-42 | the saving of a pair of routes from the second-to-last stop of the first and the second stop of the second, as also at lines 114-119 |
| Costs.CeilDiv | algoritmo_construtivo.py:52 | `math.ceil(a / b)` for a positive divisor; CeilDivIsCeiling proves it is the ceiling |
| Costs.MinRoutes | algoritmo_construtivo.py:51-52 | ceil(total demand / capacity); MinRoutesIsLowerBound proves it bounds the routes of a feasible solution |
| Costs.TransportConcat | algoritmo_construtivo.py:82 | transport cost of a concatenation is the costs of the parts plus the hop that joins them |
| Costs.TransportLastEdge | algoritmo_construtivo.py:82 | the last hop splits off the transport cost |
| Costs.TransportNonNegative | algoritmo_construtivo.py:236 | with non-negative distances transport cost is non-negative |
| Costs.ServiceCostConcat | algoritmo_construtivo.py:75 | the service cost of two client lists together is the sum of their service costs |
| Costs.SavingIsJoinGain | algoritmo_construtivo.py:40-42 | the saving of (i, j) equals exactly the transport saved by serving j right after i in one depot-to-depot sequence |
| Costs.CeilDivIsCeiling | algoritmo_construtivo.py:52 | CeilDiv(a, b) is ceil(a / b): the least q with q * b >= a |
| Costs.MinRoutesIsLowerBound | algoritmo_construtivo.py:51-52 | when every route fits the capacity, there are at least ceil(total demand / capacity) routes |
| Costs.SeqTallyConcat | algoritmo_construtivo.py:233-238 | count, clients, services, demand and total cost of a concatenation of route lists add up |
| Sequences.Reverse | algoritmo_construtivo.py:203 | the slice `[::-1]`, also applied to route interiors as `[-2:0:-1]` at lines 70-73; it keeps the length, and ReverseAt and ReverseMultiset state the rest |
| Sequences.ReverseAt | algoritmo_construtivo.py:203 | reversal puts element k at position n-1-k |
| Sequences.ReverseMultiset | algoritmo_construtivo.py:203 | reversal keeps the multiset of stops |
| SavingsQueue.Insert | algoritmo_construtivo.py:43 | a push adds exactly that entry to the queue's contents |
| SavingsQueue.InsertSorted | algoritmo_construtivo.py:43 | a push keeps the queue in pop order |
| SavingsQueue.InsertMembers | algoritmo_construtivo.py:120-121 | after a push the queue holds the old entries and the new one, nothing else |
| SavingsQueue.PopIsBest | algoritmo_construtivo.py:55 | the popped entry is below every other entry, so it carries the largest saving |
| SavingsQueue.SortedUnique | algoritmo_construtivo.py:111-121 | a queue in pop order is determined by its contents, so the order in which a set is walked while pushing does not matter |
| HeapMerge.Candidates | algoritmo_construtivo.py:69-74 | the four joined stop sequences, in the source's order; CandidateShape and CandidateFacts state their shape and contents |
| HeapMerge.Merged | algoritmo_construtivo.py:99-104 | the joined route: both client lists in order, summed demand, united services, the chosen stops; MergedTally and MergedWellFormed state what it keeps |
| HeapMerge.CandidateShape | algoritmo_construtivo.py:69-74 | candidate k is a first stop, route i's interior (reversed for k >= 2), route j's interior (reversed for odd k), a last stop |
| HeapMerge.CandidateFacts | algoritmo_construtivo.py:69-74 | every candidate is a valid stop sequence whose interior holds exactly both routes' interior stops, and it starts and ends at the depot whenever both routes do |
| HeapMerge.FirstCandidateGain | algoritmo_construtivo.py:70 | joining along the first candidate gains exactly the pair's saving |
| HeapMerge.BestCandidate | algoritmo_construtivo.py:77-94 | the depot-ended candidate with the largest gain, the first among equals; None exactly when no candidate starts and ends at the depot |
| HeapMerge.JoinGain | algoritmo_construtivo.py:82-91 | old transport of both routes minus the candidate's transport; the service cost of lines 75, 83 and 89 is on both sides and cancels, as BestCandidate's loop computes it with the service cost on both sides |
| HeapMerge.Mergeable | algoritmo_construtivo.py:62-67 | the pair passes every test the merge applies: demand within capacity, no shared service, at most maxClients clients together, and (lines 77-97) some depot-ended candidate gains at least minGain |
| HeapMerge.BestJoin | algoritmo_construtivo.py:77-94 | candidate k is `melhor_seq`: depot-ended, no depot-ended candidate gains more, every earlier depot-ended one gains strictly less |
| HeapMerge.BestJoinUnique | algoritmo_construtivo.py:77-94 | at most one candidate index satisfies BestJoin, so the merged route is determined by the two routes |
| HeapMerge.BestDecides | algoritmo_construtivo.py:96-97 | the merge goes ahead exactly when some depot-ended candidate gains at least the minimum gain |
| HeapMerge.ImprovesFromExists | algoritmo_construtivo.py:79-97 | the recursive "some candidate from k on improves" test means: there is such a candidate |
| HeapMerge.MergedTally | algoritmo_construtivo.py:99-104 | the merged route holds both routes' clients, services and demand, as one route, and costs their costs less the gain |
| HeapMerge.MergedWellFormed | algoritmo_construtivo.py:99-104 | merging two well-formed routes along any candidate gives a well-formed route |
| HeapMerge.InitialSavings | algoritmo_construtivo.py:33-44 | the queue is in pop order and holds exactly one entry for each pair i < j whose demand fits, with the negated saving, and nothing else |
| HeapMerge.PushSavings | algoritmo_construtivo.py:111-121 | the queue stays in pop order and gains exactly one copy each of the entries (n, k) and (k, n) with their negated savings, for every other active k, and nothing else |
| HeapMerge.PopStep | algoritmo_construtivo.py:55-97 | one round keeps the loop's state (ids, queue order, conservation, capacity, well-formedness, disjointness, client count, pending pairs); it merges exactly when both popped routes are active and mergeable (demand fits, no shared service, at most maxClients clients together, some depot-ended candidate gains at least minGain), retiring both for a new route under the next id that is Merged from both along the one candidate BestJoin picks, so its clients, demand, services and stops are all given, and the queue is the rest of the old queue plus exactly one copy of each entry PushSavings adds for the new route; otherwise it only drops the popped entry |
| HeapMerge.MergePair | algoritmo_construtivo.py:99-121 | for a pair whose demand fits, that shares no service and has at most maxClients clients together: the new route takes the fresh id max(keys) + 1, both donors leave the active set, the queue is the old one without its head plus exactly one copy of each entry (n, k) and (k, n) for the other active k, and the state is kept with one merge more |
| HeapMerge.Polish | algoritmo_construtivo.py:125-126 | 2-opt with ten passes on a route of at most 20 stops changes only its stops, within the frame, never at a higher cost, and ends locally optimal (no move makes it cheaper) or at least ten units cheaper, as when each of the ten passes lowered the integer cost; a longer route is left as it is |
| HeapMerge.ListOne | algoritmo_construtivo.py:123-126 | one step of the listing: id k is appended, polished, exactly when it is active, and the listed routes keep their tally |
| HeapMerge.FinalRoutes | algoritmo_construtivo.py:123-126 | the output lists every active route once, in ascending id order, each polished by 2-opt |
| HeapMerge.MergeWithHeap | algoritmo_construtivo.py:46-127 | the output holds the input's clients (as a multiset), services and demand, in no more routes; it costs at least minGain less per route saved; once it has merged it never goes below the bound ceil(demand / capacity), and it stops above the bound only once no pair a < b of the final routes before 2-opt, lower id first, is mergeable; it keeps capacity, well-formedness, disjoint services and the maxClients bound on clients per route; every output route is its active route after 2-opt as Polish states |
| TwoOpt.ReverseSegment | algoritmo_construtivo.py:203 | the move `seq[:i] + seq[i:j][::-1] + seq[j:]`; ReverseSegmentAt and MoveKeepsFrame state what it does |
| TwoOpt.MoveKeepsFrame | algoritmo_construtivo.py:199-203 | every reversal tried keeps the first stop, the last two stops and the multiset of stops |
| TwoOpt.TwoOpt | algoritmo_construtivo.py:189-217 | the result keeps the frame; the returned cost is its transport cost, no higher than the input's and strictly lower when it changed; at most maxIter passes run, each pass but the last lowers the cost; a run that stops before maxIter passes is locally optimal (no move (i, j) makes it cheaper); with maxIter passes it is locally optimal or maxIter units cheaper |
| TwoOpt.Pass | algoritmo_construtivo.py:199-210 | one pass returns a sequence within the frame that costs no more than the input and no more than any move (i, j) of the input; it reports an improvement exactly when that is cheaper than the sequence, and then the result is the first of the cheapest moves in scan order (FirstCheapest), as the strict `<` at line 205 picks it |
| TwoOpt.FirstCheapest | algoritmo_construtivo.py:199-208 | move (a, b) costs c and every move scanned before it costs strictly more |
| TwoOpt.ScanRow | algoritmo_construtivo.py:200-208 | one row of moves (i, j) keeps the pass's state: the best so far is no costlier than any move scanned, and is the first cheapest of them once it improved |
| TwoOpt.ReverseSegmentAt | algoritmo_construtivo.py:203 | the move (i, j) keeps every stop outside [i, j) and mirrors the stops inside |
| TwoOpt.ApplyTwoOptAll | algoritmo_construtivo.py:219-229 | in place: every route keeps clients, demand and services; routes longer than 20 stops keep their stops; others are rewritten within the frame at no higher cost, and end locally optimal or at least maxIter units cheaper; with maxIter <= 0 nothing changes |
| TwoOpt.RewrittenKeepsWellFormed | algoritmo_construtivo.py:219-229 | 2-opt keeps a well-formed route well formed |
| Remerge.BestPair | algoritmo_construtivo.py:134-170 | one pass finds the pair and candidate of largest gain above 0 and above minGain, the first found among equals; None exactly when no pair of routes can be joined with such a gain |
| Remerge.Eligible | algoritmo_construtivo.py:142-163 | candidate k of the pair a < b may be taken: demand within capacity, no shared service, depot-ended, gain above 0 and above minGain |
| Remerge.TryCandidate | algoritmo_construtivo.py:158-166 | one candidate more keeps the pass's state BestSoFar: the best so far is the first eligible (pair, candidate) scanned with the largest gain, or None with gain 0 when none scanned is eligible |
| Remerge.ScanPair | algoritmo_construtivo.py:145-170 | the depot-ended candidates of one pair are compared with the best so far in order |
| Remerge.RemovePair | algoritmo_construtivo.py:176 | dropping routes i and j leaves the others in order, two fewer |
| Remerge.RemovePairMembers | algoritmo_construtivo.py:176 | the routes left are exactly the routes other than i and j |
| Remerge.RemovePairTally | algoritmo_construtivo.py:176 | dropping the pair takes exactly its two routes out of the tally |
| Remerge.JoinedCheaper | algoritmo_construtivo.py:171-179 | each round leaves one route fewer at a strictly lower total cost, lower by exactly the gain |
| Remerge.JoinedKeeps | algoritmo_construtivo.py:171-178 | a round keeps capacity, well-formedness and disjoint services |
| Remerge.JoinedDisjoint | algoritmo_construtivo.py:171-178 | joining two routes of a solution without shared services keeps it without shared services |
| Remerge.Remerge | algoritmo_construtivo.py:129-179 | terminates; the result holds the input's clients, services and demand in no more routes; it costs at least max(1, minGain + 1) less per route saved; no pair can be joined with a gain; it keeps capacity, well-formedness and disjoint services |
| Cleanup.NonEmpty | algoritmo_construtivo.py:181-187 | the routes with at least one client, in their order; the NonEmpty lemmas below state its properties |
| Cleanup.RemoveEmptyRoutes | algoritmo_construtivo.py:181-187 | the loop returns exactly the filter NonEmpty of its input |
| Cleanup.NonEmptyMembers | algoritmo_construtivo.py:181-187 | a route is kept exactly when it is in the input and has a client |
| Cleanup.NonEmptyConcat | algoritmo_construtivo.py:181-187 | the filter distributes over concatenation, so the kept routes stay in their original order |
| Cleanup.NonEmptyKeepsAll | algoritmo_construtivo.py:181-187 | a list without empty routes comes back unchanged |
| Cleanup.NonEmptyIdempotent | algoritmo_construtivo.py:181-187 | filtering twice is filtering once |
| Cleanup.NonEmptyClients | algoritmo_construtivo.py:181-187 | the kept routes list exactly the input's clients, in order |
| Cleanup.NonEmptyServices | algoritmo_construtivo.py:181-187 | for well-formed routes, the set of services is kept |
| Cleanup.NonEmptyDemand | algoritmo_construtivo.py:181-187 | for well-formed routes, the total demand is kept |
| Cleanup.NonEmptyCost | algoritmo_construtivo.py:181-187 | with non-negative distances the total cost does not rise |

## Left out

- Writing the solution file in `salvar_solucao` (lines 231-270): file writing, `time.time()` and the report format are not modelled. Only its cost formula is modelled, as `Costs.TotalCost`.
- `main.py` and the graph reader that produces the shortest-path matrix are not part of this model.
- The `verbose` printing of `two_opt` and `aplicar_2opt_em_todas_rotas` is left out: it is output only.
- Floating point is not modelled.
  - Distances and costs are integers, and an unreachable vertex (infinite distance) is not modelled.
  - The default `ganho_minimo=0.1` becomes an integer parameter. On integer gains, `ganho >= 0.1` in the heap merge is `minGain = 1`, and `ganho > 0.1` in the re-merge is `minGain = 0`.
  - `float('-inf')` becomes `None` in `BestCandidate`.
- The binary-heap layout of `heapq` is not modelled. The queue is a sorted sequence with the same pop order.
- The model walks the active-id set in ascending order: when pushing new savings, and `FinalRoutes` when listing the final routes. Python walks the set in its hash order. For pushes the order provably does not matter (`SortedUnique`); for the output list it is the order the model fixes.
- HeapMerge.MergeWithHeap: the convergence clause covers the pairs a < b of final routes, lower id first, which is the orientation the queue holds for the initial pairs (line 43). `Mergeable` depends on which route comes first, and a pair (b, a) of two initial routes is never tried.
- The source's default arguments are not modelled; the model takes every value as a parameter. These are `max_clientes_rota=20` of `juntar_rotas_com_heap` (line 46, `maxClients`), `max_iter=10` of `two_opt` (line 189) and of `aplicar_2opt_em_todas_rotas` (line 219, `maxIter`), and `ganho_minimo` (below).
- HeapMerge.MergeWithHeap: requires cap > 0. With capacity 0 the source raises ZeroDivisionError at line 52. A negative capacity is excluded as meaningless.
- Aliasing is not modelled.
  - The source's final 2-opt at line 126 writes `sequencia` into dicts that can still be the caller's input dicts: `mapa_rota` holds the input's route objects.
  - Apart from `TwoOpt.ApplyTwoOptAll`, which changes its array in place, the model works on values, so no caller data changes.
  - `aplicar_2opt_em_todas_rotas` is modelled on an array of route values. The change to shared dict objects is not captured.
- Every stage requires routes with at least two stops, all vertices of the matrix. The source indexes `sequencia[-2]` and `sequencia[1]` without a check.
- `inicializar_rotas` takes a `distancias` parameter that it never uses, and it is dropped. The transport cost of required edges and arcs is read but not kept by `preparar_clientes`, as in the source.
- `random` is imported but unused; the `deepcopy` of the re-merge is replaced by value semantics.
