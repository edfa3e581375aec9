# Network designer: a Dafny model

This project models the design engine of a campus network designer
(`network.py`, class `NetworkDesignSystem`). It covers:

- registering named locations;
- pricing candidate cable links from a two-entry cable table;
- a disjoint-set forest over location names, with path compression and
  union by rank;
- the budget-constrained Kruskal design step, which reports the accepted
  links and its aggregate figures.

Modules:

- `Wrappers` holds `Option`, `Result` and `Outcome`.
- `Cables` holds the cable table, the priced candidate record and the link
  cost model: cost = distance × (cost per metre + 20). Fiber is 100 per
  metre, copper 50. Any other cable type is a missing key.
- `CostOrder` holds the stable sort by cost that the design step performs.
- `DesignStats` holds the figures a design reports: total cost, total
  length, and the fiber and copper counts.
- `Partition` describes connectivity as an abstract partition: a map from
  each location to a label, and `Merge`, which joins two sets.
- `DisjointSet` holds the forest kept in `parent`. It defines the root of a
  location (`Root`), union by rank's rank invariant (`RankOrdered`), and the
  effect of path compression and linking on every location's root. A ghost
  `level` map proves that parent chains are finite.
- `ForestPartition` relates the forest to the partition it stands for: same
  root if and only if same label.
- `Kruskal` specifies the design scan as a left fold (`Scanned`) over the
  sorted candidates, written independently of the forest. It proves the
  following lemmas about that fold:
  - the accepted links form a forest;
  - there are fewer accepted links than locations;
  - the spending is their cost sum and stays within the budget;
  - they appear in the order of the candidate list and in non-decreasing
    cost.
- `Network` holds the class `NetworkDesignSystem`. Its fields are the
  registered `locations`, the candidate list, the `parent` and `rank` maps
  and the budget. Its methods are proved against the specifications above.
  `DesignOptimalNetwork` returns exactly what `Scanned` computes over the
  stably sorted candidates, starting from the partition of the current
  forest. At every location it appends exactly the accepted links incident
  to it, in order.

### Behaviour as written

Where the code departs from a textbook union-find designer, the model follows
the code:

- Registering a name twice silently replaces its record. It also makes the
  name a root of rank 0 again. Nothing rejects the duplicate.
- `union_locations` does not compare the two roots. Joining a location's set
  with itself still raises its root's rank by one. The design step only calls
  it on different roots.
- `parent` and `rank` are not reset between design runs. A second run starts
  from the connectivity the first one left: `DesignOptimalNetwork` scans from
  the partition of the current forest. `Kruskal.ScannedOnConnectedAcceptsNothing`
  shows that a scan starting from a single set accepts nothing. The model does
  not carry one run's final forest over into a statement about the next run.
- The budget is not checked for sign. "Total cost within budget" holds only
  once something is accepted. With a negative budget nothing is accepted, the
  total is 0 and the remaining budget is negative. `Kruskal.ScannedWithinBudget`
  states exactly this.

## Model

| member | source | states |
|---|---|---|
| Cables.SpecOf | network.py:41-52 | only "fiber" and "copper" have table entries; every entry has a positive cost per metre and a reliability strictly between 0 and 1 |
| Cables.PriceLink | network.py:41-65 | an unknown cable type is an error naming that type and nothing else is one; a priced link keeps its two ends and distance, costs 120 per unit for fiber (bandwidth 10000, reliability 0.99) and 70 per unit for copper (1000, 0.95), and never costs less than 0 |
| Cables.DistanceDetermined | network.py:30-32 | the straight-line distance between two points is unique, so the distance parameter is the one the source computes |
| Cables.CostMonotoneInDistance | network.py:54-56 | of two links with the same cable type, the longer one never costs less |
| Cables.FiberNeverCheaper | network.py:41-56 | over the same distance, fiber never costs less than copper |
| CostOrder.Insert | network.py:86 | inserting into a cost-sorted list keeps it sorted and adds exactly the one candidate |
| CostOrder.SortByCost | network.py:86 | the sorted list is in non-decreasing cost and is a permutation of the candidates |
| CostOrder.InsertKeepsTies | network.py:86 | inserting a candidate puts it in front of every candidate of the same cost already in the list, and keeps their order |
| CostOrder.SortByCostIsStable | network.py:86 | for every cost, the candidates of that cost keep their input order after sorting |
| DesignStats.SumCost | network.py:100 | the total cost of the links, never negative when no link costs less than 0 |
| DesignStats.SumDistance | network.py:101 | the total cable length of the links, never negative when no link is shorter than 0 |
| DesignStats.CountFiber | network.py:103-104 | the number of fiber links, at most the number of links |
| DesignStats.CountCopper | network.py:105-106 | the number of links of any other cable type, at most the number of links |
| DesignStats.FiguresSnoc | network.py:99-106 | accepting one more link adds its cost and its length, and adds one to the fiber count if it is fiber and to the copper count otherwise |
| DesignStats.FiberCopperSplit | network.py:103-106 | every accepted link is counted exactly once, as fiber or as copper |
| Partition.MergeDropsOneLabel | network.py:72-82 | joining two different sets removes exactly one set |
| DisjointSet.AboveShrinks | network.py:67-70 | each recursive call of find is on a location strictly higher in the forest, so the recursion ends |
| DisjointSet.Root | network.py:67-70 | following parents from a location ends at a location that is its own parent |
| DisjointSet.RootOutranks | network.py:72-82 | under the rank invariant, a root's rank is strictly above that of every location below it |
| DisjointSet.CompressKeepsRoots | network.py:68-69 | pointing a location straight at its root keeps the forest finite and keeps every location's root |
| DisjointSet.CompressRankOrdered | network.py:68-69 | path compression keeps the rank invariant |
| DisjointSet.LinkRoots | network.py:76-81 | putting one root under another moves exactly the first root's set to the second root and keeps every other location's root |
| DisjointSet.LinkRankOrdered | network.py:76-82 | linking under a root whose rank ends strictly higher keeps the rank invariant |
| DisjointSet.FreshRankOrdered | network.py:27-28 | a new name with rank 0 keeps the rank invariant |
| DisjointSet.RegisterRoot | network.py:27-28 | registering any name, new or not, keeps the forest finite and makes the name a root; for a new name the rank invariant is kept too |
| ForestPartition.RootsDescribe | network.py:96 | labelling every location by its root describes the forest's partition |
| ForestPartition.DescribesSameRoots | network.py:96 | finds that keep every root keep the partition the forest stands for |
| ForestPartition.DescribesAfterLink | network.py:76-81 | after one end's root goes under the other end's root, the forest stands for the partition with the two ends' sets joined |
| Kruskal.Step | network.py:96-100 | one candidate of the loop, with the acceptance rule `Accepts`: it is appended, paid for and its ends joined exactly when its ends are in different sets and its cost fits in what is left of the budget; otherwise nothing changes |
| Kruskal.Scanned | network.py:93-100 | the scan over a candidate list, one step per candidate, never stopping early; it keeps the set of locations and accepts at most one link per candidate |
| Kruskal.PermutationKeepsEndpoints | network.py:86 | sorting keeps every candidate's ends registered and its price per the table |
| Kruskal.ScannedSnoc | network.py:93 | scanning one more candidate is one more step of the loop |
| Kruskal.ScannedMerges | network.py:96-98 | the final partition is the starting one with the ends of every accepted link joined, in order of acceptance |
| Kruskal.ScannedIsForest | network.py:96-98 | each accepted link joined two locations that were still in different sets just before it: the accepted links form a forest |
| Kruskal.ForestEdgeCount | network.py:96-98 | each link of a forest removes exactly one set |
| Kruskal.ScannedEdgeCount | network.py:93-99 | the accepted links and the sets left add up to the starting number of sets, so at most one fewer link than locations is accepted |
| Kruskal.ScannedOnConnectedAcceptsNothing | network.py:96 | when all locations already share one set, as after a run that connected everything, nothing is accepted |
| Kruskal.ScannedWithinBudget | network.py:97-100 | the running total is the sum of the accepted costs, and once anything is accepted it never exceeds the budget |
| Kruskal.ScannedSpendingNonNegative | network.py:97-100 | when no candidate costs less than 0, the running total never falls below 0 |
| Kruskal.ScannedOverBudgetAcceptsNothing | network.py:97 | when every candidate alone costs more than the budget, nothing is accepted and nothing is spent |
| Kruskal.ScannedIsSubsequence | network.py:93-99 | the accepted links appear in the order of the scanned list, with some candidates left out |
| Kruskal.SubseqOfSorted | network.py:86-99 | links picked in order out of a cost-sorted list are cost-sorted |
| Kruskal.ScannedInCostOrder | network.py:86-99 | over a cost-sorted list, links are accepted in non-decreasing cost |
| Network.Ends | network.py:108-109 | a link is listed at a location once for each of its ends that is that location |
| Network.IncidentSnoc | network.py:108-109 | the links listed at a location grow by the copies of each newly recorded link |
| Network.LinkOrder | network.py:76-81 | the root of lower rank goes under the other; on a tie the second root goes under the first |
| Network.RanksAfterLink | network.py:80-82 | only a tie changes a rank, and only the first root's rank, by one |
| Network.LinkOrderRaisesWinner | network.py:76-82 | after the link, the surviving root's rank is strictly above the other root's old rank |
| Network.PlanGuarantees | network.py:84-118 | the design's accepted links are cost-sorted and in stable-sort order; the spending is their cost sum, at least 0, and within budget once anything is accepted; they form a forest with at most one fewer link than locations; each is counted once as fiber or copper |
| Network.RegisterConsistent | network.py:17-28 | registering a location keeps the designer's invariant and makes the name a root |
| Network.CompressForest | network.py:68-69 | one compression step of find keeps the forest and every location's root |
| Network.LinkForest | network.py:76-82 | union by rank's link moves exactly the loser's set under the winner and keeps the rank invariant |
| Network.UnionEffect | network.py:72-82 | the two finds and the link together join the sets of the two locations by rank and change nothing else |
| Network.ReforestConsistent | network.py:96-98 | changing only the forest, over the same locations, keeps the designer's invariant |
| Network.Attach | network.py:108-109 | recording a link keeps the registered names and the name in each record |
| Network.AttachAt | network.py:108-109 | recording a link extends each location's connections by the link's copies at that location and changes nothing else |
| Network.AttachConsistent | network.py:108-109 | recording a link keeps the designer's invariant |
| Network.AttachAllSnoc | network.py:108-109 | recording one more accepted link is one more attach |
| Network.RecordedSnoc | network.py:108-109 | after one more attach, each location lists exactly the incident links recorded so far, in order |
| Network.AttachAllRecorded | network.py:108-109 | recording the accepted links one by one lists at every location exactly the accepted links incident to it, in order, and changes nothing else |
| Network.Tally | network.py:99-106 | the running figures follow the scan: the accepted list, total cost, total length and fiber and copper counts of the scan after this candidate |
| Network.NetworkDesignSystem.constructor | network.py:10-15 | a new designer has no locations, no candidates, an empty forest and the given budget, 500000 by default |
| Network.NetworkDesignSystem.AddLocation | network.py:17-28 | the record is stored under its name with no connections and a bandwidth requirement of 100 per device; the name becomes a root of rank 0; the invariant is kept |
| Network.NetworkDesignSystem.AddPossibleConnection | network.py:34-65 | an unknown first end, then an unknown second end, then an unknown cable type fails and changes nothing; otherwise exactly the priced link is appended to the candidates |
| Network.NetworkDesignSystem.FindParent | network.py:67-70 | returns the root of the location; every location on the path from it up to the root (`DisjointSet.OnPath`) now points straight at the root and every other location keeps its parent; every location keeps its root, and the rank invariant is kept |
| Network.NetworkDesignSystem.UnionLocations | network.py:72-82 | afterwards both locations share a root; exactly the set of the lower-ranked root moves (on a tie the second root's set moves and the first root's rank grows by one); the rank invariant is kept |
| Network.NetworkDesignSystem.TryJoin | network.py:96-98 | the candidate is accepted exactly when its ends are in different sets and it fits within the budget; if so, the forest then stands for the partition with the two sets joined and the ranks change as union by rank changes them, otherwise the partition and the ranks stay; the rank invariant is kept |
| Network.NetworkDesignSystem.RecordConnection | network.py:108-109 | appends the accepted link to the first end's connections and then to the second end's |
| Network.NetworkDesignSystem.Consider | network.py:94-109 | one candidate is accepted exactly as the scan accepts it; the forest and the records follow the scan's next step; the ranks change only by union by rank on an accepted link, and the rank invariant is kept |
| Network.NetworkDesignSystem.ScanSorted | network.py:87-118 | the accepted links and total cost are those of the scan over the sorted list; the length and cable counts are those of the accepted links; the remaining budget is the budget minus the total; every location lists its accepted links; the rank invariant is kept |
| Network.NetworkDesignSystem.DesignOptimalNetwork | network.py:84-118 | the result is the scan over the stably sorted candidates starting from the current forest; its figures are those of the accepted links; the remaining budget is the budget minus the total; the forest stands for the final partition; every location lists exactly its accepted incident links, in order; the rank invariant is kept |

## Left out

- The Tkinter interface, `visualize_network` (matplotlib), saving and loading of candidate lists (JSON files), and random generation of locations and links are not part of this model. They are I/O around the core.
- `calculate_distance`: the square root is not computed. `AddPossibleConnection` takes the distance as a parameter, and its precondition requires that it is the straight-line distance between the two coordinates (`Cables.IsDistance`, which `Cables.DistanceDetermined` shows is unique).
- Floating point: costs, distances and the budget are exact reals, so rounding in sums and comparisons is not modelled. The default budget `500000` is an integer in the source and a real here.
- Names are modelled as strings and coordinates as pairs of reals. Location type and device count are kept as given, unchecked, as in the source.
- Network.NetworkDesignSystem.DesignOptimalNetwork: minimality of the total cost (the minimum-spanning-tree property under an unlimited budget) is not proved. The model proves the greedy rule, the forest property, the budget bound and the order of acceptance.
- Network.NetworkDesignSystem.AddLocation: the rank invariant is proved to be kept only when the name is new. Re-registering a name resets its rank to 0 as written, which can break the invariant for locations already under it.
- Network.NetworkDesignSystem.UnionLocations and FindParent: termination rests on the ghost `level` map, not on `rank`. A re-registered name's rank can fall below that of locations under it, so rank alone does not order the forest.
- Network.NetworkDesignSystem.constructor: `totalBudget` is fixed when the designer is made. The interface's later reassignment of the budget (network.py:220) belongs to the left-out interface.
- Kruskal.ScannedWithinBudget: the budget bound reads "spent within budget, or nothing accepted", not "spent within budget". With a negative budget the total of 0 exceeds the budget.
- The loop body of `design_optimal_network` is split into `TryJoin` (the two finds, the budget test and the union), `RecordConnection` (the two appends), `Consider` (both together) and `Tally` (the running figures). The order of the effects on the designer's state (finds, union, appends at the first and then the second end) is that of the source. The running figures are local variables and are updated after the appends, where the source updates them before.
- Network.NetworkDesignSystem.ScanSorted and DesignOptimalNetwork: the final `rank` map is stated through the rank invariant, not as an exact map. The exact rank change of each accepted link is stated by `Consider` and `TryJoin`.
