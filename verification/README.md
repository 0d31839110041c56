# ShadeWatcher graph builder, verified

A Dafny model of the part of ShadeWatcher that turns audit logs into a knowledge graph, prunes the
graph, searches it, stores it and hands it to the recommender, together with the libconfig reader and
writer the parser uses. Every result is a statement about all inputs, all schedules or all iteration
orders. Hash values are uninterpreted: they come with the records or from a function parameter, and
where a property needs identifiers to differ, that is a stated condition.

| area | modules |
|---|---|
| Threaded construction: one reader, parsers and one merger over two rings | `Batching`, `Ring`, `Pipeline`, `PipelineInvariant`, `PipelineConservation`, `PipelineSafety`, `PipelineTermination` |
| The graph of the DARPA front end, and threaded against sequential construction | `Records`, `Observables`, `KnowledgeGraph`, `Construction`, `ListContents`, `LogContents` |
| Noise reduction | `ShadowSpec`, `NoiseContents`, `Ownership`, `NoiseReduction`, `NoiseTheorems`, `NoiseAdjacency`, `TemporaryLog` |
| The bounded temporal search, and a whole DARPA parse | `Interactions`, `GraphParse` |
| The Auditbeat front end: tables whose keys change, calls, recovery, runs, clean-up, and a whole parse | `Rekeying`, `NodeTables`, `SystemCalls`, `ObjectCalls`, `BeatTables`, `Recovery`, `BeatRuns`, `CallContents`, `PidReuse`, `Cleanup`, `BeatParse` |
| libconfig: writer, scanner, grammar actions, round trip | `Numerals`, `Text`, `ConfigTree`, `ConfigWriter`, `ConfigScanner`, `ConfigLexing`, `ConfigParser`, `ConfigRoundTrip` |
| The edge file, and both formats on examples | `EdgeFile`, `Samples` |
| Preparing and judging recommendations | `Positions`, `KgSort`, `BenignSplit`, `Evaluation` |
| Shared | `Basics`, `Iteration` |

Code that changes state is a class whose methods are proved against a specification function or
predicate (`KG`, `ReduceNoise`, `Explorer`, `Tables`, `Writer`); the threads are a step relation over
program counters (`Pipeline.Do`); the lemmas are about the specifications. What whole parses make of a log is said again without these
functions, of nodes, edges, names and identifiers alone (`LogContents`, `CallContents`,
`NoiseContents`). `dafny verify dfyconfig.toml` checks the whole project.

Some properties one would expect are false of the code. The model keeps the code and says exactly
when they hold: the announced number of batches is 32 bits wide (`BatchNumCountsChunks`,
`StuckMeansDone`); signed timestamps are compared as unsigned ones, and -1 is taken for the start of
a search, so a path can go back in time (`FollowedInOrder`, `AlwaysInOrder`, `GraphInOrder`);
libconfig accepts names it cannot read back (`NameDecides`); a timestamp with white space does not
survive the edge file, nor does a table of 2^31 edges (`LineRoundTrip`, `FileRoundTrip`); a re-keyed
identifier that is taken loses an entry (`ExchangeCount`, `LosslessIffFresh`, `StepExact`,
`SameLoginTwice`); the temporary file pass can remove the last edge between two nodes
(`JoinedIffSpared`, `WrittenAgainLog`); what the library pass marks can depend on the iteration
order (`LibraryOrder`, `LibraryRace`); the benign split fails when there is nothing to swap
(`EnsureBenignTrain`). The number of test batches takes the remainder by the number of full batches
instead of the batch size; the batches tile the data all the same (`BatchesTile`).

## Model

| member | source | states |
|---|---|---|
| Batching.ChunksFlatten | parse/parser/darpa/multithread.cpp:86-105 | The batches a log is cut into, put together again in order, are the log. |
| Batching.ChunksSizes | parse/parser/darpa/multithread.cpp:93-104 | No batch is empty, none is longer than the batch size, and only the last one may be shorter. |
| Batching.BatchNumCountsChunks | parse/parser/darpa/multithread.cpp:4-17 | The announced number of batches is the true one reduced to 32 bits: equal to it exactly when there are fewer than 2^32 batches, and otherwise at least 2^32 too small. |
| Ring.FullIsAtCapacity | parse/parser/darpa/multithread.cpp:42 | The fullness test on the positions holds exactly when all slots but one hold published items. |
| Ring.WindowPush | parse/parser/darpa/multithread.cpp:47-52 | Publishing the slot at the write position appends it to the queue of published items. |
| Ring.WindowPop | parse/parser/darpa/multithread.cpp:73-77 | Advancing the read position takes exactly the oldest published item out of the queue. |
| Ring.WindowFrame | parse/parser/darpa/multithread.cpp:114-118 | Writing to a slot outside the published window leaves the queue as it is; this is what makes the swap after the unlock harmless. |
| PipelineInvariant.InitInv | parse/parser/darpa/multithread.cpp:201-218 | The state the repository is initialised to satisfies the invariant of the pipeline: mutual exclusion, counters, free slots empty, lines and sub-graphs conserved. |
| PipelineSafety.StepInv | parse/parser/darpa/multithread.cpp:35-198 | Every step of every thread, including spurious wakeups, keeps the invariant. |
| PipelineSafety.RunInv | parse/parser/darpa/multithread.cpp:35-198 | The invariant holds in every state of every run, for any number of parsers, any ring sizes from 2 and any schedule. |
| PipelineConservation.LinesKept | parse/parser/darpa/multithread.cpp:35-131 | Every step keeps free slots empty and the lines of the log in order: taken out, in flight, published, in the hands of the reader, still to be read. |
| PipelineConservation.GraphsKept | parse/parser/darpa/multithread.cpp:137-198 | Every step keeps, for each sub-graph, the number of times it exists among parsers, ring and merger. |
| PipelineConservation.SwapOutSlot | parse/parser/darpa/multithread.cpp:114-118 | When a parser swaps, the slot it refers to is the only unpublished slot that holds a batch, and not the one the reader has just stored into. |
| PipelineSafety.ReferenceExclusive | parse/parser/darpa/multithread.cpp:60-83 | While a parser holds the reference that ConsumeBatch returned, that slot is the one just behind the read position, is not published, is not where the reader writes, and no other parser is inside ConsumeBatch or holds a reference. |
| PipelineSafety.ReferenceFrozen | parse/parser/darpa/multithread.cpp:42-57 | No step of any other thread changes the referenced slot, the read position or what has been taken. |
| PipelineSafety.SwapGetsOldest | parse/parser/darpa/multithread.cpp:60-83 | Over any stretch of a run, what the parser finally swaps out is the batch that was the oldest when it took the reference. |
| PipelineSafety.TakenIsPrefix | parse/parser/darpa/multithread.cpp:86-119 | The batches taken out so far are the first batches of the log in order, and after each ProduceBatch the batch of the reader is empty again. |
| PipelineSafety.ParkedReaderLeftOver | parse/parser/darpa/multithread.cpp:42-45 | A reader parked on a full ring means that the log still has batches that were not taken out. |
| PipelineSafety.NoParsersLeft | parse/parser/darpa/multithread.cpp:110-131 | When all parsers have exited, the reader or the merger can act unless both have exited too. |
| PipelineSafety.Progress | parse/parser/darpa/multithread.cpp:35-198 | No deadlock and no lost wakeup: in every reachable state that is not final some thread can act without a spurious wakeup, if the log has fewer than 2^32 batches. |
| PipelineSafety.StuckMeansDone | parse/parser/darpa/multithread.cpp:35-198 | A state in which no thread can act is the successful end exactly when the log has fewer than 2^32 batches. |
| PipelineSafety.CompleteRun | parse/parser/darpa/multithread.cpp:183-198 | When all threads have exited, exactly the batches of the log were taken out in order and each sub-graph was merged exactly once. |
| PipelineTermination.RankDrops | parse/parser/darpa/multithread.cpp:35-198 | A rank decreases with every step; a spurious wakeup raises it by at most 2. |
| PipelineTermination.RunIsBounded | parse/parser/darpa/multithread.cpp:35-198 | A run with w spurious wakeups has at most rank + 3w steps, so every schedule without them ends. |
| PipelineTermination.MaximalRun | parse/parser/darpa/multithread.cpp:342-374 | A run that goes on until nobody can act ends with all threads exited and every batch merged exactly once, precisely when the log has fewer than 2^32 batches. |
| Records.EdgeEnum2Int | parse/parser/common.cpp:132-195 | The number of a relation is its position in the declaration order of the enumeration, so casting it back gives the relation. |
| Observables.ApplyMerge | parse/parser/darpa/multithread.cpp:268-322 | Processing a record after merging is the same as processing it in the second graph and then merging. |
| Observables.MergeInOrder | parse/parser/darpa/multithread.cpp:226-322 | However the lines are split, merging the sub-graphs in order gives what one pass gives. |
| Observables.MergeAnyOrder | parse/parser/darpa/multithread.cpp:183-198 | The order in which sub-graphs arrive does not matter, up to the order of the edges. |
| Observables.ThreadedRefinesSequential | parse/parser/darpa/multithread.cpp:226-322 | For every batch size and every order of arrival, the merged graph has the node keys, the event count and the bag of edges of the graph built in one pass. |
| Observables.SameLists | parse/parser/darpa/multithread.cpp:310-322 | Graphs with the same bag of edges have the same bag of edges in the interaction list of every file and process. |
| ListContents.ListHoldsItsEdges | parse/parser/kg.cpp:1190-1209 | The interaction list of a key holds, as a bag, exactly the edges of the graph that belong there. |
| ListContents.SameGraphSameLists | parse/parser/darpa/multithread.cpp:310-322 | Two graphs that agree on their edges agree, as bags, on every file list and every process list. |
| Construction.PipelineBuildsSequentialGraph | parse/parser/darpa/multithread.cpp:342-374 | End to end: merging the sub-graphs in the order in which any maximal run of the pipeline delivers them gives the graph of a single pass over the log. |
| Construction.SubKGConstruction | parse/parser/darpa/multithread.cpp:226-266 | The sub-graph of a batch is valid and is what the records of the batch make of an empty graph. |
| Construction.ProcessLog | parse/parser/darpa/parserdar.cpp:46-83 | One pass over the log adds to the graph exactly what its records specify, with the events counted at the end. |
| GraphParse.ReduceGraph | parse/parser/darpa/parserdar.cpp:85-88 | On a graph built from a log the noise reduction never ends the program; it changes no node and no inserted edge, what it does is a reduction of exactly the edge objects of the graph in the sense of the adjacency theorems, on sorted lists, it counts what it deletes, and it leaves a closed graph. |
| GraphParse.KGDarpaParse | parse/parser/darpa/parserdar.cpp:21-97 | A whole log. The graph has a node exactly for each identifier that some line describes as a process, file or socket, of a kind and with a name that such a line gives it, the first one's; each event has its edges in the graph, with ends, direction, relation and lists by its kind and dataset, every edge comes from such an event, and there are as many as the events call for; each edge was put under the first free identifier from its hash on; node kinds are unambiguous exactly when no identifier is described in two ways. The edge table is what the noise reduction leaves of exactly these edges, the graph is closed, and every identifier described as a file only is searched from or found in some search. |
| GraphParse.MultithreadConstruction | parse/parser/darpa/multithread.cpp:342-402 | The same from the sub-graphs in any order of arrival, but for identifiers and names: nodes, kinds, events and edges are those that the lines describe, names are those of some line, and the edge table is what the reduction leaves of the edges. |
| GraphParse.TypedIffApart | parse/parser/kg.cpp:213-224 | The node table says of every identifier exactly which of the three tables has it if and only if no identifier is in two of them. |
| LogContents.GraphOfLog | parse/parser/darpa/tripletdar.cpp:60-502 | What a log makes of an empty graph, said without the code: the nodes its lines describe, the number of events analysed, for each kind of event and each dataset the edges with their ends, direction, relation, sequence number, timestamp and lists, and no other edge. |
| LogContents.SameContents | parse/parser/darpa/multithread.cpp:268-322 | The same of any graph that agrees with it up to the order of the edges. |
| LogContents.LogAsks | parse/parser/darpa/tripletdar.cpp:60-422 | The edges of a log and the identifiers asked for go together: the hash of the event, or one of the two of a rename or an update, by the relation of the edge. |
| LogContents.NamesOfLog | parse/parser/darpa/tripletdar.cpp:424-502 | In one pass a node is named by the first line with its identifier, from the fields that the dataset says. |
| LogContents.NamesOfArrivals | parse/parser/darpa/multithread.cpp:268-322 | Merged in any order of arrival, every node is named by some line of the log with its identifier. |
| Construction.MergeEdges | parse/parser/darpa/multithread.cpp:303-308 | Every edge of the sub-graph is probed into the table: no edge is lost or overwritten and each is found under its own identifier. |
| Construction.JoinLists | parse/parser/kg.cpp:1211-1228 | A list is appended to the list of the same key, or adopted when there is none; the lists of other keys stay. |
| Construction.MergeGraph | parse/parser/darpa/multithread.cpp:268-322 | After merging, the graph is valid, holds the edge objects of both, and observes as the merge of both: the keys of the node tables, the event count, the edges and the lists they are noted in; where both name a node, the name of the sub-graph stays. |
| Construction.ConsumeGraphs | parse/parser/darpa/multithread.cpp:183-198 | Merging the sub-graphs as they arrive gives a valid graph that observes as the fold of their merges. |
| KnowledgeGraph.KG.Probe | parse/parser/kg.cpp:505-528 | The probing loop ends, at the first identifier from the given one on that is free. |
| KnowledgeGraph.KG.InsertEdge | parse/parser/kg.cpp:505-528 | The edge is added under the first free identifier and carries it; no entry is overwritten, and every edge stays under its own identifier. |
| KnowledgeGraph.KG.NewEdge | parse/parser/kg.cpp:505-528 | A new edge with these contents is in the table under the first identifier from its hash on that no earlier edge has. |
| KnowledgeGraph.ProbedFresh | parse/parser/kg.cpp:505-528 | If the identifiers asked for one after the other differ, each edge gets the one asked for. |
| KnowledgeGraph.PutFresh | parse/parser/kg.cpp:505-528 | Hence edges whose hashes differ are each found under their own hash. |
| KnowledgeGraph.KG.InsertProc | parse/parser/kg.cpp:213-224 | The first record with an identifier wins: an identifier that is taken changes nothing, a new one gains its entry and a node of kind process. |
| KnowledgeGraph.KG.InsertFileInteraction | parse/parser/kg.cpp:1190-1209 | The edge goes to the end of the list of its file, and all lists hold exactly the edges that belong there. |
| KnowledgeGraph.KG.InsertProcInteraction | parse/parser/kg.cpp:1254-1273 | The edge goes to the end of the list of its process, and all lists hold exactly the edges that belong there. |
| KnowledgeGraph.KG.SyscallRename | parse/parser/darpa/tripletdar.cpp:362-382 | A rename adds a read of the old object and a write of the new one, each noted for its object and its process. |
| KnowledgeGraph.KG.SyscallUpdate | parse/parser/darpa/tripletdar.cpp:400-422 | An update adds a deletion of the old object and a creation of the new one. |
| KnowledgeGraph.KG.SyscallExecve | parse/parser/darpa/tripletdar.cpp:251-272 | The direction of an execution edge depends on the dataset; a third dataset gets none. |
| KnowledgeGraph.KG.Event2Triplet | parse/parser/darpa/tripletdar.cpp:60-243 | An event adds the edges its kind calls for, each under the first free identifier from its hash on, keeps table and lists consistent, and counts as analysed unless it is skipped or unknown; `GraphOfLog` says which edges these are. |
| KnowledgeGraph.KG.LoadNode | parse/parser/darpa/tripletdar.cpp:424-502 | A subject, file or netflow record adds the node it describes, of its kind and with its name, and nothing else; `GraphOfLog` and `NamesOfLog` say which. |
| KnowledgeGraph.KG.ProcessRecord | parse/parser/darpa/parserdar.cpp:46-83 | One line of the log changes the graph as specified, in both construction paths. |
| NoiseReduction.Sort | parse/util/reduce_noise.cpp:45-55 | Any sorting by sequence number and number of the relation: the result is sorted and a permutation. |
| NoiseReduction.ScanBack | parse/util/reduce_noise.cpp:146-186 | The backward scan from an access says whether an earlier access of the same source comes before the nearest edge that ends the window. |
| NoiseReduction.ShadowList | parse/util/reduce_noise.cpp:126-194 | In one list exactly the shadowed accesses are collected. |
| NoiseReduction.ReduceNoise.ShadowFileEdge | parse/util/reduce_noise.cpp:126-194 | The file pass resorts the lists and marks exactly the identifiers of shadowed writes and sends. |
| NoiseReduction.ReduceNoise.ShadowProcEdge | parse/util/reduce_noise.cpp:196-260 | The process pass resorts the lists and marks exactly the identifiers of shadowed reads and receives. |
| ShadowSpec.ShadowedIsWindowwise | parse/util/reduce_noise.cpp:142-190 | The nested scans have a declarative meaning: an access is marked exactly when its source has an earlier access in the same window between consecutive edges that leave the node. |
| ShadowSpec.FirstInWindowKept | parse/util/reduce_noise.cpp:126-260 | Every source that accesses the node in a window keeps its first access there. |
| ShadowSpec.UnmarkedTwin | parse/util/reduce_noise.cpp:126-260 | Whatever the list, a marked access repeats an unmarked one. |
| NoiseTheorems.KeptIsEarliest | parse/util/reduce_noise.cpp:126-260 | On a sorted list the access kept for a source in a window is one of the earliest, and all its others there are marked. |
| NoiseTheorems.SourcesPerWindowKept | parse/util/reduce_noise.cpp:126-260 | In every window the set of writers, or of objects read, is the same with and without the marked edges. |
| NoiseTheorems.ShadowsKeepAdjacency | parse/util/reduce_noise.cpp:126-260 | Every edge that either shadow pass marks has a parallel edge that neither marks. |
| NoiseReduction.TmpList | parse/util/reduce_noise.cpp:71-118 | For one file the pass collects either nothing, because the file is not temporary, or the prefix of its list up to its deletion. |
| NoiseReduction.ReduceNoise.TmpFile | parse/util/reduce_noise.cpp:57-124 | The file lists are resorted and exactly the edges of temporary files are marked. |
| NoiseTheorems.TemporaryJoinsCreator | parse/util/reduce_noise.cpp:57-124 | Every edge the temporary file pass marks joins the file and its creator. |
| NoiseAdjacency.JoinedIffSpared | parse/util/reduce_noise.cpp:383-431 | After all five passes an edge from one node to the other is left exactly when some edge between them is not temporary, not missing, not a marked library load and, if a shadow pass looks at it, has no temporary access by the same source earlier in its window. |
| NoiseAdjacency.TemporaryPair | parse/util/reduce_noise.cpp:57-124 | A pair joined in the temporary prefix of a file stays joined exactly when an edge outside that prefix joins it and is spared in this sense. |
| NoiseAdjacency.OnlyTemporary | parse/util/reduce_noise.cpp:57-124 | A pair whose every edge is temporary is separated, as by a process that creates a file and deletes it. |
| NoiseAdjacency.NoTemporaryFiles | parse/util/reduce_noise.cpp:383-431 | Without temporary files a pair stays joined exactly when both are nodes and some edge between them is not a marked library load. |
| NoiseAdjacency.TemporaryFilesBreakAdjacency | parse/util/reduce_noise.cpp:57-194 | A later write alone does not help: a file created, written, deleted and written again by one process loses every edge from that process. |
| TemporaryLog.WrittenAgainLog | parse/util/reduce_noise.cpp:57-194 | The program meets such a file: the log of a process and a file with just these four events gives a graph in which both are nodes, joined before the reduction and not after it. |
| NoiseReduction.ReduceNoise.MissingEdge | parse/util/reduce_noise.cpp:262-279 | Exactly the edges with an end that has no node are marked. |
| NoiseReduction.ReduceNoise.TrackabilityCheck | parse/util/reduce_noise.cpp:320-358 | Direction 1 asks whether one process alone wrote the file, any other direction whether it alone read it; a File node without a list ends the program. |
| NoiseReduction.ReduceNoise.LibraryLoad | parse/util/reduce_noise.cpp:292-312 | A load is marked, and its file becomes a known library, exactly when the file is one already or its process is its only writer. |
| NoiseReduction.ReduceNoise.Library | parse/util/reduce_noise.cpp:281-318 | The pass visits every process list once, in some order, and marks exactly what that order makes of the lists. |
| NoiseTheorems.LibrariesHaveLists | parse/util/reduce_noise.cpp:281-318 | On a graph built from a log the library pass never ends the program. |
| NoiseTheorems.LibraryOrder | parse/util/reduce_noise.cpp:281-318 | Some two orders of visiting the process lists mark different loads exactly when some file has one load by its sole writer and another load that is not. |
| NoiseTheorems.LibraryRace | parse/util/reduce_noise.cpp:281-318 | An instance: a file that one process writes and loads and another one loads; visiting the writer first marks both loads, visiting it last only its own. |
| NoiseTheorems.NoContest | parse/util/reduce_noise.cpp:281-318 | Without such a file every order marks exactly the loads by sole writers. |
| Ownership.LogsAreOwned | parse/parser/darpa/tripletdar.cpp:245-422 | In every graph built from a log each noted edge is noted for its own object and its own process. |
| Ownership.ListsAreOwned | parse/parser/kg.cpp:1190-1273 | Hence the lists of such a graph hold only edges of their own file or process. |
| NoiseReduction.ReduceNoise.RemoveNoisyEdges | parse/util/reduce_noise.cpp:419-431 | Exactly the entries under the collected identifiers go, and the size before is the size after plus the increase of noise_num. |
| NoiseReduction.ReduceNoise.DeleteNoise | parse/util/reduce_noise.cpp:383-431 | On lists in order of sequence number and relation, the edges deleted are: reads and receives that an earlier read or receive from the same source repeats without an edge leaving the process between them, writes and sends likewise in the list of the file, edges of files that their creator alone used and deleted, edges with an end that is no node, loads of files by their only writer, and further only loads of files so loaded. Exactly the collected identifiers go, they are counted, and afterwards every edge joins two nodes. |
| NoiseReduction.ReadsMarked | parse/util/reduce_noise.cpp:196-260 | The process pass marks an edge exactly when it is a Read or Recv with an earlier Read or Recv from the same source in its list and no edge between them that leaves the process. |
| NoiseReduction.WritesMarked | parse/util/reduce_noise.cpp:126-194 | The file pass does so for Write and Send. |
| NoiseReduction.TemporariesMarked | parse/util/reduce_noise.cpp:57-124 | The first pass marks an edge exactly when it is not after the first deletion of a file that starts with its creation and is used by its creator alone until then. |
| NoiseAdjacency.ReductionExact | parse/util/reduce_noise.cpp:383-431 | The same of a reduction as a whole: what goes is exactly what these rules say, libraries bounded from both sides. |
| NoiseAdjacency.RepeatsGo | parse/util/reduce_noise.cpp:126-260 | A Read or Recv in the list of its process that has an earlier one from the same object, and no edge leaving the process between them, is deleted; a Write or Send in the list of its file likewise. |
| NoiseAdjacency.OnlyRepeatsGo | parse/util/reduce_noise.cpp:126-260 | An edge deleted that is no temporary file's, misses no end and loads no library is such a repeated Read or Recv, or Write or Send. |
| Interactions.FollowedMember | parse/parser/kg.cpp:1606-1647 | Which edges are followed after one at time t, with timestamps as the signed numbers they are: those from t on and, for t from 0 on, all at negative times; after -1 all of them. |
| Interactions.FollowedInOrder | parse/parser/kg.cpp:1606-1647 | Given the edges at a node, none earlier than t is followed exactly when, for t from 0 on, none of them is at a negative time; for t = -1, none is before -1; for t below -1, always. |
| Interactions.AlwaysInOrder | parse/parser/kg.cpp:1606-1647 | Over all lists of edges, time order is kept exactly for t below -1. |
| Interactions.NegativeAfterPositive | parse/parser/kg.cpp:1630-1641 | An instance: an edge at time -5 is followed after one at time 3. |
| Interactions.PathInOrder | parse/parser/kg.cpp:1684-1735 | A path that the search follows is in time order exactly when no step goes from a time of at least 0 to a negative one or from -1 to before -1. |
| Interactions.GraphInOrder | parse/parser/kg.cpp:1684-1735 | Of a graph: all paths of at most six edges that a search may follow, from any start, are in time order exactly when no edge leads on to one with such a step. |
| Interactions.TimelyRelevant | parse/parser/kg.cpp:1684-1735 | On a graph without negative times everything recorded is reached in time order. |
| Interactions.Explorer.FindAllChildren | parse/parser/kg.cpp:1606-1647 | The children are all edges at the start node, and otherwise exactly those that are followed after the last edge of the path. |
| Interactions.Explorer.FindOneHopParents | parse/parser/kg.cpp:1649-1682 | The sources of the edges into a node, except along the edge just followed, are recorded; everything recorded is relevant, and a file is skipped later only if its one edge leads here. |
| Interactions.Explorer.FindInteractiveEntities | parse/parser/kg.cpp:1684-1735 | Every entity recorded ends a path of at most 6 edges from the start, or is the source of an edge into the end of one of at most 5, where each edge is followed after the one before it. The search goes on: the nodes it expands are each come to along an edge followed from another one and know the steps left there, all targets of the edges followed and all sources of the edges in, but for the node before, are recorded, and while steps are left those targets are expanded too. The list is exactly what these visits write in turn: for each edge in its source, then for each edge followed its target. Every node is expanded at most once, and nothing is added to the node table. |
| Interactions.WrittenAreNeighbours | parse/parser/kg.cpp:1649-1735 | Hence whatever a search writes is a neighbour of a node it expanded. |
| Interactions.Explorer.FindAllObjectInteractions | parse/parser/kg.cpp:1737-1765 | The tables of edges by source and by target have each edge of the graph once, in one order. The search of each start is a closed one, and its list is exactly what its visits write. A file is to be skipped exactly when one edge leads out of it and some search recorded it as the source of an edge into a node it expanded; no file is a start if that happened before, and every other File node is one. The node table is not changed while it is iterated, the neighbours of each start are in its list, and from an empty skip table every File node is a start or recorded in the list of one. |
| GraphParse.ArcsAreEdges | parse/parser/kg.cpp:1606-1647 | What is searched are the edges of the graph, from their first end to their second, at the time of the edge. |
| Rekeying.ExchangeMapKey | parse/parser/common.h:156-164 | The entry moves to the new key; if that is taken the entry is gone and the other one stays. |
| Rekeying.ExchangeCount | parse/parser/common.h:156-164 | An exchange loses its entry exactly when another entry has the new key. |
| Rekeying.ExchangeAllMoves | parse/parser/kg.cpp:1592-1600 | If no new key is another key and no two new keys agree, then after exchanging all keys, in whatever order, every entry is found under its new key and nothing else is there. |
| Rekeying.LosslessIffFresh | parse/parser/kg.cpp:1592-1600 | No order of the exchanges loses an entry exactly when the new keys are fresh. |
| NodeTables.RekeyExact | parse/parser/beat/tripletbeat.cpp:253-264 | Re-keying a process in four tables keeps them consistent exactly when no other node has its new identifier. |
| NodeTables.AddProcKeeps | parse/parser/kg.cpp:213-224 | Inserting a process keeps the tables consistent exactly when no file or socket has its identifier. |
| NodeTables.AddFileKeeps | parse/parser/kg.cpp:408-421 | Inserting a file keeps the tables consistent exactly when no process or socket has its identifier. |
| NodeTables.AddSocketKeeps | parse/parser/kg.cpp:445-461 | Inserting a socket keeps the tables consistent exactly when no process or file has its identifier. |
| NodeTables.DropFilesExact | parse/parser/kg.cpp:1411-1524 | Dropping files keeps the tables consistent exactly when no edge still to be put into the edge table ends in one of them. |
| NodeTables.DropSocketsExact | parse/parser/kg.cpp:1353-1408 | The same for sockets. |
| NodeTables.NodeCount | parse/parser/kg.cpp:648-666 | In consistent tables the number of nodes is the number of processes plus that of files plus that of sockets. |
| SystemCalls.ClonedExact | parse/parser/beat/tripletbeat.cpp:185-213 | After a clone the tables are consistent exactly when the identifier of the blank process is free or a process has it. |
| SystemCalls.VforkedExact | parse/parser/beat/tripletbeat.cpp:147-183 | After a vfork the tables are consistent exactly when the identifier is free or a process has it, or no node had to be made. |
| SystemCalls.ExecvedExact | parse/parser/beat/tripletbeat.cpp:215-325 | After an execution the tables are consistent exactly when the identifier that its case makes is not taken and no file on its command line has the identifier of a process or socket. |
| SystemCalls.LoggedInExact | parse/parser/kg.cpp:240-308 | After a login the tables are consistent exactly when the identifier it makes is not taken. |
| SystemCalls.OpenedExact | parse/parser/beat/tripletbeat.cpp:327-387 | After an open the tables are consistent exactly when no process or socket has the identifier of the file. |
| SystemCalls.SocketRenamedKeeps | parse/parser/kg.cpp:749-782 | Renaming a socket found at the start keeps the tables consistent exactly when no other node but a socket has the new identifier and no listed edge ends in the old one, unless that is the new one. |
| ObjectCalls.Dupped | parse/parser/kg.cpp:1058-1094 | Duplicating a descriptor: the new one and the last one stand for what the old one stood for, the others stay, gaps are zero. |
| ObjectCalls.SocketMadeExact | parse/parser/beat/tripletbeat.cpp:389-418 | Making a socket keeps the tables consistent exactly when the process is unknown, and then nothing happens, or no other kind of node has the identifier. |
| ObjectCalls.PipeMadeExact | parse/parser/beat/tripletbeat.cpp:472-502 | The same for a pipe, which is one file under two descriptors. |
| ObjectCalls.ConnectedExact | parse/parser/beat/tripletbeat.cpp:420-470 | The same for connecting to an external socket; connecting to a local one always keeps them. |
| ObjectCalls.PeerNamedExact | parse/parser/beat/tripletbeat.cpp:1074-1120 | The same for asking for the name of the peer. |
| ObjectCalls.DirectoryUsedExact | parse/parser/beat/tripletbeat.cpp:537-634 | Making or removing a directory enters its node even for an unknown process, so its identifier must fit in any case. |
| ObjectCalls.FilesUsedExact | parse/parser/beat/tripletbeat.cpp:1145-1200 | Renaming, unlinking and linking keep the tables consistent exactly when the process is unknown or every path fits. |
| ObjectCalls.TransferredKeeps | parse/parser/beat/tripletbeat.cpp:685-1072 | Reading, writing, receiving and sending keep the tables consistent, whatever the descriptor stands for. |
| ObjectCalls.KilledKeeps | parse/parser/beat/tripletbeat.cpp:1202-1235 | So does killing a process. |
| ObjectCalls.FdsLoadedExact | parse/parser/kg.cpp:890-988 | Loading the descriptors of a process found running keeps the tables consistent exactly when each node finds its identifier free or taken by its kind. |
| SystemCalls.FirstAt | parse/parser/kg.cpp:770-780 | The first position of a descriptor in a vector, or its length if there is none. |
| SystemCalls.WithFd | parse/parser/kg.cpp:996-1028 | The descriptor is found at its index, all others keep theirs, and gaps are zero. |
| BeatTables.Tables.InsertProc | parse/parser/kg.cpp:213-224 | A process whose identifier is taken is dropped in favour of the one in the table; otherwise pool, process table and node table gain it. |
| BeatTables.Tables.CopyFd | parse/parser/kg.cpp:1044-1056 | The child gets the descriptors of the parent; a process copied onto itself loses its own. |
| BeatTables.Tables.InsertFd | parse/parser/kg.cpp:996-1028 | Sets the descriptor of a known process, filling gaps with zeros; nothing changes for an unknown one. |
| BeatTables.Tables.UpdateID | parse/parser/beat/tripletbeat.cpp:253-264 | The process has its new names and identifier and the entries of all four tables are exchanged; consistency survives exactly if no other node has the identifier. |
| BeatTables.Tables.SyscallClone | parse/parser/beat/tripletbeat.cpp:185-213 | The whole state after a clone: node, pid entry, descriptors, and an edge from the parent if it is known; consistent exactly when the identifier fits. |
| BeatTables.Tables.SyscallVfork | parse/parser/beat/tripletbeat.cpp:147-183 | Nothing without the parent, only the edge for a process seen before, otherwise a node as for a clone. |
| BeatTables.Tables.SyscallExecve | parse/parser/beat/tripletbeat.cpp:215-325 | The whole state after an execution: new node, re-keyed node or successor by case, files, load edges noted for file and process, and the execution edge from parent, or predecessor, to process. |
| BeatTables.Tables.InsertLoginProc | parse/parser/kg.cpp:240-308 | A process that has an executable stays; a blank one is re-keyed; an unknown one is made with the descriptors of its parent. |
| BeatTables.Tables.SyscallOpen | parse/parser/beat/tripletbeat.cpp:327-387 | The file node, the descriptor, and an edge, noted for the file, if the file is created. |
| BeatTables.Tables.RenameSocket | parse/parser/kg.cpp:749-782 | The socket is entered again under the new identifier, and the first descriptor for the old one in every vector is the new one. |
| BeatTables.Tables.SyscallDup | parse/parser/beat/tripletbeat.cpp:504-520 | The descriptors of a known process after duplicating one. |
| BeatTables.Tables.SyscallSocket | parse/parser/beat/tripletbeat.cpp:389-418 | Nothing for an unknown process; otherwise the socket node and its descriptor. |
| BeatTables.Tables.SyscallConnect | parse/parser/beat/tripletbeat.cpp:420-470 | Nothing for an unknown process; a local socket closes its descriptor; otherwise the socket node, its descriptor and an edge noted for both. |
| BeatTables.Tables.SyscallPipe | parse/parser/beat/tripletbeat.cpp:472-502 | The file node of the pipe and both descriptors. |
| BeatTables.Tables.SyscallDirectory | parse/parser/beat/tripletbeat.cpp:537-634 | The node in any case, and the edge if the process is known. |
| BeatTables.Tables.SyscallFiles | parse/parser/beat/tripletbeat.cpp:1145-1200 | Path by path a node and an edge that says whether the file was created or deleted there. |
| BeatTables.Tables.SyscallTransfer | parse/parser/beat/tripletbeat.cpp:685-1072 | An edge with what the descriptor stands for, in the direction of the call; a message over a local socket tells its address. |
| BeatTables.Tables.LoadFd | parse/parser/kg.cpp:890-988 | The nodes of the entries, and the descriptors of the process in a vector that grows as needed. |
| BeatRuns.CallExact | parse/parser/beat/tripletbeat.cpp:44-144 | From consistent tables, any call leaves them consistent exactly when the identifiers it makes are not taken by other nodes. |
| CallContents.CallsAdd | parse/parser/beat/tripletbeat.cpp:44-1235 | What each call adds, said of the tables before and after: its edges with their ends, relations and marks, for accesses by what the descriptor stands for; the process with its names, the file or socket; the descriptors it sets, and no others. |
| CallContents.RunAdds | parse/parser/beat/parserbeat.cpp:13-88 | A log from consistent tables is a row of such additions, one for each call. |
| Recovery.MovedExact | parse/parser/kg.cpp:1592-1600 | All orders of exchanging the recovered identifiers leave the tables consistent exactly when those identifiers are fresh. |
| BeatRuns.RecoveryExact | parse/parser/kg.cpp:1527-1602 | From consistent tables, every outcome of the recovery is consistent exactly when the recovered identifiers are fresh. |
| BeatRuns.StepExact | parse/parser/beat/parserbeat.cpp:32-85 | From consistent tables, a call, the recovery, the making of the edge table or a removal of pipes or local sockets leaves them consistent, however it is carried out, exactly when it fits. |
| BeatRuns.RunConsistent | parse/parser/beat/parserbeat.cpp:13-88 | In every run of such steps from empty tables, in any order, the tables stay consistent as long as the steps fit. |
| BeatRuns.RunCounts | parse/parser/kg.cpp:648-666 | And then nodes are of the kind their table says and counted by kind, and every process is found under its current identifier. |
| PidReuse.SameLoginTwice | parse/parser/kg.cpp:240-262 | Freshness is needed: of two processes that get the same pid, are cloned and log in with the same executable, the second loses its entry, and the next execution moves the entry of the first away from its identifier. All calls before fit. |
| BeatParse.ResolvedEndsAreNodes | parse/parser/kg.cpp:1320-1340 | When the edge table is made, both ends of every edge resolve to nodes, one of them a process, however often identifiers changed since the edge was noted. |
| BeatParse.EdgesOfCalls | parse/parser/kg.cpp:1320-1340 | The recovery keeps the listed edges, and each becomes an edge from the node at its one end to that at the other, with the relation and the stamp of its call, noted for the file or socket and the process as marked. |
| BeatParse.GenKGEdgeTable | parse/parser/kg.cpp:1320-1340 | Every listed edge is inserted once with its ends resolved, in order, each under the first identifier from the hash of its contents on that no earlier edge has. |
| BeatRuns.RunCalls | parse/parser/beat/parserbeat.cpp:32-63 | Running the calls on the object gives the state of the specification, and the tables stay consistent. |
| BeatParse.LinkGraph | parse/parser/kg.cpp:1320-1340 | The edge table and the interaction lists make a valid graph over the nodes of the tables, whose edges are the listed ones, each with a process at one end and under the first free identifier from its hash on. |
| BeatParse.FinishLog | parse/parser/beat/parserbeat.cpp:65-85 | Noise reduction, clean-ups and search in a row: the graph that the edge table makes meets what each of them needs. Of the edges that the reduction leaves, those away from pipes and local sockets stay, unless a pipe edge has their identifier; what is new are pipe edges; with fresh hashes every write into a pipe that was read is one. The graph stays closed and every file that is left is searched from or found. |
| BeatParse.KGBeatParse | parse/parser/beat/parserbeat.cpp:13-88 | A whole log from empty tables to the interactions: if its steps fit, the tables are consistent in the end and agree with the graph; the edges before the reduction are those of the calls with their ends as the recovery leaves them, each put under the first free identifier from its hash on; the edges in the end are what reduction and clean-ups make of them, bounded from both sides as for FinishLog; the graph is closed, and every file that is left is searched from or found. |
| Recovery.RecoveredOne | parse/parser/kg.cpp:1527-1590 | The outcome of the recovery does not depend on the order in which processes are visited. |
| Recovery.RecoveredNames | parse/parser/kg.cpp:1527-1590 | A blank process with a known parent ends up with the executable and the arguments of the first process up the line of its parents that has an executable, and with their hash; pid and parent stay. |
| Recovery.VisitTable | parse/parser/kg.cpp:1532-1562 | The first pass fills exactly processes whose parent has an executable and lists, each once, all that still need one. |
| Recovery.Round | parse/parser/kg.cpp:1566-1590 | If every blank process with a known parent has an ancestor to take its executable from, each round leaves fewer to do; one that has none is left in any case, so without that the loop never ends. |
| Recovery.MovedConsistent | parse/parser/kg.cpp:1592-1600 | If the recovered identifiers are fresh, the four tables lose no entry and are consistent again. |
| Recovery.ProcInfoRecover | parse/parser/kg.cpp:1527-1602 | Terminates; exactly the blank processes with a known parent take over executable and arguments of their nearest ancestor that had an executable; the four tables are those after exchanging all changed keys in some order, and are consistent if the new identifiers are fresh. |
| Cleanup.DeleteLocalSocket | parse/parser/kg.cpp:1353-1408 | Exactly the sockets named so and the edges at them go; the node tables stay typed, the edge table keyed, and a closed graph closed. |
| Cleanup.ScanPipe | parse/parser/kg.cpp:1465-1483 | Over the edges of a pipe: the last writer and the last reader win, the sequence numbers are those of the writes in order, and session and timestamp are those of the last edge. |
| Cleanup.DeletePipeEdge | parse/parser/kg.cpp:1411-1524 | Pipe nodes and the edges at them go; what is new are edges from the last writer to the last reader of a pipe, and another edge is lost only if such an edge has its identifier; with fresh hashes nothing else is lost and every write into a pipe that was read becomes an edge; a closed graph without edges between pipes stays closed. |
| Cleanup.PipeEdgeEnds | parse/parser/kg.cpp:1465-1513 | A new edge has the relation Pipe and leads from where the last edge into the pipe comes from to where the last edge out of it goes, with the sequence number of a write and the session of the last edge. |
| Cleanup.NamesThatGo | parse/parser/kg.cpp:1353-1440 | The files with "pipe" and the sockets with "socket" somewhere in their names are the nodes that go. |
| Cleanup.CleanAndSearch | parse/parser/beat/parserbeat.cpp:77-83 | From the graph that FinishLog hands over: the edges at pipes and local sockets are gone and the others stay unless a pipe edge has their identifier; with fresh hashes every write into a pipe that was read is an edge, unless that ends in a local socket; the graph stays closed, so the search never adds to the node table it iterates, and every file left is searched from or found. |
| ConfigTree.NameCompareEqual | lib/libconfig-1.7.2/lib/libconfig.c:127-150 | For names without separators the comparison decides equality. |
| ConfigTree.PlainDefault | lib/libconfig-1.7.2/lib/libconfig.c:1191-1210 | With the plain default format, writing does not change any integer format. |
| ConfigWriter.Writer.WriteValue | lib/libconfig-1.7.2/lib/libconfig.c:167-368 | The text written for a value of any type at any depth, with brackets, indentation, escapes and separators. |
| ConfigWriter.Writer.WriteSetting | lib/libconfig-1.7.2/lib/libconfig.c:599-631 | Indentation, name, sign of assignment, value and terminator of a setting, in this order. |
| ConfigWriter.Writer.WriteConfig | lib/libconfig-1.7.2/lib/libconfig.c:635-641 | The root is written as its settings only. |
| ConfigScanner.Scan | lib/libconfig-1.7.2/lib/scanner.l:71-168 | The scan loop produces the tokens of the matches, one after the other, until the input ends. |
| ConfigScanner.EndsAtFirstQuote | lib/libconfig-1.7.2/lib/scanner.l:78-95 | A string ends at its first quote that does not follow an odd number of backslashes; if there is none it does not end. |
| ConfigLexing.StringLexes | lib/libconfig-1.7.2/lib/scanner.l:78-95 | Every NUL-free byte string, written with escapes, is scanned back to itself. |
| ConfigLexing.DecimalParses | lib/libconfig-1.7.2/lib/util.c:47-66 | Reading the decimal text of a 64-bit integer gives it back, negative ones included. |
| ConfigLexing.IntegerLexes | lib/libconfig-1.7.2/lib/scanner.l:129-145 | A 32-bit integer written in decimal is scanned as that integer and not as a 64-bit one or a float. |
| ConfigLexing.Integer64Lexes | lib/libconfig-1.7.2/lib/scanner.l:146 | A 64-bit integer written with its suffix is scanned as that 64-bit integer. |
| ConfigLexing.HexLexes | lib/libconfig-1.7.2/lib/scanner.l:147-150 | A 32-bit integer written in hexadecimal, negative ones as their two's complement, is scanned back. |
| ConfigLexing.Hex64Lexes | lib/libconfig-1.7.2/lib/util.c:68-100 | The same for 64-bit integers. |
| ConfigLexing.NameLexes | lib/libconfig-1.7.2/lib/scanner.l:125-127 | A valid name that does not spell true or false is scanned as a name followed by the sign of assignment. |
| ConfigLexing.ConfigLexes | lib/libconfig-1.7.2/lib/libconfig.c:635-641 | Scanning a written configuration gives exactly the tokens of its settings. |
| ConfigParser.Add | lib/libconfig-1.7.2/lib/libconfig.c:1607-1634 | A new setting is the last one of its parent and of the pool, with its name dropped in arrays and lists; every other setting stays, and the context stays valid and where it was. |
| ConfigRoundTrip.RoundTrip | lib/libconfig-1.7.2/lib/grammar.c:1334-1626 | If no name at any depth spells true or false, scanning and parsing what was written succeeds, the context ends at the root, and the root holds exactly one value: the one written, with default formats resolved. |
| ConfigRoundTrip.HoldsUnique | lib/libconfig-1.7.2/lib/grammar.c:1334-1626 | A setting in the pool holds one value at most. |
| ConfigRoundTrip.NameDecides | lib/libconfig-1.7.2/lib/libconfig.c:511-528 | Any configuration the library accepts can be read back after writing exactly when no name in it, at any depth, spells true or false. |
| Samples.SettingSample | lib/libconfig-1.7.2/lib/libconfig.c:599-631 | How a setting looks, with indentation. |
| Samples.ElementSamples | lib/libconfig-1.7.2/lib/libconfig.c:167-368 | How lists and arrays look. |
| Samples.GroupSample | lib/libconfig-1.7.2/lib/libconfig.c:167-368 | How a group looks. |
| Samples.NameSamples | lib/libconfig-1.7.2/lib/libconfig.c:511-528 | Which characters a name may have, and where. |
| EdgeFile.Uint128Digits | parse/parser/common.cpp:3-21 | A 128-bit number has at most 39 digits, so the buffer of the printer is large enough. |
| EdgeFile.Uint128ToString | parse/parser/common.cpp:3-21 | Filling the buffer from its end prints exactly the decimal digits, zero included. |
| EdgeFile.StringToUint128 | parse/util/normalize.cpp:33-47 | The reader skips what is not a digit and wraps at 2^128. |
| EdgeFile.Uint128RoundTrip | parse/util/normalize.cpp:33-47 | The reader inverts the printer for every value below 2^128, without wrapping. |
| EdgeFile.StolReads | parse/util/localstore.cpp:316-326 | The decimal text of an integer reads back exactly when the integer fits 64 bits, and otherwise fails. |
| EdgeFile.LineLoads | parse/util/localstore.cpp:311-342 | Loading a stored line gives the edge back, except that the timestamp is cut at its first white space. |
| EdgeFile.LineRoundTrip | parse/util/localstore.cpp:135-150 | An edge survives exactly when its timestamp holds no white space; it may be empty. |
| EdgeFile.TimestampSurvives | parse/util/localstore.cpp:337-338 | A word is read back as it was written exactly when it holds no white space. |
| EdgeFile.StoreEdge | parse/util/localstore.cpp:120-152 | One line per edge of the table, in some order. |
| EdgeFile.LoadLines | parse/util/localstore.cpp:307-343 | The loading loop builds the table of the lines read. |
| EdgeFile.FileRoundTrip | parse/util/localstore.cpp:295-345 | Whatever the order of the lines, loading gives the table back exactly when it has fewer than 2^31 edges, since their number is read into 32 bits, and no timestamp holds white space, newlines included. |
| EdgeFile.StoreAndLoad | parse/util/localstore.cpp:120-152 | Storing and loading, with the number of edges on the first line, gives the table back exactly then. |
| Samples.EdgeFields | parse/util/localstore.cpp:135-150 | The fields of an edge come in the order identifier, ends, number of the relation, sequence number, session, timestamp, one space between them. |
| Samples.FileSample | parse/util/localstore.cpp:120-152 | The number of edges on a line of its own, then a line for each. |
| Evaluation.BatchesTile | recommend/util/base_data.py:247-251 | Although the remainder is taken by the number of batches, the batches follow each other from 0 to n, each has fewer than twice the batch size, and none is empty unless n is 0. |
| Evaluation.HitsAddUp | recommend/util/model_eval.py:80-96 | Every interaction falls into exactly one of the four counts. |
| Evaluation.GenerateTestBatch | recommend/util/gnn_data.py:232-256 | A batch is its slice of the data, with the ground truth of each interaction in it. |
| Evaluation.CountBatch | recommend/util/model_eval.py:78-96 | Counting one batch extends the counts over the data before it to its end. |
| Evaluation.Test | recommend/util/model_eval.py:60-103 | Batch by batch, every interaction is judged once: the four counts are the numbers of interactions scored below the threshold or not that are in the ground truth or not, and they add up to the size of the data. |
| KgSort.Argsort | recommend/util/gnn_data.py:80 | A permutation of the positions in order of their values, with ties in any order. |
| KgSort.SortEntries | recommend/util/gnn_data.py:61-105 | The entries that come out are a permutation of those that went in, ordered by head and tail, and the four lists have equal lengths. |
| KgSort.GetAllKgData | recommend/util/gnn_data.py:42-105 | The same for the entries of all matrices, each with the relation of its matrix. |
| KgSort.EntryAt | recommend/util/gnn_data.py:42-59 | These entries are, matrix by matrix, row, column, relation and value of each place, and there are no others. |
| BenignSplit.FindMalicious | recommend/util/base_data.py:377-393 | Exactly the positions of known malicious interactions are found, each once. |
| BenignSplit.DrawBenign | recommend/util/base_data.py:401-428 | Picks are repeated until one holds a benign interaction not taken yet; every pick before it did not qualify. |
| BenignSplit.DrawAll | recommend/util/base_data.py:398-428 | Distinct benign positions, as many as needed, or all that the picks contain. |
| BenignSplit.EnsureBenignTrain | recommend/util/base_data.py:375-432 | If it finishes, the training part has no malicious interaction, both parts keep their sizes and the interactions taken together are the same; with nothing to swap the concatenation fails, and otherwise it runs out only if the picks hold too few benign positions. |

## Left out

- Identifiers and counters are unbounded integers: the probing increment of an identifier, the 64-bit hashes, event and edge numbers and the ring positions do not wrap. Only the batch count, 128-bit sequence numbers, timestamps in the search, and libconfig integers have their widths.
- The malicious edge table, the table of noisy nodes and the table of original identifiers: the threaded and the sequential path differ in them by design of the code.
- Construction.MergeGraph: does not model the tables of noisy nodes, original identifiers and malicious edges.
- GraphParse.MultithreadConstruction: says of the name of a node only that some line of the log gives it, since a later sub-graph replaces the names of earlier ones; and nothing of the identifiers of edges, which depend on the order of arrival.
- KnowledgeGraph.KG.InsertProc: does not model the table of noisy nodes, which only a tracker outside this model reads.
- BeatTables.Tables.InsertProc: does not model the table of noisy nodes either.
- JSON, files, Kafka, databases, progress output and the configuration plumbing: the model starts from parsed records, lines and calls; failed calls are filtered out before. Paths of executed and opened files arrive resolved; the parent that a login finds by searching the following events is a parameter. The counters of read events and of edges that the parse functions add up for their report are not modelled.
- Parse failures of numbers in audit records, and timestamps that are not numbers.
- A ring of size 1, which can never hold an item.
- Timed causality through the shadow passes and completeness of the search are not claimed: a later access after new input can be dropped, and a node may first be reached by a worse path.
- Interaction lists after deletion: they keep pointing at deleted edges in the code, and nothing is claimed about them after `DeleteNoise`, `DeletePipeEdge` and `DeleteLocalSocket`.
- `NoisyEdgeTable` across several runs of the noise reduction, and the unused time window.
- Process objects of the Auditbeat front end and libconfig settings are positions in a pool instead of heap pointers: sharing is explicit, but the pool never shrinks, so freed memory is not modelled. The interaction entries of nodes are positions in the edge list, of which `listed` says how far it has been put into the edge table.
- BeatParse.KGBeatParse: a first log, on empty tables. Runs over several logs are covered for the tables (`RunConsistent`, `RunCounts`), but not for the graph: the interaction lists of later logs continue lists that the noise reduction of an earlier log has sorted and that still hold its deleted edges.
- Writing to a descriptor vector that a process does not have, or at an index beyond its end, is undefined in the program and has no effect in the model. Negative descriptors are not modelled, because failed calls are filtered out before.
- Execution does not set the parent of a re-keyed process, in the code as in the model; a process whose blank ancestors have no known parent makes the recovery loop for ever (`Round`), which is why `ProcInfoRecover` and `KGBeatParse` require that there is an ancestor. A run in `BeatRuns` has no recovery step in that case.
- Recovery.ProcInfoRecover: fresh identifiers are sufficient for one execution to leave consistent tables; they are necessary for every order of the exchanges to do so (`MovedExact`), since a lucky order can avoid a clash between an old and a new identifier.
- Cleanup.DeletePipeEdge: an edge between two pipes would leave an edge to a deleted node; the graph stays closed only without such edges, and `FinishLog` proves that the front end never makes one.
- Cleanup.CleanAndSearch: is not stated for graphs that are not closed, on which the search would add to the table it iterates; `FinishLog` proves that the noise reduction leaves a closed one.
- Interactions.Explorer.FindInteractiveEntities: the visited set is returned instead of being updated through a reference.
- libconfig floats, include files, NUL bytes in strings, memory management, locales, and the flex and bison table engines: the rules, their order of preference and the actions are modelled instead.
- libconfig lookup by path, removal of settings and the getters.
- Several edge files: their header counts all edges, so only the single-file store is covered; node numbering changes from call to call in the code.
- The embedding model, its training, losses and matrix products: scores are a parameter, numbers are reals, and the values of the sparse matrices are opaque.
- Validation without ground truth, which is the case of `Test` with two of its counts.
