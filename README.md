# Topology builder of the real-time audio analysis pipeline

This project models, in Dafny, the part of the pipeline that builds the tree
of processing nodes from the configuration (`rtmaii/hierarchy.py`).

The builder reads these configuration entries:

- the channel count;
- the task flags `beat`, `pitch`, `genre` and `bands`;
- the pitch-algorithm string;
- the sampling rate;
- the band ranges.

For every channel in `range(channels)` it builds that channel's nodes,
leaves first:

- a BPM coordinator when beat is on;
- one pitch worker when pitch is on, chosen by an exact match on the
  algorithm string (`"hps"`, `"zero-crossings"`, `"fft"`, and
  auto-correlation for anything else);
- a Bands worker when bands is on;
- a Spectrum coordinator when some worker takes spectrum frames;
- a Frequency coordinator when its list is not empty.

The BPM and Frequency coordinators hang under a single Root coordinator. Of
the workers, only the zero-crossings one is attached to the tree. The build raises
"No tasks have been configured to run…" when the root would have no peers. It
raises "Class not found." when a class name, formed by appending `Worker` or
`Coordinator` to a kind, is not in its lookup table.

Files:

- `wrappers.dfy`: `Option` and `Result`.
- `tree.dfy` (module `Tree`): nodes as values (`Coord`, `Work`), the keyword
  arguments a node class receives, construction, and the pre-order list of a
  tree's nodes.
- `hierarchy.dfy` (module `Hierarchy`): the configuration, the two class
  tables (parameters), the name-resolution functions `New`, `NewWorker` and
  `NewCoordinator`, and a declarative description of the result (`Build`).
  It also holds the imperative builder: `NewHierarchy` runs the channel loop,
  and `NewChannel` and `NewPitchWorker` model its body. `NewHierarchy` is
  proved to return exactly `Build`.
- `properties.dfy` (module `HierarchyProperties`): lemmas about `Build`.
  They cover when it fails, the shape and size of the root's peer list,
  channel ids, which nodes are attached and which are constructed but
  detached. They also cover two concrete worker tables. `DirectWorkerSubclasses`
  is the table the source builds (the direct subclasses of `Worker`).
  `AllWorkerClasses` holds every Worker class; the source never builds it.

Several behaviours of the code are modelled as written, because the code and
what the code's names and structure suggest disagree:

- The Spectrum coordinator is constructed with an empty peer list, so the
  HPS, FFT, auto-correlation and Bands workers are built but never attached.
- The Bands worker gets the sampling rate as its bands of interest.
- The configured band ranges are read and not used.
- The error for an unknown class is the generic "Class not found.".
- The worker table holds only the direct subclasses of `Worker`.
- The names `ZeroCrossingsWorker` and `Auto-CorellationWorker` match no class.

## Model

| member | source | states |
|---|---|---|
| `Tree.Construct` | rtmaii/hierarchy.py:66 | instantiating a class yields a node that records the class name and the channel id and the worker parameter or peer list it was given; worker arguments give a worker |
| `Hierarchy.New` | rtmaii/hierarchy.py:64-68 | succeeds iff the name is a key of the table; the node then has that name and the given arguments; otherwise the error is ClassNotFound |
| `Hierarchy.NewWorker` | rtmaii/hierarchy.py:70-72 | succeeds iff kind + "Worker" is in the worker table, yielding a worker of that name on the given channel with the given parameter; otherwise ClassNotFound |
| `Hierarchy.NewCoordinator` | rtmaii/hierarchy.py:74-76 | succeeds iff kind + "Coordinator" is in the coordinator table, yielding a coordinator of that name with the given channel id and peers; otherwise ClassNotFound |
| `Hierarchy.SelectPitchAlgorithm` | rtmaii/hierarchy.py:26-34 | "hps", "zero-crossings" and "fft" select HPS, zero-crossings and FFT by exact match, each iff the string is that literal; every other string, the empty one included, selects auto-correlation |
| `Hierarchy.NewPitchWorker` | rtmaii/hierarchy.py:25-34 | the pitch branch succeeds iff the worker name of the selected algorithm is in the table, and then yields that worker on the channel with the sampling rate |
| `Hierarchy.NewChannel` | rtmaii/hierarchy.py:17-54 | one pass of the channel loop fails with ClassNotFound iff some class the channel needs is missing; otherwise it appends the channel's BPM then Frequency coordinator, and the nodes it constructs are exactly the channel's BPM, pitch, Bands, Spectrum and Frequency nodes in that order |
| `Hierarchy.NewHierarchy` | rtmaii/hierarchy.py:6-59 | the loop over channels followed by the root step returns exactly the declarative build: NoTasks when no channel is iterated or no node-building task is on, ClassNotFound when a needed class is missing, else the Root coordinator over every channel's peers; on success the constructed nodes are every channel's nodes then the root |
| `Hierarchy.ExpectedPeersLength` | rtmaii/hierarchy.py:16-54 | after n channels the root's peer list has n times the per-channel count of peers |
| `HierarchyProperties.NoTasksIff` | rtmaii/hierarchy.py:56-59 | the no-tasks error happens iff the channel count is at most 0 or beat, pitch and bands are all off; genre alone never avoids it |
| `HierarchyProperties.SucceedsIff` | rtmaii/hierarchy.py:16-76 | the build succeeds iff there are channels and a node-building task and each class name the configuration needs (Root, BPM, Frequency, Spectrum coordinators; pitch and Bands workers) is in its table |
| `HierarchyProperties.IgnoresGenreAndBandRanges` | rtmaii/hierarchy.py:36-42 | changing the genre flag or the band ranges never changes the outcome |
| `HierarchyProperties.ExpectedPeersBlock` | rtmaii/hierarchy.py:16-54 | the c-th block of the root's peers, of the per-channel size, is exactly channel c's peers |
| `HierarchyProperties.RootShape` | rtmaii/hierarchy.py:16-57 | a successful build is one RootCoordinator with no channel id and channels × ([beat] + [pitch or bands]) peers, whose c-th block is channel c's BPM then Frequency coordinator |
| `HierarchyProperties.ChannelNodes` | rtmaii/hierarchy.py:22-54 | flattened, a channel's sub-tree is its BPM coordinator, then its Frequency coordinator followed by the zero-crossings worker and the Spectrum coordinator, each when present |
| `HierarchyProperties.ChannelSubtreeOnChannel` | rtmaii/hierarchy.py:16-54 | every node of channel c's sub-tree carries channel id c |
| `HierarchyProperties.RootChannels` | rtmaii/hierarchy.py:16-57 | in a built tree the root has no channel id and every node in channel c's block, at any depth, carries channel id c |
| `HierarchyProperties.ChannelNodeNames` | rtmaii/hierarchy.py:22-54 | a channel's sub-tree contains only BPM, Frequency and Spectrum coordinators and the zero-crossings worker |
| `HierarchyProperties.ChannelSpectrumLeaf` | rtmaii/hierarchy.py:50-51 | every Spectrum coordinator in a channel's sub-tree is the one for that channel with an empty peer list |
| `HierarchyProperties.TreeNodes` | rtmaii/hierarchy.py:47-57 | every node of a built tree is a Root, BPM, Frequency or Spectrum coordinator or a zero-crossings worker, and every Spectrum coordinator in it has no peers |
| `HierarchyProperties.NoSpectrogram` | rtmaii/hierarchy.py:47-48 | no node of a built tree is a Spectrogram coordinator |
| `HierarchyProperties.FrequencyLeaves` | rtmaii/hierarchy.py:28-54 | under a Frequency coordinator a worker is attached iff pitch is on with "zero-crossings", and it is then the first peer; a Spectrum coordinator is attached iff bands is on or pitch uses another algorithm; the list is non-empty iff pitch or bands is on |
| `HierarchyProperties.ChannelSpawnedWorkers` | rtmaii/hierarchy.py:23-54 | every node a channel constructs, attached or not, carries that channel's id; every worker it constructs gets the sampling rate, and each one other than the zero-crossings worker has a name no attached node has |
| `HierarchyProperties.SpawnedOnChannel` | rtmaii/hierarchy.py:16-54 | every node the channel loop constructs comes from some iteration c, and every node iteration c constructs, detached workers included, is among them and carries channel id c |
| `HierarchyProperties.BandsWorkersSpawned` | rtmaii/hierarchy.py:40-42 | with bands on, each channel constructs a Bands worker whose bands of interest are the sampling rate |
| `HierarchyProperties.DetachedWorkers` | rtmaii/hierarchy.py:28-54 | in a successful build every constructed worker carries the sampling rate, and every constructed worker but the zero-crossings one is absent from the tree |
| `HierarchyProperties.PitchNeverResolves` | rtmaii/hierarchy.py:62 | with the worker table made of Worker's direct subclasses (PitchWorker, BandsWorker), any build with channels and pitch on fails with ClassNotFound |
| `HierarchyProperties.PitchResolvesOnlyForHpsAndFft` | rtmaii/hierarchy.py:27-34 | even with every Worker class in the table, the pitch worker's name is found iff the algorithm string is "hps" or "fft" |

## Left out

- The run loops of the nodes are not modelled: threads, queues, daemon flags and publishing to the event bus (rtmaii/worker.py:7-122).
- The analysis functions are not modelled: pitch, key, band power and spectrum, which are numeric and floating-point work.
- `rtmaii/coordinator.py` is not part of this model. The coordinator classes and their runtime are abstracted into the coordinator-name table.
- Construction is total. Starting a node's thread is not modelled, and neither is a `TypeError` from a constructor whose keyword arguments do not fit.
- The `config` object handed to every coordinator is not stored in the node.
- Reading the configuration (`get_config`) becomes fields of a `Config` value.
- The class tables are parameters, because the tables the source builds by runtime subclass discovery depend on code that is not modelled. `DirectWorkerSubclasses` and `AllWorkerClasses` give two concrete worker tables.
- Hierarchy.NewHierarchy: the list of constructed nodes is specified only for a successful build. On failure, the nodes built before the failing lookup also exist in the source.
- Hierarchy.NewChannel: the first missing class ends the pass, as in the source. Every lookup failure is the same ClassNotFound value, so which lookup failed first is not distinguished.
