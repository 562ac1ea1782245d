/** Properties of the hierarchy the builder returns, stated over the
    declarative description that NewHierarchy is proved to compute. */
module HierarchyProperties {
  import opened Wrappers
  import opened Tree
  import opened Hierarchy

  /** The `k` root peers that channel `c` contributes, when there are enough. */
  function ChannelBlock(s: seq<Node>, c: nat, k: nat): seq<Node> {
    if c * k + k <= |s| then s[c * k .. c * k + k] else []
  }

  // ---------------------------------------------------------------------------
  // When the build fails
  // ---------------------------------------------------------------------------

  /** The "no tasks" error is raised exactly when no channel is iterated or no
      task that builds nodes is on; the genre flag never prevents it. */
  lemma NoTasksIff(cfg: Config, t: Tables)
    ensures Build(cfg, t) == Err(NoTasks)
        <==> cfg.channels <= 0 || (!cfg.tasks.beat && !cfg.tasks.pitch && !cfg.tasks.bands)
  {
  }

  /** The build succeeds exactly when there is work to do and every class the
      first channel and the root ask for is in its table; otherwise a lookup
      fails and no tree is returned. */
  lemma SucceedsIff(cfg: Config, t: Tables)
    ensures Build(cfg, t).Ok? <==>
      cfg.channels > 0 && (cfg.tasks.beat || cfg.tasks.pitch || cfg.tasks.bands)
      && "RootCoordinator" in t.coordinators
      && (cfg.tasks.beat ==> "BPMCoordinator" in t.coordinators)
      && (cfg.tasks.pitch || cfg.tasks.bands ==> "FrequencyCoordinator" in t.coordinators)
      && (SpectrumOn(cfg) ==> "SpectrumCoordinator" in t.coordinators)
      && (cfg.tasks.pitch ==> PitchWorkerKind(Algorithm(cfg)) + "Worker" in t.workers)
      && (cfg.tasks.bands ==> "BandsWorker" in t.workers)
  {
    assert CoordinatorName("Root") == "RootCoordinator";
    assert CoordinatorName("BPM") == "BPMCoordinator";
    assert CoordinatorName("Frequency") == "FrequencyCoordinator";
    assert CoordinatorName("Spectrum") == "SpectrumCoordinator";
    assert WorkerName("Bands") == "BandsWorker";
  }

  /** The genre flag and the configured band ranges do not affect the build. */
  lemma IgnoresGenreAndBandRanges(cfg: Config, t: Tables, genre: bool, ranges: map<string, seq<int>>)
    ensures Build(cfg.(tasks := cfg.tasks.(genre := genre), bandRanges := ranges), t) == Build(cfg, t)
  {
    var other := cfg.(tasks := cfg.tasks.(genre := genre), bandRanges := ranges);
    ExpectedPeersAgree(cfg, other, ChannelCount(cfg));
  }

  lemma {:induction false} ExpectedPeersAgree(cfg: Config, other: Config, n: nat)
    requires other.tasks.beat == cfg.tasks.beat && other.tasks.pitch == cfg.tasks.pitch
    requires other.tasks.bands == cfg.tasks.bands
    requires other.pitchAlgorithm == cfg.pitchAlgorithm && other.samplingRate == cfg.samplingRate
    ensures ExpectedPeers(other, n) == ExpectedPeers(cfg, n)
  {
    if n > 0 {
      ExpectedPeersAgree(cfg, other, n - 1);
    }
  }

  // ---------------------------------------------------------------------------
  // Shape of the tree
  // ---------------------------------------------------------------------------

  lemma {:induction false} ExpectedPeersBlock(cfg: Config, n: nat, c: nat)
    requires c < n
    ensures c * PerChannel(cfg) + PerChannel(cfg) <= |ExpectedPeers(cfg, n)|
    ensures ChannelBlock(ExpectedPeers(cfg, n), c, PerChannel(cfg)) == ChannelPeers(cfg, c)
  {
    var k := PerChannel(cfg);
    var lo := c * k;
    var prev := ExpectedPeers(cfg, n - 1);
    var all := ExpectedPeers(cfg, n);
    assert all == prev + ChannelPeers(cfg, n - 1);
    assert |ChannelPeers(cfg, n - 1)| == k;
    if c == n - 1 {
      ExpectedPeersLength(cfg, n - 1);
      assert |prev| == lo;
      assert all[lo .. lo + k] == ChannelPeers(cfg, c);
    } else {
      ExpectedPeersBlock(cfg, n - 1, c);
      assert lo + k <= |prev|;
      assert all[lo .. lo + k] == prev[lo .. lo + k];
    }
  }

  /** A successful build is one Root coordinator without a channel id whose
      peers are, channel after channel in increasing order, that channel's
      BPM coordinator (if beat is on) and Frequency coordinator (if pitch or
      bands is on). */
  lemma RootShape(cfg: Config, t: Tables, root: Node)
    requires Build(cfg, t) == Ok(root)
    ensures root.Coord? && root.name == "RootCoordinator" && root.channelId == None
    ensures |root.peers| == ChannelCount(cfg)
      * ((if cfg.tasks.beat then 1 else 0) + (if cfg.tasks.pitch || cfg.tasks.bands then 1 else 0))
    ensures forall c :: 0 <= c < ChannelCount(cfg) ==>
      ChannelBlock(root.peers, c, PerChannel(cfg)) == ChannelPeers(cfg, c)
  {
    assert CoordinatorName("Root") == "RootCoordinator";
    ExpectedPeersLength(cfg, ChannelCount(cfg));
    forall c | 0 <= c < ChannelCount(cfg)
      ensures ChannelBlock(root.peers, c, PerChannel(cfg)) == ChannelPeers(cfg, c)
    {
      ExpectedPeersBlock(cfg, ChannelCount(cfg), c);
    }
  }

  /** Flattened, a channel's sub-tree is its BPM coordinator, then its
      Frequency coordinator followed by that coordinator's leaves. */
  lemma ChannelNodes(cfg: Config, c: nat)
    ensures NodesOf(ChannelPeers(cfg, c)) ==
      (if cfg.tasks.beat then [BpmCoordinator(c)] else [])
      + (if FrequencyOn(cfg) then [FrequencyCoordinator(cfg, c)] + FrequencyPeers(cfg, c) else [])
  {
    var bpm := if cfg.tasks.beat then [BpmCoordinator(c)] else [];
    var freq := if FrequencyOn(cfg) then [FrequencyCoordinator(cfg, c)] else [];
    NodesOfAppend(bpm, freq);
    if cfg.tasks.beat {
      NodesOfSingle(BpmCoordinator(c));
      assert Nodes(BpmCoordinator(c)) == [BpmCoordinator(c)] + NodesOf([]);
    }
    if FrequencyOn(cfg) {
      NodesOfSingle(FrequencyCoordinator(cfg, c));
      var zc := if TimeDomainPitch(cfg) then [PitchWorker(cfg, c)] else [];
      var sp := if SpectrumOn(cfg) then [SpectrumCoordinator(c)] else [];
      NodesOfAppend(zc, sp);
      if TimeDomainPitch(cfg) {
        NodesOfSingle(PitchWorker(cfg, c));
      }
      if SpectrumOn(cfg) {
        NodesOfSingle(SpectrumCoordinator(c));
        assert Nodes(SpectrumCoordinator(c)) == [SpectrumCoordinator(c)] + NodesOf([]);
      }
    }
  }

  lemma {:induction false} NodeFromSomeChannel(cfg: Config, n: nat, m: Node)
    requires m in NodesOf(ExpectedPeers(cfg, n))
    ensures exists c :: 0 <= c < n && m in NodesOf(ChannelPeers(cfg, c))
  {
    if n > 0 {
      NodesOfAppend(ExpectedPeers(cfg, n - 1), ChannelPeers(cfg, n - 1));
      if m !in NodesOf(ChannelPeers(cfg, n - 1)) {
        NodeFromSomeChannel(cfg, n - 1, m);
      }
    }
  }

  // ---------------------------------------------------------------------------
  // Channel ids
  // ---------------------------------------------------------------------------

  /** Every node of a channel's sub-tree carries that channel's id. */
  lemma ChannelSubtreeOnChannel(cfg: Config, c: nat)
    ensures forall m :: m in NodesOf(ChannelPeers(cfg, c)) ==> ChannelOf(m) == Some(c)
  {
    ChannelNodes(cfg, c);
  }

  /** The root has no channel id, and every node in channel `c`'s part of the
      root's peers, at any depth, is bound to channel `c`. */
  lemma RootChannels(cfg: Config, t: Tables, root: Node)
    requires Build(cfg, t) == Ok(root)
    ensures root.Coord? && ChannelOf(root) == None
    ensures forall c :: 0 <= c < ChannelCount(cfg) ==>
      forall m :: m in NodesOf(ChannelBlock(root.peers, c, PerChannel(cfg))) ==> ChannelOf(m) == Some(c)
  {
    RootShape(cfg, t, root);
    forall c | 0 <= c < ChannelCount(cfg)
      ensures forall m :: m in NodesOf(ChannelBlock(root.peers, c, PerChannel(cfg))) ==> ChannelOf(m) == Some(c)
    {
      ChannelSubtreeOnChannel(cfg, c);
    }
  }

  // ---------------------------------------------------------------------------
  // Which nodes are attached
  // ---------------------------------------------------------------------------

  /** The names a built tree can contain. The HPS, FFT, auto-correlation and
      Bands workers are never among them. */
  const AttachedNames: set<string> := {
    CoordinatorName("Root"), CoordinatorName("BPM"), CoordinatorName("Frequency"),
    CoordinatorName("Spectrum"), WorkerName("ZeroCrossings")
  }

  lemma ChannelNodeNames(cfg: Config, c: nat)
    ensures forall m :: m in NodesOf(ChannelPeers(cfg, c)) ==> m.name in AttachedNames
  {
    ChannelNodes(cfg, c);
    assert TimeDomainPitch(cfg) ==> PitchWorker(cfg, c).name == WorkerName("ZeroCrossings");
  }

  lemma ChannelSpectrumLeaf(cfg: Config, c: nat)
    ensures forall m :: m in NodesOf(ChannelPeers(cfg, c)) && m.name == CoordinatorName("Spectrum") ==>
      m == SpectrumCoordinator(c)
  {
    ChannelNodes(cfg, c);
    assert TimeDomainPitch(cfg) ==> PitchWorker(cfg, c).name[0] == 'Z';
    assert CoordinatorName("Spectrum")[0] == 'S';
  }

  /** Every node of a built tree has one of the attached names, and every
      Spectrum coordinator in it has no peers. */
  lemma TreeNodes(cfg: Config, t: Tables, root: Node)
    requires Build(cfg, t) == Ok(root)
    ensures forall m :: m in Nodes(root) ==> m.name in AttachedNames
    ensures forall m :: m in Nodes(root) && m.name == CoordinatorName("Spectrum") ==> m.Coord? && m.peers == []
  {
    var n := ChannelCount(cfg);
    assert Nodes(root) == [root] + NodesOf(ExpectedPeers(cfg, n));
    forall m | m in NodesOf(ExpectedPeers(cfg, n))
      ensures m.name in AttachedNames
      ensures m.name == CoordinatorName("Spectrum") ==> m.Coord? && m.peers == []
    {
      NodeFromSomeChannel(cfg, n, m);
      var c :| 0 <= c < n && m in NodesOf(ChannelPeers(cfg, c));
      ChannelNodeNames(cfg, c);
      ChannelSpectrumLeaf(cfg, c);
    }
  }

  /** No Spectrogram coordinator is ever built. */
  lemma NoSpectrogram(cfg: Config, t: Tables, root: Node)
    requires Build(cfg, t) == Ok(root)
    ensures forall m :: m in Nodes(root) ==> m.name != CoordinatorName("Spectrogram")
  {
    TreeNodes(cfg, t, root);
  }

  /** Under the Frequency coordinator, only the zero-crossings worker is
      attached directly, and it comes before the Spectrum coordinator, which
      exists exactly when bands is on or pitch uses a spectrum algorithm. */
  lemma FrequencyLeaves(cfg: Config, c: nat)
    ensures (exists i :: 0 <= i < |FrequencyPeers(cfg, c)| && FrequencyPeers(cfg, c)[i].Work?)
      <==> cfg.tasks.pitch && cfg.pitchAlgorithm == "zero-crossings"
    ensures (exists i :: 0 <= i < |FrequencyPeers(cfg, c)| && FrequencyPeers(cfg, c)[i] == SpectrumCoordinator(c))
      <==> cfg.tasks.bands || (cfg.tasks.pitch && cfg.pitchAlgorithm != "zero-crossings")
    ensures forall i :: 0 <= i < |FrequencyPeers(cfg, c)| && FrequencyPeers(cfg, c)[i].Work? ==>
      i == 0 && FrequencyPeers(cfg, c)[i] == Work("ZeroCrossingsWorker", c, cfg.samplingRate)
    ensures |FrequencyPeers(cfg, c)| > 0 <==> cfg.tasks.pitch || cfg.tasks.bands
  {
    assert WorkerName("ZeroCrossings") == "ZeroCrossingsWorker";
    if TimeDomainPitch(cfg) {
      assert FrequencyPeers(cfg, c)[0].Work?;
    }
    if SpectrumOn(cfg) {
      assert FrequencyPeers(cfg, c)[|FrequencyPeers(cfg, c)| - 1] == SpectrumCoordinator(c);
    }
  }

  // ---------------------------------------------------------------------------
  // Constructed but detached workers
  // ---------------------------------------------------------------------------

  lemma {:induction false} SpawnedFromSomeChannel(cfg: Config, n: nat, m: Node)
    requires m in ExpectedSpawned(cfg, n)
    ensures exists c :: 0 <= c < n && m in ChannelSpawned(cfg, c)
  {
    if m !in ChannelSpawned(cfg, n - 1) {
      SpawnedFromSomeChannel(cfg, n - 1, m);
    }
  }

  lemma {:induction false} ChannelSpawnedIncluded(cfg: Config, n: nat, c: nat)
    requires c < n
    ensures forall m :: m in ChannelSpawned(cfg, c) ==> m in ExpectedSpawned(cfg, n)
  {
    if c < n - 1 {
      ChannelSpawnedIncluded(cfg, n - 1, c);
    }
  }

  /** Every node one channel constructs, attached or not, carries that
      channel's id; its workers carry the sampling rate, and all but the
      zero-crossings worker have names no attached node has. */
  lemma ChannelSpawnedWorkers(cfg: Config, c: nat)
    ensures forall m :: m in ChannelSpawned(cfg, c) ==> ChannelOf(m) == Some(c)
    ensures forall w :: w in ChannelSpawned(cfg, c) && w.Work? ==>
      w.param == cfg.samplingRate && (w.name != WorkerName("ZeroCrossings") ==> w.name !in AttachedNames)
  {
  }

  /** Every node the channel loop constructs was constructed by some channel,
      and every node channel `c` constructs, detached workers included, is
      among them and carries channel id `c`. */
  lemma {:induction false} SpawnedOnChannel(cfg: Config, n: nat)
    ensures forall m :: m in ExpectedSpawned(cfg, n) ==>
      exists c :: 0 <= c < n && m in ChannelSpawned(cfg, c)
    ensures forall c :: 0 <= c < n ==> forall m :: m in ChannelSpawned(cfg, c) ==>
      m in ExpectedSpawned(cfg, n) && ChannelOf(m) == Some(c)
  {
    forall m | m in ExpectedSpawned(cfg, n)
      ensures exists c :: 0 <= c < n && m in ChannelSpawned(cfg, c)
    {
      SpawnedFromSomeChannel(cfg, n, m);
    }
    forall c | 0 <= c < n
      ensures forall m :: m in ChannelSpawned(cfg, c) ==> m in ExpectedSpawned(cfg, n) && ChannelOf(m) == Some(c)
    {
      ChannelSpawnedIncluded(cfg, n, c);
      ChannelSpawnedWorkers(cfg, c);
    }
  }

  /** With bands on, every channel constructs a Bands worker whose bands of
      interest are the sampling rate, not the configured band ranges. */
  lemma BandsWorkersSpawned(cfg: Config, n: nat)
    requires cfg.tasks.bands
    ensures forall c :: 0 <= c < n ==> Work("BandsWorker", c, cfg.samplingRate) in ExpectedSpawned(cfg, n)
  {
    forall c | 0 <= c < n
      ensures Work("BandsWorker", c, cfg.samplingRate) in ExpectedSpawned(cfg, n)
    {
      ChannelSpawnedIncluded(cfg, n, c);
      assert BandsWorker(cfg, c) == Work("BandsWorker", c, cfg.samplingRate);
      assert BandsWorker(cfg, c) in ChannelSpawned(cfg, c);
    }
  }

  /** Every worker the build constructs is given the sampling rate, and every
      constructed worker other than the zero-crossings one is attached nowhere
      in the tree. */
  lemma DetachedWorkers(cfg: Config, t: Tables, root: Node)
    requires Build(cfg, t) == Ok(root)
    ensures forall w :: w in ExpectedSpawned(cfg, ChannelCount(cfg)) && w.Work? ==> w.param == cfg.samplingRate
    ensures forall w :: w in ExpectedSpawned(cfg, ChannelCount(cfg)) && w.Work? && w.name != WorkerName("ZeroCrossings") ==>
      w !in Nodes(root)
  {
    var n := ChannelCount(cfg);
    TreeNodes(cfg, t, root);
    forall w | w in ExpectedSpawned(cfg, n) && w.Work?
      ensures w.param == cfg.samplingRate
      ensures w.name != WorkerName("ZeroCrossings") ==> w.name !in AttachedNames
    {
      SpawnedFromSomeChannel(cfg, n, w);
      var c :| 0 <= c < n && w in ChannelSpawned(cfg, c);
      ChannelSpawnedWorkers(cfg, c);
    }
  }

  // ---------------------------------------------------------------------------
  // The worker tables of the source
  // ---------------------------------------------------------------------------

  /** The worker table as the source fills it: the direct subclasses of Worker. */
  const DirectWorkerSubclasses: set<string> := {"PitchWorker", "BandsWorker"}

  /** Every Worker class defined alongside the base class. */
  const AllWorkerClasses: set<string> :=
    {"PitchWorker", "BandsWorker", "ZeroCrossingWorker", "AutoCorrelationWorker", "HPSWorker", "FFTWorker"}

  /** With the direct subclasses as the worker table, a build with pitch on
      always fails to find its pitch worker. */
  lemma PitchNeverResolves(cfg: Config, coordinators: set<string>)
    requires cfg.channels > 0 && cfg.tasks.pitch
    ensures Build(cfg, Tables(DirectWorkerSubclasses, coordinators)) == Err(ClassNotFound)
  {
  }

  /** Even with every Worker class in the table, only the "hps" and "fft"
      choices name an existing class: the zero-crossings and auto-correlation
      names are spelled differently from their classes. */
  lemma PitchResolvesOnlyForHpsAndFft(cfg: Config)
    ensures WorkerName(PitchWorkerKind(Algorithm(cfg))) in AllWorkerClasses
      <==> cfg.pitchAlgorithm == "hps" || cfg.pitchAlgorithm == "fft"
  {
    var name := WorkerName(PitchWorkerKind(Algorithm(cfg)));
    if Algorithm(cfg) == ZeroCrossings {
      assert name == "ZeroCrossingsWorker";
      assert name[12] != "ZeroCrossingWorker"[12];
    } else if Algorithm(cfg) == AutoCorellation {
      assert name == "Auto-CorellationWorker";
      assert name[4] == '-';
    } else {
      assert name == "HPSWorker" || name == "FFTWorker";
    }
  }
}
