/** The topology builder: from the task configuration it builds, channel by
    channel, the tree of Coordinators and Workers under one Root coordinator.
    Node classes are found by name in two tables (the worker classes and the
    coordinator classes), which are parameters here. */
module Hierarchy {
  import opened Wrappers
  import opened Tree

  /** The flags of the configuration's `tasks` entry. */
  datatype Tasks = Tasks(beat: bool, pitch: bool, genre: bool, bands: bool)

  /** The configuration entries the builder reads. `channels` is any integer:
      a count of zero or less gives an empty range of channels. */
  datatype Config = Config(
    tasks: Tasks,
    channels: int,
    samplingRate: int,
    pitchAlgorithm: string,
    bandRanges: map<string, seq<int>>)

  /** The class-name tables: names of the Worker classes and of the
      Coordinator classes that can be instantiated. */
  datatype Tables = Tables(workers: set<string>, coordinators: set<string>)

  /** The two ways the build raises, both as ValueErrors: no task has been
      configured, or a class name is not in its table. */
  datatype BuildError = NoTasks | ClassNotFound

  // ---------------------------------------------------------------------------
  // Name resolution: new, new_worker, new_coordinator
  // ---------------------------------------------------------------------------

  function WorkerName(kind: string): string { kind + "Worker" }

  function CoordinatorName(kind: string): string { kind + "Coordinator" }

  /** Instantiate the class called `name` if the table has it, otherwise fail. */
  function New(table: set<string>, name: string, args: Args): (r: Result<Node, BuildError>)
    ensures r.Ok? <==> name in table
    ensures r.Ok? ==> r.value.name == name && ArgsOf(r.value) == args
    ensures r.Err? ==> r.error == ClassNotFound
  {
    if name in table then Ok(Construct(name, args)) else Err(ClassNotFound)
  }

  function NewWorker(workers: set<string>, kind: string, channelId: nat, param: int): (r: Result<Node, BuildError>)
    ensures r.Ok? <==> kind + "Worker" in workers
    ensures r.Ok? ==> r.value == Work(kind + "Worker", channelId, param)
    ensures r.Err? ==> r.error == ClassNotFound
  {
    New(workers, WorkerName(kind), WorkerArgs(channelId, param))
  }

  function NewCoordinator(coordinators: set<string>, kind: string, channelId: Option<nat>, peers: seq<Node>): (r: Result<Node, BuildError>)
    ensures r.Ok? <==> kind + "Coordinator" in coordinators
    ensures r.Ok? ==> r.value == Coord(kind + "Coordinator", channelId, peers)
    ensures r.Err? ==> r.error == ClassNotFound
  {
    New(coordinators, CoordinatorName(kind), CoordinatorArgs(channelId, peers))
  }

  // ---------------------------------------------------------------------------
  // Pitch algorithm choice
  // ---------------------------------------------------------------------------

  datatype PitchAlgorithm = Hps | ZeroCrossings | Fft | AutoCorellation

  /** Exact string match; every other string falls back to auto-correlation. */
  function SelectPitchAlgorithm(s: string): (a: PitchAlgorithm)
    ensures a == Hps <==> s == "hps"
    ensures a == ZeroCrossings <==> s == "zero-crossings"
    ensures a == Fft <==> s == "fft"
    ensures a == AutoCorellation <==> s != "hps" && s != "zero-crossings" && s != "fft"
  {
    if s == "hps" then Hps
    else if s == "zero-crossings" then ZeroCrossings
    else if s == "fft" then Fft
    else AutoCorellation
  }

  /** The worker kind the builder asks for, spelled as the builder spells it. */
  function PitchWorkerKind(a: PitchAlgorithm): string {
    match a
    case Hps => "HPS"
    case ZeroCrossings => "ZeroCrossings"
    case Fft => "FFT"
    case AutoCorellation => "Auto-Corellation"
  }

  // ---------------------------------------------------------------------------
  // Declarative description of the tree
  // ---------------------------------------------------------------------------

  /** The length of `range(channels)`. */
  function ChannelCount(cfg: Config): nat {
    if cfg.channels > 0 then cfg.channels else 0
  }

  function Algorithm(cfg: Config): PitchAlgorithm {
    SelectPitchAlgorithm(cfg.pitchAlgorithm)
  }

  /** Some task that builds nodes is on (genre builds none). */
  predicate AnyTask(cfg: Config) {
    cfg.tasks.beat || cfg.tasks.pitch || cfg.tasks.bands
  }

  /** A pitch worker that takes time-domain frames goes to the Frequency coordinator. */
  predicate TimeDomainPitch(cfg: Config) {
    cfg.tasks.pitch && Algorithm(cfg) == ZeroCrossings
  }

  /** Some worker takes spectrum frames, so a Spectrum coordinator is made. */
  predicate SpectrumOn(cfg: Config) {
    cfg.tasks.bands || (cfg.tasks.pitch && Algorithm(cfg) != ZeroCrossings)
  }

  /** A Frequency coordinator is made for every channel. */
  predicate FrequencyOn(cfg: Config) {
    cfg.tasks.pitch || cfg.tasks.bands
  }

  /** Number of root peers each channel contributes. */
  function PerChannel(cfg: Config): nat {
    (if cfg.tasks.beat then 1 else 0) + (if FrequencyOn(cfg) then 1 else 0)
  }

  function PitchWorker(cfg: Config, ch: nat): Node {
    Work(WorkerName(PitchWorkerKind(Algorithm(cfg))), ch, cfg.samplingRate)
  }

  /** The Bands worker is given the sampling rate as its bands of interest. */
  function BandsWorker(cfg: Config, ch: nat): Node {
    Work(WorkerName("Bands"), ch, cfg.samplingRate)
  }

  /** The Spectrum coordinator never receives the spectrum workers as peers. */
  function SpectrumCoordinator(ch: nat): Node {
    Coord(CoordinatorName("Spectrum"), Some(ch), [])
  }

  function BpmCoordinator(ch: nat): Node {
    Coord(CoordinatorName("BPM"), Some(ch), [])
  }

  /** The peers of channel `ch`'s Frequency coordinator: the zero-crossings
      worker, then the Spectrum coordinator, each when present. */
  function FrequencyPeers(cfg: Config, ch: nat): seq<Node> {
    (if TimeDomainPitch(cfg) then [PitchWorker(cfg, ch)] else [])
    + (if SpectrumOn(cfg) then [SpectrumCoordinator(ch)] else [])
  }

  function FrequencyCoordinator(cfg: Config, ch: nat): Node {
    Coord(CoordinatorName("Frequency"), Some(ch), FrequencyPeers(cfg, ch))
  }

  /** What channel `ch` adds to the root's peers: BPM, then Frequency. */
  function ChannelPeers(cfg: Config, ch: nat): seq<Node> {
    (if cfg.tasks.beat then [BpmCoordinator(ch)] else [])
    + (if FrequencyOn(cfg) then [FrequencyCoordinator(cfg, ch)] else [])
  }

  /** The root's peers after the first `n` channels. */
  function ExpectedPeers(cfg: Config, n: nat): seq<Node> {
    if n == 0 then [] else ExpectedPeers(cfg, n - 1) + ChannelPeers(cfg, n - 1)
  }

  /** Every node channel `ch` constructs, in construction order. Workers for
      the spectrum are constructed even though nothing holds them. */
  function ChannelSpawned(cfg: Config, ch: nat): seq<Node> {
    (if cfg.tasks.beat then [BpmCoordinator(ch)] else [])
    + (if cfg.tasks.pitch then [PitchWorker(cfg, ch)] else [])
    + (if cfg.tasks.bands then [BandsWorker(cfg, ch)] else [])
    + (if SpectrumOn(cfg) then [SpectrumCoordinator(ch)] else [])
    + (if FrequencyOn(cfg) then [FrequencyCoordinator(cfg, ch)] else [])
  }

  function ExpectedSpawned(cfg: Config, n: nat): seq<Node> {
    if n == 0 then [] else ExpectedSpawned(cfg, n - 1) + ChannelSpawned(cfg, n - 1)
  }

  /** Worker class names one channel looks up. */
  function ChannelWorkers(cfg: Config): set<string> {
    (if cfg.tasks.pitch then {WorkerName(PitchWorkerKind(Algorithm(cfg)))} else {})
    + (if cfg.tasks.bands then {WorkerName("Bands")} else {})
  }

  /** Coordinator class names one channel looks up. */
  function ChannelCoordinators(cfg: Config): set<string> {
    (if cfg.tasks.beat then {CoordinatorName("BPM")} else {})
    + (if SpectrumOn(cfg) then {CoordinatorName("Spectrum")} else {})
    + (if FrequencyOn(cfg) then {CoordinatorName("Frequency")} else {})
  }

  predicate ChannelResolves(cfg: Config, t: Tables) {
    ChannelWorkers(cfg) <= t.workers && ChannelCoordinators(cfg) <= t.coordinators
  }

  /** Every class name a non-empty build looks up is in its table. */
  predicate Resolves(cfg: Config, t: Tables) {
    ChannelResolves(cfg, t) && CoordinatorName("Root") in t.coordinators
  }

  /** The outcome of building the hierarchy, stated without the loop. */
  function Build(cfg: Config, t: Tables): Result<Node, BuildError> {
    if ChannelCount(cfg) == 0 || !AnyTask(cfg) then Err(NoTasks)
    else if !Resolves(cfg, t) then Err(ClassNotFound)
    else Ok(Coord(CoordinatorName("Root"), None, ExpectedPeers(cfg, ChannelCount(cfg))))
  }

  lemma {:induction false} ExpectedPeersLength(cfg: Config, n: nat)
    ensures |ExpectedPeers(cfg, n)| == n * PerChannel(cfg)
  {
    if n > 0 {
      ExpectedPeersLength(cfg, n - 1);
      assert |ChannelPeers(cfg, n - 1)| == PerChannel(cfg);
    }
  }

  // ---------------------------------------------------------------------------
  // The builder itself
  // ---------------------------------------------------------------------------

  /** The pitch branch of the channel loop: the configured algorithm string
      picks the worker kind by exact match, with auto-correlation as the
      fallback, and the worker is built with the sampling rate. */
  method NewPitchWorker(cfg: Config, t: Tables, channelId: nat) returns (r: Result<Node, BuildError>)
    ensures r.Ok? <==> WorkerName(PitchWorkerKind(Algorithm(cfg))) in t.workers
    ensures r.Ok? ==> r.value == PitchWorker(cfg, channelId)
    ensures r.Err? ==> r.error == ClassNotFound
  {
    var algorithm := cfg.pitchAlgorithm;
    if algorithm == "hps" {
      r := NewWorker(t.workers, "HPS", channelId, cfg.samplingRate);
    } else if algorithm == "zero-crossings" {
      r := NewWorker(t.workers, "ZeroCrossings", channelId, cfg.samplingRate);
    } else if algorithm == "fft" {
      r := NewWorker(t.workers, "FFT", channelId, cfg.samplingRate);
    } else {
      r := NewWorker(t.workers, "Auto-Corellation", channelId, cfg.samplingRate);
    }
  }

  /** One pass of new_hierarchy's channel loop: constructs channel `channelId`'s
      nodes, leaves first, and returns what the channel appends to the root's
      peers together with every node it constructed, in order. Raises at the
      first class it cannot find. */
  method NewChannel(cfg: Config, t: Tables, channelId: nat) returns (r: Result<seq<Node>, BuildError>, spawned: seq<Node>)
    ensures r == if ChannelResolves(cfg, t) then Ok(ChannelPeers(cfg, channelId)) else Err(ClassNotFound)
    ensures r.Ok? ==> spawned == ChannelSpawned(cfg, channelId)
  {
    var tasks := cfg.tasks;
    var samplingRate := cfg.samplingRate;
    var rootPeers: seq<Node> := [];
    var freqList: seq<Node> := [];
    var spectrumList: seq<Node> := [];
    var spectrogramList: seq<Node> := [];
    spawned := [];

    if tasks.beat {
      var bpm := NewCoordinator(t.coordinators, "BPM", Some(channelId), []);
      if bpm.Err? { r := Err(bpm.error); return; }
      spawned := spawned + [bpm.value];
      rootPeers := rootPeers + [bpm.value];
    }
    assert rootPeers == spawned == (if tasks.beat then [BpmCoordinator(channelId)] else []);
    assert tasks.beat ==> CoordinatorName("BPM") in t.coordinators;
    ghost var afterBeat := spawned;

    if tasks.pitch {
      var worker := NewPitchWorker(cfg, t, channelId);
      if worker.Err? { r := Err(worker.error); return; }
      spawned := spawned + [worker.value];
      if cfg.pitchAlgorithm == "zero-crossings" {
        freqList := freqList + [worker.value];
      } else {
        spectrumList := spectrumList + [worker.value];
      }
    }
    assert freqList == (if TimeDomainPitch(cfg) then [PitchWorker(cfg, channelId)] else []);
    assert spectrumList == (if tasks.pitch && !TimeDomainPitch(cfg) then [PitchWorker(cfg, channelId)] else []);
    assert spawned == afterBeat + (if tasks.pitch then [PitchWorker(cfg, channelId)] else []);
    assert tasks.pitch ==> WorkerName(PitchWorkerKind(Algorithm(cfg))) in t.workers;
    ghost var afterPitch := spawned;

    if tasks.genre {
      // Reserved: nothing is constructed for genre.
    }

    if tasks.bands {
      var bandsOfInterest := cfg.bandRanges;  // read but not passed on
      var bands := NewWorker(t.workers, "Bands", channelId, samplingRate);
      if bands.Err? { r := Err(bands.error); return; }
      spawned := spawned + [bands.value];
      spectrumList := spectrumList + [bands.value];
    }
    assert |spectrumList| > 0 <==> SpectrumOn(cfg);
    assert spawned == afterPitch + (if tasks.bands then [BandsWorker(cfg, channelId)] else []);
    assert ChannelWorkers(cfg) <= t.workers;
    ghost var afterBands := spawned;

    if |spectrogramList| > 0 {
      // Nothing appends to the spectrogram list, so this branch is dead.
      assert false;
    }

    if |spectrumList| > 0 {
      var spectrum := NewCoordinator(t.coordinators, "Spectrum", Some(channelId), []);
      if spectrum.Err? { r := Err(spectrum.error); return; }
      spawned := spawned + [spectrum.value];
      freqList := freqList + [spectrum.value];
    }
    assert freqList == FrequencyPeers(cfg, channelId);
    assert spawned == afterBands + (if SpectrumOn(cfg) then [SpectrumCoordinator(channelId)] else []);
    assert SpectrumOn(cfg) ==> CoordinatorName("Spectrum") in t.coordinators;
    ghost var afterSpectrum := spawned;

    if |freqList| > 0 {
      var frequency := NewCoordinator(t.coordinators, "Frequency", Some(channelId), freqList);
      if frequency.Err? { r := Err(frequency.error); return; }
      spawned := spawned + [frequency.value];
      rootPeers := rootPeers + [frequency.value];
    }
    assert spawned == afterSpectrum + (if FrequencyOn(cfg) then [FrequencyCoordinator(cfg, channelId)] else []);
    assert ChannelCoordinators(cfg) <= t.coordinators;
    r := Ok(rootPeers);
  }

  /** new_hierarchy: runs the channel loop, then wraps the root's peers in the
      Root coordinator, or raises when there are none. `spawned` lists every
      node constructed, in order. */
  method NewHierarchy(cfg: Config, t: Tables) returns (r: Result<Node, BuildError>, spawned: seq<Node>)
    ensures r == Build(cfg, t)
    ensures r.Ok? ==> spawned == ExpectedSpawned(cfg, ChannelCount(cfg)) + [r.value]
  {
    var rootPeers: seq<Node> := [];
    spawned := [];

    var channelId: nat := 0;
    while channelId < cfg.channels
      invariant channelId <= ChannelCount(cfg)
      invariant rootPeers == ExpectedPeers(cfg, channelId)
      invariant spawned == ExpectedSpawned(cfg, channelId)
      invariant channelId > 0 ==> ChannelResolves(cfg, t)
    {
      var peers, made := NewChannel(cfg, t, channelId);
      if peers.Err? { r := Err(peers.error); return; }
      spawned := spawned + made;
      rootPeers := rootPeers + peers.value;
      channelId := channelId + 1;
    }

    ExpectedPeersLength(cfg, channelId);
    if |rootPeers| > 0 {
      var root := NewCoordinator(t.coordinators, "Root", None, rootPeers);
      if root.Err? { r := Err(root.error); return; }
      spawned := spawned + [root.value];
      r := Ok(root.value);
    } else {
      r := Err(NoTasks);
    }
  }
}
