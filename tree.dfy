/** The nodes of the analysis tree as values.
    A Coordinator fans frames out to its ordered list of peers; a Worker is a
    leaf that runs one analysis on the frames of one channel. Each node records
    the name of the class it was built from and the keyword arguments it was
    given; starting the node's thread is not modelled. */
module Tree {
  import opened Wrappers

  datatype Node =
    | Coord(name: string, channelId: Option<nat>, peers: seq<Node>)
    | Work(name: string, workerChannel: nat, param: int)

  /** The keyword arguments passed to a node class.
      `param` is the worker's `sampling_rate` or `bands_of_interest`. */
  datatype Args =
    | WorkerArgs(channelId: nat, param: int)
    | CoordinatorArgs(coordinatorChannel: Option<nat>, peerList: seq<Node>)

  /** The keyword arguments a node was constructed with. */
  function ArgsOf(n: Node): Args {
    match n
    case Coord(_, ch, peers) => CoordinatorArgs(ch, peers)
    case Work(_, ch, p) => WorkerArgs(ch, p)
  }

  /** Instantiating the class called `name` with `args`; construction itself
      never fails, and the node remembers both its class and its arguments. */
  function Construct(name: string, args: Args): (n: Node)
    ensures n.name == name && ArgsOf(n) == args
    ensures n.Work? <==> args.WorkerArgs?
  {
    match args
    case WorkerArgs(ch, p) => Work(name, ch, p)
    case CoordinatorArgs(ch, peers) => Coord(name, ch, peers)
  }

  /** The channel a node is bound to; None for a coordinator built without one. */
  function ChannelOf(n: Node): Option<nat> {
    match n
    case Coord(_, ch, _) => ch
    case Work(_, ch, _) => Some(ch)
  }

  /** Every node of the tree rooted at `n`, in pre-order. */
  function Nodes(n: Node): seq<Node>
    decreases n
  {
    match n
    case Coord(_, _, peers) => [n] + NodesOf(peers)
    case Work(_, _, _) => [n]
  }

  /** Every node of the trees rooted at the elements of `s`, tree after tree. */
  function NodesOf(s: seq<Node>): seq<Node>
    decreases s
  {
    if s == [] then [] else Nodes(s[0]) + NodesOf(s[1..])
  }

  lemma {:induction false} NodesOfAppend(a: seq<Node>, b: seq<Node>)
    ensures NodesOf(a + b) == NodesOf(a) + NodesOf(b)
    decreases |a|
  {
    if a == [] {
      assert a + b == b;
    } else {
      assert (a + b)[0] == a[0];
      assert (a + b)[1..] == a[1..] + b;
      NodesOfAppend(a[1..], b);
    }
  }

  lemma NodesOfSingle(n: Node)
    ensures NodesOf([n]) == Nodes(n)
  {
  }
}
