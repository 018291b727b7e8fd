/**
 The plugin-instance record and the values it is built from: the status
 choices, the plugin descriptor it runs, its resource limits and the feed it
 writes into. A store of instances is a map from primary key to record.
 */
module Instances {
  import opened Results

  /** Primary key of a plugin instance. */
  type Id = nat
  /** Primary key of a feed. */
  type FeedId = nat
  /** An owner, identified by username. */
  type Username = string

  /** The eight status choices of a plugin instance. */
  datatype Status =
    | Created
    | Waiting
    | Scheduled
    | Started
    | RegisteringFiles
    | FinishedSuccessfully
    | FinishedWithError
    | Cancelled

  /** The value stored in the status column for each choice. */
  function StatusValue(s: Status): (v: string)
    ensures 1 <= |v| <= 30
  {
    match s
    case Created => "created"
    case Waiting => "waiting"
    case Scheduled => "scheduled"
    case Started => "started"
    case RegisteringFiles => "registeringFiles"
    case FinishedSuccessfully => "finishedSuccessfully"
    case FinishedWithError => "finishedWithError"
    case Cancelled => "cancelled"
  }

  /** The choices in declaration order. */
  const StatusChoices: seq<Status> :=
    [Created, Waiting, Scheduled, Started, RegisteringFiles,
     FinishedSuccessfully, FinishedWithError, Cancelled]

  /** A new instance starts in this status. */
  const DefaultStatus: Status := Created

  /** Reads a stored status value back; `None` when it is not one of the choices. */
  function ParseStatus(v: string): (r: Option<Status>)
    ensures r.Some? ==> StatusValue(r.value) == v
    ensures r.None? ==> forall s: Status :: StatusValue(s) != v
  {
    if v == "created" then Some(Created)
    else if v == "waiting" then Some(Waiting)
    else if v == "scheduled" then Some(Scheduled)
    else if v == "started" then Some(Started)
    else if v == "registeringFiles" then Some(RegisteringFiles)
    else if v == "finishedSuccessfully" then Some(FinishedSuccessfully)
    else if v == "finishedWithError" then Some(FinishedWithError)
    else if v == "cancelled" then Some(Cancelled)
    else None
  }

  /** The choice list holds every status exactly once, with pairwise distinct stored values. */
  lemma StatusChoicesExact()
    ensures |StatusChoices| == 8
    ensures forall s: Status :: s in StatusChoices
    ensures forall i, j :: 0 <= i < j < |StatusChoices| ==>
      StatusValue(StatusChoices[i]) != StatusValue(StatusChoices[j])
  {
    forall s: Status
      ensures s in StatusChoices
    {
      match s
      case Created => assert StatusChoices[0] == s;
      case Waiting => assert StatusChoices[1] == s;
      case Scheduled => assert StatusChoices[2] == s;
      case Started => assert StatusChoices[3] == s;
      case RegisteringFiles => assert StatusChoices[4] == s;
      case FinishedSuccessfully => assert StatusChoices[5] == s;
      case FinishedWithError => assert StatusChoices[6] == s;
      case Cancelled => assert StatusChoices[7] == s;
    }
  }

  /** Every status survives a write to the column and a read back. */
  lemma StatusRoundTrip(s: Status)
    ensures ParseStatus(StatusValue(s)) == Some(s)
  {
  }

  /** The kind of plugin an instance runs: data source, data step, topology step, or any other tag. */
  datatype PluginType = Fs | Ds | Ts | OtherType

  /** The read-only plugin descriptor: name, type and the minimum resource limits. */
  datatype Plugin = Plugin(
    name: string,
    ptype: PluginType,
    minCpuLimit: int,
    minMemoryLimit: int,
    minNumberOfWorkers: int,
    minGpuLimit: int)

  /**
   The four nullable resource-limit columns. CPU and memory values are the
   integers the custom fields store; `None` is SQL NULL.
   */
  datatype Limits = Limits(
    cpuLimit: Option<int>,
    memoryLimit: Option<int>,
    numberOfWorkers: Option<int>,
    gpuLimit: Option<int>)

  /** Python truthiness of a nullable integer: neither None nor zero. */
  predicate Truthy(v: Option<int>) {
    v.Some? && v.value != 0
  }

  function DefaultTo(v: Option<int>, minimum: int): Option<int> {
    if Truthy(v) then v else Some(minimum)
  }

  /**
   `_set_compute_defaults`: each limit left falsy by the caller is replaced by
   the plugin's matching minimum, and each truthy limit is kept.
   */
  function SetComputeDefaults(l: Limits, p: Plugin): (r: Limits)
    ensures Truthy(l.cpuLimit) ==> r.cpuLimit == l.cpuLimit
    ensures !Truthy(l.cpuLimit) ==> r.cpuLimit == Some(p.minCpuLimit)
    ensures Truthy(l.memoryLimit) ==> r.memoryLimit == l.memoryLimit
    ensures !Truthy(l.memoryLimit) ==> r.memoryLimit == Some(p.minMemoryLimit)
    ensures Truthy(l.numberOfWorkers) ==> r.numberOfWorkers == l.numberOfWorkers
    ensures !Truthy(l.numberOfWorkers) ==> r.numberOfWorkers == Some(p.minNumberOfWorkers)
    ensures Truthy(l.gpuLimit) ==> r.gpuLimit == l.gpuLimit
    ensures !Truthy(l.gpuLimit) ==> r.gpuLimit == Some(p.minGpuLimit)
    ensures r.cpuLimit.Some? && r.memoryLimit.Some? && r.numberOfWorkers.Some? && r.gpuLimit.Some?
  {
    Limits(
      DefaultTo(l.cpuLimit, p.minCpuLimit),
      DefaultTo(l.memoryLimit, p.minMemoryLimit),
      DefaultTo(l.numberOfWorkers, p.minNumberOfWorkers),
      DefaultTo(l.gpuLimit, p.minGpuLimit))
  }

  /** Defaulting twice is defaulting once, so repeated saves do not drift. */
  lemma SetComputeDefaultsIdempotent(l: Limits, p: Plugin)
    ensures SetComputeDefaults(SetComputeDefaults(l, p), p) == SetComputeDefaults(l, p)
  {
  }

  /** A feed: the result collection a tree of instances writes into. */
  datatype Feed = Feed(name: string, owners: set<Username>)

  /**
   One plugin instance. `previous` is the parent's primary key (the reverse
   relation is `next`); `feed` is `None` until the first save assigns it.
   */
  datatype Instance = Instance(
    title: string,
    status: Status,
    previous: Option<Id>,
    plugin: Plugin,
    feed: Option<FeedId>,
    owner: Username,
    limits: Limits)

  /** A new, unsaved instance as a caller builds it: status at its default, no feed yet. */
  function NewInstance(plugin: Plugin, owner: Username, title: string,
                       previous: Option<Id>, limits: Limits): Instance
  {
    Instance(title, DefaultStatus, previous, plugin, None, owner, limits)
  }

  /** The instance table, keyed by primary key. */
  type Store = map<Id, Instance>

  /** The feed table, keyed by primary key. */
  type FeedStore = map<FeedId, Feed>
}
