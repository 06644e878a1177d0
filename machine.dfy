/** The host the commands act on. The copy-on-write store and the ordinary file
    system are seen together as one map from absolute paths to entries; every
    call the core makes into code it does not own (the store driver, the process
    supervisor, the bootstrap and archive tools, HTTP, the network-descriptor
    writer) is an operation that succeeds or fails. An operation fails when the
    environment makes it fail (it is in the set of faults) or when the current
    entries forbid it; a failed operation changes no entry. Every attempted
    operation is appended to the trace, so the order of calls is observable. */
module Machine {

  /** One build step, the closed variant of the (directive, payload) pair. */
  datatype BuildStep = EnableServices(services: string) | RunCommand(command: string)

  /** The external calls, each with the arguments the caller passes. */
  datatype Op =
    | FsInit(root: string)                                // open the store rooted at root
    | Subvolume(root: string, path: string)               // new subvolume at path, relative to root
    | Snapshot(root: string, source: string, dest: string) // writable snapshot of source at dest
    | Remove(path: string)                                // remove one path
    | CreateFile(path: string)                            // create or truncate a file
    | Write(path: string, text: string)                   // write text into the file just created
    | HttpGet(url: string)                                // start an HTTP download
    | Copy(url: string, path: string)                     // stream the download into the file
    | Exec(program: string, args: seq<string>, env: seq<string>, dir: string) // run a program
    | Enable(machine: string)                             // enable the unit instance of a container
    | Start(machine: string)                              // start the unit instance of a container
    | Build(directory: string, step: BuildStep)           // one offline build step in a container
    | ClientNetwork(path: string, bridge: string)         // write the bridge descriptor of an image

  /** What a path holds: a subvolume (named by the subvolume its data came from),
      a text file, or a downloaded archive (named by its URL). */
  datatype Entry = Volume(origin: string) | File(text: string) | Archive(url: string)

  datatype World = World(entries: map<string, Entry>, trace: seq<Op>)

  /** A value computed together with the world it leaves behind. */
  datatype Effect<T> = Effect(value: T, after: World)

  /** The error a composed operation returns: the call that failed. */
  datatype Status = Ok | Err(failed: Op)

  /** The process-wide settings: the store root, the directory holding images,
      and the bridge new images are attached to. */
  datatype Config = Config(home: string, imagesPath: string, destination: string)

  /** The path of name inside dir, as "%s/%s" formats it. */
  function Child(dir: string, name: string): string
  {
    dir + "/" + name
  }

  /** What the current entries demand of an operation before it can succeed. */
  predicate Permits(entries: map<string, Entry>, op: Op)
  {
    match op
    case Subvolume(root, path) => Child(root, path) !in entries
    case Snapshot(root, source, dest) =>
      Child(root, source) in entries && entries[Child(root, source)].Volume?
      && Child(root, dest) !in entries
    case Remove(path) => path in entries
    case Write(path, _) => path in entries && entries[path].File?
    case Copy(_, path) => path in entries && entries[path].File?
    case _ => true
  }

  /** The entries after a successful operation. */
  function Updated(entries: map<string, Entry>, op: Op): map<string, Entry>
    requires Permits(entries, op)
  {
    match op
    case Subvolume(root, path) => entries[Child(root, path) := Volume(Child(root, path))]
    case Snapshot(root, source, dest) => entries[Child(root, dest) := entries[Child(root, source)]]
    case Remove(path) => entries - {path}
    case CreateFile(path) => entries[path := File("")]
    case Write(path, text) => entries[path := File(text)]
    case Copy(url, path) => entries[path := Archive(url)]
    case _ => entries
  }

  predicate Succeeds(w: World, faults: set<Op>, op: Op)
  {
    op !in faults && Permits(w.entries, op)
  }

  /** Attempt one operation. */
  function Apply(w: World, faults: set<Op>, op: Op): Effect<bool>
  {
    if Succeeds(w, faults, op) then Effect(true, World(Updated(w.entries, op), w.trace + [op]))
    else Effect(false, World(w.entries, w.trace + [op]))
  }

  /** Operations run in order until the first one that fails; that one's
      failure is the result. The reference meaning of a fail-fast sequence. */
  function Pipeline(ops: seq<Op>, faults: set<Op>, w: World): (r: Effect<Status>)
    ensures w.trace <= r.after.trace
    ensures r.after.trace[|w.trace|..] <= ops
    ensures r.value == Ok ==> r.after.trace == w.trace + ops
    ensures r.value.Err? ==>
      |r.after.trace| > |w.trace| && r.after.trace[|r.after.trace| - 1] == r.value.failed
  {
    if ops == [] then Effect(Ok, w)
    else
      var first := Apply(w, faults, ops[0]);
      if !first.value then Effect(Err(ops[0]), first.after)
      else
        var r := Pipeline(ops[1..], faults, first.after);
        assert r.after.trace[|w.trace|..] == [ops[0]] + r.after.trace[|first.after.trace|..];
        r
  }

  /** One step of a pipeline: the first operation, then the rest only if it
      succeeded. */
  lemma {:induction false} PipelineFirst(op: Op, rest: seq<Op>, faults: set<Op>, w: World)
    ensures Pipeline([op] + rest, faults, w) ==
      var first := Apply(w, faults, op);
      if first.value then Pipeline(rest, faults, first.after) else Effect(Err(op), first.after)
  {
    assert ([op] + rest)[0] == op;
    assert ([op] + rest)[1..] == rest;
  }

  /** Running a + b is running a, then b only if a succeeded. */
  lemma {:induction false} PipelineConcat(a: seq<Op>, b: seq<Op>, faults: set<Op>, w: World)
    ensures Pipeline(a + b, faults, w) ==
      var ra := Pipeline(a, faults, w);
      if ra.value == Ok then Pipeline(b, faults, ra.after) else ra
  {
    if a == [] {
      assert a + b == b;
    } else {
      var first := Apply(w, faults, a[0]);
      assert (a + b)[0] == a[0];
      assert (a + b)[1..] == a[1..] + b;
      if first.value {
        PipelineConcat(a[1..], b, faults, first.after);
      }
    }
  }

  /** If step k is the first to fail, the pipeline ends with step k's failure and
      no later step is attempted. */
  lemma {:induction false} PipelineFirstFailure(ops: seq<Op>, k: nat, faults: set<Op>, w: World)
    requires k < |ops|
    requires Pipeline(ops[..k], faults, w).value == Ok
    requires !Succeeds(Pipeline(ops[..k], faults, w).after, faults, ops[k])
    ensures Pipeline(ops, faults, w) ==
      Effect(Err(ops[k]), Apply(Pipeline(ops[..k], faults, w).after, faults, ops[k]).after)
    ensures Pipeline(ops, faults, w).after.trace == w.trace + ops[..k + 1]
  {
    var pre := Pipeline(ops[..k], faults, w);
    var step := Apply(pre.after, faults, ops[k]);
    assert Pipeline(ops[k..], faults, pre.after) == Effect(Err(ops[k]), step.after) by {
      assert ops[k..][0] == ops[k];
    }
    assert Pipeline(ops, faults, w) == Pipeline(ops[k..], faults, pre.after) by {
      assert ops == ops[..k] + ops[k..];
      PipelineConcat(ops[..k], ops[k..], faults, w);
    }
    assert step.after.trace == w.trace + ops[..k + 1] by {
      assert ops[..k + 1] == ops[..k] + [ops[k]];
    }
  }

  /** A pipeline that succeeded ran every step, each in the world the steps
      before it left, and each of them succeeded. */
  lemma {:induction false} PipelineOkSteps(ops: seq<Op>, k: nat, faults: set<Op>, w: World)
    requires k < |ops|
    requires Pipeline(ops, faults, w).value == Ok
    ensures Pipeline(ops[..k], faults, w).value == Ok
    ensures Succeeds(Pipeline(ops[..k], faults, w).after, faults, ops[k])
  {
    assert ops == ops[..k] + ops[k..];
    PipelineConcat(ops[..k], ops[k..], faults, w);
    assert ops[k..][0] == ops[k];
  }

  /** The machine the commands run on: the entries of its store and file
      system, the calls attempted so far, and which calls its environment
      makes fail. */
  class Host {
    var entries: map<string, Entry>
    var trace: seq<Op>
    const faults: set<Op>

    constructor (entries: map<string, Entry>, faults: set<Op>)
      ensures State() == World(entries, []) && this.faults == faults
    {
      this.entries := entries;
      this.trace := [];
      this.faults := faults;
    }

    function State(): World
      reads this
    {
      World(entries, trace)
    }

    /** The side-effect-free existence check. */
    predicate Exists(path: string): (b: bool)
      reads this
      ensures b <==> path in State().entries
    {
      path in entries
    }

    /** Make one external call. */
    method Perform(op: Op) returns (ok: bool)
      modifies this
      ensures Effect(ok, State()) == Apply(old(State()), faults, op)
    {
      ok := op !in faults && Permits(entries, op);
      if ok {
        entries := Updated(entries, op);
      }
      trace := trace + [op];
    }
  }
}
