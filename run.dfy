/** The `run` command: snapshot an image into a new container, attach the
    requested named snapshots inside it, then enable and start its unit. */
module RunWorkflow {
  import opened Text
  import opened Machine
  import Nspawn

  /** The container is named by the second argument, by the image otherwise. */
  function ContainerName(args: seq<string>): (r: string)
    requires |args| >= 1
    ensures |args| == 1 ==> r == args[0]
    ensures |args| >= 2 ==> r == args[1]
  {
    if |args| < 2 then args[0] else args[1]
  }

  /** The store path of a container, relative to the store root. */
  function ContainerPath(container: string): (r: string)
    ensures |r| == |container| + 2 && r[..2] == ".#" && r[2..] == container
  {
    ".#" + container
  }

  /** The store path of a named snapshot volume, relative to the store root. */
  function SnapshotVolume(name: string): (r: string)
    ensures |r| == |name| + 14 && r[..14] == ".cnr-snapshot-" && r[14..] == name
  {
    ".cnr-snapshot-" + name
  }

  /** A snapshot-attach spec: which snapshot volume, and where inside the container. */
  datatype Attach = Attach(name: string, dest: string)

  /** A "name:path" spec, split on ':'; the first two parts are used and any
      further ones are ignored; a spec without ':' is malformed. */
  function ParseAttach(spec: string): (r: Option<Attach>)
    ensures r.None? <==> ':' !in spec
    ensures r.Some? ==> ':' !in r.value.name && ':' !in r.value.dest
    ensures r.Some? ==>
      var n := |r.value.name|;
      var m := n + 1 + |r.value.dest|;
      && m <= |spec| && spec[..n] == r.value.name && spec[n] == ':'
      && spec[n + 1..m] == r.value.dest && (m == |spec| || spec[m] == ':')
  {
    var parts := Split(spec, ':');
    SplitSingle(spec, ':');
    if |parts| < 2 then None
    else
      assert ':' !in parts[0] && ':' !in parts[1];
      var rest := if |parts| == 2 then "" else [':'] + Join(parts[2..], ':');
      assert Join(parts[1..], ':') == parts[1] + rest;
      assert spec == parts[0] + [':'] + parts[1] + rest;
      Some(Attach(parts[0], parts[1]))
  }

  /** The converse: the name and destination are recovered from any spec of
      the form name:dest or name:dest:more. */
  lemma {:induction false} ParseAttachOf(name: string, dest: string, more: string)
    requires ':' !in name && ':' !in dest
    requires more == "" || more[0] == ':'
    ensures ParseAttach(name + ":" + dest + more) == Some(Attach(name, dest))
  {
    var spec := name + ":" + dest + more;
    assert spec == name + [':'] + (dest + more);
    SplitFirst(name, ':', dest + more);
    if more == "" {
      assert dest + more == dest;
      SplitSingle(dest, ':');
    } else {
      assert dest + more == dest + [':'] + more[1..];
      SplitFirst(dest, ':', more[1..]);
    }
  }

  /** Attach one spec inside the container at cp: a malformed spec fails before
      any call; an existing destination is removed first (overwrite, never
      merge), and a failed removal fails the spec; then the snapshot volume is
      snapshotted onto the destination. */
  function AttachOne(home: string, cp: string, spec: string, faults: set<Op>, w: World): (r: Effect<bool>)
    ensures ParseAttach(spec).None? ==> r == Effect(false, w)
    ensures w.trace <= r.after.trace && |r.after.trace| <= |w.trace| + 2
    ensures forall i :: |w.trace| <= i < |r.after.trace| ==>
      r.after.trace[i].Remove? || r.after.trace[i].Snapshot?
    ensures r.value ==>
      && ParseAttach(spec).Some?
      && Child(home, Child(cp, ParseAttach(spec).value.dest)) in r.after.entries
  {
    match ParseAttach(spec)
    case None => Effect(false, w)
    case Some(a) =>
      var from := SnapshotVolume(a.name);
      var to := Child(cp, a.dest);
      if Child(home, to) in w.entries then
        var removed := Apply(w, faults, Remove(Child(home, to)));
        if !removed.value then removed
        else Apply(removed.after, faults, Snapshot(home, from, to))
      else Apply(w, faults, Snapshot(home, from, to))
  }

  /** The specs, in order, until the first that fails. */
  function AttachAll(home: string, cp: string, specs: seq<string>, faults: set<Op>, w: World)
    : (r: Effect<bool>)
    ensures w.trace <= r.after.trace
    ensures forall i :: |w.trace| <= i < |r.after.trace| ==>
      r.after.trace[i].Remove? || r.after.trace[i].Snapshot?
  {
    if specs == [] then Effect(true, w)
    else
      var first := AttachOne(home, cp, specs[0], faults, w);
      if !first.value then first else AttachAll(home, cp, specs[1..], faults, first.after)
  }

  /** Open the store, snapshot the image to the container path, attach the
      snapshot specs: the filesystem composition of a run. */
  function Compose(cfg: Config, args: seq<string>, specs: seq<string>, faults: set<Op>, w: World)
    : (r: Effect<bool>)
    requires |args| >= 1
    ensures w.trace + [FsInit(cfg.home), Snapshot(cfg.home, args[0], ContainerPath(ContainerName(args)))]
      <= r.after.trace
    ensures forall i :: |w.trace| <= i < |r.after.trace| ==>
      !r.after.trace[i].Enable? && !r.after.trace[i].Start?
  {
    var cp := ContainerPath(ContainerName(args));
    // the outcome of opening the store is not looked at
    var store := Apply(w, faults, FsInit(cfg.home)).after;
    var image := Apply(store, faults, Snapshot(cfg.home, args[0], cp));
    if !image.value then image
    else AttachAll(cfg.home, cp, specs, faults, image.after)
  }

  /** The exit code of `run` and the host it leaves, for the given snapshot specs. */
  function RunSpec(cfg: Config, args: seq<string>, specs: seq<string>, faults: set<Op>, w: World)
    : (r: Effect<int>)
    ensures r.value == 0 || r.value == 1
    ensures w.trace <= r.after.trace
  {
    if |args| < 1 then Effect(1, w)
    else
      var composed := Compose(cfg, args, specs, faults, w);
      if !composed.value then Effect(1, composed.after)
      else
        var enabled := Apply(composed.after, faults, Enable(ContainerName(args)));
        if !enabled.value then Effect(1, enabled.after)
        else
          var started := Apply(enabled.after, faults, Start(ContainerName(args)));
          Effect(if started.value then 0 else 1, started.after)
  }

  /** runRun. The bind specs are recorded on the container handle and cause no
      call here. */
  method Run(host: Host, cfg: Config, args: seq<string>, flagBind: seq<string>,
             flagSnapshot: seq<string>) returns (exit: int)
    modifies host
    ensures Effect(exit, host.State()) ==
      RunSpec(cfg, args, flagSnapshot, host.faults, old(host.State()))
  {
    if |args| < 1 {
      return 1;
    }
    var imagePath := args[0];
    var container: string;
    if |args| < 2 {
      container := imagePath;
    } else {
      container := args[1];
    }
    var containerPath := ContainerPath(container);

    var _ := host.Perform(FsInit(cfg.home));
    var ok := host.Perform(Snapshot(cfg.home, imagePath, containerPath));
    if !ok {
      return 1;
    }

    var c := new Nspawn.Container(container, Child(cfg.home, containerPath));
    if |flagBind| > 0 {
      c.SetBinds(flagBind);
    }
    if |flagSnapshot| > 0 {
      c.SetSnapshots(flagSnapshot);
    }

    ghost var composed := AttachAll(cfg.home, containerPath, flagSnapshot, host.faults, host.State());
    var i := 0;
    while i < |c.snapshots|
      invariant c.snapshots == flagSnapshot
      invariant 0 <= i <= |flagSnapshot|
      invariant AttachAll(cfg.home, containerPath, flagSnapshot[i..], host.faults, host.State()) == composed
    {
      assert flagSnapshot[i..][1..] == flagSnapshot[i + 1..];
      var paths := Split(c.snapshots[i], ':');
      if |paths| < 2 {
        return 1;
      }
      var from := SnapshotVolume(paths[0]);
      var to := Child(containerPath, paths[1]);
      if host.Exists(Child(cfg.home, to)) {
        ok := host.Perform(Remove(Child(cfg.home, to)));
        if !ok {
          return 1;
        }
      }
      ok := host.Perform(Snapshot(cfg.home, from, to));
      if !ok {
        return 1;
      }
      i := i + 1;
    }
    assert flagSnapshot[i..] == [];

    ok := c.Enable(host);
    if !ok {
      return 1;
    }
    ok := c.Start(host);
    if !ok {
      return 1;
    }
    return 0;
  }

  // ---------------------------------------------------------------------------
  // Properties of a run

  /** Without arguments the result is 1 and nothing is called. */
  lemma {:induction false} RunWithoutArguments(cfg: Config, specs: seq<string>, faults: set<Op>, w: World)
    ensures RunSpec(cfg, [], specs, faults, w) == Effect(1, w)
  {
  }

  /** The first calls of a run: open the store at home, then snapshot the
      image to ".#" followed by the container name, which is the second
      argument when there is one and the image otherwise. */
  lemma {:induction false} RunSnapshotsImage(cfg: Config, args: seq<string>, specs: seq<string>,
                                             faults: set<Op>, w: World)
    requires |args| >= 1
    ensures var container := if |args| >= 2 then args[1] else args[0];
      w.trace + [FsInit(cfg.home), Snapshot(cfg.home, args[0], ".#" + container)]
        <= RunSpec(cfg, args, specs, faults, w).after.trace
  {
  }

  /** A failed image snapshot, whether the environment fails it, the image is
      missing or the container path is taken, ends the run with 1 right there:
      no spec is attached and neither Enable nor Start is called. */
  lemma {:induction false} RunImageSnapshotFails(cfg: Config, args: seq<string>, specs: seq<string>,
                                                 faults: set<Op>, w: World)
    requires |args| >= 1
    requires !Succeeds(Apply(w, faults, FsInit(cfg.home)).after, faults,
                       Snapshot(cfg.home, args[0], ContainerPath(ContainerName(args))))
    ensures var cp := ContainerPath(ContainerName(args));
      RunSpec(cfg, args, specs, faults, w) ==
        Effect(1, World(w.entries, w.trace + [FsInit(cfg.home), Snapshot(cfg.home, args[0], cp)]))
  {
  }

  /** A malformed spec (no ':') fails the attach step before any call. */
  lemma {:induction false} AttachMalformed(home: string, cp: string, spec: string, faults: set<Op>, w: World)
    requires ':' !in spec
    ensures AttachOne(home, cp, spec, faults, w) == Effect(false, w)
  {
  }

  /** A spec name:dest (further ':'-parts ignored) snapshots the volume
      ".cnr-snapshot-" + name onto ".#" + container + "/" + dest. When that
      destination exists it is removed first; when the removal fails, no
      snapshot is attempted; when the spec succeeds, the destination holds
      exactly the snapshot volume's content and no other entry changed. Paths
      are compared as strings, without resolving "." or "..". */
  lemma {:induction false} AttachOverwrites(home: string, container: string, name: string,
                                            dest: string, more: string, faults: set<Op>, w: World)
    requires ':' !in name && ':' !in dest
    requires more == "" || more[0] == ':'
    ensures var r := AttachOne(home, ".#" + container, name + ":" + dest + more, faults, w);
      var from := ".cnr-snapshot-" + name;
      var to := ".#" + container + "/" + dest;
      var snapshot := Snapshot(home, from, to);
      var removal := Remove(home + "/" + to);
      && (home + "/" + to in w.entries ==>
            if removal in faults then r == Effect(false, World(w.entries, w.trace + [removal]))
            else r.after.trace == w.trace + [removal, snapshot])
      && (home + "/" + to !in w.entries ==> r.after.trace == w.trace + [snapshot])
      && (r.value ==> home + "/" + from in w.entries
                      && r.after.entries == w.entries[home + "/" + to := w.entries[home + "/" + from]])
  {
    ParseAttachOf(name, dest, more);
    var from := SnapshotVolume(name);
    var to := Child(ContainerPath(container), dest);
    // as strings, the volume key and the destination key differ: "/.c" against "/.#"
    assert Child(home, from)[|home| + 2] == 'c';
    assert Child(home, to)[|home| + 2] == '#';
  }

  /** Running specs a + b is running a, then b only if a succeeded. */
  lemma {:induction false} AttachAllConcat(home: string, cp: string, a: seq<string>, b: seq<string>,
                                           faults: set<Op>, w: World)
    ensures AttachAll(home, cp, a + b, faults, w) ==
      var ra := AttachAll(home, cp, a, faults, w);
      if ra.value then AttachAll(home, cp, b, faults, ra.after) else ra
  {
    if a == [] {
      assert a + b == b;
    } else {
      assert (a + b)[0] == a[0];
      assert (a + b)[1..] == a[1..] + b;
      var first := AttachOne(home, cp, a[0], faults, w);
      if first.value {
        AttachAllConcat(home, cp, a[1..], b, faults, first.after);
      }
    }
  }

  /** Specs run in order and the first failing one ends the attach step: its
      result is exactly that spec's failure, so later specs are never tried. */
  lemma {:induction false} AttachFirstFailure(home: string, cp: string, specs: seq<string>, k: nat,
                                              faults: set<Op>, w: World)
    requires k < |specs|
    requires AttachAll(home, cp, specs[..k], faults, w).value
    requires !AttachOne(home, cp, specs[k], faults, AttachAll(home, cp, specs[..k], faults, w).after).value
    ensures AttachAll(home, cp, specs, faults, w) ==
      AttachOne(home, cp, specs[k], faults, AttachAll(home, cp, specs[..k], faults, w).after)
  {
    assert specs == specs[..k] + specs[k..];
    AttachAllConcat(home, cp, specs[..k], specs[k..], faults, w);
    assert specs[k..][0] == specs[k];
  }

  /** A successful attach step attached every spec, each in the world the
      specs before it left. */
  lemma {:induction false} AttachAllSucceeded(home: string, cp: string, specs: seq<string>, k: nat,
                                              faults: set<Op>, w: World)
    requires k < |specs|
    requires AttachAll(home, cp, specs, faults, w).value
    ensures AttachAll(home, cp, specs[..k], faults, w).value
    ensures AttachOne(home, cp, specs[k], faults, AttachAll(home, cp, specs[..k], faults, w).after).value
  {
    assert specs == specs[..k] + specs[k..];
    AttachAllConcat(home, cp, specs[..k], specs[k..], faults, w);
    assert specs[k..][0] == specs[k];
  }

  /** Enable and Start are reached only once the filesystem is fully
      composed: the calls after composition are Enable, then Start only if
      Enable succeeded; the composition itself calls neither; and the result
      is 0 exactly when composition, Enable and Start all succeed. */
  lemma {:induction false} RunActivatesLast(cfg: Config, args: seq<string>, specs: seq<string>,
                                            faults: set<Op>, w: World)
    requires |args| >= 1
    ensures var composed := Compose(cfg, args, specs, faults, w);
      var r := RunSpec(cfg, args, specs, faults, w);
      var name := ContainerName(args);
      && (forall i :: |w.trace| <= i < |composed.after.trace| ==>
            !composed.after.trace[i].Enable? && !composed.after.trace[i].Start?)
      && composed.after.trace <= r.after.trace
      && (!composed.value ==> r == Effect(1, composed.after))
      && (composed.value ==>
            r.after.trace == composed.after.trace + [Enable(name)]
              + (if Enable(name) in faults then [] else [Start(name)]))
      && (r.value == 0 <==> composed.value && Enable(name) !in faults && Start(name) !in faults)
      && (r.value == 0 || r.value == 1)
  {
    var composed := Compose(cfg, args, specs, faults, w);
    var name := ContainerName(args);
    var enabled := Apply(composed.after, faults, Enable(name));
    var started := Apply(enabled.after, faults, Start(name));
    var r := RunSpec(cfg, args, specs, faults, w);
    if composed.value {
      assert r == (if !enabled.value then Effect(1, enabled.after)
                   else Effect(if started.value then 0 else 1, started.after));
      assert enabled.value <==> Enable(name) !in faults;
      assert enabled.value ==> (started.value <==> Start(name) !in faults);
    }
  }

  /** The attach step of a run never removes what it did not replace and never
      undoes its own work: every entry it changed is a destination it
      snapshotted onto. */
  lemma {:induction false} AttachOnlyTouchesDestinations(home: string, cp: string, specs: seq<string>,
                                                         faults: set<Op>, w: World, p: string)
    requires p in w.entries
    requires forall i :: 0 <= i < |specs| ==> ParseAttach(specs[i]).Some? ==>
      p != Child(home, Child(cp, ParseAttach(specs[i]).value.dest))
    ensures var r := AttachAll(home, cp, specs, faults, w);
      p in r.after.entries && r.after.entries[p] == w.entries[p]
  {
    if specs != [] {
      var first := AttachOne(home, cp, specs[0], faults, w);
      assert p in first.after.entries && first.after.entries[p] == w.entries[p];
      if first.value {
        AttachOnlyTouchesDestinations(home, cp, specs[1..], faults, first.after, p);
      }
    }
  }
}
