/** The container package: the process-wide supervisor unit and its template,
    the container handle, building a fresh image with the bootstrap tool and
    fetching a pre-built one. */
module Nspawn {
  import opened Machine

  const SYSTEMD_PATH := "/etc/systemd/system"

  /** The one unit file shared by every container instance. */
  const UNIT_PATH := Child(SYSTEMD_PATH, "conair@.service")

  /** Installing and removing address one fixed file. */
  lemma {:induction false} UnitPathFixed()
    ensures UNIT_PATH == "/etc/systemd/system/conair@.service"
  {
  }

  // ---------------------------------------------------------------------------
  // The unit template

  /** The two placeholders the unit template uses. */
  datatype Field = Bridge | Directory

  /** A template is literal text interleaved with placeholders. */
  datatype Piece = Lit(text: string) | Hole(field: Field)

  /** The values the unit template is executed with. */
  datatype Unit = Unit(bridge: string, directory: string)

  function Placeholder(f: Field): string
  {
    match f
    case Bridge => "{{.Bridge}}"
    case Directory => "{{.Directory}}"
  }

  function Value(f: Field, u: Unit): string
  {
    match f
    case Bridge => u.bridge
    case Directory => u.directory
  }

  /** A piece as written. */
  function Spelling(p: Piece): string
  {
    match p
    case Lit(s) => s
    case Hole(f) => Placeholder(f)
  }

  /** A piece executed. */
  function Filled(p: Piece, u: Unit): string
  {
    match p
    case Lit(s) => s
    case Hole(f) => Value(f, u)
  }

  /** The template as written, placeholders included. */
  function Source(t: seq<Piece>): string
  {
    if t == [] then "" else Spelling(t[0]) + Source(t[1..])
  }

  /** The template executed: every placeholder replaced by its value. */
  function Render(t: seq<Piece>, u: Unit): string
  {
    if t == [] then "" else Filled(t[0], u) + Render(t[1..], u)
  }

  /** How many times a placeholder occurs. */
  function Occurrences(t: seq<Piece>, f: Field): nat
  {
    if t == [] then 0 else (if t[0] == Hole(f) then 1 else 0) + Occurrences(t[1..], f)
  }

  const UNIT_HEAD := "[Unit]\nDescription=Container %i\nDocumentation=man:systemd-nspawn(1)\n\n[Service]\nExecStartPre=/usr/bin/sed -i \"s/REPLACE_ME/${MACHINE_ID}/\" "
  const UNIT_AFTER_SED := "/%i/etc/machine-id\nExecStartPre=/usr/bin/chmod -w "
  const UNIT_AFTER_CHMOD := "/%i/etc/machine-id\nExecStart=/usr/bin/systemd-nspawn --machine %i --uuid=${MACHINE_ID} --quiet --private-network --network-veth --network-bridge="
  const UNIT_AFTER_BRIDGE := " --keep-unit --boot --link-journal=guest --directory="
  const UNIT_TAIL := "/%i\nKillMode=mixed\nType=notify\n\n[Install]\nWantedBy=multi-user.target\n"

  /** Rendering changes nothing but the placeholders: executed with each
      placeholder as its own value, a template gives back its own text. */
  lemma {:induction false} RenderKeepsLiterals(t: seq<Piece>)
    ensures Render(t, Unit(Placeholder(Bridge), Placeholder(Directory))) == Source(t)
  {
    if t != [] {
      RenderKeepsLiterals(t[1..]);
    }
  }

  /** A template without placeholders executes to its own text, whatever the
      values. */
  lemma {:induction false} RenderWithoutPlaceholders(t: seq<Piece>, u: Unit)
    requires Occurrences(t, Bridge) == 0 && Occurrences(t, Directory) == 0
    ensures Render(t, u) == Source(t)
  {
    if t != [] {
      RenderWithoutPlaceholders(t[1..], u);
    }
  }

  /** Rendering reads only the fields the template mentions. */
  lemma {:induction false} RenderReadsOnlyUsedFields(t: seq<Piece>, u: Unit, v: Unit)
    requires Occurrences(t, Bridge) > 0 ==> u.bridge == v.bridge
    requires Occurrences(t, Directory) > 0 ==> u.directory == v.directory
    ensures Render(t, u) == Render(t, v)
  {
    if t != [] {
      RenderReadsOnlyUsedFields(t[1..], u, v);
    }
  }

  /** The unit template's shape: five literal parts around three directory
      placeholders and one bridge placeholder. */
  function UnitShape(head: string, afterSed: string, afterChmod: string, afterBridge: string,
                     tail: string): seq<Piece>
  {
    [Lit(head), Hole(Directory), Lit(afterSed), Hole(Directory), Lit(afterChmod), Hole(Bridge),
     Lit(afterBridge), Hole(Directory), Lit(tail)]
  }

  lemma {:induction false} RenderFirst(p: Piece, rest: seq<Piece>, u: Unit)
    ensures Render([p] + rest, u) == Filled(p, u) + Render(rest, u)
  {
    assert ([p] + rest)[0] == p;
    assert ([p] + rest)[1..] == rest;
  }

  lemma {:induction false} OccurrencesFirst(p: Piece, rest: seq<Piece>, f: Field)
    ensures Occurrences([p] + rest, f) == (if p == Hole(f) then 1 else 0) + Occurrences(rest, f)
  {
    assert ([p] + rest)[0] == p;
    assert ([p] + rest)[1..] == rest;
  }

  lemma {:induction false} UnitShapeRender(head: string, afterSed: string, afterChmod: string,
                                           afterBridge: string, tail: string, u: Unit)
    ensures Render(UnitShape(head, afterSed, afterChmod, afterBridge, tail), u) ==
      head + (u.directory + (afterSed + (u.directory + (afterChmod + (u.bridge + (afterBridge
      + (u.directory + tail)))))))
  {
    var t9: seq<Piece> := [];
    var t8 := [Lit(tail)] + t9;
    var t7 := [Hole(Directory)] + t8;
    var t6 := [Lit(afterBridge)] + t7;
    var t5 := [Hole(Bridge)] + t6;
    var t4 := [Lit(afterChmod)] + t5;
    var t3 := [Hole(Directory)] + t4;
    var t2 := [Lit(afterSed)] + t3;
    var t1 := [Hole(Directory)] + t2;
    assert UnitShape(head, afterSed, afterChmod, afterBridge, tail) == [Lit(head)] + t1;
    var d, b := u.directory, u.bridge;
    assert Render(t8, u) == tail by { RenderFirst(Lit(tail), t9, u); }
    assert Render(t7, u) == d + tail by { RenderFirst(Hole(Directory), t8, u); }
    assert Render(t6, u) == afterBridge + (d + tail) by { RenderFirst(Lit(afterBridge), t7, u); }
    assert Render(t5, u) == b + (afterBridge + (d + tail)) by { RenderFirst(Hole(Bridge), t6, u); }
    assert Render(t4, u) == afterChmod + (b + (afterBridge + (d + tail))) by {
      RenderFirst(Lit(afterChmod), t5, u);
    }
    assert Render(t3, u) == d + (afterChmod + (b + (afterBridge + (d + tail)))) by {
      RenderFirst(Hole(Directory), t4, u);
    }
    assert Render(t2, u) == afterSed + (d + (afterChmod + (b + (afterBridge + (d + tail))))) by {
      RenderFirst(Lit(afterSed), t3, u);
    }
    assert Render(t1, u) == d + (afterSed + (d + (afterChmod + (b + (afterBridge + (d + tail)))))) by {
      RenderFirst(Hole(Directory), t2, u);
    }
    RenderFirst(Lit(head), t1, u);
  }

  lemma {:induction false} UnitShapeFields(head: string, afterSed: string, afterChmod: string,
                                           afterBridge: string, tail: string)
    ensures Occurrences(UnitShape(head, afterSed, afterChmod, afterBridge, tail), Directory) == 3
    ensures Occurrences(UnitShape(head, afterSed, afterChmod, afterBridge, tail), Bridge) == 1
  {
    var t := UnitShape(head, afterSed, afterChmod, afterBridge, tail);
    forall f: Field
      ensures Occurrences(t, f) == (if f == Directory then 3 else 1)
    {
      var t9: seq<Piece> := [];
      var t8 := [Lit(tail)] + t9;
      var t7 := [Hole(Directory)] + t8;
      var t6 := [Lit(afterBridge)] + t7;
      var t5 := [Hole(Bridge)] + t6;
      var t4 := [Lit(afterChmod)] + t5;
      var t3 := [Hole(Directory)] + t4;
      var t2 := [Lit(afterSed)] + t3;
      var t1 := [Hole(Directory)] + t2;
      assert t == [Lit(head)] + t1;
      OccurrencesFirst(Lit(tail), t9, f);
      OccurrencesFirst(Hole(Directory), t8, f);
      OccurrencesFirst(Lit(afterBridge), t7, f);
      OccurrencesFirst(Hole(Bridge), t6, f);
      OccurrencesFirst(Lit(afterChmod), t5, f);
      OccurrencesFirst(Hole(Directory), t4, f);
      OccurrencesFirst(Lit(afterSed), t3, f);
      OccurrencesFirst(Hole(Directory), t2, f);
      OccurrencesFirst(Lit(head), t1, f);
    }
  }

  /** The unit template cut at its placeholders. */
  const UNIT_TEMPLATE := UnitShape(UNIT_HEAD, UNIT_AFTER_SED, UNIT_AFTER_CHMOD, UNIT_AFTER_BRIDGE, UNIT_TAIL)

  /** As written, the unit template is its five literal parts with the three
      directory placeholders and the bridge placeholder between them. */
  lemma {:induction false} UnitTemplateSource()
    ensures Source(UNIT_TEMPLATE) ==
      UNIT_HEAD + ("{{.Directory}}" + (UNIT_AFTER_SED + ("{{.Directory}}" + (UNIT_AFTER_CHMOD
      + ("{{.Bridge}}" + (UNIT_AFTER_BRIDGE + ("{{.Directory}}" + UNIT_TAIL)))))))
  {
    RenderKeepsLiterals(UNIT_TEMPLATE);
    UnitShapeRender(UNIT_HEAD, UNIT_AFTER_SED, UNIT_AFTER_CHMOD, UNIT_AFTER_BRIDGE, UNIT_TAIL,
                    Unit(Placeholder(Bridge), Placeholder(Directory)));
  }

  /** The directory placeholder occurs three times, the bridge placeholder once. */
  lemma {:induction false} UnitTemplateFields()
    ensures Occurrences(UNIT_TEMPLATE, Directory) == 3
    ensures Occurrences(UNIT_TEMPLATE, Bridge) == 1
  {
    UnitShapeFields(UNIT_HEAD, UNIT_AFTER_SED, UNIT_AFTER_CHMOD, UNIT_AFTER_BRIDGE, UNIT_TAIL);
  }

  /** The rendered unit: the literal text kept as written, the bridge after
      --network-bridge= and the container directory in front of each
      per-instance path. */
  lemma {:induction false} RenderedUnit(u: Unit)
    ensures Render(UNIT_TEMPLATE, u) ==
      UNIT_HEAD + (u.directory + (UNIT_AFTER_SED + (u.directory + (UNIT_AFTER_CHMOD
      + (u.bridge + (UNIT_AFTER_BRIDGE + (u.directory + UNIT_TAIL)))))))
  {
    UnitShapeRender(UNIT_HEAD, UNIT_AFTER_SED, UNIT_AFTER_CHMOD, UNIT_AFTER_BRIDGE, UNIT_TAIL, u);
  }

  /** The unit text CreateUnit writes. */
  function UnitText(bridge: string, containerPath: string): string
  {
    Render(UNIT_TEMPLATE, Unit(bridge, containerPath))
  }

  // ---------------------------------------------------------------------------
  // Installing and removing the unit

  /** Create (truncate) the unit file, then write the rendered template into it. */
  function InstallSteps(bridge: string, containerPath: string): seq<Op>
  {
    [CreateFile(UNIT_PATH), Write(UNIT_PATH, UnitText(bridge, containerPath))]
  }

  /** Install the unit, rendered for this bridge and container directory. The
      template is a constant that parses, so parsing it never fails here. */
  method CreateUnit(host: Host, bridge: string, containerPath: string) returns (status: Status)
    modifies host
    ensures Effect(status, host.State()) ==
      Pipeline(InstallSteps(bridge, containerPath), host.faults, old(host.State()))
  {
    var text := UnitText(bridge, containerPath);
    PipelineFirst(CreateFile(UNIT_PATH), [Write(UNIT_PATH, text)], host.faults, host.State());
    var ok := host.Perform(CreateFile(UNIT_PATH));
    if !ok {
      return Err(CreateFile(UNIT_PATH));
    }
    PipelineFirst(Write(UNIT_PATH, text), [], host.faults, host.State());
    ok := host.Perform(Write(UNIT_PATH, text));
    if !ok {
      return Err(Write(UNIT_PATH, text));
    }
    return Ok;
  }

  /** A successful install leaves the rendered unit at the unit path and
      nothing else changed; a failed one names the call that failed. */
  lemma {:induction false} CreateUnitOutcome(bridge: string, containerPath: string, faults: set<Op>, w: World)
    ensures var r := Pipeline(InstallSteps(bridge, containerPath), faults, w);
      && (r.value == Ok ==>
            r.after.entries == w.entries[UNIT_PATH := File(UnitText(bridge, containerPath))])
      && (r.value.Err? ==> r.value.failed in InstallSteps(bridge, containerPath))
      && (r.value.Err? && r.value.failed.CreateFile? ==> r.after.entries == w.entries)
  {
    var text := UnitText(bridge, containerPath);
    var created := Apply(w, faults, CreateFile(UNIT_PATH));
    var written := Apply(created.after, faults, Write(UNIT_PATH, text));
    var r := Pipeline(InstallSteps(bridge, containerPath), faults, w);
    assert r == (if created.value then Pipeline([Write(UNIT_PATH, text)], faults, created.after)
                 else Effect(Err(CreateFile(UNIT_PATH)), created.after)) by {
      PipelineFirst(CreateFile(UNIT_PATH), [Write(UNIT_PATH, text)], faults, w);
    }
    assert Pipeline([Write(UNIT_PATH, text)], faults, created.after) ==
      (if written.value then Effect(Ok, written.after) else Effect(Err(Write(UNIT_PATH, text)), written.after)) by {
      PipelineFirst(Write(UNIT_PATH, text), [], faults, created.after);
    }
    if created.value && written.value {
      assert created.after.entries == w.entries[UNIT_PATH := File("")];
      assert written.after.entries == created.after.entries[UNIT_PATH := File(text)];
    }
  }

  function RemoveSteps(): seq<Op>
  {
    [Remove(UNIT_PATH)]
  }

  /** Remove the installed unit. */
  method RemoveUnit(host: Host) returns (status: Status)
    modifies host
    ensures Effect(status, host.State()) == Pipeline(RemoveSteps(), host.faults, old(host.State()))
  {
    PipelineFirst(Remove(UNIT_PATH), [], host.faults, host.State());
    var ok := host.Perform(Remove(UNIT_PATH));
    if !ok {
      return Err(Remove(UNIT_PATH));
    }
    return Ok;
  }

  /** Removing an absent unit fails and disturbs nothing; removing a present one
      that the environment lets go deletes exactly the unit file. */
  lemma {:induction false} RemoveUnitOutcome(faults: set<Op>, w: World)
    ensures var r := Pipeline(RemoveSteps(), faults, w);
      && (UNIT_PATH !in w.entries ==>
            r.value == Err(Remove(UNIT_PATH)) && r.after.entries == w.entries)
      && (UNIT_PATH in w.entries && Remove(UNIT_PATH) !in faults ==>
            r.value == Ok && r.after.entries == w.entries - {UNIT_PATH})
  {
    PipelineFirst(Remove(UNIT_PATH), [], faults, w);
  }

  /** Install and remove address the same file: after both succeed, the host
      is as before except that no unit is installed. */
  lemma {:induction false} InstallThenRemove(bridge: string, containerPath: string, faults: set<Op>, w: World)
    requires Pipeline(InstallSteps(bridge, containerPath), faults, w).value == Ok
    requires Remove(UNIT_PATH) !in faults
    ensures var installed := Pipeline(InstallSteps(bridge, containerPath), faults, w);
      var removed := Pipeline(RemoveSteps(), faults, installed.after);
      removed.value == Ok && removed.after.entries == w.entries - {UNIT_PATH}
  {
    CreateUnitOutcome(bridge, containerPath, faults, w);
    RemoveUnitOutcome(faults, Pipeline(InstallSteps(bridge, containerPath), faults, w).after);
  }

  // ---------------------------------------------------------------------------
  // The container handle

  /** One container: its name (the unit instance), its root directory, and the
      bind and snapshot specs requested for it. */
  class Container {
    const name: string
    const path: string
    var binds: seq<string>
    var snapshots: seq<string>

    constructor (name: string, path: string)
      ensures this.name == name && this.path == path
      ensures binds == [] && snapshots == []
    {
      this.name := name;
      this.path := path;
      binds := [];
      snapshots := [];
    }

    /** Only recorded; binds are applied by the supervisor at start. */
    method SetBinds(binds: seq<string>)
      modifies this
      ensures this.binds == binds && snapshots == old(snapshots)
    {
      this.binds := binds;
    }

    method SetSnapshots(snapshots: seq<string>)
      modifies this
      ensures this.snapshots == snapshots && binds == old(binds)
    {
      this.snapshots := snapshots;
    }

    method Enable(host: Host) returns (ok: bool)
      modifies host
      ensures Effect(ok, host.State()) == Apply(old(host.State()), host.faults, Op.Enable(name))
    {
      ok := host.Perform(Op.Enable(name));
    }

    method Start(host: Host) returns (ok: bool)
      modifies host
      ensures Effect(ok, host.State()) == Apply(old(host.State()), host.faults, Op.Start(name))
    {
      ok := host.Perform(Op.Start(name));
    }

    method Build(host: Host, step: BuildStep) returns (ok: bool)
      modifies host
      ensures Effect(ok, host.State()) == Apply(old(host.State()), host.faults, Op.Build(path, step))
    {
      ok := host.Perform(Op.Build(path, step));
    }
  }

  // ---------------------------------------------------------------------------
  // Building an image

  /** The packages the bootstrap tool installs. */
  const PACKAGES := [
    "bash", "bzip2", "coreutils", "diffutils", "file", "filesystem", "findutils",
    "gawk", "gcc-libs", "gettext", "glibc", "grep", "gzip", "iproute2", "iputils",
    "less", "libutil-linux", "licenses", "logrotate", "nano", "pacman", "procps-ng",
    "psmisc", "sed", "shadow", "sysfsutils", "tar", "texinfo", "util-linux", "vi", "which"]

  /** The fixed environment of the bootstrap and archive tools. */
  const TOOL_ENV := [
    "TERM=vt102", "SHELL=/bin/bash", "USER=root", "LANG=C", "HOME=/root", "PWD=/root",
    "PATH=/usr/local/sbin:/usr/local/bin:/usr/bin:/usr/bin/core_perl"]

  /** The bootstrap tool run for a new root at dest, in the current directory. */
  function Pacstrap(dest: string): (r: Op)
    ensures r.Exec? && r.program == "pacstrap" && r.dir == "" && r.env == TOOL_ENV
    ensures |r.args| == 34 && r.args[..3] == ["-c", "-d", dest] && r.args[3..] == PACKAGES
  {
    Exec("pacstrap", ["-c", "-d", dest] + PACKAGES, TOOL_ENV, "")
  }

  /** The three baseline build steps, in order. */
  const BASELINE_STEPS := [
    EnableServices("systemd-networkd systemd-resolved"),
    RunCommand("rm -f /etc/resolv.conf"),
    RunCommand("ln -sf /run/systemd/resolve/resolv.conf /etc/resolv.conf")]

  function BaselineBuilds(directory: string): seq<Op>
  {
    [Op.Build(directory, BASELINE_STEPS[0]), Op.Build(directory, BASELINE_STEPS[1]),
     Op.Build(directory, BASELINE_STEPS[2])]
  }

  /** Operations whose outcomes nobody looks at, run one after another. */
  function Unchecked(ops: seq<Op>, faults: set<Op>, w: World): (r: World)
    ensures r.trace == w.trace + ops
    ensures (forall i :: 0 <= i < |ops| ==> ops[i].Build?) ==> r.entries == w.entries
  {
    if ops == [] then w
    else
      var r := Unchecked(ops[1..], faults, Apply(w, faults, ops[0]).after);
      assert [ops[0]] + ops[1..] == ops;
      r
  }

  /** Image creation: run the bootstrap tool for path/name; if it fails, return
      its failure; otherwise run the baseline build steps in that root and
      succeed whatever they return. */
  function CreateImageSpec(name: string, path: string, faults: set<Op>, w: World): (r: Effect<Status>)
    ensures r.value.Err? ==> r.value.failed == Pacstrap(Child(path, name))
    ensures w.trace <= r.after.trace
    ensures r.after.trace[|w.trace|..] <= [Pacstrap(Child(path, name))] + BaselineBuilds(Child(path, name))
  {
    var boot := Apply(w, faults, Pacstrap(Child(path, name)));
    if !boot.value then Effect(Err(Pacstrap(Child(path, name))), boot.after)
    else Effect(Ok, Unchecked(BaselineBuilds(Child(path, name)), faults, boot.after))
  }

  method CreateImage(host: Host, name: string, path: string) returns (status: Status)
    modifies host
    ensures Effect(status, host.State()) == CreateImageSpec(name, path, host.faults, old(host.State()))
  {
    var bootstrap := Pacstrap(Child(path, name));
    var ok := host.Perform(bootstrap);
    if !ok {
      return Err(bootstrap);
    }
    var c := new Container(name, Child(path, name));
    var _ := c.Build(host, BASELINE_STEPS[0]);
    var _ := c.Build(host, BASELINE_STEPS[1]);
    var _ := c.Build(host, BASELINE_STEPS[2]);
    assert BaselineBuilds(Child(path, name))[1..][1..][1..] == [];
    return Ok;
  }

  /** A failed bootstrap is the result, and no build step runs. */
  lemma {:induction false} CreateImageBootstrapFails(name: string, path: string, faults: set<Op>, w: World)
    requires !Succeeds(w, faults, Pacstrap(Child(path, name)))
    ensures CreateImageSpec(name, path, faults, w) ==
      Effect(Err(Pacstrap(Child(path, name))), World(w.entries, w.trace + [Pacstrap(Child(path, name))]))
  {
  }

  /** After a successful bootstrap exactly the three baseline steps run, in
      order, in path/name, and the result is success whatever they return. */
  lemma {:induction false} CreateImageBuilds(name: string, path: string, faults: set<Op>, w: World)
    requires Succeeds(w, faults, Pacstrap(Child(path, name)))
    ensures var r := CreateImageSpec(name, path, faults, w);
      && r.value == Ok
      && r.after.trace == w.trace + [Pacstrap(Child(path, name))] + BaselineBuilds(Child(path, name))
      && r.after.entries == w.entries
  {
  }

  // ---------------------------------------------------------------------------
  // Fetching a pre-built image

  /** Where the archive of image is written under path. */
  function ArchivePath(image: string, path: string): (r: string)
    ensures r == path + "/" + image + ".tar.bz2"
    ensures r[..|path| + 1] == path + "/" && r[|r| - 8..] == ".tar.bz2"
  {
    Child(path, image + ".tar.bz2")
  }

  /** Where the archive of image is downloaded from. */
  function ArchiveUrl(image: string, url: string): (r: string)
    ensures r == url + "/" + image + ".tar.bz2"
    ensures r[..|url| + 1] == url + "/" && r[|r| - 8..] == ".tar.bz2"
  {
    Child(url, image + ".tar.bz2")
  }

  /** tar unpacks the downloaded archive inside path/newImage. */
  function Extract(image: string, newImage: string, path: string): (r: Op)
    ensures r == Exec("tar", ["xjf", path + "/" + image + ".tar.bz2"], TOOL_ENV, path + "/" + newImage)
  {
    Exec("tar", ["xjf", ArchivePath(image, path)], TOOL_ENV, Child(path, newImage))
  }

  /** Create the archive file, download, stream the body into it, extract it
      in path/newImage, delete the archive. */
  function FetchSteps(image: string, newImage: string, url: string, path: string): seq<Op>
  {
    [CreateFile(ArchivePath(image, path)),
     HttpGet(ArchiveUrl(image, url)),
     Copy(ArchiveUrl(image, url), ArchivePath(image, path)),
     Extract(image, newImage, path),
     Remove(ArchivePath(image, path))]
  }

  /** The archive goes to path + "/" + image + ".tar.bz2", is downloaded from
      url + "/" + image + ".tar.bz2", and is extracted by tar in
      path + "/" + newImage, with the fixed tool environment. */
  lemma {:induction false} FetchTargets(image: string, newImage: string, url: string, path: string)
    ensures var tar := path + "/" + image + ".tar.bz2";
      var source := url + "/" + image + ".tar.bz2";
      FetchSteps(image, newImage, url, path) ==
        [CreateFile(tar), HttpGet(source), Copy(source, tar),
         Exec("tar", ["xjf", tar], TOOL_ENV, path + "/" + newImage), Remove(tar)]
  {
  }

  method FetchImage(host: Host, image: string, newImage: string, url: string, path: string)
    returns (status: Status)
    modifies host
    ensures Effect(status, host.State()) ==
      Pipeline(FetchSteps(image, newImage, url, path), host.faults, old(host.State()))
  {
    var tarFile := ArchivePath(image, path);
    var source := ArchiveUrl(image, url);
    var extract := Extract(image, newImage, path);
    ghost var rest := FetchSteps(image, newImage, url, path)[1..];
    PipelineFirst(CreateFile(tarFile), rest, host.faults, host.State());
    var ok := host.Perform(CreateFile(tarFile));
    if !ok {
      return Err(CreateFile(tarFile));
    }
    PipelineFirst(HttpGet(source), rest[1..], host.faults, host.State());
    ok := host.Perform(HttpGet(source));
    if !ok {
      return Err(HttpGet(source));
    }
    rest := rest[1..];
    PipelineFirst(Copy(source, tarFile), rest[1..], host.faults, host.State());
    ok := host.Perform(Copy(source, tarFile));
    if !ok {
      return Err(Copy(source, tarFile));
    }
    rest := rest[1..];
    PipelineFirst(extract, rest[1..], host.faults, host.State());
    ok := host.Perform(extract);
    if !ok {
      return Err(extract);
    }
    rest := rest[1..];
    PipelineFirst(Remove(tarFile), [], host.faults, host.State());
    ok := host.Perform(Remove(tarFile));
    if !ok {
      return Err(Remove(tarFile));
    }
    return Ok;
  }

  /** The archive is deleted only after the extraction succeeded: whenever the
      removal is attempted, the four steps before it all succeeded. */
  lemma {:induction false} FetchRemovesArchiveOnlyAfterExtraction(image: string, newImage: string, url: string,
                                               path: string, faults: set<Op>, w: World)
    ensures var steps := FetchSteps(image, newImage, url, path);
      Remove(ArchivePath(image, path)) in Pipeline(steps, faults, w).after.trace[|w.trace|..] ==>
        Pipeline(steps[..4], faults, w).value == Ok
  {
    var steps := FetchSteps(image, newImage, url, path);
    var r := Pipeline(steps, faults, w);
    var pre := Pipeline(steps[..4], faults, w);
    assert steps == steps[..4] + steps[4..];
    PipelineConcat(steps[..4], steps[4..], faults, w);
    if pre.value != Ok {
      var t := r.after.trace[|w.trace|..];
      assert t <= steps[..4];
      forall i | 0 <= i < |t| ensures t[i] != Remove(ArchivePath(image, path)) {
        assert t[i] == steps[i];
      }
    }
  }

  /** When extraction fails, its failure is the result, nothing later runs, and
      the downloaded archive stays on disk. */
  lemma {:induction false} FetchExtractionFails(image: string, newImage: string, url: string, path: string,
                             faults: set<Op>, w: World)
    requires Pipeline(FetchSteps(image, newImage, url, path)[..3], faults, w).value == Ok
    requires Extract(image, newImage, path) in faults
    ensures var steps := FetchSteps(image, newImage, url, path);
      var r := Pipeline(steps, faults, w);
      && r.value == Err(Extract(image, newImage, path))
      && r.after.trace == w.trace + steps[..4]
      && ArchivePath(image, path) in r.after.entries
      && r.after.entries[ArchivePath(image, path)] == Archive(ArchiveUrl(image, url))
  {
    var tar, source := ArchivePath(image, path), ArchiveUrl(image, url);
    var create, get, copy := CreateFile(tar), HttpGet(source), Copy(source, tar);
    var extract, remove := Extract(image, newImage, path), Remove(tar);
    var steps := FetchSteps(image, newImage, url, path);
    var w1 := Apply(w, faults, create);
    var w2 := Apply(w1.after, faults, get);
    var w3 := Apply(w2.after, faults, copy);
    var w4 := Apply(w3.after, faults, extract);
    assert w1.value && w2.value && w3.value by {
      assert steps[..3] == [create] + ([get] + [copy]);
      PipelineFirst(create, [get] + [copy], faults, w);
      PipelineFirst(get, [copy], faults, w1.after);
      PipelineFirst(copy, [], faults, w2.after);
    }
    assert Pipeline(steps, faults, w) == Effect(Err(extract), w4.after) by {
      assert steps == [create] + ([get] + ([copy] + ([extract] + [remove])));
      PipelineFirst(create, [get] + ([copy] + ([extract] + [remove])), faults, w);
      PipelineFirst(get, [copy] + ([extract] + [remove]), faults, w1.after);
      PipelineFirst(copy, [extract] + [remove], faults, w2.after);
      PipelineFirst(extract, [remove], faults, w3.after);
    }
    assert w4.after.trace == w.trace + steps[..4] by {
      assert steps[..4] == [create, get, copy, extract];
    }
    assert w4.after.entries == w3.after.entries by {
      assert !w4.value;
    }
    assert w3.after.entries == w2.after.entries[tar := Archive(source)] by {
      assert w3.value;
    }
  }

  /** A successful fetch runs every step in order and leaves no archive behind. */
  lemma {:induction false} FetchSucceeds(image: string, newImage: string, url: string, path: string,
                      faults: set<Op>, w: World)
    requires Pipeline(FetchSteps(image, newImage, url, path), faults, w).value == Ok
    ensures var r := Pipeline(FetchSteps(image, newImage, url, path), faults, w);
      && r.after.trace == w.trace + FetchSteps(image, newImage, url, path)
      && ArchivePath(image, path) !in r.after.entries
  {
    var steps := FetchSteps(image, newImage, url, path);
    assert steps == steps[..4] + [steps[4]];
    PipelineConcat(steps[..4], [steps[4]], faults, w);
  }
}
