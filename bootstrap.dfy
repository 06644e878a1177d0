/** The `bootstrap` command: create the image subvolume, build the image in it
    and attach the image to the bridge, stopping at the first failure and
    undoing nothing. */
module BootstrapWorkflow {
  import opened Machine
  import Nspawn

  /** The store path of an image, relative to the store root. */
  function ImagePath(image: string): (r: string)
    ensures |r| == |image| + 9 && r[..9] == "machines/" && r[9..] == image
  {
    "machines/" + image
  }

  /** The exit code of `bootstrap` and the host it leaves. */
  function BootstrapSpec(cfg: Config, args: seq<string>, faults: set<Op>, w: World): (r: Effect<int>)
    ensures r.value == 0 || r.value == 1
    ensures w.trace <= r.after.trace
    ensures |args| >= 1 ==> r.after.trace[|w.trace|..] <= Plan(cfg, args[0])
  {
    if |args| < 1 then Effect(1, w)
    else
      var image := args[0];
      var init := Apply(w, faults, FsInit(cfg.home));
      if !init.value then Effect(1, init.after)
      else
        var sub := Apply(init.after, faults, Subvolume(cfg.home, ImagePath(image)));
        if !sub.value then Effect(1, sub.after)
        else
          var created := Nspawn.CreateImageSpec(image, cfg.imagesPath, faults, sub.after);
          if created.value.Err? then Effect(1, created.after)
          else
            var net := Apply(created.after, faults, ClientNetwork(Child(cfg.imagesPath, image), cfg.destination));
            Effect(if net.value then 0 else 1, net.after)
  }

  /** runBootstrap. */
  method Bootstrap(host: Host, cfg: Config, args: seq<string>) returns (exit: int)
    modifies host
    ensures Effect(exit, host.State()) == BootstrapSpec(cfg, args, host.faults, old(host.State()))
  {
    if |args| < 1 {
      return 1;
    }
    var image := args[0];
    var imagePath := ImagePath(image);

    var ok := host.Perform(FsInit(cfg.home));
    if !ok {
      return 1;
    }
    ok := host.Perform(Subvolume(cfg.home, imagePath));
    if !ok {
      return 1;
    }
    var status := Nspawn.CreateImage(host, image, cfg.imagesPath);
    if status.Err? {
      return 1;
    }
    ok := host.Perform(ClientNetwork(Child(cfg.imagesPath, image), cfg.destination));
    if !ok {
      return 1;
    }
    return 0;
  }

  /** Every call bootstrap can make, in the order it makes them. */
  function Plan(cfg: Config, image: string): seq<Op>
  {
    [FsInit(cfg.home), Subvolume(cfg.home, ImagePath(image)),
     Nspawn.Pacstrap(Child(cfg.imagesPath, image))]
    + Nspawn.BaselineBuilds(Child(cfg.imagesPath, image))
    + [ClientNetwork(Child(cfg.imagesPath, image), cfg.destination)]
  }

  /** Without arguments the result is 1 and nothing is called. */
  lemma {:induction false} BootstrapWithoutArguments(cfg: Config, faults: set<Op>, w: World)
    ensures BootstrapSpec(cfg, [], faults, w) == Effect(1, w)
  {
  }

  /** The steps run strictly in the order Init, Subvolume at "machines/" +
      image, the image build in imagesPath + "/" + image, the network
      descriptor for imagesPath + "/" + image; the first failing step yields
      1 and nothing after it runs; nothing already done is undone, so a
      subvolume once created stays; the result is 0 exactly when all four
      steps succeed. */
  lemma {:induction false} BootstrapFailFast(cfg: Config, image: string, faults: set<Op>, w: World)
    ensures var r := BootstrapSpec(cfg, [image], faults, w);
      var plan := Plan(cfg, image);
      var volume := Child(cfg.home, "machines/" + image);
      var boot := Nspawn.Pacstrap(Child(cfg.imagesPath, image));
      var net := ClientNetwork(Child(cfg.imagesPath, image), cfg.destination);
      && (FsInit(cfg.home) in faults ==>
            r == Effect(1, World(w.entries, w.trace + plan[..1])))
      && (FsInit(cfg.home) !in faults && (volume in w.entries || Subvolume(cfg.home, "machines/" + image) in faults) ==>
            r == Effect(1, World(w.entries, w.trace + plan[..2])))
      && (FsInit(cfg.home) !in faults && volume !in w.entries && Subvolume(cfg.home, "machines/" + image) !in faults ==>
            && r.value == (if boot !in faults && net !in faults then 0 else 1)
            && r.after.trace == w.trace + (if boot in faults then plan[..3] else plan)
            && r.after.entries == w.entries[volume := Volume(volume)])
  {
    var plan := Plan(cfg, image);
    assert plan[..1] == [FsInit(cfg.home)];
    assert plan[..2] == [FsInit(cfg.home), Subvolume(cfg.home, ImagePath(image))];
    assert plan[..3] == [FsInit(cfg.home), Subvolume(cfg.home, ImagePath(image)),
                         Nspawn.Pacstrap(Child(cfg.imagesPath, image))];
  }

  /** The calls of any bootstrap are a prefix of the plan, and the result is
      always 0 or 1. */
  lemma {:induction false} BootstrapFollowsPlan(cfg: Config, image: string, faults: set<Op>, w: World)
    ensures var r := BootstrapSpec(cfg, [image], faults, w);
      && w.trace <= r.after.trace
      && r.after.trace[|w.trace|..] <= Plan(cfg, image)
      && (r.value == 0 ==> r.after.trace == w.trace + Plan(cfg, image))
      && (r.value == 0 || r.value == 1)
  {
    BootstrapFailFast(cfg, image, faults, w);
  }

  /** When the images directory is the "machines" directory of the store root,
      the image is built inside the subvolume bootstrap created. */
  lemma {:induction false} BuildsInCreatedSubvolume(cfg: Config, image: string)
    requires cfg.imagesPath == cfg.home + "/machines"
    ensures Child(cfg.home, ImagePath(image)) == Child(cfg.imagesPath, image)
  {
  }
}
