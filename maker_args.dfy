/**
  The argument list that `MakerClowdSquirrel.make` hands to `Squirrel.exe`.

  `make` first destructures the maker configuration with defaults
  (`Resolve`) and then grows an array that starts as `['pack']` by one
  `args.push` per option, in a fixed order: the releasify options
  `--baseUrl`, `--addSearchPath`, `--debugSetupExe` (pushed twice),
  `--noDelta`, `--framework`, `--splashImage`, `--icon`, one `--mainExe`
  per executable, `--appIcon`, `--msi`, and then the five pack pairs
  `--packId`, `--packDir`, `--packVersion`, `--packTitle`, `--packAuthors`.

  `BuildArgs` is that sequence of pushes. `PackArgs` specifies its result
  through `Options`, the option list built one push site (`Slot`) at a time;
  the lemmas below say what that list holds for every flag, that it is in
  push order, that these two facts determine it, and that the token list
  reads back as that option list. `Make` adds the command and the package
  version `make` derives with `convertVersion`.
*/
module MakerArgs {
  import opened Wrappers
  import opened CommandLine
  import opened Version

  /** The external tool `make` runs. */
  const SquirrelCommand: string := "Squirrel.exe"

  /**
    The maker configuration as the caller writes it: every optional field
    may be unset (`None`). `includePdb`, `releaseNotes`, `signParams` and
    `signTemplate` are part of the configuration but never reach the
    command line.
  */
  datatype Config = Config(
    baseUrl: Option<string>,
    addSearchPath: Option<string>,
    debugSetupExe: Option<string>,
    noDelta: Option<string>,
    framework: Option<string>,
    splashImage: Option<string>,
    icon: Option<string>,
    mainExes: Option<seq<string>>,
    appIcon: Option<string>,
    msi: Option<string>,
    packId: Option<string>,
    packDir: Option<string>,
    packVersion: Option<string>,
    packTitle: Option<string>,
    packAuthors: Option<string>,
    includePdb: Option<bool>,
    releaseNotes: Option<string>,
    signParams: string,
    signTemplate: string)

  /**
    What the host build passes to `make`: the package manifest's `name`,
    `version` and `author`, the packaged application directory `dir`, the
    packager's `executableName` (may be unset) and the `appName`.
  */
  datatype Host = Host(
    name: string,
    version: string,
    author: string,
    dir: string,
    executableName: Option<string>,
    appName: string)

  /** JavaScript truthiness of an optional string: set and not empty. */
  predicate Truthy(v: Option<string>)
  {
    v.Some? && v.value != ""
  }

  /** `${executableName || appName}.exe` */
  function DefaultExe(host: Host): (exe: string)
    ensures |exe| >= 4 && exe[|exe| - 4..] == ".exe"
  {
    (if Truthy(host.executableName) then host.executableName.value else host.appName) + ".exe"
  }

  /**
    The configuration after destructuring with defaults. A default replaces
    only an unset field (an empty string stays). `noDelta` is the
    truthiness of the destructured value, whose default is `true`.
  */
  datatype Settings = Settings(
    baseUrl: Option<string>,
    addSearchPath: Option<string>,
    debugSetupExe: Option<string>,
    noDelta: bool,
    framework: Option<string>,
    splashImage: Option<string>,
    icon: Option<string>,
    mainExes: seq<string>,
    appIcon: Option<string>,
    msi: Option<string>,
    packId: string,
    packDir: string,
    packVersion: string,
    packTitle: string,
    packAuthors: string)

  /** The destructuring of `this.config` at the start of `make`, defaults included. */
  function Resolve(cfg: Config, host: Host): Settings
  {
    var packId := cfg.packId.GetOr(host.name);
    Settings(
      cfg.baseUrl,
      cfg.addSearchPath,
      cfg.debugSetupExe,
      match cfg.noDelta case None => true case Some(v) => v != "",
      cfg.framework,
      cfg.splashImage,
      cfg.icon,
      cfg.mainExes.GetOr([DefaultExe(host)]),
      cfg.appIcon,
      cfg.msi,
      packId,
      cfg.packDir.GetOr(host.dir),
      cfg.packVersion.GetOr(host.version),
      cfg.packTitle.GetOr(packId),
      cfg.packAuthors.GetOr(host.author))
  }

  // ---------------------------------------------------------------------
  // The option list, one push site at a time

  /** The number of push sites, counting the two `--debugSetupExe` pushes as one. */
  const SlotCount: nat := 15

  /** The position of a flag's push site in `make`. */
  function Slot(f: Flag): (k: nat)
    ensures k < SlotCount
  {
    match f
    case BaseUrl => 0
    case AddSearchPath => 1
    case DebugSetupExe => 2
    case NoDelta => 3
    case Framework => 4
    case SplashImage => 5
    case Icon => 6
    case MainExe => 7
    case AppIcon => 8
    case Msi => 9
    case PackId => 10
    case PackDir => 11
    case PackVersion => 12
    case PackTitle => 13
    case PackAuthors => 14
  }

  /** The flag pushed at site `k`. */
  function SlotFlag(k: nat): (f: Flag)
    requires k < SlotCount
    ensures Slot(f) == k
  {
    if k == 0 then BaseUrl
    else if k == 1 then AddSearchPath
    else if k == 2 then DebugSetupExe
    else if k == 3 then NoDelta
    else if k == 4 then Framework
    else if k == 5 then SplashImage
    else if k == 6 then Icon
    else if k == 7 then MainExe
    else if k == 8 then AppIcon
    else if k == 9 then Msi
    else if k == 10 then PackId
    else if k == 11 then PackDir
    else if k == 12 then PackVersion
    else if k == 13 then PackTitle
    else PackAuthors
  }

  /** `if (v) args.push(flag, v)` */
  function Optional(f: Flag, v: Option<string>): seq<Opt>
  {
    if Truthy(v) then [Pair(f, v.value)] else []
  }

  /** `if (noDelta) args.push('--noDelta')` */
  function NoDeltaOpts(on: bool): seq<Opt>
  {
    if on then [Lone(NoDelta)] else []
  }

  /** `exes.forEach((exe) => args.push('--mainExe', exe))` */
  function MainExeOpts(exes: seq<string>): seq<Opt>
  {
    seq(|exes|, k requires 0 <= k < |exes| => Pair(MainExe, exes[k]))
  }

  /** What the push site of flag `f` contributes. */
  function Segment(s: Settings, f: Flag): seq<Opt>
  {
    match f
    case BaseUrl => Optional(BaseUrl, s.baseUrl)
    case AddSearchPath => Optional(AddSearchPath, s.addSearchPath)
    case DebugSetupExe => Optional(DebugSetupExe, s.debugSetupExe) + Optional(DebugSetupExe, s.debugSetupExe)
    case NoDelta => NoDeltaOpts(s.noDelta)
    case Framework => Optional(Framework, s.framework)
    case SplashImage => Optional(SplashImage, s.splashImage)
    case Icon => Optional(Icon, s.icon)
    case MainExe => MainExeOpts(s.mainExes)
    case AppIcon => Optional(AppIcon, s.appIcon)
    case Msi => Optional(Msi, s.msi)
    case PackId => [Pair(PackId, s.packId)]
    case PackDir => [Pair(PackDir, s.packDir)]
    case PackVersion => [Pair(PackVersion, s.packVersion)]
    case PackTitle => [Pair(PackTitle, s.packTitle)]
    case PackAuthors => [Pair(PackAuthors, s.packAuthors)]
  }

  /** The options pushed by the first `k` push sites. */
  function OptionsUpTo(s: Settings, k: nat): seq<Opt>
    requires k <= SlotCount
  {
    if k == 0 then [] else OptionsUpTo(s, k - 1) + Segment(s, SlotFlag(k - 1))
  }

  /** All options `make` pushes after `pack`. */
  function Options(s: Settings): seq<Opt>
  {
    OptionsUpTo(s, SlotCount)
  }

  /** The argument list passed to `Squirrel.exe`. */
  function PackArgs(cfg: Config, host: Host): seq<string>
  {
    ["pack"] + Flatten(Options(Resolve(cfg, host)))
  }

  // ---------------------------------------------------------------------
  // The builder

  /** The `args` construction of `make`: `['pack']` and then one push per option. */
  method BuildArgs(cfg: Config, host: Host) returns (args: seq<string>)
    ensures args == PackArgs(cfg, host)
  {
    var s := Resolve(cfg, host);
    args := ["pack"];
    // the options pushed so far, as the proof sees them
    ghost var opts: seq<Opt> := [];

    // releasify args
    args := PushIfTruthy(args, opts, BaseUrl, s.baseUrl);
    opts := opts + Optional(BaseUrl, s.baseUrl);
    args := PushIfTruthy(args, opts, AddSearchPath, s.addSearchPath);
    opts := opts + Optional(AddSearchPath, s.addSearchPath);
    args := PushIfTruthy(args, opts, DebugSetupExe, s.debugSetupExe);
    opts := opts + Optional(DebugSetupExe, s.debugSetupExe);
    args := PushIfTruthy(args, opts, DebugSetupExe, s.debugSetupExe);
    opts := opts + Optional(DebugSetupExe, s.debugSetupExe);
    args := PushNoDelta(args, opts, s.noDelta);
    opts := opts + NoDeltaOpts(s.noDelta);
    args := PushIfTruthy(args, opts, Framework, s.framework);
    opts := opts + Optional(Framework, s.framework);
    args := PushIfTruthy(args, opts, SplashImage, s.splashImage);
    opts := opts + Optional(SplashImage, s.splashImage);
    args := PushIfTruthy(args, opts, Icon, s.icon);
    opts := opts + Optional(Icon, s.icon);
    args := PushMainExes(args, opts, s.mainExes);
    opts := opts + MainExeOpts(s.mainExes);
    args := PushIfTruthy(args, opts, AppIcon, s.appIcon);
    opts := opts + Optional(AppIcon, s.appIcon);
    args := PushIfTruthy(args, opts, Msi, s.msi);
    opts := opts + Optional(Msi, s.msi);

    // pack args
    args := PushPair(args, opts, PackId, s.packId);
    opts := opts + [Pair(PackId, s.packId)];
    args := PushPair(args, opts, PackDir, s.packDir);
    opts := opts + [Pair(PackDir, s.packDir)];
    args := PushPair(args, opts, PackVersion, s.packVersion);
    opts := opts + [Pair(PackVersion, s.packVersion)];
    args := PushPair(args, opts, PackTitle, s.packTitle);
    opts := opts + [Pair(PackTitle, s.packTitle)];
    args := PushPair(args, opts, PackAuthors, s.packAuthors);
    opts := opts + [Pair(PackAuthors, s.packAuthors)];
    OptionsInPushOrder(s);
  }

  /** `if (v) args.push(flag, v)`: the flag and its value, only when the value is truthy. */
  method PushIfTruthy(args: seq<string>, ghost opts: seq<Opt>, f: Flag, v: Option<string>) returns (r: seq<string>)
    requires args == ["pack"] + Flatten(opts)
    ensures r == ["pack"] + Flatten(opts + Optional(f, v))
    ensures Truthy(v) ==> r == args + [Token(f), v.value]
    ensures !Truthy(v) ==> r == args
  {
    r := args;
    if Truthy(v) {
      r := r + [Token(f), v.value];
    }
    FlattenAppend(opts, Optional(f, v));
  }

  /** `exes.forEach((exe) => args.push('--mainExe', exe))` */
  method PushMainExes(args: seq<string>, ghost opts: seq<Opt>, exes: seq<string>) returns (r: seq<string>)
    requires args == ["pack"] + Flatten(opts)
    ensures r == ["pack"] + Flatten(opts + MainExeOpts(exes))
  {
    r := args;
    assert opts + MainExeOpts(exes[..0]) == opts;
    for i := 0 to |exes|
      invariant r == ["pack"] + Flatten(opts + MainExeOpts(exes[..i]))
    {
      r := PushPair(r, opts + MainExeOpts(exes[..i]), MainExe, exes[i]);
      MainExeOptsSnoc(opts, exes, i);
    }
    assert exes[..|exes|] == exes;
  }

  /** `args.push(flag, v)` */
  method PushPair(args: seq<string>, ghost opts: seq<Opt>, f: Flag, v: string) returns (r: seq<string>)
    requires args == ["pack"] + Flatten(opts)
    ensures r == ["pack"] + Flatten(opts + [Pair(f, v)])
    ensures r == args + [Token(f), v]
  {
    r := args + [Token(f), v];
    FlattenAppend(opts, [Pair(f, v)]);
  }

  /** `if (noDelta) args.push('--noDelta')` */
  method PushNoDelta(args: seq<string>, ghost opts: seq<Opt>, on: bool) returns (r: seq<string>)
    requires args == ["pack"] + Flatten(opts)
    ensures r == ["pack"] + Flatten(opts + NoDeltaOpts(on))
    ensures on ==> r == args + [Token(NoDelta)]
    ensures !on ==> r == args
  {
    r := args;
    if on {
      r := r + [Token(NoDelta)];
    }
    FlattenAppend(opts, NoDeltaOpts(on));
  }

  // ---------------------------------------------------------------------
  // Steps of the builder's proof

  /** The option list is the push sites' contributions one after the other. */
  lemma OptionsInPushOrder(s: Settings)
    ensures Options(s) ==
      [] + Optional(BaseUrl, s.baseUrl) + Optional(AddSearchPath, s.addSearchPath)
      + Optional(DebugSetupExe, s.debugSetupExe) + Optional(DebugSetupExe, s.debugSetupExe)
      + NoDeltaOpts(s.noDelta) + Optional(Framework, s.framework)
      + Optional(SplashImage, s.splashImage) + Optional(Icon, s.icon)
      + MainExeOpts(s.mainExes) + Optional(AppIcon, s.appIcon) + Optional(Msi, s.msi)
      + [Pair(PackId, s.packId)] + [Pair(PackDir, s.packDir)] + [Pair(PackVersion, s.packVersion)]
      + [Pair(PackTitle, s.packTitle)] + [Pair(PackAuthors, s.packAuthors)]
  {
    var d := Optional(DebugSetupExe, s.debugSetupExe);
    assert OptionsUpTo(s, 1) == [] + Optional(BaseUrl, s.baseUrl);
    assert OptionsUpTo(s, 2) == OptionsUpTo(s, 1) + Optional(AddSearchPath, s.addSearchPath);
    assert OptionsUpTo(s, 3) == OptionsUpTo(s, 2) + d + d;
    assert OptionsUpTo(s, 4) == OptionsUpTo(s, 3) + NoDeltaOpts(s.noDelta);
    assert OptionsUpTo(s, 5) == OptionsUpTo(s, 4) + Optional(Framework, s.framework);
    assert OptionsUpTo(s, 6) == OptionsUpTo(s, 5) + Optional(SplashImage, s.splashImage);
    assert OptionsUpTo(s, 7) == OptionsUpTo(s, 6) + Optional(Icon, s.icon);
    assert OptionsUpTo(s, 8) == OptionsUpTo(s, 7) + MainExeOpts(s.mainExes);
    assert OptionsUpTo(s, 9) == OptionsUpTo(s, 8) + Optional(AppIcon, s.appIcon);
    assert OptionsUpTo(s, 10) == OptionsUpTo(s, 9) + Optional(Msi, s.msi);
    assert OptionsUpTo(s, 11) == OptionsUpTo(s, 10) + [Pair(PackId, s.packId)];
    assert OptionsUpTo(s, 12) == OptionsUpTo(s, 11) + [Pair(PackDir, s.packDir)];
    assert OptionsUpTo(s, 13) == OptionsUpTo(s, 12) + [Pair(PackVersion, s.packVersion)];
    assert OptionsUpTo(s, 14) == OptionsUpTo(s, 13) + [Pair(PackTitle, s.packTitle)];
  }

  /** One more executable adds one more `--mainExe` pair at the end. */
  lemma MainExeOptsSnoc(before: seq<Opt>, exes: seq<string>, i: nat)
    requires i < |exes|
    ensures before + MainExeOpts(exes[..i]) + [Pair(MainExe, exes[i])] == before + MainExeOpts(exes[..i + 1])
  {
    assert MainExeOpts(exes[..i + 1]) == MainExeOpts(exes[..i]) + [Pair(MainExe, exes[i])];
  }

  // ---------------------------------------------------------------------
  // What the option list holds

  /** Reading a push site back from its flag gives the same site. */
  lemma SlotFlagOfSlot(f: Flag)
    ensures SlotFlag(Slot(f)) == f
  {
    match f
    case BaseUrl =>
    case AddSearchPath =>
    case DebugSetupExe =>
    case NoDelta =>
    case Framework =>
    case SplashImage =>
    case Icon =>
    case MainExe =>
    case AppIcon =>
    case Msi =>
    case PackId =>
    case PackDir =>
    case PackVersion =>
    case PackTitle =>
    case PackAuthors =>
  }

  /** A push site only pushes its own flag, and always in the right form. */
  lemma SegmentShape(s: Settings, f: Flag)
    ensures forall k :: 0 <= k < |Segment(s, f)| ==> Segment(s, f)[k].flag == f
    ensures WellFormed(Segment(s, f))
  {
  }

  /**
    The first `k` push sites contribute, for flag `f`, exactly what the
    site of `f` pushes if it is among them, and nothing otherwise.
  */
  lemma {:induction false} OccurrencesUpTo(s: Settings, k: nat, f: Flag)
    requires k <= SlotCount
    ensures Occurrences(OptionsUpTo(s, k), f) == if Slot(f) < k then Segment(s, f) else []
  {
    if k > 0 {
      var g := SlotFlag(k - 1);
      var prev, seg := OptionsUpTo(s, k - 1), Segment(s, g);
      assert OptionsUpTo(s, k) == prev + seg;
      OccurrencesUpTo(s, k - 1, f);
      OccurrencesAppend(prev, seg, f);
      SegmentShape(s, g);
      OccurrencesOfUniform(seg, g, f);
      SlotFlagOfSlot(f);
      assert Slot(f) == k - 1 <==> f == g;
    }
  }

  /** Every flag's options in the argument list are exactly what its push site pushes. */
  lemma OccurrencesOfOptions(s: Settings, f: Flag)
    ensures Occurrences(Options(s), f) == Segment(s, f)
  {
    OccurrencesUpTo(s, SlotCount, f);
  }

  /**
    The releasify options, stated on the configuration: an optional value
    appears once when it is truthy and never otherwise, `--debugSetupExe`
    twice, `--noDelta` unless it is set to the empty string, and one
    `--mainExe` per configured executable, or the default executable alone.
  */
  lemma ReleasifyOptions(cfg: Config, host: Host)
    ensures var opts := Options(Resolve(cfg, host));
      && Occurrences(opts, BaseUrl) == Optional(BaseUrl, cfg.baseUrl)
      && Occurrences(opts, AddSearchPath) == Optional(AddSearchPath, cfg.addSearchPath)
      && Occurrences(opts, DebugSetupExe) == Optional(DebugSetupExe, cfg.debugSetupExe) + Optional(DebugSetupExe, cfg.debugSetupExe)
      && Occurrences(opts, NoDelta) == (if cfg.noDelta.None? || cfg.noDelta.value != "" then [Lone(NoDelta)] else [])
      && Occurrences(opts, Framework) == Optional(Framework, cfg.framework)
      && Occurrences(opts, SplashImage) == Optional(SplashImage, cfg.splashImage)
      && Occurrences(opts, Icon) == Optional(Icon, cfg.icon)
      && Occurrences(opts, MainExe) == MainExeOpts(if cfg.mainExes.Some? then cfg.mainExes.value else [DefaultExe(host)])
      && Occurrences(opts, AppIcon) == Optional(AppIcon, cfg.appIcon)
      && Occurrences(opts, Msi) == Optional(Msi, cfg.msi)
  {
    var s := Resolve(cfg, host);
    OccurrencesOfOptions(s, BaseUrl);
    OccurrencesOfOptions(s, AddSearchPath);
    OccurrencesOfOptions(s, DebugSetupExe);
    OccurrencesOfOptions(s, NoDelta);
    OccurrencesOfOptions(s, Framework);
    OccurrencesOfOptions(s, SplashImage);
    OccurrencesOfOptions(s, Icon);
    OccurrencesOfOptions(s, MainExe);
    OccurrencesOfOptions(s, AppIcon);
    OccurrencesOfOptions(s, Msi);
  }

  /**
    The pack options, stated on the configuration: each appears exactly
    once, even when its value is empty. Unset, the id is the package name,
    the directory the packaged app's, the version the package version as
    it is (not converted), the title the id, and the authors the package
    author.
  */
  lemma PackOptions(cfg: Config, host: Host)
    ensures var opts := Options(Resolve(cfg, host));
      var id := if cfg.packId.Some? then cfg.packId.value else host.name;
      && Occurrences(opts, PackId) == [Pair(PackId, id)]
      && Occurrences(opts, PackDir) == [Pair(PackDir, if cfg.packDir.Some? then cfg.packDir.value else host.dir)]
      && Occurrences(opts, PackVersion) == [Pair(PackVersion, if cfg.packVersion.Some? then cfg.packVersion.value else host.version)]
      && Occurrences(opts, PackTitle) == [Pair(PackTitle, if cfg.packTitle.Some? then cfg.packTitle.value else id)]
      && Occurrences(opts, PackAuthors) == [Pair(PackAuthors, if cfg.packAuthors.Some? then cfg.packAuthors.value else host.author)]
  {
    var s := Resolve(cfg, host);
    OccurrencesOfOptions(s, PackId);
    OccurrencesOfOptions(s, PackDir);
    OccurrencesOfOptions(s, PackVersion);
    OccurrencesOfOptions(s, PackTitle);
    OccurrencesOfOptions(s, PackAuthors);
  }

  /** The flags of `opts` come in push-site order. */
  predicate InPushOrder(opts: seq<Opt>)
  {
    forall i, j :: 0 <= i < j < |opts| ==> Slot(opts[i].flag) <= Slot(opts[j].flag)
  }

  /** The first `k` push sites give a well-formed list in push order, of sites below `k`. */
  lemma {:induction false} OptionsUpToShape(s: Settings, k: nat)
    requires k <= SlotCount
    ensures var opts := OptionsUpTo(s, k);
      && WellFormed(opts)
      && InPushOrder(opts)
      && forall i :: 0 <= i < |opts| ==> Slot(opts[i].flag) < k
  {
    if k > 0 {
      var g := SlotFlag(k - 1);
      OptionsUpToShape(s, k - 1);
      SegmentShape(s, g);
      ShapeAppend(OptionsUpTo(s, k - 1), Segment(s, g), k - 1);
    }
  }

  /** Appending the options of the next site keeps the list well formed and in push order. */
  lemma ShapeAppend(prev: seq<Opt>, seg: seq<Opt>, k: nat)
    requires WellFormed(prev) && InPushOrder(prev)
    requires forall i :: 0 <= i < |prev| ==> Slot(prev[i].flag) < k
    requires WellFormed(seg)
    requires forall i :: 0 <= i < |seg| ==> Slot(seg[i].flag) == k
    ensures var opts := prev + seg;
      && WellFormed(opts)
      && InPushOrder(opts)
      && forall i :: 0 <= i < |opts| ==> Slot(opts[i].flag) < k + 1
  {
    var opts := prev + seg;
    assert forall i :: 0 <= i < |opts| ==> opts[i] == if i < |prev| then prev[i] else seg[i - |prev|];
  }

  /** All options are well formed and come in the order of the push sites in `make`. */
  lemma OptionsShape(s: Settings)
    ensures WellFormed(Options(s))
    ensures InPushOrder(Options(s))
  {
    OptionsUpToShape(s, SlotCount);
  }

  /** A flag has no options in a list exactly when no option of the list has that flag. */
  lemma {:induction false} OccurrencesEmpty(opts: seq<Opt>, f: Flag)
    ensures Occurrences(opts, f) == [] <==> forall k :: 0 <= k < |opts| ==> opts[k].flag != f
    decreases |opts|
  {
    if |opts| > 0 {
      OccurrencesEmpty(opts[1..], f);
      assert forall k :: 1 <= k < |opts| ==> opts[k] == opts[1..][k - 1];
    }
  }

  /**
    Two lists in push order with the same options for every flag are the
    same list: the per-flag statements above and the push order together
    determine the whole option list.
  */
  lemma {:induction false} PushOrderUnique(a: seq<Opt>, b: seq<Opt>)
    requires InPushOrder(a) && InPushOrder(b)
    requires forall f :: Occurrences(a, f) == Occurrences(b, f)
    ensures a == b
    decreases |a| + |b|
  {
    if |a| == 0 {
      if |b| > 0 {
        OccurrencesEmpty(b, b[0].flag);
        assert false;
      }
    } else if |b| == 0 {
      OccurrencesEmpty(a, a[0].flag);
      assert false;
    } else {
      var fa, fb := a[0].flag, b[0].flag;
      if Slot(fa) < Slot(fb) {
        OccurrencesEmpty(b, fa);
        OccurrencesEmpty(a, fa);
        assert false;
      } else if Slot(fb) < Slot(fa) {
        OccurrencesEmpty(a, fb);
        OccurrencesEmpty(b, fb);
        assert false;
      }
      SlotFlagOfSlot(fa);
      SlotFlagOfSlot(fb);
      assert fa == fb;
      assert a[0] == b[0] by {
        assert Occurrences(a, fa)[0] == a[0];
        assert Occurrences(b, fb)[0] == b[0];
      }
      forall f
        ensures Occurrences(a[1..], f) == Occurrences(b[1..], f)
      {
        var h := if fa == f then [a[0]] else [];
        assert Occurrences(a, f) == h + Occurrences(a[1..], f);
        assert Occurrences(b, f) == h + Occurrences(b[1..], f);
        assert Occurrences(a, f)[|h|..] == Occurrences(a[1..], f);
        assert Occurrences(b, f)[|h|..] == Occurrences(b[1..], f);
      }
      PushOrderUnique(a[1..], b[1..]);
      assert a == [a[0]] + a[1..];
      assert b == [b[0]] + b[1..];
    }
  }

  /**
    The option list is the only list in push order with the options that
    `ReleasifyOptions` and `PackOptions` name for each flag.
  */
  lemma OptionsCharacterized(s: Settings, opts: seq<Opt>)
    requires InPushOrder(opts)
    requires forall f :: Occurrences(opts, f) == Segment(s, f)
    ensures opts == Options(s)
  {
    OptionsShape(s);
    forall f
      ensures Occurrences(opts, f) == Occurrences(Options(s), f)
    {
      OccurrencesOfOptions(s, f);
    }
    PushOrderUnique(opts, Options(s));
  }

  // ---------------------------------------------------------------------
  // The argument list

  /** The arguments are `pack` followed by tokens that read back as exactly the option list. */
  lemma PackArgsParse(cfg: Config, host: Host)
    ensures var args := PackArgs(cfg, host);
      && |args| >= 1 && args[0] == "pack"
      && Parse(args[1..]) == Some(Options(Resolve(cfg, host)))
  {
    var s := Resolve(cfg, host);
    OptionsShape(s);
    ParseFlatten(Options(s));
    assert PackArgs(cfg, host)[1..] == Flatten(Options(s));
  }

  /** The argument list always ends with the five pack pairs, in their fixed order. */
  lemma PackArgsTail(cfg: Config, host: Host)
    ensures var args, s := PackArgs(cfg, host), Resolve(cfg, host);
      && |args| >= 11
      && args[|args| - 10..] == [
        Token(PackId), s.packId, Token(PackDir), s.packDir, Token(PackVersion), s.packVersion,
        Token(PackTitle), s.packTitle, Token(PackAuthors), s.packAuthors]
  {
    var s := Resolve(cfg, host);
    var args, front := PackArgs(cfg, host), ["pack"] + Flatten(OptionsUpTo(s, 10));
    PackSitesUnfold(s);
    FlattenAppend(OptionsUpTo(s, 10), PackPairs(s));
    FlattenPackPairs(s);
    assert args == front + Flatten(PackPairs(s));
  }

  /** `args.push` of the five pack pairs, in the order of the source. */
  function PackPairs(s: Settings): seq<Opt>
  {
    [Pair(PackId, s.packId), Pair(PackDir, s.packDir), Pair(PackVersion, s.packVersion),
     Pair(PackTitle, s.packTitle), Pair(PackAuthors, s.packAuthors)]
  }

  /** The last five push sites are the five pack pairs. */
  lemma PackSitesUnfold(s: Settings)
    ensures Options(s) == OptionsUpTo(s, 10) + PackPairs(s)
  {
    assert OptionsUpTo(s, 11) == OptionsUpTo(s, 10) + [Pair(PackId, s.packId)];
    assert OptionsUpTo(s, 12) == OptionsUpTo(s, 11) + [Pair(PackDir, s.packDir)];
    assert OptionsUpTo(s, 13) == OptionsUpTo(s, 12) + [Pair(PackVersion, s.packVersion)];
    assert OptionsUpTo(s, 14) == OptionsUpTo(s, 13) + [Pair(PackTitle, s.packTitle)];
  }

  /** The five pack pairs give their ten tokens in order. */
  lemma FlattenPackPairs(s: Settings)
    ensures Flatten(PackPairs(s)) == [
      Token(PackId), s.packId, Token(PackDir), s.packDir, Token(PackVersion), s.packVersion,
      Token(PackTitle), s.packTitle, Token(PackAuthors), s.packAuthors]
  {
    var p := PackPairs(s);
    assert Flatten(p[4..]) == Tokens(p[4]) by { assert p[4..][1..] == []; }
    assert Flatten(p[3..]) == Tokens(p[3]) + Flatten(p[4..]) by { assert p[3..][1..] == p[4..]; }
    assert Flatten(p[2..]) == Tokens(p[2]) + Flatten(p[3..]) by { assert p[2..][1..] == p[3..]; }
    assert Flatten(p[1..]) == Tokens(p[1]) + Flatten(p[2..]) by { assert p[1..][1..] == p[2..]; }
  }

  // ---------------------------------------------------------------------
  // Defaults and ignored fields

  /** Every optional field of the configuration is unset. */
  predicate Unset(cfg: Config)
  {
    && cfg.baseUrl.None? && cfg.addSearchPath.None? && cfg.debugSetupExe.None? && cfg.noDelta.None?
    && cfg.framework.None? && cfg.splashImage.None? && cfg.icon.None? && cfg.mainExes.None?
    && cfg.appIcon.None? && cfg.msi.None? && cfg.packId.None? && cfg.packDir.None?
    && cfg.packVersion.None? && cfg.packTitle.None? && cfg.packAuthors.None?
  }

  /**
    With nothing configured, `make` runs `pack --noDelta --mainExe <default exe>`
    followed by the pack pairs taken from the package manifest and the
    packaged directory, the title being the package name.
  */
  lemma PackArgsAllUnset(cfg: Config, host: Host)
    requires Unset(cfg)
    ensures PackArgs(cfg, host) == ["pack", Token(NoDelta), Token(MainExe), DefaultExe(host),
      Token(PackId), host.name, Token(PackDir), host.dir, Token(PackVersion), host.version,
      Token(PackTitle), host.name, Token(PackAuthors), host.author]
  {
    var s := Resolve(cfg, host);
    var head := [Lone(NoDelta), Pair(MainExe, DefaultExe(host))];
    OptionsAllUnset(cfg, host);
    FlattenAppend(head, PackPairs(s));
    FlattenAppend([head[0]], [head[1]]);
    assert head == [head[0]] + [head[1]];
    FlattenPackPairs(s);
  }

  /** The option list with nothing configured. */
  lemma OptionsAllUnset(cfg: Config, host: Host)
    requires Unset(cfg)
    ensures var s := Resolve(cfg, host);
      Options(s) == [Lone(NoDelta), Pair(MainExe, DefaultExe(host))] + PackPairs(s)
  {
    var s := Resolve(cfg, host);
    OptionsInPushOrder(s);
    assert MainExeOpts(s.mainExes) == [Pair(MainExe, DefaultExe(host))];
  }

  /** `includePdb`, `releaseNotes`, `signParams` and `signTemplate` never change the arguments. */
  lemma UnemittedFieldsIgnored(cfg: Config, host: Host, includePdb: Option<bool>, releaseNotes: Option<string>,
      signParams: string, signTemplate: string)
    ensures PackArgs(cfg.(includePdb := includePdb, releaseNotes := releaseNotes,
      signParams := signParams, signTemplate := signTemplate), host) == PackArgs(cfg, host)
  {
  }

  // ---------------------------------------------------------------------
  // The whole of `make` that the model covers

  /**
    What `make` does besides I/O: the command and argument list it spawns,
    and the NuGet package version it derives from the manifest's version.
  */
  method Make(cfg: Config, host: Host) returns (command: string, args: seq<string>, nupkgVersion: string)
    ensures command == SquirrelCommand
    ensures args == PackArgs(cfg, host)
    ensures nupkgVersion == ConvertVersion(host.version)
  {
    command := SquirrelCommand;
    args := BuildArgs(cfg, host);
    nupkgVersion := ConvertVersion(host.version);
  }

  /**
    With `packVersion` unset, the version passed to `--packVersion` is the
    manifest's version as it is, and it equals the derived package version
    exactly when the manifest's version has no `.` after its first `-`.
  */
  lemma PackVersionAgainstNupkgVersion(cfg: Config, host: Host)
    requires cfg.packVersion.None?
    ensures Resolve(cfg, host).packVersion == host.version
    ensures Resolve(cfg, host).packVersion == ConvertVersion(host.version) <==>
      match IndexOf(host.version, '-')
      case None => true
      case Some(i) => '.' !in host.version[i + 1..]
  {
    ConvertVersionFixed(host.version);
  }
}
