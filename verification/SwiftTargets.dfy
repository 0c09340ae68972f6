/** `build_targets` and `lipo_platform_libraries` of the Swift packaging. */
module SwiftTargets {
  import opened Sequences

  type Platform = string

  datatype Target = Target(triple: string, platform: Platform, topTier: bool, path: string)

  /** One `cargo build` invocation: a toolchain and the targets given to it. */
  datatype Command = Command(stable: bool, triples: seq<string>)

  /** The command for a single target. */
  function CommandFor(t: Target): Command { Command(t.topTier, [t.triple]) }

  /** What a list of commands builds. */
  function Built(cs: seq<Command>): multiset<(string, bool)> {
    if cs == [] then multiset{} else Built(cs[..|cs| - 1]) + BuiltBy(cs[|cs| - 1])
  }

  function BuiltBy(c: Command): multiset<(string, bool)> {
    multiset(Map((t: string) => (t, c.stable), c.triples))
  }

  /** What has to be built: every target once, top-tier ones with the stable toolchain. */
  function Wanted(targets: seq<Target>): multiset<(string, bool)> {
    multiset(Map((t: Target) => (t.triple, t.topTier), targets))
  }

  function OfTier(top: bool, targets: seq<Target>): seq<string> {
    if targets == [] then []
    else
      var last := targets[|targets| - 1];
      OfTier(top, targets[..|targets| - 1]) + (if last.topTier == top then [last.triple] else [])
  }

  /** The two batched commands; an empty batch is not run. */
  function BatchCommands(targets: seq<Target>): seq<Command> {
    (if OfTier(true, targets) != [] then [Command(true, OfTier(true, targets))] else [])
    + (if OfTier(false, targets) != [] then [Command(false, OfTier(false, targets))] else [])
  }

  /** Runs the commands up to the first that fails; if none does, every target was built once. */
  method RunBuilds(targets: seq<Target>, sequentially: bool, works: Command -> bool)
    returns (ran: seq<Command>, ok: bool)
    ensures Stops(Commands(targets, sequentially), works, ran, ok)
    ensures ok ==> Built(ran) == Wanted(targets)
  {
    if sequentially {
      ran, ok := RunEach(targets, works);
      SequentialBuildsWanted(targets);
    } else {
      ran, ok := RunBatches(targets, works);
      BatchesBuildWanted(targets);
    }
  }

  /** `ran` is all of `commands`, or those before the first that fails. */
  ghost predicate Stops(commands: seq<Command>, works: Command -> bool, ran: seq<Command>, ok: bool) {
    && ran <= commands
    && (forall i :: 0 <= i < |ran| ==> works(ran[i]))
    && (ok <==> ran == commands)
    && (!ok ==> |ran| < |commands| && !works(commands[|ran|]))
  }

  method RunEach(targets: seq<Target>, works: Command -> bool) returns (ran: seq<Command>, ok: bool)
    ensures Stops(Map(CommandFor, targets), works, ran, ok)
  {
    ran, ok := [], true;
    var i := 0;
    while i < |targets|
      invariant 0 <= i <= |targets|
      invariant ran == Map(CommandFor, targets)[..i]
      invariant forall j :: 0 <= j < i ==> works(ran[j])
    {
      var command := CommandFor(targets[i]);
      if !works(command) {
        return ran, false;
      }
      ran := ran + [command];
      i := i + 1;
    }
  }

  method RunBatches(targets: seq<Target>, works: Command -> bool) returns (ran: seq<Command>, ok: bool)
    ensures Stops(BatchCommands(targets), works, ran, ok)
  {
    ran, ok := [], true;
    var stable, nightly := OfTier(true, targets), OfTier(false, targets);
    if stable != [] {
      if !works(Command(true, stable)) {
        return ran, false;
      }
      ran := ran + [Command(true, stable)];
    }
    if nightly != [] {
      if !works(Command(false, nightly)) {
        return ran, false;
      }
      ran := ran + [Command(false, nightly)];
    }
  }

  function Commands(targets: seq<Target>, sequentially: bool): seq<Command> {
    if sequentially then Map(CommandFor, targets) else BatchCommands(targets)
  }

  lemma {:induction false} SequentialBuildsWanted(targets: seq<Target>)
    ensures Built(Map(CommandFor, targets)) == Wanted(targets)
  {
    if targets != [] {
      var shorter, last := targets[..|targets| - 1], targets[|targets| - 1];
      SequentialBuildsWanted(shorter);
      assert Map(CommandFor, targets)[..|targets| - 1] == Map(CommandFor, shorter);
      var pair := (t: Target) => (t.triple, t.topTier);
      assert Map(pair, targets) == Map(pair, shorter) + [pair(last)];
      assert Map((t: string) => (t, last.topTier), [last.triple]) == [pair(last)];
    }
  }

  lemma {:induction false} TiersBuildWanted(targets: seq<Target>)
    ensures BuiltBy(Command(true, OfTier(true, targets))) + BuiltBy(Command(false, OfTier(false, targets)))
      == Wanted(targets)
  {
    if targets != [] {
      var shorter, last := targets[..|targets| - 1], targets[|targets| - 1];
      TiersBuildWanted(shorter);
      var pair := (t: Target) => (t.triple, t.topTier);
      assert Map(pair, targets) == Map(pair, shorter) + [pair(last)];
      BuiltBySnoc(last.topTier, OfTier(last.topTier, shorter), last.triple);
      assert OfTier(!last.topTier, targets) == OfTier(!last.topTier, shorter);
    }
  }

  lemma BuiltBySnoc(stable: bool, triples: seq<string>, triple: string)
    ensures BuiltBy(Command(stable, triples + [triple]))
      == BuiltBy(Command(stable, triples)) + multiset{(triple, stable)}
  {
    var pair := (t: string) => (t, stable);
    assert Map(pair, triples + [triple]) == Map(pair, triples) + [pair(triple)];
  }

  lemma BatchesBuildWanted(targets: seq<Target>)
    ensures Built(BatchCommands(targets)) == Wanted(targets)
  {
    var s, n := OfTier(true, targets), OfTier(false, targets);
    TiersBuildWanted(targets);
    assert BuiltBy(Command(true, [])) == multiset{} && BuiltBy(Command(false, [])) == multiset{};
    var cs := BatchCommands(targets);
    if s != [] && n != [] {
      assert [Command(true, s)][..0] == [];
      assert Built([Command(true, s)]) == BuiltBy(Command(true, s));
      assert |cs| == 2 && cs[..1] == [Command(true, s)] && cs[1] == Command(false, n);
    } else if cs != [] {
      assert cs[..0] == [];
    }
  }

  // ---- Grouping by platform ----

  function PathsOf(targets: seq<Target>, p: Platform): seq<string> {
    if targets == [] then []
    else
      var last := targets[|targets| - 1];
      PathsOf(targets[..|targets| - 1], p) + (if last.platform == p then [last.path] else [])
  }

  lemma PathsSnoc(targets: seq<Target>, t: Target, p: Platform)
    ensures PathsOf(targets + [t], p) == PathsOf(targets, p) + (if t.platform == p then [t.path] else [])
  {
    assert (targets + [t])[..|targets|] == targets;
  }

  predicate HasTarget(targets: seq<Target>, p: Platform) {
    exists i :: 0 <= i < |targets| && targets[i].platform == p
  }

  lemma {:induction false} SomePathIff(targets: seq<Target>, p: Platform)
    ensures PathsOf(targets, p) != [] <==> HasTarget(targets, p)
  {
    if targets != [] {
      var shorter := targets[..|targets| - 1];
      SomePathIff(shorter, p);
      assert forall i :: 0 <= i < |shorter| ==> shorter[i] == targets[i];
    }
  }

  /**
    Each group holds its platform's paths in target order; there is a group for exactly
    the platforms with a target.
   */
  method GroupByPlatform(targets: seq<Target>) returns (groups: map<Platform, seq<string>>)
    ensures forall p :: p in groups <==> HasTarget(targets, p)
    ensures forall p :: p in groups ==> groups[p] == PathsOf(targets, p) && groups[p] != []
  {
    groups := map[];
    var i := 0;
    while i < |targets|
      invariant 0 <= i <= |targets|
      invariant forall p :: p in groups <==> PathsOf(targets[..i], p) != []
      invariant forall p :: p in groups ==> groups[p] == PathsOf(targets[..i], p)
    {
      var t := targets[i];
      assert targets[..i + 1] == targets[..i] + [t];
      forall p {
        PathsSnoc(targets[..i], t, p);
      }
      var paths := if t.platform in groups then groups[t.platform] else [];
      groups := groups[t.platform := paths + [t.path]];
      i := i + 1;
    }
    assert targets[..i] == targets;
    forall p ensures p in groups <==> HasTarget(targets, p) {
      SomePathIff(targets, p);
    }
  }

  /** The library a platform ends up with: its only one, or what `lipo` makes of several. */
  function LibraryFor(paths: seq<string>, p: Platform, lipoPath: Platform -> string): string {
    if |paths| == 1 then paths[0] else lipoPath(p)
  }

  /** `None` stands for a failing `lipo`; a hash map yields its platforms in any order. */
  method LipoPlatformLibraries(groups: map<Platform, seq<string>>, lipoPath: Platform -> string,
                               works: Platform -> bool)
    returns (libs: Option<seq<string>>, order: seq<Platform>)
    ensures libs.Some? ==>
              && |libs.value| == |order| == |groups|
              && (forall p :: p in groups <==> p in order)
              && (forall i, j :: 0 <= i < j < |order| ==> order[i] != order[j])
              && forall i :: 0 <= i < |order| ==> libs.value[i] == LibraryFor(groups[order[i]], order[i], lipoPath)
    ensures libs.None? <==> exists p :: p in groups && |groups[p]| != 1 && !works(p)
  {
    var left := groups.Keys;
    var made: seq<string> := [];
    order := [];
    while left != {}
      invariant left <= groups.Keys && |made| == |order| && |order| + |left| == |groups.Keys|
      invariant forall p :: p in groups <==> p in left || p in order
      invariant forall p :: p in order ==> p !in left && (|groups[p]| == 1 || works(p))
      invariant forall i, j :: 0 <= i < j < |order| ==> order[i] != order[j]
      invariant forall i :: 0 <= i < |order| ==> made[i] == LibraryFor(groups[order[i]], order[i], lipoPath)
    {
      var p :| p in left;
      if |groups[p]| != 1 && !works(p) {
        return None, order;
      }
      made := made + [LibraryFor(groups[p], p, lipoPath)];
      order := order + [p];
      left := left - {p};
    }
    assert |groups| == |groups.Keys|;
    libs := Some(made);
  }
}
