/**
 * The configuration migration chain of internal/config/migrator.go.
 *
 * A migration walks a fixed table of versions and applies one step function per edge. `Path` is the
 * list of versions visited, `Migrated` the settings that come out.
 */
module Migrator {
  import opened Sequences

  datatype Version = Version(major: int, minor: int, patch: int)

  predicate GreaterThan(v: Version, w: Version) {
    if v.major != w.major then v.major > w.major
    else if v.minor != w.minor then v.minor > w.minor
    else v.patch > w.patch
  }

  const VERSIONS: seq<Version> := [
    Version(0, 1, 0), Version(0, 2, 0), Version(0, 3, 0), Version(0, 4, 0),
    Version(0, 5, 0), Version(0, 6, 0), Version(0, 7, 0), Version(1, 0, 0)
  ]

  /** What the steps take from outside: $HOME, filepath.Clean and the number read by Sscanf (0 if none). */
  datatype Environment = Environment(home: string, clean: string -> string, scan: string -> int)

  /** filepath.Clean never answers the empty string. */
  ghost predicate Valid(env: Environment) {
    forall path :: env.clean(path) != ""
  }

  /** The fields that a migration reads or writes. */
  datatype Settings = Settings(
    home: string,
    name: string,
    dataBackupPath: string,
    shutdownGrace: int,
    preUpgradeMaxRetries: int,
    rpcAddress: string,
    downloadURLs: Option<map<string, string>>, // None is Go's nil map
    healthCheckInterval: int,
    metricsInterval: int,
    maxRestarts: int,
    rpcPort: int,
    configVersion: string,
    networkID: nat,
    validatorMode: bool,
    chainID: string)

  datatype Migration = V1ToV2 | V2ToV3 | V3ToV4 | V4ToV5 | Generic

  // ------------------------------------------------------------------ the steps

  const SECOND: int := 1_000_000_000

  function Join(env: Environment, dir: string, file: string): string {
    env.clean(if dir == "" then file else dir + "/" + file)
  }

  /** strings.Split by a one-character separator. */
  function Split(s: string, separator: char): (parts: seq<string>)
    ensures parts != []
  {
    if s == "" then [""]
    else
      var rest := Split(s[1..], separator);
      if s[0] == separator then [""] + rest else [[s[0]] + rest[0]] + rest[1..]
  }

  function Decimal(n: nat): (text: string)
    ensures text != ""
  {
    if n < 10 then ["0123456789"[n]] else Decimal(n / 10) + ["0123456789"[n % 10]]
  }

  function PortOf(env: Environment, address: string): int {
    var parts := Split(address, ':');
    if address != "" && |parts| == 2 then env.scan(parts[1]) else 0
  }

  function OrText(value: string, default: string): string {
    if value == "" then default else value
  }

  function OrNumber(value: int, default: int): int {
    if value == 0 then default else value
  }

  function Migrate1(env: Environment, m: Migration, s: Settings): Settings {
    match m
    case V1ToV2 =>
      s.(dataBackupPath := OrText(s.dataBackupPath, Join(env, s.home, "backups")),
         shutdownGrace := OrNumber(s.shutdownGrace, 30 * SECOND),
         preUpgradeMaxRetries := OrNumber(s.preUpgradeMaxRetries, 3))
    case V2ToV3 =>
      s.(rpcAddress := OrText(s.rpcAddress, "localhost:8545"),
         downloadURLs := if s.downloadURLs.None? then Some(map[]) else s.downloadURLs)
    case V3ToV4 =>
      s.(healthCheckInterval := OrNumber(s.healthCheckInterval, 30 * SECOND),
         metricsInterval := OrNumber(s.metricsInterval, 60 * SECOND),
         maxRestarts := OrNumber(s.maxRestarts, 5),
         rpcPort := OrNumber(OrNumber(s.rpcPort, PortOf(env, s.rpcAddress)), 8545))
    case V4ToV5 =>
      var networkID := if s.networkID != 0 then s.networkID else if s.validatorMode then 1111 else 1112;
      s.(configVersion := OrText(s.configVersion, "0.5.0"),
         networkID := networkID,
         chainID := OrText(s.chainID, Decimal(networkID)))
    case Generic =>
      s.(home := OrText(s.home, Join(env, env.home, ".wemixvisor")), name := OrText(s.name, "wemixd"))
  }

  // ------------------------------------------------------------------ the walk

  /** The position of `v` in the table from `i` on; the table's length if it is not there. */
  function IndexFrom(v: Version, i: nat): (k: nat)
    requires i <= |VERSIONS|
    ensures i <= k <= |VERSIONS|
    ensures k < |VERSIONS| ==> VERSIONS[k] == v
    ensures forall j :: i <= j < k ==> VERSIONS[j] != v
    decreases |VERSIONS| - i
  {
    if i == |VERSIONS| || VERSIONS[i] == v then i else IndexFrom(v, i + 1)
  }

  /** How far the walk still has to go, counted in table entries. */
  function Rank(current: Version, target: Version): nat {
    if current == target then 0 else |VERSIONS| + 1 - IndexFrom(current, 0)
  }

  function NextVersion(current: Version, target: Version): Version {
    var i := IndexFrom(current, 0);
    if i + 1 < |VERSIONS| && !GreaterThan(VERSIONS[i + 1], target) then VERSIONS[i + 1] else target
  }

  /** The versions visited after `from`. */
  function Path(from: Version, to: Version): seq<Version>
    decreases Rank(from, to)
  {
    if from == to then []
    else
      TableIndex(IndexFrom(from, 0) + 1);
      var next := NextVersion(from, to);
      [next] + Path(next, to)
  }

  function MigrationFor(from: Version, to: Version): Migration {
    if from == VERSIONS[0] && to == VERSIONS[1] then V1ToV2
    else if from == VERSIONS[1] && to == VERSIONS[2] then V2ToV3
    else if from == VERSIONS[2] && to == VERSIONS[3] then V3ToV4
    else if from == VERSIONS[3] && to == VERSIONS[4] then V4ToV5
    else Generic
  }

  function Apply(env: Environment, from: Version, path: seq<Version>, s: Settings): Settings
    decreases path
  {
    if path == [] then s
    else Apply(env, path[0], path[1..], Migrate1(env, MigrationFor(from, path[0]), s))
  }

  function Migrated(env: Environment, from: Version, to: Version, s: Settings): Settings {
    Apply(env, from, Path(from, to), s)
  }

  /** Every table entry is found at its own place. */
  lemma TableIndex(i: nat)
    ensures i < |VERSIONS| ==> IndexFrom(VERSIONS[i], 0) == i
    ensures forall j, k :: 0 <= j < k < |VERSIONS| ==> GreaterThan(VERSIONS[k], VERSIONS[j])
  {
    assert forall j, k :: 0 <= j < k < |VERSIONS| ==> GreaterThan(VERSIONS[k], VERSIONS[j]);
  }

  /** One step of an upgrade climbs without passing the target, and brings the walk closer to its end. */
  lemma NextClimbs(from: Version, to: Version)
    requires GreaterThan(to, from)
    ensures var next := NextVersion(from, to); GreaterThan(next, from) && (next == to || GreaterThan(to, next))
    ensures Path(from, to) == [NextVersion(from, to)] + Path(NextVersion(from, to), to)
    ensures Rank(NextVersion(from, to), to) < Rank(from, to)
  {
    TableIndex(IndexFrom(from, 0) + 1);
  }

  /** The next version does not depend on the target as long as it does not pass it. */
  lemma NextIndependent(a: Version, b: Version, c: Version)
    requires GreaterThan(b, a) && GreaterThan(c, b)
    requires b == NextVersion(a, c) || GreaterThan(b, NextVersion(a, c))
    ensures NextVersion(a, b) == NextVersion(a, c)
  {
    assert NextVersion(a, c) != c;
  }

  ghost predicate StrictlyIncreasing(path: seq<Version>) {
    forall i, j :: 0 <= i < j < |path| ==> GreaterThan(path[j], path[i])
  }

  /** An upgrade visits ever greater versions, none past the target, and arrives. */
  lemma {:induction false} PathClimbs(from: Version, to: Version)
    requires GreaterThan(to, from)
    ensures Path(from, to) != [] && Last(Path(from, to)) == to
    ensures StrictlyIncreasing([from] + Path(from, to))
    ensures forall v :: v in Path(from, to) ==> v == to || GreaterThan(to, v)
    decreases Rank(from, to)
  {
    NextClimbs(from, to);
    var next := NextVersion(from, to);
    if next != to {
      PathClimbs(next, to);
      var tail := [next] + Path(next, to);
      assert Last(tail) == Last(Path(next, to));
      assert forall k :: 0 <= k < |tail| ==> tail[k] == next || GreaterThan(tail[k], tail[0]);
      assert forall k :: 0 <= k < |tail| ==> GreaterThan(tail[k], from);
    }
  }

  /** The walk to `c` passes through `b` exactly if it splits into the walk to `b` and the walk from `b`. */
  lemma {:induction false} PathSplits(a: Version, b: Version, c: Version)
    requires (a == b || GreaterThan(b, a)) && (b == c || GreaterThan(c, b))
    ensures Path(a, c) == Path(a, b) + Path(b, c) <==> b in [a] + Path(a, c)
  {
    if b in [a] + Path(a, c) {
      PathThrough(a, b, c);
    }
    if Path(a, c) == Path(a, b) + Path(b, c) && a != b {
      PathClimbs(a, b);
      assert b in Path(a, b);
    }
  }

  lemma {:induction false} PathStartsLow(from: Version, to: Version, v: Version)
    requires (from == to || GreaterThan(to, from)) && v in [from] + Path(from, to)
    ensures v == from || GreaterThan(v, from)
  {
    if from != to {
      PathClimbs(from, to);
      var walk := [from] + Path(from, to);
      assert forall k :: 0 < k < |walk| ==> GreaterThan(walk[k], walk[0]);
    }
  }

  /** A walk that continues beyond its next version makes the same first step as the walk to where it stops. */
  lemma {:induction false} FirstStepShared(a: Version, b: Version, c: Version)
    requires GreaterThan(b, a) && GreaterThan(c, b) && b in Path(a, c)
    ensures var next := NextVersion(a, c);
            b in [next] + Path(next, c) && (b == next || GreaterThan(b, next)) && GreaterThan(c, next)
    ensures Path(a, b) == [NextVersion(a, c)] + Path(NextVersion(a, c), b)
  {
    NextClimbs(a, c);
    PathStartsLow(NextVersion(a, c), c, b);
    NextIndependent(a, b, c);
    NextClimbs(a, b);
  }

  lemma PathToItself(a: Version)
    ensures Path(a, a) == []
  {
  }

  lemma {:induction false} PathThrough(a: Version, b: Version, c: Version)
    requires (a == b || GreaterThan(b, a)) && (b == c || GreaterThan(c, b))
    requires b in [a] + Path(a, c)
    ensures Path(a, c) == Path(a, b) + Path(b, c)
    decreases |Path(a, c)|
  {
    if a == b {
      PathToItself(a);
    } else if b == c {
      PathToItself(b);
    } else {
      GreaterTransitive(a, b, c);
      FirstStepShared(a, b, c);
      NextClimbs(a, c);
      PathThrough(NextVersion(a, c), b, c);
      ConsConcat(NextVersion(a, c), Path(NextVersion(a, c), b), Path(b, c));
    }
  }

  lemma GreaterTransitive(a: Version, b: Version, c: Version)
    requires GreaterThan(b, a) && GreaterThan(c, b)
    ensures GreaterThan(c, a)
  {
  }

  lemma NextInTable(i: nat, c: Version)
    requires i + 1 < |VERSIONS| && (VERSIONS[i + 1] == c || GreaterThan(c, VERSIONS[i + 1]))
    ensures VERSIONS[i] != c && Path(VERSIONS[i], c) == [VERSIONS[i + 1]] + Path(VERSIONS[i + 1], c)
  {
    TableIndex(i);
    TableIndex(i + 1);
    assert GreaterThan(VERSIONS[i + 1], VERSIONS[i]);
  }

  /** A walk between table versions stops at every table version between them. */
  lemma {:induction false} TableOnPath(i: nat, j: nat, c: Version)
    requires i <= j < |VERSIONS| && (VERSIONS[j] == c || GreaterThan(c, VERSIONS[j]))
    ensures VERSIONS[j] in [VERSIONS[i]] + Path(VERSIONS[i], c)
    decreases j - i
  {
    if i < j {
      TableIndex(i);
      assert VERSIONS[i + 1] == c || GreaterThan(c, VERSIONS[i + 1]);
      NextInTable(i, c);
      TableOnPath(i + 1, j, c);
    }
  }

  lemma {:induction false} ApplyAppend(env: Environment, from: Version, p: seq<Version>, q: seq<Version>, s: Settings)
    ensures Apply(env, from, p + q, s)
         == Apply(env, if p == [] then from else Last(p), q, Apply(env, from, p, s))
    decreases p
  {
    if p == [] {
      assert p + q == q;
    } else {
      assert (p + q)[1..] == p[1..] + q;
      ApplyAppend(env, p[0], p[1..], q, Migrate1(env, MigrationFor(from, p[0]), s));
    }
  }

  /** Stopping at a version that the walk visits changes nothing; `ComposesIff` has the exact condition. */
  lemma {:induction false} MigrationsCompose(env: Environment, a: Version, b: Version, c: Version, s: Settings)
    requires (a == b || GreaterThan(b, a)) && (b == c || GreaterThan(c, b))
    requires b in [a] + Path(a, c)
    ensures Migrated(env, a, c, s) == Migrated(env, b, c, Migrated(env, a, b, s))
  {
    PathThrough(a, b, c);
    ApplyAppend(env, a, Path(a, b), Path(b, c), s);
    if a != b {
      PathClimbs(a, b);
    }
  }

  /** In particular at any version of the table. */
  lemma {:induction false} TableMigrationsCompose(env: Environment, i: nat, j: nat, c: Version, s: Settings)
    requires i <= j < |VERSIONS| && (VERSIONS[j] == c || GreaterThan(c, VERSIONS[j]))
    ensures Migrated(env, VERSIONS[i], c, s)
        == Migrated(env, VERSIONS[j], c, Migrated(env, VERSIONS[i], VERSIONS[j], s))
  {
    TableOnPath(i, j, c);
    TableIndex(i);
    MigrationsCompose(env, VERSIONS[i], VERSIONS[j], c, s);
  }

  lemma {:induction false} DetourPaths()
    ensures Path(VERSIONS[0], VERSIONS[1]) == [VERSIONS[1]]
    ensures Path(VERSIONS[0], Version(0, 1, 5)) == [Version(0, 1, 5)]
    ensures Path(Version(0, 1, 5), VERSIONS[1]) == [VERSIONS[1]]
  {
    NextInTable(0, VERSIONS[1]);
    PathToItself(VERSIONS[1]);
    PathToItself(Version(0, 1, 5));
    assert NextVersion(VERSIONS[0], Version(0, 1, 5)) == Version(0, 1, 5);
    assert NextVersion(Version(0, 1, 5), VERSIONS[1]) == VERSIONS[1];
  }

  /** A stop off the table can skip steps: from there the walk jumps to its target. */
  lemma {:induction false} DetourSkipsSteps(env: Environment, s: Settings)
    requires Valid(env) && s.dataBackupPath == ""
    ensures Migrated(env, VERSIONS[0], VERSIONS[1], s).dataBackupPath != ""
    ensures var detour := Version(0, 1, 5);
            Migrated(env, detour, VERSIONS[1], Migrated(env, VERSIONS[0], detour, s)).dataBackupPath == ""
  {
    var detour := Version(0, 1, 5);
    DetourPaths();
    ApplyOne(env, VERSIONS[0], VERSIONS[1], s);
    ApplyOne(env, VERSIONS[0], detour, s);
    ApplyOne(env, detour, VERSIONS[1], Migrated(env, VERSIONS[0], detour, s));
  }

  lemma ApplyOne(env: Environment, from: Version, to: Version, s: Settings)
    ensures Apply(env, from, [to], s) == Migrate1(env, MigrationFor(from, to), s)
  {
    assert [to][1..] == [];
  }

  // ------------------------------------------------------------------ what a migration keeps and sets

  /** Every field of `s` that has a value keeps it in `t`. */
  predicate Keeps(s: Settings, t: Settings) {
    && (s.home != "" ==> t.home == s.home)
    && (s.name != "" ==> t.name == s.name)
    && (s.dataBackupPath != "" ==> t.dataBackupPath == s.dataBackupPath)
    && (s.shutdownGrace != 0 ==> t.shutdownGrace == s.shutdownGrace)
    && (s.preUpgradeMaxRetries != 0 ==> t.preUpgradeMaxRetries == s.preUpgradeMaxRetries)
    && (s.rpcAddress != "" ==> t.rpcAddress == s.rpcAddress)
    && (s.downloadURLs.Some? ==> t.downloadURLs == s.downloadURLs)
    && (s.healthCheckInterval != 0 ==> t.healthCheckInterval == s.healthCheckInterval)
    && (s.metricsInterval != 0 ==> t.metricsInterval == s.metricsInterval)
    && (s.maxRestarts != 0 ==> t.maxRestarts == s.maxRestarts)
    && (s.rpcPort != 0 ==> t.rpcPort == s.rpcPort)
    && (s.configVersion != "" ==> t.configVersion == s.configVersion)
    && (s.networkID != 0 ==> t.networkID == s.networkID)
    && (s.chainID != "" ==> t.chainID == s.chainID)
    && t.validatorMode == s.validatorMode
  }

  /** The fields that `m` fills all have values. */
  predicate Filled(m: Migration, s: Settings) {
    match m
    case V1ToV2 => s.dataBackupPath != "" && s.shutdownGrace != 0 && s.preUpgradeMaxRetries != 0
    case V2ToV3 => s.rpcAddress != "" && s.downloadURLs.Some?
    case V3ToV4 => s.healthCheckInterval != 0 && s.metricsInterval != 0 && s.maxRestarts != 0 && s.rpcPort != 0
    case V4ToV5 => s.configVersion != "" && s.networkID != 0 && s.chainID != ""
    case Generic => s.home != "" && s.name != ""
  }

  /** A step overwrites nothing, fills its fields, and leaves settings that have them alone. */
  lemma StepFills(env: Environment, m: Migration, s: Settings)
    requires Valid(env)
    ensures Keeps(s, Migrate1(env, m, s)) && Filled(m, Migrate1(env, m, s))
    ensures Filled(m, s) <==> Migrate1(env, m, s) == s
  {
  }

  /** The steps taken along a path have all filled their fields. */
  predicate PathFilled(from: Version, path: seq<Version>, s: Settings)
    decreases path
  {
    path == [] || (Filled(MigrationFor(from, path[0]), s) && PathFilled(path[0], path[1..], s))
  }

  lemma {:induction false} ApplyFills(env: Environment, from: Version, path: seq<Version>, s: Settings)
    requires Valid(env)
    ensures Keeps(s, Apply(env, from, path, s)) && PathFilled(from, path, Apply(env, from, path, s))
    decreases path
  {
    if path != [] {
      var m := MigrationFor(from, path[0]);
      StepFills(env, m, s);
      ApplyFills(env, path[0], path[1..], Migrate1(env, m, s));
      KeepsFilled(m, Migrate1(env, m, s), Apply(env, from, path, s));
    }
  }

  lemma KeepsFilled(m: Migration, s: Settings, t: Settings)
    requires Keeps(s, t) && Filled(m, s)
    ensures Filled(m, t)
  {
  }

  lemma {:induction false} FilledPathIsIdentity(env: Environment, from: Version, path: seq<Version>, s: Settings)
    requires Valid(env) && PathFilled(from, path, s)
    ensures Apply(env, from, path, s) == s
    decreases path
  {
    if path != [] {
      StepFills(env, MigrationFor(from, path[0]), s);
      FilledPathIsIdentity(env, path[0], path[1..], s);
    }
  }

  /** A whole migration overwrites no value, and repeating it changes nothing. */
  lemma {:induction false} MigrationKeepsAndRepeats(env: Environment, from: Version, to: Version, s: Settings)
    requires Valid(env)
    ensures Keeps(s, Migrated(env, from, to, s))
    ensures Migrated(env, from, to, Migrated(env, from, to, s)) == Migrated(env, from, to, s)
  {
    ApplyFills(env, from, Path(from, to), s);
    FilledPathIsIdentity(env, from, Path(from, to), Migrated(env, from, to, s));
  }

  /** Starting at a table version, the step over the table edge `k` to `k + 1` is taken if the target allows. */
  lemma {:induction false} EdgeFilled(env: Environment, i: nat, k: nat, to: Version, s: Settings)
    requires Valid(env) && i <= k && k + 1 < |VERSIONS|
    requires VERSIONS[k + 1] == to || GreaterThan(to, VERSIONS[k + 1])
    ensures Filled(MigrationFor(VERSIONS[k], VERSIONS[k + 1]), Migrated(env, VERSIONS[i], to, s))
  {
    TableIndex(k);
    TableIndex(k + 1);
    assert to == VERSIONS[k + 1] || GreaterThan(to, VERSIONS[k]);
    TableMigrationsCompose(env, i, k, to, s);
    var s' := Migrated(env, VERSIONS[i], VERSIONS[k], s);
    assert NextVersion(VERSIONS[k], to) == VERSIONS[k + 1];
    assert Path(VERSIONS[k], to)[0] == VERSIONS[k + 1];
    ApplyFills(env, VERSIONS[k], Path(VERSIONS[k], to), s');
  }

  /** From the first version to 0.5.0 or later: every field with a default ends up with a value. */
  lemma {:induction false} FullChainSetsDefaults(env: Environment, to: Version, s: Settings)
    requires Valid(env) && (to == VERSIONS[4] || GreaterThan(to, VERSIONS[4]))
    ensures var t := Migrated(env, VERSIONS[0], to, s);
            Filled(V1ToV2, t) && Filled(V2ToV3, t) && Filled(V3ToV4, t) && Filled(V4ToV5, t)
  {
    EdgeFilled(env, 0, 0, to, s);
    EdgeFilled(env, 0, 1, to, s);
    EdgeFilled(env, 0, 2, to, s);
    EdgeFilled(env, 0, 3, to, s);
  }

  // ------------------------------------------------------------------ when stopping on the way changes nothing

  /** Going from `a` to `c` directly and by way of `b` give the same settings, whatever they start from. */
  ghost predicate Composes(env: Environment, a: Version, b: Version, c: Version) {
    forall s :: Migrated(env, a, c, s) == Migrated(env, b, c, Migrated(env, a, b, s))
  }

  predicate Listed(v: Version) {
    v in VERSIONS
  }

  /** One of the four versions that have a migration of their own lies beyond `b` and not beyond `c`. */
  predicate StepAhead(b: Version, c: Version) {
    exists k :: 1 <= k <= 4 && GreaterThan(VERSIONS[k], b) && !GreaterThan(VERSIONS[k], c)
  }

  /** The migrations made along a walk. */
  function StepsOf(from: Version, path: seq<Version>): set<Migration>
    decreases path
  {
    if path == [] then {} else {MigrationFor(from, path[0])} + StepsOf(path[0], path[1..])
  }

  function Steps(from: Version, to: Version): set<Migration> {
    StepsOf(from, Path(from, to))
  }

  /** A walk is its first step and the walk from there. */
  lemma FirstStep(env: Environment, a: Version, c: Version, s: Settings)
    requires GreaterThan(c, a)
    ensures var next := NextVersion(a, c);
            && Migrated(env, a, c, s) == Migrated(env, next, c, Migrate1(env, MigrationFor(a, next), s))
            && Steps(a, c) == {MigrationFor(a, next)} + Steps(next, c)
  {
    NextClimbs(a, c);
    var next := NextVersion(a, c);
    assert Path(a, c)[0] == next && Path(a, c)[1..] == Path(next, c);
  }

  lemma NoWalk(env: Environment, c: Version, s: Settings)
    ensures Migrated(env, c, c, s) == s && Steps(c, c) == {}
  {
    PathToItself(c);
  }

  /** A group of fields is filled afterwards exactly if it was before or its migration was made. */
  lemma {:induction false} FilledIffStep(env: Environment, m: Migration, from: Version, path: seq<Version>, s: Settings)
    requires Valid(env)
    ensures Filled(m, Apply(env, from, path, s)) <==> Filled(m, s) || m in StepsOf(from, path)
    decreases path
  {
    if path != [] {
      var first := MigrationFor(from, path[0]);
      FilledIffStep(env, m, path[0], path[1..], Migrate1(env, first, s));
      StepFills(env, first, s);
      if first == m || Filled(m, s) {
        KeepsFilledOrFills(env, first, m, s);
      } else {
        LeavesUnfilled(env, first, m, s);
      }
    }
  }

  lemma KeepsFilledOrFills(env: Environment, first: Migration, m: Migration, s: Settings)
    requires Valid(env) && (first == m || Filled(m, s))
    ensures Filled(m, Migrate1(env, first, s))
  {
    StepFills(env, first, s);
    if first != m {
      KeepsFilled(m, s, Migrate1(env, first, s));
    }
  }

  lemma LeavesUnfilled(env: Environment, first: Migration, m: Migration, s: Settings)
    requires first != m && !Filled(m, s)
    ensures !Filled(m, Migrate1(env, first, s))
  {
  }

  /** From a version off the table the walk is one jump. */
  lemma UnlistedJumps(a: Version, c: Version)
    requires !Listed(a) && a != c
    ensures Path(a, c) == [c] && MigrationFor(a, c) == Generic
  {
    assert IndexFrom(a, 0) == |VERSIONS|;
    assert NextVersion(a, c) == c && Path(c, c) == [];
  }

  /** Where no version with a migration of its own is passed, the walk does what one generic step does. */
  lemma {:induction false} OnlyGeneric(env: Environment, a: Version, c: Version, s: Settings)
    requires Valid(env) && GreaterThan(c, a) && !StepAhead(a, c)
    ensures Migrated(env, a, c, s) == Migrate1(env, Generic, s)
    decreases Rank(a, c)
  {
    var next := NextVersion(a, c);
    NextClimbs(a, c);
    assert MigrationFor(a, next) == Generic by {
      assert forall k :: 1 <= k <= 4 ==> next != VERSIONS[k];
    }
    var s' := Migrate1(env, Generic, s);
    StepFills(env, Generic, s);
    FirstStep(env, a, c, s);
    if next == c {
      NoWalk(env, c, s');
    } else {
      StillNoneAhead(a, next, c);
      OnlyGeneric(env, next, c, s');
      StepFills(env, Generic, s');
    }
  }

  lemma StillNoneAhead(a: Version, b: Version, c: Version)
    requires GreaterThan(b, a) && !StepAhead(a, c)
    ensures !StepAhead(b, c)
  {
    forall k | 1 <= k <= 4 && GreaterThan(VERSIONS[k], b)
      ensures GreaterThan(VERSIONS[k], c)
    {
      GreaterTransitive(a, b, VERSIONS[k]);
    }
  }

  /** The last table version that is not beyond `b`, seen from table version `i`. */
  lemma {:induction false} LastListed(i: nat, b: Version) returns (j: nat)
    requires i < |VERSIONS| && !GreaterThan(VERSIONS[i], b)
    ensures i <= j < |VERSIONS| && !GreaterThan(VERSIONS[j], b)
    ensures forall k :: j < k < |VERSIONS| ==> GreaterThan(VERSIONS[k], b)
    decreases |VERSIONS| - i
  {
    TableIndex(i);
    if i + 1 < |VERSIONS| && !GreaterThan(VERSIONS[i + 1], b) {
      j := LastListed(i + 1, b);
    } else {
      j := i;
      forall k | j < k < |VERSIONS|
        ensures GreaterThan(VERSIONS[k], b)
      {
        if k > i + 1 {
          GreaterTransitive(b, VERSIONS[i + 1], VERSIONS[k]);
        }
      }
    }
  }

  lemma IndexOf(v: Version) returns (i: nat)
    requires Listed(v)
    ensures i < |VERSIONS| && VERSIONS[i] == v
  {
    i :| i < |VERSIONS| && VERSIONS[i] == v;
  }

  lemma TrichotomyOf(a: Version, b: Version)
    ensures a == b || GreaterThan(a, b) || GreaterThan(b, a)
    ensures !(GreaterThan(a, b) && GreaterThan(b, a))
  {
  }

  /** A stop off the table on a walk that starts on it is harmless if no migration lies ahead. */
  lemma {:induction false} LeavingTableComposes(env: Environment, i: nat, b: Version, c: Version, s: Settings)
    requires Valid(env) && i < |VERSIONS| && !Listed(b)
    requires GreaterThan(b, VERSIONS[i]) && GreaterThan(c, b) && !StepAhead(b, c)
    ensures Migrated(env, VERSIONS[i], c, s) == Migrated(env, b, c, Migrated(env, VERSIONS[i], b, s))
  {
    var j := LastListed(i, b);
    var v := VERSIONS[j];
    assert GreaterThan(b, v) by {
      TrichotomyOf(v, b);
      assert Listed(v);
    }
    GreaterTransitive(v, b, c);
    TableMigrationsCompose(env, i, j, c, s);
    TableMigrationsCompose(env, i, j, b, s);
    var s' := Migrated(env, VERSIONS[i], v, s);
    NoneAheadFrom(j, b, c);
    OnlyGeneric(env, v, c, s');
    OnlyGeneric(env, v, b, s');
    OnlyGeneric(env, b, c, Migrated(env, v, b, s'));
    StepFills(env, Generic, s');
    StepFills(env, Generic, Migrate1(env, Generic, s'));
  }

  lemma NoneAheadFrom(j: nat, b: Version, c: Version)
    requires j < |VERSIONS| && GreaterThan(c, b) && !StepAhead(b, c)
    requires forall k :: j < k < |VERSIONS| ==> GreaterThan(VERSIONS[k], b)
    ensures !StepAhead(VERSIONS[j], c) && !StepAhead(VERSIONS[j], b)
  {
    forall k | 1 <= k <= 4 && GreaterThan(VERSIONS[k], VERSIONS[j])
      ensures GreaterThan(VERSIONS[k], c) && GreaterThan(VERSIONS[k], b)
    {
      TableIndex(j);
    }
  }

  lemma {:induction false} HarmlessStop(env: Environment, a: Version, b: Version, c: Version, s: Settings)
    requires Valid(env) && (a == b || GreaterThan(b, a)) && (b == c || GreaterThan(c, b))
    requires Listed(a) == Listed(b) || !StepAhead(b, c)
    ensures Migrated(env, a, c, s) == Migrated(env, b, c, Migrated(env, a, b, s))
  {
    if a == b || b == c {
      NoWalk(env, b, if a == b then s else Migrated(env, a, b, s));
    } else if Listed(a) && Listed(b) {
      var i := IndexOf(a);
      var j := IndexOf(b);
      TableIndex(0);
      TrichotomyOf(a, b);
      TableMigrationsCompose(env, i, j, c, s);
    } else if Listed(a) {
      var i := IndexOf(a);
      LeavingTableComposes(env, i, b, c, s);
    } else {
      JoiningTableComposes(env, a, b, c, s);
    }
  }

  lemma {:induction false} JoiningTableComposes(env: Environment, a: Version, b: Version, c: Version, s: Settings)
    requires Valid(env) && GreaterThan(b, a) && GreaterThan(c, b) && !Listed(a)
    requires Listed(b) ==> !StepAhead(b, c)
    ensures Migrated(env, a, c, s) == Migrated(env, b, c, Migrated(env, a, b, s))
  {
    GreaterTransitive(a, b, c);
    TrichotomyOf(a, b);
    TrichotomyOf(a, c);
    TrichotomyOf(b, c);
    UnlistedJumps(a, c);
    UnlistedJumps(a, b);
    ApplyOne(env, a, c, s);
    ApplyOne(env, a, b, s);
    var s' := Migrate1(env, Generic, s);
    StepFills(env, Generic, s);
    StepFills(env, Generic, s');
    if Listed(b) {
      OnlyGeneric(env, b, c, s');
    } else {
      UnlistedJumps(b, c);
      ApplyOne(env, b, c, s');
    }
  }

  /** A walk makes the migration of edge `k` exactly if it starts on the table before its end and reaches it. */
  lemma {:induction false} StepIff(env: Environment, a: Version, c: Version, k: nat)
    requires Valid(env) && (a == c || GreaterThan(c, a)) && k < 4
    ensures MigrationFor(VERSIONS[k], VERSIONS[k + 1]) in Steps(a, c)
       <==> Listed(a) && GreaterThan(VERSIONS[k + 1], a) && !GreaterThan(VERSIONS[k + 1], c)
  {
    var m := MigrationFor(VERSIONS[k], VERSIONS[k + 1]);
    if a == c {
      PathToItself(a);
      TrichotomyOf(VERSIONS[k + 1], c);
    } else if !Listed(a) {
      UnlistedJumps(a, c);
      FirstStep(env, a, c, Empty());
      NoWalk(env, c, Empty());
    } else {
      var i := IndexOf(a);
      if GreaterThan(VERSIONS[k + 1], a) && !GreaterThan(VERSIONS[k + 1], c) {
        TableIndex(i);
        TrichotomyOf(VERSIONS[k + 1], c);
        TrichotomyOf(VERSIONS[k + 1], a);
        EdgeFilled(env, i, k, c, Empty());
        FilledIffStep(env, m, a, Path(a, c), Empty());
      } else {
        NoSuchStep(env, a, c, k);
      }
    }
  }

  lemma {:induction false} NoSuchStep(env: Environment, a: Version, c: Version, k: nat)
    requires GreaterThan(c, a) && k < 4
    requires !GreaterThan(VERSIONS[k + 1], a) || GreaterThan(VERSIONS[k + 1], c)
    ensures MigrationFor(VERSIONS[k], VERSIONS[k + 1]) !in Steps(a, c)
    decreases Rank(a, c)
  {
    var next := NextVersion(a, c);
    NextClimbs(a, c);
    FirstStep(env, a, c, Empty());
    TrichotomyOf(next, a);
    TrichotomyOf(next, c);
    assert next != VERSIONS[k + 1];
    if next == c {
      NoWalk(env, c, Empty());
    } else {
      if GreaterThan(VERSIONS[k + 1], next) {
        GreaterTransitive(a, next, VERSIONS[k + 1]);
      }
      NoSuchStep(env, next, c, k);
    }
  }

  function Empty(): Settings {
    Settings("", "", "", 0, 0, "", None, 0, 0, 0, 0, "", 0, false, "")
  }

  lemma EmptyIsUnfilled(m: Migration)
    ensures !Filled(m, Empty())
  {
  }

  /** If all settings come out the same, so do the empty ones, and those show which migrations were made. */
  lemma {:induction false} ComposingSharesSteps(env: Environment, a: Version, b: Version, c: Version)
    requires Valid(env) && Composes(env, a, b, c)
    ensures Steps(a, c) == Steps(a, b) + Steps(b, c)
  {
    var between := Migrated(env, a, b, Empty());
    assert Migrated(env, a, c, Empty()) == Migrated(env, b, c, between);
    forall m: Migration
      ensures m in Steps(a, c) <==> m in Steps(a, b) + Steps(b, c)
    {
      EmptyIsUnfilled(m);
      FilledIffStep(env, m, a, Path(a, c), Empty());
      FilledIffStep(env, m, a, Path(a, b), Empty());
      FilledIffStep(env, m, b, Path(b, c), between);
    }
  }

  lemma {:induction false} SharedStepsAreHarmless(env: Environment, a: Version, b: Version, c: Version)
    requires Valid(env) && (a == b || GreaterThan(b, a)) && (b == c || GreaterThan(c, b))
    requires Steps(a, c) == Steps(a, b) + Steps(b, c)
    ensures Listed(a) == Listed(b) || !StepAhead(b, c)
  {
    if Listed(a) != Listed(b) && StepAhead(b, c) {
      var n :| 1 <= n <= 4 && GreaterThan(VERSIONS[n], b) && !GreaterThan(VERSIONS[n], c);
      if a != b && b != c {
        GreaterTransitive(a, b, c);
      }
      if a != b {
        GreaterTransitive(a, b, VERSIONS[n]);
      }
      StepIff(env, a, c, n - 1);
      StepIff(env, a, b, n - 1);
      StepIff(env, b, c, n - 1);
      assert false;
    }
  }

  /**
   * Stopping at `b` on the way from `a` to `c` changes no result exactly if `a` and `b` are both on the version
   * table or both off it, or no version with a migration of its own lies ahead; and exactly if the two ways
   * together make the same migrations.
   */
  lemma {:induction false} ComposesIff(env: Environment, a: Version, b: Version, c: Version)
    requires Valid(env) && (a == b || GreaterThan(b, a)) && (b == c || GreaterThan(c, b))
    ensures Composes(env, a, b, c) <==> Listed(a) == Listed(b) || !StepAhead(b, c)
    ensures Composes(env, a, b, c) <==> Steps(a, c) == Steps(a, b) + Steps(b, c)
  {
    if Composes(env, a, b, c) {
      ComposingSharesSteps(env, a, b, c);
    }
    if Steps(a, c) == Steps(a, b) + Steps(b, c) {
      SharedStepsAreHarmless(env, a, b, c);
    }
    if Listed(a) == Listed(b) || !StepAhead(b, c) {
      forall s
        ensures Migrated(env, a, c, s) == Migrated(env, b, c, Migrated(env, a, b, s))
      {
        HarmlessStop(env, a, b, c, s);
      }
    }
  }

  /** A stop on the table can add steps: from 0.1.5 to 0.3.0 directly the address stays empty, by way of 0.2.0 not. */
  lemma {:induction false} DetourAddsSteps(env: Environment, s: Settings)
    requires Valid(env) && s.rpcAddress == ""
    ensures var from := Version(0, 1, 5);
            && Migrated(env, from, VERSIONS[2], s).rpcAddress == ""
            && Migrated(env, VERSIONS[1], VERSIONS[2], Migrated(env, from, VERSIONS[1], s)).rpcAddress
               == "localhost:8545"
  {
    var from := Version(0, 1, 5);
    UnlistedJumps(from, VERSIONS[2]);
    UnlistedJumps(from, VERSIONS[1]);
    NextInTable(1, VERSIONS[2]);
    PathToItself(VERSIONS[2]);
    ApplyOne(env, from, VERSIONS[2], s);
    ApplyOne(env, from, VERSIONS[1], s);
    ApplyOne(env, VERSIONS[1], VERSIONS[2], Migrated(env, from, VERSIONS[1], s));
  }

  /** A stop that is neither on the table nor on the walk, and changes nothing. */
  lemma {:induction false} HarmlessDetour(env: Environment)
    requires Valid(env)
    ensures Version(0, 5, 5) !in Path(VERSIONS[4], VERSIONS[5])
    ensures Composes(env, VERSIONS[4], Version(0, 5, 5), VERSIONS[5])
  {
    assert Path(VERSIONS[4], VERSIONS[5]) == [VERSIONS[5]] by {
      NextInTable(4, VERSIONS[5]);
      PathToItself(VERSIONS[5]);
    }
    NothingBehind(Version(0, 5, 5), VERSIONS[5]);
    ComposesIff(env, VERSIONS[4], Version(0, 5, 5), VERSIONS[5]);
  }

  lemma NothingBehind(b: Version, c: Version)
    requires GreaterThan(b, VERSIONS[4])
    ensures !StepAhead(b, c)
  {
    forall k | 1 <= k <= 4
      ensures !GreaterThan(VERSIONS[k], b)
    {
      TableIndex(4);
      assert k < 4 ==> GreaterThan(VERSIONS[4], VERSIONS[k]);
    }
  }

  // ------------------------------------------------------------------ the defaults, spelled out

  /** The version order is that of the triples, the first number that differs deciding. */
  lemma {:induction false} GreaterMeans(v: Version, w: Version)
    ensures GreaterThan(v, w) <==>
              || w.major < v.major
              || (w.major == v.major && w.minor < v.minor)
              || (w.major == v.major && w.minor == v.minor && w.patch < v.patch)
  {
  }

  function Digit(c: char): int {
    c as int - '0' as int
  }

  function ParseDecimal(text: string): int {
    if text == "" then 0 else ParseDecimal(DropLast(text)) * 10 + Digit(Last(text))
  }

  /** The decimal notation: digits only, no leading zero, and reading it gives the number back. */
  lemma {:induction false} DecimalMeans(n: nat)
    ensures ParseDecimal(Decimal(n)) == n
    ensures forall i :: 0 <= i < |Decimal(n)| ==> 0 <= Digit(Decimal(n)[i]) <= 9
    ensures Decimal(n)[0] == '0' <==> n == 0
  {
    var text := Decimal(n);
    assert Digit("0123456789"[n % 10]) == n % 10;
    if n < 10 {
      assert DropLast(text) == "";
    } else {
      DecimalMeans(n / 10);
      assert DropLast(text) == Decimal(n / 10) && Last(text) == "0123456789"[n % 10];
    }
  }

  lemma {:induction false} SplitConcat(a: string, b: string, c: char)
    ensures |Split(a + [c] + b, c)| == |Split(a, c)| + |Split(b, c)|
    ensures c !in a ==> Split(a + [c] + b, c) == [a] + Split(b, c) && Split(a, c) == [a]
  {
    var whole := a + [c] + b;
    if a == "" {
      assert whole == [c] + b && whole[1..] == b;
    } else {
      assert whole[0] == a[0] && whole[1..] == a[1..] + [c] + b;
      SplitConcat(a[1..], b, c);
      if c !in a {
        assert c !in a[1..] && a == [a[0]] + a[1..];
      }
    }
  }

  /** The port is the number behind the colon if there is exactly one colon, and otherwise unknown. */
  lemma {:induction false} PortMeans(env: Environment, host: string, port: string)
    requires ':' !in host
    ensures PortOf(env, host) == 0
    ensures ':' !in port ==> PortOf(env, host + ":" + port) == env.scan(port)
    ensures ':' in port ==> PortOf(env, host + ":" + port) == 0
  {
    SplitConcat(host, port, ':');
    SplitConcat(port, "", ':');
    if ':' in port {
      var i :| 0 <= i < |port| && port[i] == ':';
      assert port == port[..i] + [':'] + port[i + 1..];
      SplitConcat(port[..i], port[i + 1..], ':');
    }
  }

  lemma {:induction false} OneEdge(env: Environment, from: Version, to: Version, s: Settings, i: nat)
    requires i + 1 < |VERSIONS| && VERSIONS[i] == from && VERSIONS[i + 1] == to
    ensures Migrated(env, from, to, s) == Migrate1(env, MigrationFor(from, to), s)
  {
    NextInTable(i, to);
    PathToItself(to);
    ApplyOne(env, from, to, s);
  }

  /** What each release adds to settings that lack it. Sixty seconds are 60_000_000_000 nanoseconds. */
  lemma {:induction false} EdgesMean(env: Environment, s: Settings)
    ensures Migrated(env, Version(0, 1, 0), Version(0, 2, 0), s) ==
              s.(dataBackupPath := if s.dataBackupPath != "" then s.dataBackupPath
                                   else env.clean(if s.home == "" then "backups" else s.home + "/backups"),
                 shutdownGrace := if s.shutdownGrace != 0 then s.shutdownGrace else 30_000_000_000,
                 preUpgradeMaxRetries := if s.preUpgradeMaxRetries != 0 then s.preUpgradeMaxRetries else 3)
    ensures Migrated(env, Version(0, 2, 0), Version(0, 3, 0), s) ==
              s.(rpcAddress := if s.rpcAddress != "" then s.rpcAddress else "localhost:8545",
                 downloadURLs := if s.downloadURLs.Some? then s.downloadURLs else Some(map[]))
    ensures Migrated(env, Version(0, 3, 0), Version(0, 4, 0), s) ==
              s.(healthCheckInterval := if s.healthCheckInterval != 0 then s.healthCheckInterval else 30_000_000_000,
                 metricsInterval := if s.metricsInterval != 0 then s.metricsInterval else 60_000_000_000,
                 maxRestarts := if s.maxRestarts != 0 then s.maxRestarts else 5,
                 rpcPort := if s.rpcPort != 0 then s.rpcPort
                            else if PortOf(env, s.rpcAddress) != 0 then PortOf(env, s.rpcAddress) else 8545)
    ensures Migrated(env, Version(0, 4, 0), Version(0, 5, 0), s) ==
              s.(configVersion := if s.configVersion != "" then s.configVersion else "0.5.0",
                 networkID := if s.networkID != 0 then s.networkID else if s.validatorMode then 1111 else 1112,
                 chainID := if s.chainID != "" then s.chainID
                            else if s.networkID != 0 then Decimal(s.networkID)
                            else if s.validatorMode then "1111" else "1112")
  {
    OneEdge(env, Version(0, 1, 0), Version(0, 2, 0), s, 0);
    OneEdge(env, Version(0, 2, 0), Version(0, 3, 0), s, 1);
    OneEdge(env, Version(0, 3, 0), Version(0, 4, 0), s, 2);
    OneEdge(env, Version(0, 4, 0), Version(0, 5, 0), s, 3);
    BackupPath(s.home);
    NetworkNames();
  }

  lemma BackupPath(home: string)
    ensures home + "/" + "backups" == home + "/backups"
  {
    assert "/" + "backups" == "/backups";
  }

  lemma NetworkNames()
    ensures Decimal(1111) == "1111" && Decimal(1112) == "1112"
  {
    assert Decimal(1) == "1" && Decimal(11) == "11" && Decimal(111) == "111";
  }

  /** Every other step only makes sure of a home and a name; the table continues with 0.6.0, 0.7.0 and 1.0.0. */
  lemma {:induction false} OtherStepsMean(env: Environment, to: Version, s: Settings)
    requires Valid(env) && GreaterThan(to, Version(0, 5, 0))
    ensures Migrated(env, Version(0, 5, 0), to, s) ==
              s.(home := if s.home != "" then s.home
                         else env.clean(if env.home == "" then ".wemixvisor" else env.home + "/.wemixvisor"),
                 name := if s.name != "" then s.name else "wemixd")
  {
    TableIndex(4);
    assert !StepAhead(VERSIONS[4], to) by {
      assert forall k :: 1 <= k <= 4 ==> !GreaterThan(VERSIONS[k], VERSIONS[4]);
    }
    OnlyGeneric(env, Version(0, 5, 0), to, s);
    assert env.home + "/" + ".wemixvisor" == env.home + "/.wemixvisor" by {
      assert "/" + ".wemixvisor" == "/.wemixvisor";
    }
  }

  lemma {:induction false} PathToEnd(i: nat)
    requires i < |VERSIONS|
    ensures Path(VERSIONS[i], VERSIONS[7]) == VERSIONS[i + 1..]
    decreases |VERSIONS| - i
  {
    TableIndex(i);
    if i == 7 {
      PathToItself(VERSIONS[7]);
    } else {
      NextInTable(i, VERSIONS[7]);
      PathToEnd(i + 1);
    }
  }

  /** The versions visited on the way from the first release to the last one in the table. */
  lemma {:induction false} WholeTable()
    ensures Path(Version(0, 1, 0), Version(1, 0, 0)) ==
              [Version(0, 2, 0), Version(0, 3, 0), Version(0, 4, 0), Version(0, 5, 0), Version(0, 6, 0),
               Version(0, 7, 0), Version(1, 0, 0)]
  {
    PathToEnd(0);
  }

  // ------------------------------------------------------------------ the implementation

  datatype Result<+T> = Ok(value: T) | Err(error: string)

  class Config {
    var home: string
    var name: string
    var dataBackupPath: string
    var shutdownGrace: int
    var preUpgradeMaxRetries: int
    var rpcAddress: string
    var downloadURLs: Option<map<string, string>>
    var healthCheckInterval: int
    var metricsInterval: int
    var maxRestarts: int
    var rpcPort: int
    var configVersion: string
    var networkID: nat
    var validatorMode: bool
    var chainID: string

    function Value(): Settings
      reads this
    {
      Settings(home, name, dataBackupPath, shutdownGrace, preUpgradeMaxRetries, rpcAddress, downloadURLs,
               healthCheckInterval, metricsInterval, maxRestarts, rpcPort, configVersion, networkID,
               validatorMode, chainID)
    }

    constructor (s: Settings)
      ensures Value() == s
    {
      home, name, dataBackupPath, shutdownGrace := s.home, s.name, s.dataBackupPath, s.shutdownGrace;
      preUpgradeMaxRetries, rpcAddress, downloadURLs := s.preUpgradeMaxRetries, s.rpcAddress, s.downloadURLs;
      healthCheckInterval, metricsInterval, maxRestarts := s.healthCheckInterval, s.metricsInterval, s.maxRestarts;
      rpcPort, configVersion, networkID := s.rpcPort, s.configVersion, s.networkID;
      validatorMode, chainID := s.validatorMode, s.chainID;
    }
  }

  class Migrator {
    const env: Environment
    const migrations: map<(Version, Version), Migration>

    constructor (env: Environment)
      ensures this.env == env && Registered()
    {
      this.env := env;
      migrations := map[
        (Version(0, 1, 0), Version(0, 2, 0)) := V1ToV2,
        (Version(0, 2, 0), Version(0, 3, 0)) := V2ToV3,
        (Version(0, 3, 0), Version(0, 4, 0)) := V3ToV4,
        (Version(0, 4, 0), Version(0, 5, 0)) := V4ToV5];
    }

    ghost predicate Registered() {
      forall from, to ::
        MigrationFor(from, to) == if (from, to) in migrations then migrations[(from, to)] else Generic
    }

    method MigrateV1ToV2(cfg: Config)
      modifies cfg
      ensures cfg.Value() == Migrate1(env, V1ToV2, old(cfg.Value()))
    {
      if cfg.dataBackupPath == "" {
        cfg.dataBackupPath := Join(env, cfg.home, "backups");
      }
      if cfg.shutdownGrace == 0 {
        cfg.shutdownGrace := 30 * SECOND;
      }
      if cfg.preUpgradeMaxRetries == 0 {
        cfg.preUpgradeMaxRetries := 3;
      }
    }

    method MigrateV2ToV3(cfg: Config)
      modifies cfg
      ensures cfg.Value() == Migrate1(env, V2ToV3, old(cfg.Value()))
    {
      if cfg.rpcAddress == "" {
        cfg.rpcAddress := "localhost:8545";
      }
      if cfg.downloadURLs.None? {
        cfg.downloadURLs := Some(map[]);
      }
    }

    method MigrateV3ToV4(cfg: Config)
      modifies cfg
      ensures cfg.Value() == Migrate1(env, V3ToV4, old(cfg.Value()))
    {
      if cfg.healthCheckInterval == 0 {
        cfg.healthCheckInterval := 30 * SECOND;
      }
      if cfg.metricsInterval == 0 {
        cfg.metricsInterval := 60 * SECOND;
      }
      if cfg.maxRestarts == 0 {
        cfg.maxRestarts := 5;
      }
      if cfg.rpcPort == 0 {
        FindPort(cfg);
      }
    }

    method FindPort(cfg: Config)
      requires cfg.rpcPort == 0
      modifies cfg`rpcPort
      ensures cfg.rpcPort == OrNumber(PortOf(env, cfg.rpcAddress), 8545)
    {
      if cfg.rpcAddress != "" {
        var parts := Split(cfg.rpcAddress, ':');
        if |parts| == 2 {
          cfg.rpcPort := env.scan(parts[1]);
        }
      }
      if cfg.rpcPort == 0 {
        cfg.rpcPort := 8545;
      }
    }

    method MigrateV4ToV5(cfg: Config)
      modifies cfg
      ensures cfg.Value() == Migrate1(env, V4ToV5, old(cfg.Value()))
    {
      if cfg.configVersion == "" {
        cfg.configVersion := "0.5.0";
      }
      if cfg.networkID == 0 {
        if cfg.validatorMode {
          cfg.networkID := 1111;
        } else {
          cfg.networkID := 1112;
        }
      }
      if cfg.chainID == "" {
        cfg.chainID := Decimal(cfg.networkID);
      }
    }

    method GenericMigration(cfg: Config)
      modifies cfg
      ensures cfg.Value() == Migrate1(env, Generic, old(cfg.Value()))
    {
      if cfg.home == "" {
        cfg.home := Join(env, env.home, ".wemixvisor");
      }
      if cfg.name == "" {
        cfg.name := "wemixd";
      }
    }

    method ApplyMigration(m: Migration, cfg: Config)
      modifies cfg
      ensures cfg.Value() == Migrate1(env, m, old(cfg.Value()))
    {
      match m
      case V1ToV2 => MigrateV1ToV2(cfg);
      case V2ToV3 => MigrateV2ToV3(cfg);
      case V3ToV4 => MigrateV3ToV4(cfg);
      case V4ToV5 => MigrateV4ToV5(cfg);
      case Generic => GenericMigration(cfg);
    }

    /** The successor in the table, if there is one that does not pass the target. */
    method GetNextVersion(current: Version, target: Version) returns (next: Version)
      ensures next == NextVersion(current, target)
    {
      for i := 0 to |VERSIONS|
        invariant IndexFrom(current, 0) == IndexFrom(current, i)
      {
        if current == VERSIONS[i] && i + 1 < |VERSIONS| {
          next := VERSIONS[i + 1];
          if GreaterThan(next, target) {
            return target;
          }
          return next;
        }
        assert i + 1 == |VERSIONS| || IndexFrom(current, i) == IndexFrom(current, i + 1);
        if i + 1 == |VERSIONS| {
          return target;
        }
      }
      return target;
    }

    /** Versions that do not parse are `None`. The original configuration is never written. */
    method Migrate(cfg: Config?, fromVersion: Option<Version>, toVersion: Option<Version>)
      returns (result: Result<Config>)
      requires Registered()
      ensures result.Err? <==>
              cfg == null || fromVersion.None? || toVersion.None? || GreaterThan(fromVersion.value, toVersion.value)
      ensures result.Ok? ==> result.value.Value() == Migrated(env, fromVersion.value, toVersion.value, cfg.Value())
      ensures result.Ok? ==> if fromVersion == toVersion then result.value == cfg else fresh(result.value)
    {
      if cfg == null {
        return Err("configuration is nil");
      }
      if fromVersion.None? {
        return Err("invalid from version");
      }
      if toVersion.None? {
        return Err("invalid to version");
      }
      var from, to := fromVersion.value, toVersion.value;
      if from == to {
        return Ok(cfg);
      }
      if GreaterThan(from, to) {
        return Err("cannot downgrade");
      }
      var migrated := new Config(cfg.Value());
      var current := from;
      while current != to
        invariant fresh(migrated)
        invariant Apply(env, current, Path(current, to), migrated.Value()) == Migrated(env, from, to, cfg.Value())
        decreases Rank(current, to)
      {
        TableIndex(IndexFrom(current, 0) + 1);
        var next := GetNextVersion(current, to);
        var migration := if (current, next) in migrations then migrations[(current, next)] else Generic;
        assert migration == MigrationFor(current, next);
        assert Path(current, to)[0] == next && Path(current, to)[1..] == Path(next, to);
        ApplyMigration(migration, migrated);
        current := next;
      }
      return Ok(migrated);
    }
  }
}
