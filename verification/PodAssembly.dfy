/**
 Turning an app and a base Pod into the Pod to create: host paths and environment entries are
 parsed, the target container gets the context image, and volumes, mounts and variables are appended
 in place.
 */
module PodAssembly {
  import opened Wrappers
  import opened CliApps
  import opened Text

  datatype Source = HostPath(path: string) | AppImage(image: string) | ShellFile(subPath: string, history: bool)

  datatype Volume = Volume(name: string, source: Source)
  datatype Mount = Mount(name: string, path: string)
  datatype EnvVar = EnvVar(name: string, value: string)

  // No security context, one without capabilities, or one with added capabilities.
  datatype Security = NoContext | NoCapabilities | Capabilities(add: seq<string>)

  datatype Container = Container(
    name: string,
    image: string,
    env: seq<EnvVar>,
    workingDir: string,
    stdin: bool,
    mounts: seq<Mount>,
    security: Security)

  // Defaults of the controller, and how it joins a path to the app root.
  datatype Defaults = Defaults(shell: string, distro: string, contextImage: string, rootJoin: string -> string)

  // What the CRI says about an image.
  datatype ImageConfig = ImageConfig(workdir: string, paths: string)

  // Why an app cannot be assembled.
  datatype Problem = NoSegments | HostNotAbsolute | MountNotAbsolute | NotOnePair | BlankKey | NoImageConfig

  datatype Applied = Success | Error(why: Problem) | Panicked

  const APP_LABEL := "cliapp.warm-metal.tech"
  const APP_CONTAINER := "workspace"
  const APP_ROOT := "/app-root"
  const APP_VOLUME := "app"
  const RC_VOLUME := "shell-rc"
  const HISTORY_VOLUME := "shell-history"
  const FIXED_PATHS := ["/usr/local/sbin", "/usr/local/bin", "/usr/sbin", "/usr/bin", "/sbin", "/bin"]
  const PATH_PREFIX := "/usr/local/sbin:" + "/usr/local/bin:/usr/sbin:" + "/usr/bin:/sbin:/bin:"

  // filepath.IsAbs
  predicate IsAbs(path: string) { path != "" && path[0] == '/' }

  function HostVolume(i: nat): string { "hostpath-" + Decimal(i) }

  // --- parsing --------------------------------------------------------------------------------

  datatype HostMount = HostMount(host: string, mount: string)

  datatype Parsed<+T> = Good(value: T) | Bad(why: Problem)

  // One entry of Spec.HostPath.
  function ParseHost(entry: string): Parsed<HostMount> {
    var parts := Split(Trim(entry), ':');
    if parts == [] then Bad(NoSegments) else
    var host := Trim(parts[0]);
    if !IsAbs(host) then Bad(HostNotAbsolute)
    else if |parts| == 1 then Good(HostMount(host, host))
    else
      var mount := Trim(parts[1]);
      if IsAbs(mount) then Good(HostMount(host, mount)) else Bad(MountNotAbsolute)
  }

  // One entry of Spec.Env.
  function ParseEnv(entry: string): Parsed<EnvVar> {
    var parts := Split(entry, '=');
    if |parts| != 2 then Bad(NotOnePair)
    else if Trim(parts[0]) == "" then Bad(BlankKey)
    else Good(EnvVar(Trim(parts[0]), Trim(parts[1])))
  }

  // Some character is not a space.
  ghost predicate NotBlank(s: string) {
    exists i :: 0 <= i < |s| && !IsSpace(s[i])
  }

  lemma NotBlankIff(s: string)
    ensures Trim(s) != "" <==> NotBlank(s)
  {
    var j, k := TrimIsExact(s);
    if Trim(s) != "" {
      assert !IsSpace(s[j]) by {
        assert s[j..k][0] == s[j];
      }
    }
  }

  // "key=value" is accepted exactly if there is one equals sign and the key is not blank.
  lemma EnvAcceptedIff(entry: string)
    ensures ParseEnv(entry).Good? <==>
              exists k, v :: entry == k + "=" + v && '=' !in k && '=' !in v && NotBlank(k)
  {
    var parts := Split(entry, '=');
    if ParseEnv(entry).Good? {
      JoinSplit(entry, '=');
      PartsAreFree(entry, '=');
      assert parts == [parts[0]] + [parts[1]];
      assert entry == parts[0] + "=" + parts[1];
      NotBlankIff(parts[0]);
    }
    forall k, v | entry == k + "=" + v && '=' !in k && '=' !in v && NotBlank(k) ensures ParseEnv(entry).Good? {
      NotBlankIff(k);
      EnvRoundTrip(k, v);
    }
  }

  lemma EnvRoundTrip(k: string, v: string)
    requires '=' !in k && '=' !in v && Trim(k) != ""
    ensures ParseEnv(k + "=" + v) == Good(EnvVar(Trim(k), Trim(v)))
  {
    SplitConcat(k, v, '=');
    SplitWhole(k, '=');
    SplitWhole(v, '=');
  }

  lemma AbsIsKept(path: string)
    requires IsAbs(path) && Trimmed(path)
    ensures Trim(path) == path
  {
    TrimTrims(path);
  }

  // A pair of trimmed, absolute paths without colons parses back to itself, a single one to itself
  // twice; a third segment is ignored.
  lemma HostRoundTrip(host: string, mount: string, rest: string)
    requires IsAbs(host) && Trimmed(host) && ':' !in host
    requires IsAbs(mount) && Trimmed(mount) && ':' !in mount
    ensures ParseHost(host) == Good(HostMount(host, host))
    ensures ParseHost(host + ":" + mount) == Good(HostMount(host, mount))
    ensures Trimmed(rest) && rest != "" ==> ParseHost(host + ":" + mount + ":" + rest) == Good(HostMount(host, mount))
  {
    AbsIsKept(host);
    AbsIsKept(mount);
    SplitWhole(host, ':');
    SplitWhole(mount, ':');
    SplitConcat(host, mount, ':');
    var pair := host + ":" + mount;
    assert pair[0] == '/' && pair[|pair| - 1] == mount[|mount| - 1];
    TrimTrims(pair);
    if Trimmed(rest) && rest != "" {
      var all := pair + ":" + rest;
      assert all[0] == '/' && all[|all| - 1] == rest[|rest| - 1];
      TrimTrims(all);
      SplitConcat(pair, rest, ':');
      SplitNotEmpty(rest, ':');
    }
  }

  // The text is a pair of colon-free paths, absolute once trimmed, or starts with one and a colon.
  predicate IsPair(text: string, host: string, mount: string) {
    && ':' !in host && ':' !in mount && IsAbs(Trim(host)) && IsAbs(Trim(mount))
    && (text == host + ":" + mount || host + ":" + mount + ":" <= text)
  }

  // An entry is accepted exactly if, trimmed, it is an absolute path without a colon, which is then
  // mounted at the same place, or such a pair.
  lemma HostAcceptedIff(entry: string)
    ensures var text := Trim(entry);
            && (ParseHost(entry).Good? <==>
                  (':' !in text && IsAbs(text)) || exists h, m :: IsPair(text, h, m))
            && (':' !in text && IsAbs(text) ==> ParseHost(entry) == Good(HostMount(text, text)))
            && forall h, m :: IsPair(text, h, m) ==> ParseHost(entry) == Good(HostMount(Trim(h), Trim(m)))
  {
    var text := Trim(entry);
    TrimTrims(entry);
    TrimTrims(text);
    SplitWhole(text, ':');
    if ParseHost(entry).Good? && ':' in text {
      PairOf(text);
    }
    forall h, m | IsPair(text, h, m) ensures ParseHost(entry) == Good(HostMount(Trim(h), Trim(m))) {
      PairSplits(text, h, m);
    }
  }

  // The check for an entry without segments never fires.
  lemma AlwaysASegment(entry: string)
    ensures ParseHost(entry) != Bad(NoSegments)
  {
    SplitNotEmpty(Trim(entry), ':');
  }

  lemma PairSplits(text: string, h: string, m: string)
    requires IsPair(text, h, m)
    ensures |Split(text, ':')| >= 2 && Split(text, ':')[0] == h && Split(text, ':')[1] == m
  {
    SplitWhole(h, ':');
    SplitWhole(m, ':');
    SplitConcat(h, m, ':');
    var pair := h + ":" + m;
    if text != pair {
      var rest := text[|pair| + 1..];
      assert text == pair + ":" + rest;
      SplitConcat(pair, rest, ':');
    }
  }

  lemma PairOf(text: string)
    requires var parts := Split(text, ':'); |parts| >= 2 && IsAbs(Trim(parts[0])) && IsAbs(Trim(parts[1]))
    ensures IsPair(text, Split(text, ':')[0], Split(text, ':')[1])
  {
    var parts := Split(text, ':');
    JoinSplit(text, ':');
    PartsAreFree(text, ':');
    var tail := Join(parts[1..], ':');
    assert text == parts[0] + ":" + tail;
    if |parts| > 2 {
      assert parts[1..][1..] == parts[2..];
      assert tail == parts[1] + ":" + Join(parts[2..], ':');
      assert text == parts[0] + ":" + parts[1] + ":" + Join(parts[2..], ':');
    }
  }

  ghost predicate AllHostsGood(entries: seq<string>) {
    forall i :: 0 <= i < |entries| ==> ParseHost(entries[i]).Good?
  }

  ghost predicate AllEnvsGood(entries: seq<string>) {
    forall i :: 0 <= i < |entries| ==> ParseEnv(entries[i]).Good?
  }

  // The first entry that does not parse fails for this reason.
  ghost predicate FirstBadHost(entries: seq<string>, why: Problem) {
    exists k :: 0 <= k < |entries| && ParseHost(entries[k]) == Bad(why) && AllHostsGood(entries[..k])
  }

  ghost predicate FirstBadEnv(entries: seq<string>, why: Problem) {
    exists k :: 0 <= k < |entries| && ParseEnv(entries[k]) == Bad(why) && AllEnvsGood(entries[..k])
  }

  ghost function Hosts(entries: seq<string>): seq<HostMount>
    requires AllHostsGood(entries)
  {
    seq(|entries|, i requires 0 <= i < |entries| => ParseHost(entries[i]).value)
  }

  ghost function Envs(entries: seq<string>): seq<EnvVar>
    requires AllEnvsGood(entries)
  {
    seq(|entries|, i requires 0 <= i < |entries| => ParseEnv(entries[i]).value)
  }

  function HostVolumes(hosts: seq<HostMount>): seq<Volume> {
    seq(|hosts|, i requires 0 <= i < |hosts| => Volume(HostVolume(i), HostPath(hosts[i].host)))
  }

  function HostMounts(hosts: seq<HostMount>): seq<Mount> {
    seq(|hosts|, i requires 0 <= i < |hosts| => Mount(HostVolume(i), hosts[i].mount))
  }

  // The first loop of applyAppConfig; the first bad entry decides the error.
  method ParseHostPaths(entries: seq<string>) returns (error: Option<Problem>, hosts: seq<HostMount>)
    ensures error.None? <==> AllHostsGood(entries)
    ensures error.Some? ==> FirstBadHost(entries, error.value)
    ensures error.None? ==> hosts == Hosts(entries)
  {
    error, hosts := None, [];
    for i := 0 to |entries|
      invariant error.None? && |hosts| == i
      invariant forall j :: 0 <= j < i ==> ParseHost(entries[j]) == Good(hosts[j])
    {
      SplitNotEmpty(Trim(entries[i]), ':');
      var pair := Split(Trim(entries[i]), ':');
      var hostpath := Trim(pair[0]);
      if !IsAbs(hostpath) {
        error := Some(HostNotAbsolute);
        assert ParseHost(entries[i]) == Bad(error.value) && AllHostsGood(entries[..i]);
        return;
      }
      var mountpoint := hostpath;
      if |pair| > 1 {
        mountpoint := Trim(pair[1]);
        if !IsAbs(mountpoint) {
          error := Some(MountNotAbsolute);
          assert ParseHost(entries[i]) == Bad(error.value) && AllHostsGood(entries[..i]);
          return;
        }
      }
      hosts := hosts + [HostMount(hostpath, mountpoint)];
    }
  }

  // The second loop.
  method ParseEnvs(entries: seq<string>) returns (error: Option<Problem>, envs: seq<EnvVar>)
    ensures error.None? <==> AllEnvsGood(entries)
    ensures error.Some? ==> FirstBadEnv(entries, error.value)
    ensures error.None? ==> envs == Envs(entries)
  {
    error, envs := None, [];
    for i := 0 to |entries|
      invariant error.None? && |envs| == i
      invariant forall j :: 0 <= j < i ==> Good(envs[j]) == ParseEnv(entries[j])
    {
      var pair := Split(entries[i], '=');
      if |pair| != 2 {
        error := Some(NotOnePair);
        assert ParseEnv(entries[i]) == Bad(error.value) && AllEnvsGood(entries[..i]);
        return;
      }
      var env := EnvVar(Trim(pair[0]), Trim(pair[1]));
      if |env.name| == 0 {
        error := Some(BlankKey);
        assert ParseEnv(entries[i]) == Bad(error.value) && AllEnvsGood(entries[..i]);
        return;
      }
      envs := envs + [env];
    }
  }

  // --- environment ----------------------------------------------------------------------------

  // The variables a container sees: a later entry overrides an earlier one.
  function EnvMap(env: seq<EnvVar>): map<string, string> {
    if env == [] then map[] else EnvMap(env[..|env| - 1])[env[|env| - 1].name := env[|env| - 1].value]
  }

  lemma {:induction false} EnvOverrides(a: seq<EnvVar>, b: seq<EnvVar>)
    ensures EnvMap(a + b) == EnvMap(a) + EnvMap(b)
    decreases |b|
  {
    if b == [] {
      assert a + b == a;
    } else {
      assert (a + b)[..|a + b| - 1] == a + b[..|b| - 1];
      EnvOverrides(a, b[..|b| - 1]);
    }
  }

  // PATH for an image that sets one: the fixed directories, then each entry under the app root.
  function ImagePath(defaults: Defaults, paths: string): string {
    PATH_PREFIX + Join(Rooted(defaults, Split(paths, ':')), ':')
  }

  function Rooted(defaults: Defaults, parts: seq<string>): seq<string> {
    seq(|parts|, i requires 0 <= i < |parts| => defaults.rootJoin(parts[i]))
  }

  // Joining to the root adds no colon.
  ghost predicate AddsNoColon(defaults: Defaults) {
    forall s: string :: ':' !in s ==> ':' !in defaults.rootJoin(s)
  }

  const LAST_THREE := ["/usr/bin", "/sbin", "/bin"]
  const LAST_FIVE := ["/usr/local/bin", "/usr/sbin"] + LAST_THREE

  lemma JoinCons(head: string, rest: seq<string>)
    requires rest != []
    ensures Join([head] + rest, ':') == head + ":" + Join(rest, ':')
  {
    assert ([head] + rest)[1..] == rest;
  }

  lemma JoinThree()
    ensures Join(LAST_THREE, ':') == "/usr/bin:/sbin:/bin"
  {
    JoinCons("/sbin", ["/bin"]);
    JoinCons("/usr/bin", ["/sbin", "/bin"]);
    assert ["/sbin"] + ["/bin"] == ["/sbin", "/bin"];
    assert ["/usr/bin"] + ["/sbin", "/bin"] == LAST_THREE;
  }

  lemma JoinFive()
    ensures Join(LAST_FIVE, ':') == "/usr/local/bin:/usr/sbin:" + Join(LAST_THREE, ':')
  {
    JoinCons("/usr/sbin", LAST_THREE);
    JoinCons("/usr/local/bin", ["/usr/sbin"] + LAST_THREE);
    assert ["/usr/local/bin"] + (["/usr/sbin"] + LAST_THREE) == LAST_FIVE;
    var tail := Join(LAST_THREE, ':');
    assert "/usr/local/bin" + ":" + ("/usr/sbin" + ":" + tail) == "/usr/local/bin:/usr/sbin:" + tail;
  }

  lemma PrefixIsFixed()
    ensures PATH_PREFIX == Join(FIXED_PATHS, ':') + ":"
  {
    JoinThree();
    JoinFive();
    JoinCons("/usr/local/sbin", LAST_FIVE);
    assert ["/usr/local/sbin"] + LAST_FIVE == FIXED_PATHS;
    LiteralPrefix();
  }

  lemma LiteralPrefix()
    ensures "/usr/local/sbin" + ":" + ("/usr/local/bin:/usr/sbin:" + "/usr/bin:/sbin:/bin") + ":" == PATH_PREFIX
  {
    var head, middle, tail := "/usr/local/sbin", "/usr/local/bin:/usr/sbin:", "/usr/bin:/sbin:/bin";
    assert head + ":" + (middle + tail) + ":" == (head + ":") + middle + (tail + ":");
    assert head + ":" == "/usr/local/sbin:";
    assert tail + ":" == "/usr/bin:/sbin:/bin:";
  }

  // Split at its colons, PATH is the six fixed directories followed by every directory of the
  // image, each under the app root.
  lemma PathParts(defaults: Defaults, paths: string)
    requires AddsNoColon(defaults)
    ensures Split(ImagePath(defaults, paths), ':') == FIXED_PATHS + Rooted(defaults, Split(paths, ':'))
  {
    var rooted := Rooted(defaults, Split(paths, ':'));
    SplitNotEmpty(paths, ':');
    PartsAreFree(paths, ':');
    SplitJoin(rooted, ':');
    PrefixIsFixed();
    SplitJoin(FIXED_PATHS, ':');
    SplitConcat(Join(FIXED_PATHS, ':'), Join(rooted, ':'), ':');
    assert ImagePath(defaults, paths) == Join(FIXED_PATHS, ':') + [':'] + Join(rooted, ':');
  }

  // --- assembly -------------------------------------------------------------------------------

  // With a default context image the app's own shell and distro are not looked at.
  function ShellOf(defaults: Defaults, spec: Spec): string {
    if defaults.contextImage == "" && spec.shell != "" then spec.shell else defaults.shell
  }

  function DistroOf(defaults: Defaults, spec: Spec): string {
    if defaults.contextImage == "" && spec.distro != "" then spec.distro else defaults.distro
  }

  function Lower(s: string): string {
    seq(|s|, i requires 0 <= i < |s| => if 'A' <= s[i] <= 'Z' then (s[i] as int + 32) as char else s[i])
  }

  function ContextImage(defaults: Defaults, spec: Spec): string {
    if defaults.contextImage != "" then defaults.contextImage
    else "docker.io/warmmetal/app-context-" + Lower(ShellOf(defaults, spec)) + "-" + Lower(DistroOf(defaults, spec)) + ":latest"
  }

  function BuiltIns(defaults: Defaults, spec: Spec): seq<EnvVar> {
    [EnvVar("APP_ROOT", APP_ROOT), EnvVar("DISTRO", DistroOf(defaults, spec)), EnvVar("SHELL", ShellOf(defaults, spec))]
  }

  function PathEnv(defaults: Defaults, image: ImageConfig): seq<EnvVar> {
    if image.paths == "" then [] else [EnvVar("PATH", ImagePath(defaults, image.paths))]
  }

  function RcFile(shell: string): string { if shell == SHELL_ZSH then ".zshrc" else ".bash_profile" }
  function HistoryFile(shell: string): string { if shell == SHELL_ZSH then ".zsh_history" else ".bash_history" }

  // What the shell context config map adds: its data by key, or None if there is no config map.
  function ShellVolumes(data: Option<map<string, string>>, rc: string, history: string): seq<Volume> {
    if data.None? then [] else
    (if rc in data.value && data.value[rc] != "" then [Volume(RC_VOLUME, ShellFile(rc, false))] else [])
    + (if history in data.value then [Volume(HISTORY_VOLUME, ShellFile(history, true))] else [])
  }

  function ShellMounts(data: Option<map<string, string>>, rc: string, history: string): seq<Mount> {
    if data.None? then [] else
    (if rc in data.value && data.value[rc] != "" then [Mount(RC_VOLUME, "/root/" + rc)] else [])
    + (if history in data.value then [Mount(HISTORY_VOLUME, "/root/" + history)] else [])
  }

  function AddedVolumes(hosts: seq<HostMount>, image: string, data: Option<map<string, string>>, shell: string): seq<Volume> {
    HostVolumes(hosts) + [Volume(APP_VOLUME, AppImage(image))] + ShellVolumes(data, RcFile(shell), HistoryFile(shell))
  }

  function AddedMounts(hosts: seq<HostMount>, data: Option<map<string, string>>, shell: string): seq<Mount> {
    HostMounts(hosts) + [Mount(APP_VOLUME, APP_ROOT)] + ShellMounts(data, RcFile(shell), HistoryFile(shell))
  }

  function WithSysAdmin(s: Security): Security {
    if s.Capabilities? then Capabilities(s.add + ["SYS_ADMIN"]) else Capabilities(["SYS_ADMIN"])
  }

  // The target container after assembly.
  function Workspace(c: Container, defaults: Defaults, spec: Spec, image: ImageConfig, envs: seq<EnvVar>, mounts: seq<Mount>): Container {
    Container(
      APP_CONTAINER,
      ContextImage(defaults, spec),
      c.env + BuiltIns(defaults, spec) + PathEnv(defaults, image) + envs,
      if c.workingDir == "" && image.workdir != "" then defaults.rootJoin(image.workdir) else c.workingDir,
      true,
      c.mounts + mounts,
      WithSysAdmin(c.security))
  }

  class PodObject {
    var name: string
    var namespace: string
    var owner: string
    var labels: map<string, string>
    var volumes: seq<Volume>
    var containers: seq<Container>
    // The two annotations.
    var specHash: Option<int>
    var specDump: Option<Spec>

    constructor (labels: map<string, string>, volumes: seq<Volume>, containers: seq<Container>)
      ensures this.labels == labels && this.volumes == volumes && this.containers == containers
    {
      this.name, this.namespace, this.owner := "", "", "";
      this.labels, this.volumes, this.containers := labels, volumes, containers;
      this.specHash, this.specDump := None, None;
    }
  }

  // installShellContext
  method InstallShellContext(pod: PodObject, target: nat, data: map<string, string>, rc: string, history: string)
    requires target < |pod.containers|
    modifies pod`volumes, pod`containers
    ensures pod.volumes == old(pod.volumes) + ShellVolumes(Some(data), rc, history)
    ensures var c := old(pod.containers)[target];
            pod.containers == old(pod.containers)[target := c.(mounts := c.mounts + ShellMounts(Some(data), rc, history))]
  {
    var c := pod.containers[target];
    var volumes, mounts := [], [];
    if rc in data && |data[rc]| > 0 {
      volumes := volumes + [Volume(RC_VOLUME, ShellFile(rc, false))];
      mounts := mounts + [Mount(RC_VOLUME, "/root/" + rc)];
    }
    if history in data {
      volumes := volumes + [Volume(HISTORY_VOLUME, ShellFile(history, true))];
      mounts := mounts + [Mount(HISTORY_VOLUME, "/root/" + history)];
    }
    assert volumes == ShellVolumes(Some(data), rc, history);
    assert mounts == ShellMounts(Some(data), rc, history);
    pod.volumes := pod.volumes + volumes;
    pod.containers := pod.containers[target := c.(mounts := c.mounts + mounts)];
  }

  // The shell resource and history volumes, if there is a config map.
  method InstallShell(pod: PodObject, target: nat, data: Option<map<string, string>>, shell: string) returns (ok: bool)
    requires target < |pod.containers|
    modifies pod`volumes, pod`containers
    ensures ok <==> (data.Some? ==> ValidShell(shell))
    ensures ok ==> pod.volumes == old(pod.volumes) + ShellVolumes(data, RcFile(shell), HistoryFile(shell))
    ensures ok ==>
              var c := old(pod.containers)[target];
              pod.containers == old(pod.containers)[target := c.(mounts := c.mounts + ShellMounts(data, RcFile(shell), HistoryFile(shell)))]
  {
    if data.None? {
      assert pod.containers[target].mounts + [] == pod.containers[target].mounts;
      return true;
    }
    if shell != SHELL_ZSH && shell != SHELL_BASH {
      return false;
    }
    InstallShellContext(pod, target, data.value, RcFile(shell), HistoryFile(shell));
    assert data == Some(data.value);
    ok := true;
  }

  lemma AddedInOrder(base: seq<Volume>, baseMounts: seq<Mount>, hosts: seq<HostMount>, image: string,
                     data: Option<map<string, string>>, shell: string)
    ensures base + (HostVolumes(hosts) + [Volume(APP_VOLUME, AppImage(image))])
                 + ShellVolumes(data, RcFile(shell), HistoryFile(shell)) == base + AddedVolumes(hosts, image, data, shell)
    ensures baseMounts + (HostMounts(hosts) + [Mount(APP_VOLUME, APP_ROOT)])
                       + ShellMounts(data, RcFile(shell), HistoryFile(shell)) == baseMounts + AddedMounts(hosts, data, shell)
  {
  }

  // The volumes part of applyAppConfig.
  method InstallVolumes(pod: PodObject, target: nat, hosts: seq<HostMount>, image: string,
                        data: Option<map<string, string>>, shell: string)
    returns (ok: bool)
    requires target < |pod.containers|
    modifies pod`volumes, pod`containers
    ensures ok <==> (data.Some? ==> ValidShell(shell))
    ensures ok ==> pod.volumes == old(pod.volumes) + AddedVolumes(hosts, image, data, shell)
    ensures ok ==>
              var c := old(pod.containers)[target];
              pod.containers == old(pod.containers)[target := c.(mounts := c.mounts + AddedMounts(hosts, data, shell))]
  {
    var c := pod.containers[target];
    AddedInOrder(pod.volumes, c.mounts, hosts, image, data, shell);
    pod.volumes := pod.volumes + (HostVolumes(hosts) + [Volume(APP_VOLUME, AppImage(image))]);
    var mounts := HostMounts(hosts) + [Mount(APP_VOLUME, APP_ROOT)];
    pod.containers := pod.containers[target := c.(mounts := c.mounts + mounts)];
    ok := InstallShell(pod, target, data, shell);
  }

  // The value of PATH, one entry of the image's PATH after the other.
  method BuildPath(defaults: Defaults, paths: string) returns (path: string)
    ensures path == ImagePath(defaults, paths)
  {
    var pathArray := Split(paths, ':');
    var envPaths := new string[|pathArray|];
    for i := 0 to |pathArray|
      invariant forall j :: 0 <= j < i ==> envPaths[j] == defaults.rootJoin(pathArray[j])
    {
      envPaths[i] := defaults.rootJoin(pathArray[i]);
    }
    assert envPaths[..] == Rooted(defaults, pathArray);
    path := PATH_PREFIX + Join(envPaths[..], ':');
  }

  // The container part: image, name, environment, working directory.
  method DressContainer(c: Container, defaults: Defaults, spec: Spec, image: ImageConfig, envs: seq<EnvVar>)
    returns (d: Container)
    ensures d == Workspace(c, defaults, spec, image, envs, []).(security := c.security)
  {
    d := c.(image := ContextImage(defaults, spec), name := APP_CONTAINER);
    d := d.(env := d.env + BuiltIns(defaults, spec));
    if image.paths != "" {
      var path := BuildPath(defaults, image.paths);
      d := d.(env := d.env + [EnvVar("PATH", path)]);
    }
    if d.workingDir == "" && image.workdir != "" {
      d := d.(workingDir := defaults.rootJoin(image.workdir));
    }
    d := d.(env := d.env + envs, stdin := true);
    assert c.env + BuiltIns(defaults, spec) + [] == c.env + BuiltIns(defaults, spec);
    assert c.mounts + [] == c.mounts;
  }

  ghost predicate Assembles(defaults: Defaults, spec: Spec, data: Option<map<string, string>>, image: Option<ImageConfig>) {
    && AllHostsGood(spec.hostPath) && AllEnvsGood(spec.env) && image.Some?
    && (data.Some? ==> ValidShell(ShellOf(defaults, spec)))
  }

  // applyAppConfig: suffix is the random part of the name, image what the CRI answers.
  method ApplyAppConfig(pod: PodObject, target: nat, app: CliApp, namespace: string, suffix: string,
                        defaults: Defaults, data: Option<map<string, string>>, image: Option<ImageConfig>)
    returns (r: Applied)
    requires target < |pod.containers|
    modifies pod
    ensures r.Success? <==> Assembles(defaults, app.spec, data, image)
    ensures !AllHostsGood(app.spec.hostPath) ==>
              r.Error? && FirstBadHost(app.spec.hostPath, r.why) && unchanged(pod)
    ensures AllHostsGood(app.spec.hostPath) && !AllEnvsGood(app.spec.env) ==>
              r.Error? && FirstBadEnv(app.spec.env, r.why) && unchanged(pod)
    ensures AllHostsGood(app.spec.hostPath) && AllEnvsGood(app.spec.env) && image.None? ==> r == Error(NoImageConfig)
    ensures r.Panicked? ==> data.Some? && !ValidShell(ShellOf(defaults, app.spec))
    ensures ValidShell(defaults.shell) && (app.spec.shell == "" || ValidShell(app.spec.shell)) ==> !r.Panicked?
    ensures r.Success? ==>
              var c := old(pod.containers)[target];
              var shell := ShellOf(defaults, app.spec);
              var hosts := Hosts(app.spec.hostPath);
              && pod.name == app.name + "-" + suffix && pod.namespace == namespace && pod.owner == app.name
              && pod.labels == old(pod.labels)[APP_LABEL := app.name]
              && pod.volumes == old(pod.volumes) + AddedVolumes(hosts, c.image, data, shell)
              && pod.containers == old(pod.containers)[target :=
                   Workspace(c, defaults, app.spec, image.value, Envs(app.spec.env), AddedMounts(hosts, data, shell))]
  {
    var error, hosts := ParseHostPaths(app.spec.hostPath);
    if error.Some? {
      return Error(error.value);
    }
    var envError, envs := ParseEnvs(app.spec.env);
    if envError.Some? {
      return Error(envError.value);
    }
    pod.name := app.name + "-" + suffix;
    pod.namespace := namespace;
    pod.owner := app.name;
    pod.labels := pod.labels[APP_LABEL := app.name];

    var c := pod.containers[target];
    if image.None? {
      pod.containers := pod.containers[target := c.(image := ContextImage(defaults, app.spec), name := APP_CONTAINER,
                                                    env := c.env + BuiltIns(defaults, app.spec))];
      return Error(NoImageConfig);
    }
    var dressed := DressContainer(c, defaults, app.spec, image.value, envs);
    pod.containers := pod.containers[target := dressed];
    var ok := InstallVolumes(pod, target, hosts, c.image, data, ShellOf(defaults, app.spec));
    if !ok {
      return Panicked;
    }
    dressed := pod.containers[target];
    pod.containers := pod.containers[target := dressed.(security := WithSysAdmin(dressed.security))];
    assert c.mounts + [] == c.mounts;
    r := Success;
  }

  // --- what the assembled Pod is good for -----------------------------------------------------

  ghost predicate DistinctVolumes(volumes: seq<Volume>) {
    forall i, j :: 0 <= i < j < |volumes| ==> volumes[i].name != volumes[j].name
  }

  predicate Generated(name: string) {
    name == APP_VOLUME || name == RC_VOLUME || name == HISTORY_VOLUME || "hostpath-" <= name
  }

  lemma HostVolumesDiffer(i: nat, j: nat)
    requires i != j
    ensures HostVolume(i) != HostVolume(j)
  {
    if HostVolume(i) == HostVolume(j) {
      assert HostVolume(i)[9..] == Decimal(i) && HostVolume(j)[9..] == Decimal(j);
      DecimalInjective(i, j);
    }
  }

  lemma FixedNamesDiffer()
    ensures APP_VOLUME != RC_VOLUME && APP_VOLUME != HISTORY_VOLUME && RC_VOLUME != HISTORY_VOLUME
    ensures forall i: nat :: HostVolume(i) != APP_VOLUME && HostVolume(i) != RC_VOLUME && HostVolume(i) != HISTORY_VOLUME
  {
    assert RC_VOLUME[6] == 'r' && HISTORY_VOLUME[6] == 'h' && APP_VOLUME[0] == 'a' && RC_VOLUME[0] == 's' && HISTORY_VOLUME[0] == 's';
    forall i: nat ensures HostVolume(i)[0] == 'h' {
    }
  }

  lemma ShellPairUp(data: Option<map<string, string>>, rc: string, history: string)
    ensures var volumes, mounts := ShellVolumes(data, rc, history), ShellMounts(data, rc, history);
            && |mounts| == |volumes| && DistinctVolumes(volumes)
            && forall i :: 0 <= i < |volumes| ==>
                 && mounts[i].name == volumes[i].name && volumes[i].name in {RC_VOLUME, HISTORY_VOLUME}
                 && volumes[i].source.ShellFile? && mounts[i].path == "/root/" + volumes[i].source.subPath
                 && volumes[i].name == (if volumes[i].source.history then HISTORY_VOLUME else RC_VOLUME)
  {
    FixedNamesDiffer();
  }

  lemma HostPairUp(hosts: seq<HostMount>)
    ensures var volumes, mounts := HostVolumes(hosts), HostMounts(hosts);
            && |mounts| == |volumes| && DistinctVolumes(volumes)
            && forall i :: 0 <= i < |volumes| ==> mounts[i].name == volumes[i].name && volumes[i].name == HostVolume(i)
  {
    var volumes := HostVolumes(hosts);
    forall i, j | 0 <= i < j < |volumes| ensures volumes[i].name != volumes[j].name {
      HostVolumesDiffer(i, j);
    }
  }

  // What mounting a volume at a path means: a host path at its mount point, the image of the base
  // container at the app root, a shell file under its own name in the home of root.
  ghost predicate MountsRight(v: Volume, m: Mount, hosts: seq<HostMount>, image: string) {
    match v.source
    case HostPath(path) => HostMount(path, m.path) in hosts
    case AppImage(i) => i == image && m.path == "/app-root"
    case ShellFile(file, history) => m.path == "/root/" + file && v.name == if history then "shell-history" else "shell-rc"
  }

  lemma AddedNames(hosts: seq<HostMount>, image: string, data: Option<map<string, string>>, shell: string)
    ensures var volumes, mounts := AddedVolumes(hosts, image, data, shell), AddedMounts(hosts, data, shell);
            && |mounts| == |volumes| && DistinctVolumes(volumes)
            && forall i :: 0 <= i < |volumes| ==> mounts[i].name == volumes[i].name && Generated(volumes[i].name)
  {
    FixedNamesDiffer();
    HostPairUp(hosts);
    ShellPairUp(data, RcFile(shell), HistoryFile(shell));
  }

  // The host paths come first and in their order, then the image, then the shell files.
  lemma AddedSources(hosts: seq<HostMount>, image: string, data: Option<map<string, string>>, shell: string)
    ensures var volumes, mounts := AddedVolumes(hosts, image, data, shell), AddedMounts(hosts, data, shell);
            && |mounts| == |volumes| > |hosts|
            && (forall i :: 0 <= i < |hosts| ==>
                  && volumes[i] == Volume("hostpath-" + Decimal(i), HostPath(hosts[i].host))
                  && mounts[i].path == hosts[i].mount)
            && volumes[|hosts|].source == AppImage(image) && mounts[|hosts|].path == "/app-root"
            && forall i :: |hosts| < i < |volumes| ==>
                 volumes[i].source.ShellFile? && MountsRight(volumes[i], mounts[i], hosts, image)
  {
    ShellPairUp(data, RcFile(shell), HistoryFile(shell));
  }

  // Every added volume has its own name, a generated one, and is mounted once, by the mount at the
  // same place: the host paths in their order, then the image, then the shell files.
  lemma AddedPairUp(hosts: seq<HostMount>, image: string, data: Option<map<string, string>>, shell: string)
    ensures var volumes, mounts := AddedVolumes(hosts, image, data, shell), AddedMounts(hosts, data, shell);
            && |mounts| == |volumes| && DistinctVolumes(volumes)
            && (forall i :: 0 <= i < |volumes| ==>
                  && mounts[i].name == volumes[i].name && Generated(volumes[i].name)
                  && MountsRight(volumes[i], mounts[i], hosts, image))
            && |volumes| > |hosts|
            && (forall i :: 0 <= i < |hosts| ==>
                  && volumes[i] == Volume("hostpath-" + Decimal(i), HostPath(hosts[i].host))
                  && mounts[i].path == hosts[i].mount)
            && volumes[|hosts|].source == AppImage(image)
            && forall i :: |hosts| < i < |volumes| ==> volumes[i].source.ShellFile?
  {
    AddedNames(hosts, image, data, shell);
    AddedSources(hosts, image, data, shell);
    var volumes, mounts := AddedVolumes(hosts, image, data, shell), AddedMounts(hosts, data, shell);
    forall i | 0 <= i < |volumes| ensures MountsRight(volumes[i], mounts[i], hosts, image) {
      if i < |hosts| {
        assert hosts[i] in hosts && hosts[i] == HostMount(hosts[i].host, hosts[i].mount);
      }
    }
  }

  // If the base Pod uses none of the generated names, all volume names of the result are distinct,
  // and every added mount resolves to exactly one volume, the right one.
  lemma VolumesAreDistinct(base: seq<Volume>, hosts: seq<HostMount>, image: string,
                           data: Option<map<string, string>>, shell: string)
    requires DistinctVolumes(base) && forall i :: 0 <= i < |base| ==> !Generated(base[i].name)
    ensures var all := base + AddedVolumes(hosts, image, data, shell);
            var mounts := AddedMounts(hosts, data, shell);
            && DistinctVolumes(all)
            && forall m :: 0 <= m < |mounts| ==>
                 all[|base| + m].name == mounts[m].name &&
                 MountsRight(all[|base| + m], mounts[m], hosts, image) &&
                 (m < |hosts| ==>
                    all[|base| + m].source == HostPath(hosts[m].host) && mounts[m].path == hosts[m].mount) &&
                 forall v :: 0 <= v < |all| && all[v].name == mounts[m].name ==> v == |base| + m
  {
    AddedPairUp(hosts, image, data, shell);
    var added := AddedVolumes(hosts, image, data, shell);
    var all := base + added;
    forall i, j | 0 <= i < j < |all| ensures all[i].name != all[j].name {
      if j >= |base| {
        assert all[j] == added[j - |base|];
        assert i >= |base| ==> all[i] == added[i - |base|];
      }
    }
  }

  predicate HasFile(data: Option<map<string, string>>, file: string) {
    data.Some? && file in data.value
  }

  // The shell decides which files of the config map are mounted: the resource file unless it is
  // missing or empty, the history file unless it is missing.
  lemma ZshFilesAre(hosts: seq<HostMount>, data: Option<map<string, string>>)
    ensures var mounts := AddedMounts(hosts, data, "zsh");
            && (Mount("shell-rc", "/root/.zshrc") in mounts <==> HasFile(data, ".zshrc") && data.value[".zshrc"] != "")
            && (Mount("shell-history", "/root/.zsh_history") in mounts <==> HasFile(data, ".zsh_history"))
  {
    FilesAre(hosts, data, "zsh", ".zshrc", ".zsh_history");
    assert "/root/" + ".zshrc" == "/root/.zshrc";
    assert "/root/" + ".zsh_history" == "/root/.zsh_history";
  }

  lemma BashFilesAre(hosts: seq<HostMount>, data: Option<map<string, string>>)
    ensures var mounts := AddedMounts(hosts, data, "bash");
            && (Mount("shell-rc", "/root/.bash_profile") in mounts <==>
                  HasFile(data, ".bash_profile") && data.value[".bash_profile"] != "")
            && (Mount("shell-history", "/root/.bash_history") in mounts <==> HasFile(data, ".bash_history"))
  {
    FilesAre(hosts, data, "bash", ".bash_profile", ".bash_history");
    assert "/root/" + ".bash_profile" == "/root/.bash_profile";
    assert "/root/" + ".bash_history" == "/root/.bash_history";
  }

  lemma FilesAre(hosts: seq<HostMount>, data: Option<map<string, string>>, shell: string, rc: string, history: string)
    requires RcFile(shell) == rc && HistoryFile(shell) == history
    ensures Mount("shell-rc", "/root/" + rc) in AddedMounts(hosts, data, shell) <==>
              HasFile(data, rc) && data.value[rc] != ""
    ensures Mount("shell-history", "/root/" + history) in AddedMounts(hosts, data, shell) <==> HasFile(data, history)
  {
    FixedNamesDiffer();
    assert forall m :: m in HostMounts(hosts) ==> exists i: nat :: m.name == HostVolume(i);
  }

  // The target container besides its environment and mounts: its own working directory wins over the
  // image's, and it keeps the capabilities it has.
  lemma WorkspaceIs(c: Container, defaults: Defaults, spec: Spec, image: ImageConfig, envs: seq<EnvVar>, mounts: seq<Mount>)
    ensures var d := Workspace(c, defaults, spec, image, envs, mounts);
            && d.name == "workspace" && d.stdin && c.mounts + mounts == d.mounts
            && (c.workingDir != "" ==> d.workingDir == c.workingDir)
            && (c.workingDir == "" && image.workdir == "" ==> d.workingDir == "")
            && (c.workingDir == "" && image.workdir != "" ==> d.workingDir == defaults.rootJoin(image.workdir))
            && d.security.Capabilities? && "SYS_ADMIN" in d.security.add
            && (forall k :: k in d.security.add ==> k == "SYS_ADMIN" || (c.security.Capabilities? && k in c.security.add))
            && (c.security.Capabilities? ==> c.security.add <= d.security.add)
  {
  }

  // A default context image makes the app's preferences void; without one they win over the defaults.
  lemma PreferenceIff(defaults: Defaults, a: Spec, b: Spec)
    ensures defaults.contextImage != "" ==>
              && ContextImage(defaults, a) == ContextImage(defaults, b) == defaults.contextImage
              && BuiltIns(defaults, a) == BuiltIns(defaults, b)
    ensures ShellOf(defaults, a) == a.shell <==>
              a.shell == defaults.shell || (defaults.contextImage == "" && a.shell != "")
    ensures DistroOf(defaults, a) == a.distro <==>
              a.distro == defaults.distro || (defaults.contextImage == "" && a.distro != "")
  {
  }

  // Lower changes nothing but capitals, into the letter of the same rank.
  lemma LowerIs(s: string)
    ensures |Lower(s)| == |s|
    ensures forall i :: 0 <= i < |s| ==>
              if 'A' <= s[i] <= 'Z' then Lower(s)[i] as int - 'a' as int == s[i] as int - 'A' as int
              else Lower(s)[i] == s[i]
  {
  }

  // For an app that prefers zsh on alpine.
  lemma ContextImageOfZsh(defaults: Defaults, spec: Spec)
    requires defaults.contextImage == "" && spec.shell == "zsh" && spec.distro == "alpine"
    ensures ContextImage(defaults, spec) == "docker.io/warmmetal/app-context-zsh-alpine:latest"
  {
    assert Lower("zsh") == "zsh" && Lower("alpine") == "alpine";
    assert "docker.io/warmmetal/app-context-" + "zsh" + "-" + "alpine" + ":latest" == "docker.io/warmmetal/app-context-zsh-alpine:latest";
  }

  // The variables of the target container: user entries override the image's PATH, which overrides
  // the built-in ones, which override those of the base Pod.
  lemma EnvPrecedence(c: Container, defaults: Defaults, spec: Spec, image: ImageConfig, envs: seq<EnvVar>, mounts: seq<Mount>)
    ensures EnvMap(Workspace(c, defaults, spec, image, envs, mounts).env) ==
            EnvMap(c.env)
            + map["APP_ROOT" := APP_ROOT, "DISTRO" := DistroOf(defaults, spec), "SHELL" := ShellOf(defaults, spec)]
            + (if image.paths == "" then map[] else map["PATH" := ImagePath(defaults, image.paths)])
            + EnvMap(envs)
  {
    EnvOverrides(c.env + BuiltIns(defaults, spec) + PathEnv(defaults, image), envs);
    EnvOverrides(c.env + BuiltIns(defaults, spec), PathEnv(defaults, image));
    EnvOverrides(c.env, BuiltIns(defaults, spec));
    BuiltInMap(defaults, spec);
    var p := PathEnv(defaults, image);
    if p != [] {
      assert p[..|p| - 1] == [];
    }
  }

  lemma BuiltInMap(defaults: Defaults, spec: Spec)
    ensures EnvMap(BuiltIns(defaults, spec)) ==
            map["APP_ROOT" := APP_ROOT, "DISTRO" := DistroOf(defaults, spec), "SHELL" := ShellOf(defaults, spec)]
  {
    var b := BuiltIns(defaults, spec);
    assert b[..2] == [b[0], b[1]] && b[..2][..1] == [b[0]] && [b[0]][..0] == [];
    assert EnvMap([b[0]]) == map[b[0].name := b[0].value];
    assert EnvMap(b[..2]) == EnvMap([b[0]])[b[1].name := b[1].value];
  }
}
