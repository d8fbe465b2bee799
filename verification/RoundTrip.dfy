/** Printing a service into a container and reading it back: exactly which
    configurations survive, part by part, and the round trip as a whole. */
module RoundTrip {
  import opened Text
  import opened Serialised
  import opened Types
  import opened Docker
  import opened DockerSync
  import opened Planner

  // ---- Ports ----

  function PortLine(host: nat, port: nat): string {
    Dec(host) + ":" + Dec(port)
  }

  function HostPort(mapping: string): nat {
    ParseNat(Split(mapping, ':')[0]).GetOr(0)
  }

  function ContainerPort(mapping: string): nat {
    var parts := Split(mapping, ':');
    if |parts| < 2 then 0 else ParseNat(parts[1]).GetOr(0)
  }

  /** `host:container` in canonical decimals. */
  predicate PlainPort(mapping: string) {
    && HostPort(mapping) > 0 && ContainerPort(mapping) > 0
    && mapping == PortLine(HostPort(mapping), ContainerPort(mapping))
  }

  predicate PlainPorts(ports: seq<string>) {
    forall i | 0 <= i < |ports| :: PlainPort(ports[i])
  }

  predicate DistinctContainerPorts(ports: seq<string>) {
    forall i, j | 0 <= i < j < |ports| :: ContainerPort(ports[i]) != ContainerPort(ports[j])
  }

  function PortKey(port: nat): string {
    Dec(port) + "/tcp"
  }

  lemma ParsePortKey(port: nat)
    ensures ParseNat(PortKey(port)) == Some(port)
  {
    DigitRunIs(PortKey(port), |Dec(port)|);
    assert PortKey(port)[..|Dec(port)|] == Dec(port);
    DecRoundTrip(port);
  }

  lemma DigitsNoChar(n: nat, c: char)
    requires !IsDigit(c)
    ensures c !in Dec(n)
  {
  }

  lemma SplitPort(host: nat, port: nat)
    ensures Split(PortLine(host, port), ':') == [Dec(host), Dec(port)]
  {
    DigitsNoChar(host, ':');
    DigitsNoChar(port, ':');
    assert PortLine(host, port) == Dec(host) + [':'] + Dec(port);
    SplitFirst(Dec(host), ':', Dec(port));
    SplitNone(Dec(port), ':');
  }

  lemma BindPlain(bindings: Env, mapping: string)
    requires PlainPort(mapping)
    ensures BindPort(bindings, mapping) == Put(bindings, PortKey(ContainerPort(mapping)), Dec(HostPort(mapping)))
  {
    SplitPort(HostPort(mapping), ContainerPort(mapping));
  }

  function BindingOf(mapping: string): EnvVar {
    EnvVar(PortKey(ContainerPort(mapping)), Dec(HostPort(mapping)))
  }

  function BindingsOf(ports: seq<string>): Env {
    seq(|ports|, i requires 0 <= i < |ports| => BindingOf(ports[i]))
  }

  /** With distinct container ports every mapping gets its own binding. */
  lemma {:induction false} PrintDistinctPorts(ports: seq<string>)
    requires PlainPorts(ports) && DistinctContainerPorts(ports)
    ensures PrintPorts(ports) == BindingsOf(ports)
  {
    hide PlainPort, ContainerPort, HostPort, PortKey, BindPort, Put, Dec;
    if ports != [] {
      var n := |ports| - 1;
      PrintDistinctPorts(ports[..n]);
      BindPlain(PrintPorts(ports[..n]), ports[n]);
      var key := PortKey(ContainerPort(ports[n]));
      forall e | e in BindingsOf(ports[..n]) ensures e.key != key {
        var i :| 0 <= i < n && e == BindingOf(ports[..n][i]);
        ParsePortKey(ContainerPort(ports[i]));
        ParsePortKey(ContainerPort(ports[n]));
      }
      PutNew(PrintPorts(ports[..n]), key, Dec(HostPort(ports[n])));
      assert BindingsOf(ports) == BindingsOf(ports[..n]) + [BindingOf(ports[n])];
    }
  }

  lemma UniqTwice(r: seq<string>, x: string)
    ensures Uniq(r + [x, x]) == if x in r then Uniq(r) else Uniq(r) + [x]
  {
    hide Uniq;
    UniqMore(r, x);
    UniqMore(r + [x], x);
    assert r + [x, x] == r + [x] + [x];
  }

  lemma PortLinesMore(bindings: Env, private: nat, public: nat)
    requires private > 0 && public > 0
    ensures var line := PortLine(public, private);
            PortLines(bindings + [EnvVar(PortKey(private), Dec(public))]) == PortLines(bindings) + [line, line]
  {
    hide Dec, ParseNat, PortKey;
    var b := EnvVar(PortKey(private), Dec(public));
    ParsePortKey(private);
    ParseDec(public);
    assert (bindings + [b])[..|bindings|] == bindings && (bindings + [b])[|bindings|] == b;
  }

  lemma {:induction false} ReadDistinctPorts(ports: seq<string>)
    requires PlainPorts(ports) && Distinct(ports)
    ensures Uniq(PortLines(BindingsOf(ports))) == ports
  {
    hide Uniq, PortLines, PortLine, PortKey, Dec, HostPort, ContainerPort;
    if ports == [] {
      NoLines();
      assert BindingsOf(ports) == [];
    } else {
      var n := |ports| - 1;
      var init, x := ports[..n], ports[n];
      ReadDistinctPorts(init);
      assert PlainPort(x);
      PortLinesMore(BindingsOf(init), ContainerPort(x), HostPort(x));
      assert BindingsOf(ports) == BindingsOf(init) + [BindingOf(x)];
      UniqTwice(PortLines(BindingsOf(init)), x);
      assert ports == init + [x] && x !in init;
    }
  }

  lemma NoLines()
    ensures PortLines([]) == [] && Uniq<string>([]) == []
  {
  }

  lemma {:induction false} PutGrowth(env: Env, key: string, value: string)
    ensures |Put(env, key, value)| <= |env| + 1
    ensures Bound(env, key) ==> |Put(env, key, value)| <= |env|
  {
    if env != [] {
      if env[0].key == key {
        WithoutGrowth(env[1..], key);
      } else {
        PutGrowth(env[1..], key, value);
        if e :| e in env && e.key == key {
          assert e in env[1..];
        }
      }
    }
  }

  lemma {:induction false} WithoutGrowth(env: Env, key: string)
    ensures |Without(env, key)| <= |env|
  {
    if env != [] {
      WithoutGrowth(env[1..], key);
    }
  }

  ghost predicate Bound(env: Env, key: string) {
    exists e :: e in env && e.key == key
  }

  lemma PutBound(env: Env, key: string, value: string, other: string)
    ensures Bound(Put(env, key, value), key)
    ensures Bound(env, other) ==> Bound(Put(env, key, value), other)
  {
    assert EnvVar(key, value) in Put(env, key, value);
    if other != key && Bound(env, other) {
      var e :| e in env && e.key == other;
      assert e in Put(env, key, value);
    }
  }

  /** Two mappings of one container port share a binding: the later one wins. */
  lemma {:induction false} SharedPortLost(ports: seq<string>)
    requires PlainPorts(ports)
    ensures |PrintPorts(ports)| <= |ports|
    ensures !DistinctContainerPorts(ports) ==> |PrintPorts(ports)| < |ports|
    ensures forall i | 0 <= i < |ports| :: Bound(PrintPorts(ports), PortKey(ContainerPort(ports[i])))
  {
    hide PlainPort, ContainerPort, HostPort, PortKey, BindPort, Put, Dec;
    if ports != [] {
      var n := |ports| - 1;
      var init, last := PrintPorts(ports[..n]), ports[n];
      SharedPortLost(ports[..n]);
      BindPlain(init, last);
      var key := PortKey(ContainerPort(last));
      PutGrowth(init, key, Dec(HostPort(last)));
      forall i | 0 <= i < |ports| ensures Bound(PrintPorts(ports), PortKey(ContainerPort(ports[i]))) {
        PutBound(init, key, Dec(HostPort(last)), PortKey(ContainerPort(ports[i])));
        assert i < n ==> ports[..n][i] == ports[i];
      }
      if !DistinctContainerPorts(ports) && DistinctContainerPorts(ports[..n]) {
        var i :| 0 <= i < n && ContainerPort(ports[i]) == ContainerPort(last);
        assert ports[..n][i] == ports[i];
      }
    }
  }

  lemma {:induction false} FewPortLines(bindings: Env)
    ensures |Uniq(PortLines(bindings))| <= |bindings|
  {
    if bindings != [] {
      var n := |bindings| - 1;
      FewPortLines(bindings[..n]);
      var private, public := ParseNat(bindings[n].key).GetOr(0), ParseNat(bindings[n].value).GetOr(0);
      UniqTwice(PortLines(bindings[..n]), Dec(public) + ":" + Dec(private));
    }
  }

  lemma PlainLine(host: nat, port: nat)
    requires host > 0 && port > 0
    ensures PlainPort(PortLine(host, port)) && ContainerPort(PortLine(host, port)) == port
  {
    hide Dec, ParseNat;
    SplitPort(host, port);
    ParseDec(host);
    ParseDec(port);
  }

  /** Whatever the bindings, the lines that are read are plain. */
  lemma {:induction false} LinesPlain(bindings: Env)
    ensures forall x | x in PortLines(bindings) :: PlainPort(x)
  {
    hide PlainPort, ParseNat, Dec;
    if bindings != [] {
      var n := |bindings| - 1;
      LinesPlain(bindings[..n]);
      var private, public := ParseNat(bindings[n].key).GetOr(0), ParseNat(bindings[n].value).GetOr(0);
      if private > 0 && public > 0 {
        PlainLine(public, private);
      }
    }
  }

  /** Published ports are read back as given exactly when every mapping is two
      canonical decimals and no two mappings name the same container port. */
  lemma PortsReadBack(ports: seq<string>)
    ensures multiset(Uniq(PortLines(PrintPorts(ports)))) == multiset(ports) <==>
            PlainPorts(ports) && DistinctContainerPorts(ports)
  {
    hide PlainPort, ContainerPort;
    if !PlainPorts(ports) {
      var i :| 0 <= i < |ports| && !PlainPort(ports[i]);
      LinesPlain(PrintPorts(ports));
      assert ports[i] in multiset(ports) && ports[i] !in multiset(Uniq(PortLines(PrintPorts(ports))));
    } else if DistinctContainerPorts(ports) {
      PrintDistinctPorts(ports);
      ReadDistinctPorts(ports);
    } else {
      SharedPortLost(ports);
      FewPortLines(PrintPorts(ports));
      assert |multiset(Uniq(PortLines(PrintPorts(ports))))| < |multiset(ports)|;
    }
  }

  // ---- Environment ----

  predicate PlainKey(key: string) {
    key != "" && '=' !in key
  }

  predicate PlainKeys(env: Env) {
    forall i | 0 <= i < |env| :: PlainKey(env[i].key)
  }

  function Entry(e: EnvVar): string {
    e.key + "=" + e.value
  }

  lemma SplitEntry(e: EnvVar)
    requires '=' !in e.key
    ensures Split(Entry(e), '=') == [e.key] + Split(e.value, '=')
    ensures Text.Join(Split(Entry(e), '=')[1..], '=') == e.value
  {
    assert Entry(e) == e.key + ['='] + e.value;
    SplitFirst(e.key, '=', e.value);
    JoinSplit(e.value, '=');
    assert ([e.key] + Split(e.value, '='))[1..] == Split(e.value, '=');
  }

  lemma {:induction false} ReadPrintedEnv(env: Env)
    requires DistinctKeys(env) && PlainKeys(env)
    ensures ReadEnv(PrintEnv(env)) == env
  {
    hide Put, Split, Get;
    if env != [] {
      var n := |env| - 1;
      ReadPrintedEnv(env[..n]);
      assert PrintEnv(env)[..n] == PrintEnv(env[..n]) && PrintEnv(env)[n] == Entry(env[n]);
      SplitEntry(env[n]);
      PutNew(env[..n], env[n].key, env[n].value);
      assert env == env[..n] + [env[n]];
    }
  }

  lemma {:induction false} MergePrefix(given: seq<string>, imageEnv: seq<string>)
    ensures |given| <= |MergeEnv(given, imageEnv)| && MergeEnv(given, imageEnv)[..|given|] == given
  {
    if imageEnv != [] {
      MergePrefix(given, imageEnv[..|imageEnv| - 1]);
    }
  }

  /** The image's variables do not disturb the ones that were set. */
  lemma {:induction false} MergedEnvKept(env: Env, imageEnv: seq<string>)
    requires DistinctKeys(env) && PlainKeys(env)
    ensures Contained(env, ReadEnv(MergeEnv(PrintEnv(env), imageEnv)))
  {
    var given := PrintEnv(env);
    if imageEnv == [] {
      ReadPrintedEnv(env);
      forall i | 0 <= i < |env| ensures Get(env, env[i].key) == Some(env[i].value) {
        GetMember(env, i);
      }
    } else {
      var n := |imageEnv| - 1;
      var r, entry := MergeEnv(given, imageEnv[..n]), imageEnv[n];
      MergedEnvKept(env, imageEnv[..n]);
      if !exists i | 0 <= i < |r| :: KeyOfEntry(r[i]) == KeyOfEntry(entry) {
        MergePrefix(given, imageEnv[..n]);
        assert (r + [entry])[..|r|] == r;
        var read := ReadEnv(r);
        forall i | 0 <= i < |env|
          ensures Get(ReadEnvEntry(read, entry), env[i].key) == Some(env[i].value)
        {
          assert r[i] == r[..|given|][i] == Entry(env[i]);
          SplitEntry(env[i]);
          assert KeyOfEntry(r[i]) == env[i].key;
          if KeyOfEntry(entry) != "" {
            GetPut(read, KeyOfEntry(entry), Text.Join(Split(entry, '=')[1..], '='), env[i].key);
          }
        }
      }
    }
  }

  lemma SplitHeadClean(s: string, c: char)
    ensures c !in Split(s, c)[0]
  {
  }

  lemma {:induction false} ReadKeysPlain(entries: seq<string>)
    ensures forall e | e in ReadEnv(entries) :: PlainKey(e.key)
  {
    if entries != [] {
      ReadKeysPlain(entries[..|entries| - 1]);
      SplitHeadClean(entries[|entries| - 1], '=');
    }
  }

  /** An environment survives exactly when its keys are not empty and contain
      no equals sign. */
  lemma EnvReadBack(env: Env, imageEnv: seq<string>)
    requires DistinctKeys(env)
    ensures Contained(env, ReadEnv(MergeEnv(PrintEnv(env), imageEnv))) <==> PlainKeys(env)
  {
    var entries := MergeEnv(PrintEnv(env), imageEnv);
    if PlainKeys(env) {
      MergedEnvKept(env, imageEnv);
    } else {
      ReadKeysPlain(entries);
      var i :| 0 <= i < |env| && !PlainKey(env[i].key);
      assert EnvVar(env[i].key, env[i].value) !in ReadEnv(entries);
      assert Get(ReadEnv(entries), env[i].key) != Some(env[i].value);
    }
  }

  // ---- Volumes ----

  predicate TwoPart(volume: string) {
    |Split(volume, ':')| == 2
  }

  predicate TwoParts(volumes: seq<string>) {
    forall i | 0 <= i < |volumes| :: TwoPart(volumes[i])
  }

  lemma SplitClean(s: string, c: char, k: nat)
    requires k < |Split(s, c)|
    ensures c !in Split(s, c)[k]
    decreases |s|
  {
    var i := IndexOf(s, c);
    if k > 0 {
      assert i < |s|;
      SplitClean(s[i + 1..], c, k - 1);
    }
  }

  lemma TwoPartIs(a: string, b: string)
    requires ':' !in a && ':' !in b
    ensures Split(a + ":" + b, ':') == [a, b]
  {
    assert a + ":" + b == a + [':'] + b;
    SplitFirst(a, ':', b);
    SplitNone(b, ':');
  }

  /** A volume reads back as itself exactly when it has two parts. */
  lemma VolumeReadBack(volume: string)
    ensures TwoPart(ReadMount(ParseBind(volume)))
    ensures ReadMount(ParseBind(volume)) == volume <==> TwoPart(volume)
  {
    var parts := Split(volume, ':');
    JoinSplit(volume, ':');
    SplitClean(volume, ':', 0);
    if |parts| >= 2 {
      SplitClean(volume, ':', 1);
      TwoPartIs(parts[0], parts[1]);
      if |parts| == 2 {
        assert parts[1..] == [parts[1]];
        assert volume == parts[0] + [':'] + parts[1];
      }
    } else {
      assert parts == [volume];
      TwoPartIs("", volume);
    }
  }

  lemma VolumesReadBack(volumes: seq<string>)
    ensures multiset(ReadMounts(ParseBinds(volumes))) == multiset(volumes) <==> TwoParts(volumes)
  {
    var read := ReadMounts(ParseBinds(volumes));
    if TwoParts(volumes) {
      forall i | 0 <= i < |volumes| ensures read[i] == volumes[i] {
        VolumeReadBack(volumes[i]);
      }
      assert read == volumes;
    } else {
      var i :| 0 <= i < |volumes| && !TwoPart(volumes[i]);
      forall x | x in read ensures TwoPart(x) {
        var k :| 0 <= k < |volumes| && x == read[k];
        VolumeReadBack(volumes[k]);
      }
      assert volumes[i] in multiset(volumes) && volumes[i] !in multiset(read);
    }
  }

  // ---- Networks ----

  function FullNames(a: nat, names: seq<string>): seq<string> {
    seq(|names|, i requires 0 <= i < |names| => Scoped(a, names[i]))
  }

  /** A network mode that is none of the app's own networks, and that admits
      the networks asked for. */
  predicate PlainMode(c: Config, a: nat) {
    && !HasPrefix(ModeOf(c), Dec(a) + "_")
    && (c.networks != [] ==> Joinable(ModeOf(c)))
    && (c.ports != [] ==> !SharesNetwork(ModeOf(c)))
  }

  /** The app's own network that the mode is, if it is one. */
  function ModeName(mode: string, a: nat): seq<string> {
    var prefix := Dec(a) + "_";
    if HasPrefix(mode, prefix) then [mode[|prefix|..]] else []
  }

  lemma BridgePlain(a: nat)
    ensures !HasPrefix("bridge", Dec(a) + "_") && !SharesNetwork("bridge") && Joinable("bridge")
  {
    assert (Dec(a) + "_")[0] == Dec(a)[0] != 'b';
  }

  /** The networks that are joined one by one: each once, and not the mode's. */
  function JoinedNames(mode: string, a: nat, names: seq<string>): seq<string> {
    if names == [] then []
    else
      var r, n := JoinedNames(mode, a, names[..|names| - 1]), names[|names| - 1];
      if n in r || Scoped(a, n) == mode then r else r + [n]
  }

  lemma {:induction false} JoinedMembers(mode: string, a: nat, names: seq<string>)
    ensures Distinct(JoinedNames(mode, a, names))
    ensures forall n :: n in JoinedNames(mode, a, names) <==> n in names && Scoped(a, n) != mode
  {
    hide Scoped;
    if names != [] {
      var k := |names| - 1;
      JoinedMembers(mode, a, names[..k]);
      assert names == names[..k] + [names[k]];
    }
  }

  lemma FullMember(a: nat, names: seq<string>, n: string)
    ensures Scoped(a, n) in FullNames(a, names) <==> n in names
  {
    hide Scoped;
    if n in names {
      var i :| 0 <= i < |names| && names[i] == n;
      assert FullNames(a, names)[i] == Scoped(a, n);
    }
    if i :| 0 <= i < |names| && Scoped(a, names[i]) == Scoped(a, n) {
      ScopedInjective(a, names[i], a, n);
    }
  }

  /** With all networks there, a joinable container joins exactly those. */
  lemma {:induction false} JoinsAll(d: DockerState, s: Service, names: seq<string>)
    requires forall n | n in names :: Scoped(s.appId, n) in d.networks
    ensures JoinNetworks(d, s, names, {}) ==
            if Joinable(ModeOf(s.config)) then FullNames(s.appId, JoinedNames(ModeOf(s.config), s.appId, names)) else []
  {
    hide Scoped, ModeOf, Joinable;
    if names != [] {
      var k := |names| - 1;
      JoinsAll(d, s, names[..k]);
      assert names[k] in names;
      FullMember(s.appId, JoinedNames(ModeOf(s.config), s.appId, names[..k]), names[k]);
    }
  }

  /** The names that a container lists for its app: its mode's, then the joined. */
  lemma {:induction false} OwnNetworksOf(a: nat, mode: string, names: seq<string>)
    ensures OwnNetworks(a, [mode] + FullNames(a, names)) == ModeName(mode, a) + names
  {
    var all := [mode] + FullNames(a, names);
    if names == [] {
      assert all == [mode] && all[..0] == [] && OwnNetworks(a, []) == [];
    } else {
      var n := |names| - 1;
      OwnNetworksOf(a, mode, names[..n]);
      assert all[..n + 1] == [mode] + FullNames(a, names[..n]);
      var full, prefix := Scoped(a, names[n]), Dec(a) + "_";
      assert full[..|prefix|] == prefix && full[|prefix|..] == names[n];
      assert names == names[..n] + [names[n]];
      assert ModeName(mode, a) + names == ModeName(mode, a) + names[..n] + [names[n]];
    }
  }

  /** Networks survive if they are distinct, can be joined, and include the one
      that is the mode. */
  predicate NetworksReadable(c: Config, a: nat) {
    && Distinct(c.networks)
    && (c.networks != [] ==> Joinable(ModeOf(c)))
    && forall n | n in ModeName(ModeOf(c), a) :: n in c.networks
  }

  lemma ModeNameIs(mode: string, a: nat)
    ensures ModeName(mode, a) != [] ==> Joinable(mode)
    ensures forall n :: n in ModeName(mode, a) <==> Scoped(a, n) == mode
    ensures |ModeName(mode, a)| <= 1
  {
    var prefix := Dec(a) + "_";
    if HasPrefix(mode, prefix) {
      var m := mode[|prefix|..];
      assert mode == Scoped(a, m);
      assert IsDigit(mode[0]) by { assert mode[0] == Dec(a)[0]; }
      forall n | Scoped(a, n) == mode ensures n == m {
        ScopedInjective(a, n, a, m);
      }
    } else {
      forall n ensures Scoped(a, n) != mode {
        assert HasPrefix(Scoped(a, n), prefix);
      }
    }
  }

  /** Networks are read back as given exactly under that condition. */
  lemma NetworksReadBack(d: DockerState, s: Service)
    requires forall n | n in s.config.networks :: Scoped(s.appId, n) in d.networks
    ensures var names := s.config.networks;
            multiset(OwnNetworks(s.appId, [ModeOf(s.config)] + JoinNetworks(d, s, names, {}))) == multiset(names) <==>
            NetworksReadable(s.config, s.appId)
  {
    hide Scoped, Distinct, ModeName, Joinable, ModeOf;
    var a, mode, names := s.appId, ModeOf(s.config), s.config.networks;
    ModeNameIs(mode, a);
    JoinsAll(d, s, names);
    JoinedMembers(mode, a, names);
    var joined := if Joinable(mode) then JoinedNames(mode, a, names) else [];
    OwnNetworksOf(a, mode, joined);
    assert [mode] + FullNames(a, []) == [mode] + [];
    ReadNames(ModeName(mode, a), joined, names, Joinable(mode));
  }

  /** The lists involved: what the mode gives, what is joined, what was asked. */
  lemma ReadNames(own: seq<string>, joined: seq<string>, names: seq<string>, joinable: bool)
    requires |own| <= 1 && Distinct(joined) && (own != [] ==> joinable)
    requires if joinable then forall n :: n in joined <==> n in names && n !in own else joined == []
    ensures multiset(own + joined) == multiset(names) <==>
            Distinct(names) && (names != [] ==> joinable) && forall n | n in own :: n in names
  {
    var read := own + joined;
    forall i, j | 0 <= i < j < |read| ensures read[i] != read[j] {
      assert read[j] == joined[j - |own|] && joined[j - |own|] in joined;
      assert i < |own| ==> read[i] in own;
    }
    if multiset(read) == multiset(names) {
      DistinctMoves(read, names);
      forall n | n in own ensures n in names {
        assert n in multiset(read) && n in multiset(names);
      }
      if !joinable {
        assert |multiset(read)| == 0 && |multiset(names)| == |names|;
      }
    } else if Distinct(names) && (names != [] ==> joinable) && forall n | n in own :: n in names {
      if joinable {
        DistinctSame(read, names);
      }
    }
  }

  // ---- The whole service ----

  predicate OwnLabelsKept(labels: map<string, string>) {
    APP_ID !in labels && APP_NAME !in labels && SERVICE_ID !in labels && SERVICE_NAME !in labels
  }

  /** The targets that the read-back can reproduce. */
  predicate Canonical(s: Service) {
    && DistinctKeys(s.config.environment) && PlainKeys(s.config.environment)
    && PlainPorts(s.config.ports) && DistinctContainerPorts(s.config.ports)
    && TwoParts(s.config.volumes)
    && Distinct(s.config.networks)
    && PlainMode(s.config, s.appId)
    && s.config.restart != Some("")
    && OwnLabelsKept(s.config.labels)
  }

  lemma IdsReadBack(s: Service, imageEnv: seq<string>, status: Status, networks: seq<string>)
    requires OwnLabelsKept(s.config.labels)
    ensures var c := PrintContainer(s, imageEnv).(status := status, networks := networks);
            && Managed(c)
            && AppIdOf(c) == s.appId && ServiceIdOf(c) == s.serviceId
            && Label(c, APP_NAME) == s.appName && Label(c, SERVICE_NAME) == s.serviceName
  {
    ParseDec(s.appId);
    ParseDec(s.serviceId);
  }

  lemma SettingsReadBack(c: Config)
    ensures SettingDiffers(Some(RestartOf(c)), c.restart, "no") <==> c.restart == Some("")
    ensures !SettingDiffers(Some(ModeOf(c)), c.networkMode, "bridge")
    ensures RestartOf(c) != "" && ModeOf(c) != ""
  {
  }

  /** Ports survive if they are plain and no two mappings share a container
      port, and there are none if the container shares another one's network. */
  predicate PortsReadable(c: Config) {
    if SharesNetwork(ModeOf(c)) then c.ports == [] else PlainPorts(c.ports) && DistinctContainerPorts(c.ports)
  }

  /** Everything of the configuration that is compared survives. */
  predicate Readable(c: Config, a: nat) {
    PortsReadable(c) && PlainKeys(c.environment) && TwoParts(c.volumes) && NetworksReadable(c, a)
        && c.restart != Some("")
  }

  /** The container of `s` after a start. */
  function StartedContainer(d: DockerState, s: Service, imageEnv: seq<string>, status: Status): Container {
    PrintContainer(s, imageEnv).(status := status, networks := JoinNetworks(d, s, s.config.networks, {}))
  }

  lemma PortsOfMode(s: Service)
    ensures var bindings := if SharesNetwork(ModeOf(s.config)) then [] else PrintPorts(s.config.ports);
            multiset(Uniq(PortLines(bindings))) == multiset(s.config.ports) <==> PortsReadable(s.config)
  {
    hide PlainPorts, DistinctContainerPorts, PrintPorts, SharesNetwork, ModeOf;
    PortsReadBack(s.config.ports);
    NoLines();
    assert multiset(s.config.ports) == multiset([]) ==> s.config.ports == [] by {
      assert |multiset(s.config.ports)| == |s.config.ports|;
    }
  }

  /** The comparison of a service with what is read back of its container. */
  lemma ConfigReadBack(d: DockerState, s: Service, imageEnv: seq<string>, status: Status)
    requires Active(status) && DistinctKeys(s.config.environment)
    requires OwnLabelsKept(s.config.labels)
    requires forall n | n in s.config.networks :: Scoped(s.appId, n) in d.networks
    ensures ConfigDiffers(ReadConfig(StartedContainer(d, s, imageEnv, status), true), s.config) <==>
            !Readable(s.config, s.appId)
  {
    hide PlainPorts, PlainKeys, TwoParts, NetworksReadable, PortsReadable, ListsDiffer, EnvDiffers, SettingDiffers;
    hide OwnLabelsKept, Scoped, AppIdOf, DistinctKeys;
    var c := StartedContainer(d, s, imageEnv, status);
    var read := ReadConfig(c, true);
    IdsReadBack(s, imageEnv, status, c.networks);
    PortsOfMode(s);
    ListsDifferIff(read.ports, s.config.ports);
    EnvReadBack(s.config.environment, imageEnv);
    EnvDiffersIff(read.environment, s.config.environment);
    VolumesReadBack(s.config.volumes);
    ListsDifferIff(read.volumes, s.config.volumes);
    NetworksReadBack(d, s);
    ListsDifferIff(read.networks, s.config.networks);
    SettingsReadBack(s.config);
  }

  /** Create and read back. A service started with its networks there is judged
      in need of no update exactly when its configuration is readable: ports plain
      with distinct container ports, or none in another's network; variables with
      plain keys; volumes of two parts; networks distinct, joinable and including
      the one that is the mode; restart not empty. */
  lemma CreateReadBack(d: DockerState, s: Service, imageEnv: seq<string>, id: ContainerId, status: Status)
    requires status == Up || status == Held
    requires DistinctKeys(s.config.environment) && OwnLabelsKept(s.config.labels)
    requires forall n | n in s.config.networks :: Scoped(s.appId, n) in d.networks
    ensures var r := Read(id, StartedContainer(d, s, imageEnv, status), true);
            && r.appId == s.appId && r.serviceId == s.serviceId
            && r.appName == s.appName && r.serviceName == s.serviceName
            && (NeedsUpdate(r, s) <==> !Readable(s.config, s.appId))
  {
    hide ReadConfig, ConfigDiffers, AppIdOf, ServiceIdOf, PlainPorts, Readable, JoinNetworks;
    hide PrintPorts, MergeEnv, ParseBinds, NameOf, PrintLabels, ModeOf, RestartOf, Scoped;
    IdsReadBack(s, imageEnv, status, JoinNetworks(d, s, s.config.networks, {}));
    ConfigReadBack(d, s, imageEnv, status);
  }

  lemma CanonicalReadable(s: Service)
    requires Canonical(s)
    ensures Readable(s.config, s.appId) && DistinctKeys(s.config.environment) && OwnLabelsKept(s.config.labels)
  {
    hide PlainPorts, DistinctContainerPorts, PlainKeys, TwoParts, Distinct, Joinable, SharesNetwork, HasPrefix;
  }

  /** 8080:80 and 8081:80 */
  const TWICE := [PortLine(8080, 80), PortLine(8081, 80)]

  /** Two mappings of one container port: the service is replaced for ever. */
  lemma SharedPortNeverSettles(d: DockerState, s: Service, imageEnv: seq<string>, id: ContainerId)
    requires s.config == Config([], TWICE, [], [], None, None, map[])
    ensures NeedsUpdate(Read(id, StartedContainer(d, s, imageEnv, Up), true), s)
  {
    hide NeedsUpdate, Read, StartedContainer, PlainPort, ContainerPort, PortLine, Dec;
    PlainLine(8080, 80);
    PlainLine(8081, 80);
    assert ContainerPort(TWICE[0]) == ContainerPort(TWICE[1]);
    assert ModeOf(s.config) == "bridge" && !SharesNetwork("bridge");
    CreateReadBack(d, s, imageEnv, id, Up);
  }

  /** Ports in the host's network are never published: the service is replaced
      for ever. */
  lemma HostPortsNeverSettle(d: DockerState, s: Service, imageEnv: seq<string>, id: ContainerId, host: nat, port: nat)
    requires host > 0 && port > 0
    requires s.config == Config([], [PortLine(host, port)], [], [], Some("host"), None, map[])
    ensures NeedsUpdate(Read(id, StartedContainer(d, s, imageEnv, Up), true), s)
  {
    hide NeedsUpdate, Read, StartedContainer, PlainPort, ContainerPort, PortLine, Dec;
    PlainLine(host, port);
    assert ModeOf(s.config) == "host" && SharesNetwork("host");
    CreateReadBack(d, s, imageEnv, id, Up);
  }
}
