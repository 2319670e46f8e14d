/** A group of local ZooKeeper servers forming one ensemble, for tests: the
    plan of ids, directories and ports, each server's list of peers, the
    connection string, and starting the servers. Creating directories and
    writing files are outside the model. */
module ServerGroup {
  import opened Wrappers
  import opened Text
  import Configuration
  import Classpath

  type ConfigState = Configuration.ConfigState

  /** The first port handed out when the base settings keep the default
      client port. */
  const DefaultBasePort: nat := 18500

  /** The host every member of the group listens on. */
  const Localhost: string := "127.0.0.1"

  /** The `invalid_argument` message for base settings without a data directory. */
  const NoDataDirectory: string := "Settings must specify a base directory"

  /** A running server, identified by what it was started with. */
  datatype ServerInstance = ServerInstance(packages: Classpath.Classpath, settings: ConfigState)

  /** `server_group::info`, together with the id it is filed under. */
  datatype Info = Info(id: nat, name: string, path: string, settings: ConfigState,
                       peerPort: nat, leaderPort: nat, instance: Option<ServerInstance>)

  /** The effective client port of a configuration. */
  function ClientPortOf(s: ConfigState): nat
  {
    Configuration.EffectiveOf(s).clientPort
  }

  /** The first port: 18500 for the default client port, otherwise the
      configured client port. */
  function BasePort(base: ConfigState): (p: nat)
    requires Configuration.WellFormed(base)
    ensures p < Configuration.Uint16Modulus
    ensures ClientPortOf(base) == Configuration.DefaultClientPort ==> p == DefaultBasePort
    ensures ClientPortOf(base) != Configuration.DefaultClientPort ==> p == ClientPortOf(base)
  {
    if ClientPortOf(base) == Configuration.DefaultClientPort then DefaultBasePort else ClientPortOf(base)
  }

  /** `base_port++` on the 16-bit port: past 65535 it wraps to 0. */
  function Increment(port: nat): (r: nat)
    ensures r < Configuration.Uint16Modulus
  {
    (port + 1) % Configuration.Uint16Modulus
  }

  /** The port after `k` increments of `basePort`. */
  function PortAt(basePort: nat, k: nat): (p: nat)
    ensures p < Configuration.Uint16Modulus
    decreases k
  {
    if k == 0 then basePort % Configuration.Uint16Modulus else Increment(PortAt(basePort, k - 1))
  }

  /** `k` increments land `k` places on, modulo 65536. */
  lemma {:induction false} PortAtValue(basePort: nat, k: nat)
    ensures PortAt(basePort, k) == (basePort + k) % Configuration.Uint16Modulus
    decreases k
  {
    if k > 0 {
      PortAtValue(basePort, k - 1);
      var m := Configuration.Uint16Modulus;
      var prev := PortAt(basePort, k - 1);
      var q := (basePort + k - 1) / m;
      assert basePort + k - 1 == q * m + prev;
      if prev + 1 == m {
        assert basePort + k == (q + 1) * m;
      } else {
        assert basePort + k == q * m + (prev + 1);
      }
    }
  }

  /** The server at 0-based position `idx`, before it learns its peers: id
      `idx + 1`, named by that id, under the base directory, with the client,
      peer and leader ports three consecutive ports from `3 * idx` on. */
  function Planned(base: ConfigState, dir: string, basePort: nat, idx: nat): (x: Info)
    requires Configuration.WellFormed(base)
    ensures Configuration.WellFormed(x.settings)
  {
    var name := NatToString(idx + 1);
    var path := dir + "/" + name;
    Info(idx + 1, name, path, ServerSettings(base, path, PortAt(basePort, 3 * idx)),
         PortAt(basePort, 3 * idx + 1), PortAt(basePort, 3 * idx + 2), None)
  }

  /** A server's own settings: the base settings with its client port and
      its data directory under its own directory. */
  function ServerSettings(base: ConfigState, path: string, clientPort: nat): (r: ConfigState)
    requires Configuration.WellFormed(base) && clientPort < Configuration.Uint16Modulus
    ensures Configuration.WellFormed(r)
  {
    Configuration.WithPortAndDirectoryWellFormed(base, clientPort, path + "/data");
    Configuration.WithDataDirectory(Configuration.WithClientPort(base, clientPort), path + "/data")
  }

  /** The planned servers of a group of `size`, in id order. */
  function Plan(base: ConfigState, dir: string, basePort: nat, size: nat): (xs: seq<Info>)
    requires Configuration.WellFormed(base)
    ensures |xs| == size && forall i :: 0 <= i < size ==> xs[i] == Planned(base, dir, basePort, i)
    ensures AllWellFormed(xs)
  {
    seq(size, i requires 0 <= i => Planned(base, dir, basePort, i))
  }

  /** Planning one more server appends it. */
  lemma PlanSnoc(base: ConfigState, dir: string, basePort: nat, size: nat)
    requires Configuration.WellFormed(base)
    ensures Plan(base, dir, basePort, size + 1) == Plan(base, dir, basePort, size) + [Planned(base, dir, basePort, size)]
  {
    var longer, shorter := Plan(base, dir, basePort, size + 1), Plan(base, dir, basePort, size);
    var extended := shorter + [Planned(base, dir, basePort, size)];
    forall i | 0 <= i < size + 1
      ensures longer[i] == extended[i]
    {
      if i < size {
        assert extended[i] == shorter[i];
      }
    }
    assert longer == extended;
  }

  /** The address a peer is listed under: host, peer port and leader port. */
  function Address(p: Info): string
  {
    Localhost + ":" + NatToString(p.peerPort) + ":" + NatToString(p.leaderPort)
  }

  /** The inner loop: `add_server` for each peer in turn, stopping at the
      first refusal. */
  function AddPeers(s: ConfigState, peers: seq<Info>): (r: Result<ConfigState, string>)
    requires Configuration.WellFormed(s)
    ensures r.Ok? ==> Configuration.WellFormed(r.value)
    decreases |peers|
  {
    if peers == [] then Ok(s)
    else
      match AddPeers(s, peers[..|peers| - 1])
      case Err(message) => Err(message)
      case Ok(t) =>
        var p := peers[|peers| - 1];
        Configuration.AddServerToWellFormed(t, p.name, Localhost, p.peerPort, p.leaderPort);
        Configuration.AddServerTo(t, p.name, Localhost, p.peerPort, p.leaderPort)
  }

  /** Peers with pairwise distinct names. */
  predicate DistinctNames(peers: seq<Info>)
  {
    forall i, j :: 0 <= i < j < |peers| ==> peers[i].name != peers[j].name
  }

  /** The names of the peers. */
  function Names(peers: seq<Info>): (r: set<string>)
    ensures forall j :: 0 <= j < |peers| ==> peers[j].name in r
    ensures forall k :: k in r ==> exists j :: 0 <= j < |peers| && peers[j].name == k
  {
    set j | 0 <= j < |peers| :: peers[j].name
  }

  /** The names of the peers are those of all but the last, and the last's. */
  lemma NamesSnoc(peers: seq<Info>)
    requires |peers| > 0
    ensures Names(peers) == Names(peers[..|peers| - 1]) + {peers[|peers| - 1].name}
  {
    var init := peers[..|peers| - 1];
    assert forall j :: 0 <= j < |init| ==> init[j] == peers[j];
  }

  /** Distinct peers none of which is listed yet. */
  predicate Fresh(s: ConfigState, peers: seq<Info>)
  {
    DistinctNames(peers) && forall j :: 0 <= j < |peers| ==> peers[j].name !in s.serverPaths
  }

  /** The peers but the last are fresh too. */
  lemma FreshInit(s: ConfigState, peers: seq<Info>)
    requires Fresh(s, peers) && |peers| > 0
    ensures Fresh(s, peers[..|peers| - 1])
  {
    assert forall j :: 0 <= j < |peers| - 1 ==> peers[..|peers| - 1][j] == peers[j];
  }

  /** Adding fresh peers succeeds. */
  lemma {:induction false} AddPeersAccepted(s: ConfigState, peers: seq<Info>)
    requires Configuration.WellFormed(s) && Fresh(s, peers)
    ensures AddPeers(s, peers).Ok?
    decreases |peers|
  {
    if peers != [] {
      var n := |peers|;
      var init := peers[..n - 1];
      var p := peers[n - 1];
      FreshInit(s, peers);
      AddPeersAccepted(s, init);
      LastIsFresh(s, peers);
      AddPeersOnlyPeers(s, init, p.name);
      AddPeersUnfold(s, peers);
    }
  }

  /** The last of fresh peers is neither listed nor named by the others. */
  lemma LastIsFresh(s: ConfigState, peers: seq<Info>)
    requires Fresh(s, peers) && |peers| > 0
    ensures var init, name := peers[..|peers| - 1], peers[|peers| - 1].name;
            name !in s.serverPaths && forall j :: 0 <= j < |init| ==> init[j].name != name
  {
    var n := |peers|;
    var init := peers[..n - 1];
    forall j | 0 <= j < n - 1
      ensures init[j].name != peers[n - 1].name
    {
      assert init[j] == peers[j];
    }
  }

  /** Adding peers lists no name but those already listed and the peers'. */
  lemma {:induction false} AddPeersOnlyPeers(s: ConfigState, peers: seq<Info>, name: string)
    requires Configuration.WellFormed(s) && name !in s.serverPaths
    requires forall j :: 0 <= j < |peers| ==> peers[j].name != name
    ensures AddPeers(s, peers).Ok? ==> name !in AddPeers(s, peers).value.serverPaths
    decreases |peers|
  {
    if peers != [] {
      var init := peers[..|peers| - 1];
      assert forall j :: 0 <= j < |init| ==> init[j] == peers[j];
      AddPeersOnlyPeers(s, init, name);
      AddPeersUnfold(s, peers);
    }
  }

  /** The effective server list after each peer is listed at its address. */
  function ListPeers(m: map<string, Option<string>>, peers: seq<Info>): map<string, Option<string>>
    decreases |peers|
  {
    if peers == [] then m
    else ListPeers(m, peers[..|peers| - 1])[peers[|peers| - 1].name := Some(Address(peers[|peers| - 1]))]
  }

  /** Listing peers keeps every entry that was there. */
  lemma {:induction false} ListPeersKeeps(m: map<string, Option<string>>, peers: seq<Info>, k: string)
    requires forall j :: 0 <= j < |peers| ==> peers[j].name !in m
    requires k in m
    ensures k in ListPeers(m, peers) && ListPeers(m, peers)[k] == m[k]
    decreases |peers|
  {
    if peers != [] {
      var n := |peers|;
      var init := peers[..n - 1];
      assert forall j :: 0 <= j < n - 1 ==> init[j] == peers[j];
      ListPeersKeeps(m, init, k);
      assert peers[n - 1].name != k;
    }
  }

  /** Listing peers adds exactly the peers' names. */
  lemma {:induction false} ListPeersKeys(m: map<string, Option<string>>, peers: seq<Info>)
    ensures ListPeers(m, peers).Keys == m.Keys + Names(peers)
    decreases |peers|
  {
    if peers != [] {
      var n := |peers|;
      var init := peers[..n - 1];
      ListPeersKeys(m, init);
      NamesSnoc(peers);
    }
  }

  /** Listing distinct peers lists every peer at its own address. */
  lemma {:induction false} ListPeersListed(m: map<string, Option<string>>, peers: seq<Info>, j: nat)
    requires DistinctNames(peers) && j < |peers|
    ensures peers[j].name in ListPeers(m, peers) && ListPeers(m, peers)[peers[j].name] == Some(Address(peers[j]))
    decreases |peers|
  {
    var n := |peers|;
    if j < n - 1 {
      var init := peers[..n - 1];
      assert init[j] == peers[j];
      assert DistinctNames(init) by {
        forall a, b | 0 <= a < b < |init|
          ensures init[a].name != init[b].name
        {
          assert init[a] == peers[a] && init[b] == peers[b];
        }
      }
      ListPeersListed(m, init, j);
      assert peers[j].name != peers[n - 1].name;
    }
  }

  /** Adding fresh peers changes the effective settings only by listing
      each peer at its address. */
  lemma {:induction false} AddPeersEffective(s: ConfigState, peers: seq<Info>)
    requires Configuration.WellFormed(s) && Fresh(s, peers)
    ensures AddPeers(s, peers).Ok?
    ensures var e0 := Configuration.EffectiveOf(s);
            Configuration.EffectiveOf(AddPeers(s, peers).value) == e0.(servers := ListPeers(e0.servers, peers))
    decreases |peers|
  {
    AddPeersAccepted(s, peers);
    if peers != [] {
      var n := |peers|;
      var init := peers[..n - 1];
      var p := peers[n - 1];
      FreshInit(s, peers);
      AddPeersAccepted(s, init);
      AddPeersEffective(s, init);
      LastIsFresh(s, peers);
      AddPeersOnlyPeers(s, init, p.name);
      var t := AddPeers(s, init).value;
      Configuration.AddServerToSpec(t, p.name, Localhost, p.peerPort, p.leaderPort);
    }
  }

  /** Adding fresh peers lists every peer at its address, keeps the entries
      already there, lists nothing else, and changes no other effective
      setting. */
  lemma AddPeersServers(s: ConfigState, peers: seq<Info>)
    requires Configuration.WellFormed(s) && Fresh(s, peers)
    ensures AddPeers(s, peers).Ok?
    ensures var e0, e := Configuration.EffectiveOf(s), Configuration.EffectiveOf(AddPeers(s, peers).value);
            && e.(servers := e0.servers) == e0
            && (forall k :: k in e0.servers ==> k in e.servers && e.servers[k] == e0.servers[k])
            && (forall j :: 0 <= j < |peers| ==> peers[j].name in e.servers && e.servers[peers[j].name] == Some(Address(peers[j])))
            && e.servers.Keys == e0.servers.Keys + Names(peers)
  {
    AddPeersEffective(s, peers);
    var e0 := Configuration.EffectiveOf(s);
    ListPeersKeys(e0.servers, peers);
    forall k | k in e0.servers
      ensures k in ListPeers(e0.servers, peers) && ListPeers(e0.servers, peers)[k] == e0.servers[k]
    {
      ListPeersKeeps(e0.servers, peers, k);
    }
    forall j | 0 <= j < |peers|
      ensures peers[j].name in ListPeers(e0.servers, peers)
      ensures ListPeers(e0.servers, peers)[peers[j].name] == Some(Address(peers[j]))
    {
      ListPeersListed(e0.servers, peers, j);
    }
  }

  /** Adding peers one of which is already listed is refused. */
  lemma {:induction false} AddPeersRefused(s: ConfigState, peers: seq<Info>, clash: nat)
    requires Configuration.WellFormed(s)
    requires clash < |peers| && peers[clash].name in s.serverPaths
    ensures AddPeers(s, peers).Err?
    decreases |peers|
  {
    var n := |peers|;
    var init := peers[..n - 1];
    if clash < n - 1 {
      assert init[clash] == peers[clash];
      AddPeersRefused(s, init, clash);
    } else {
      var p := peers[n - 1];
      AddPeersGrows(s, init, p.name);
      AddPeersUnfold(s, peers);
    }
  }

  /** The inner loop's last step, spelled out. */
  lemma AddPeersUnfold(s: ConfigState, peers: seq<Info>)
    requires Configuration.WellFormed(s) && |peers| > 0
    ensures var init, p := peers[..|peers| - 1], peers[|peers| - 1];
            AddPeers(s, init).Err? ==> AddPeers(s, peers) == AddPeers(s, init)
    ensures var init, p := peers[..|peers| - 1], peers[|peers| - 1];
            AddPeers(s, init).Ok? ==>
              AddPeers(s, peers) == Configuration.AddServerTo(AddPeers(s, init).value, p.name, Localhost, p.peerPort, p.leaderPort)
  {
  }

  /** Adding peers never drops a server already listed. */
  lemma {:induction false} AddPeersGrows(s: ConfigState, peers: seq<Info>, name: string)
    requires Configuration.WellFormed(s) && name in s.serverPaths
    ensures AddPeers(s, peers).Ok? ==> name in AddPeers(s, peers).value.serverPaths
    decreases |peers|
  {
    if peers != [] {
      AddPeersGrows(s, peers[..|peers| - 1], name);
      AddPeersUnfold(s, peers);
    }
  }

  /** Once one `add_server` is refused, the rest of the inner loop never runs. */
  lemma {:induction false} AddPeersFailurePersists(s: ConfigState, peers: seq<Info>, i: nat)
    requires Configuration.WellFormed(s) && i <= |peers| && AddPeers(s, peers[..i]).Err?
    ensures AddPeers(s, peers) == AddPeers(s, peers[..i])
    decreases |peers| - i
  {
    if i < |peers| {
      assert peers[..i + 1][..i] == peers[..i];
      AddPeersFailurePersists(s, peers, i + 1);
    } else {
      assert peers[..i] == peers;
    }
  }

  /** Every server's settings must be well formed before peers are added. */
  predicate AllWellFormed(xs: seq<Info>)
  {
    forall i :: 0 <= i < |xs| ==> Configuration.WellFormed(xs[i].settings)
  }

  /** What the inner loop gives each server: its settings with every peer
      added, or the refusal. */
  function Outcomes(xs: seq<Info>, peers: seq<Info>): (r: seq<Result<ConfigState, string>>)
    requires AllWellFormed(xs)
    ensures |r| == |xs| && forall i :: 0 <= i < |xs| ==> r[i] == AddPeers(xs[i].settings, peers)
  {
    seq(|xs|, i requires 0 <= i < |xs| => AddPeers(xs[i].settings, peers))
  }

  /** The outer loop: each server in id order takes its new settings, and the
      first refusal ends the whole construction. */
  function Connect(xs: seq<Info>, outcomes: seq<Result<ConfigState, string>>): Result<seq<Info>, string>
    requires |outcomes| == |xs|
    decreases |xs|
  {
    if xs == [] then Ok([])
    else
      var n := |xs|;
      match Connect(xs[..n - 1], outcomes[..n - 1])
      case Err(message) => Err(message)
      case Ok(done) =>
        match outcomes[n - 1]
        case Err(message) => Err(message)
        case Ok(t) => Ok(done + [xs[n - 1].(settings := t)])
  }

  /** The outer loop succeeds exactly when every server's inner loop does;
      each server then takes its new settings and keeps everything else. */
  lemma {:induction false} ConnectSpec(xs: seq<Info>, outcomes: seq<Result<ConfigState, string>>)
    requires |outcomes| == |xs|
    ensures Connect(xs, outcomes).Ok? <==> forall i :: 0 <= i < |xs| ==> outcomes[i].Ok?
    ensures Connect(xs, outcomes).Ok? ==>
              && |Connect(xs, outcomes).value| == |xs|
              && forall i :: 0 <= i < |xs| ==> Connect(xs, outcomes).value[i] == xs[i].(settings := outcomes[i].value)
    decreases |xs|
  {
    if xs != [] {
      var n := |xs|;
      ConnectSpec(xs[..n - 1], outcomes[..n - 1]);
      assert forall i :: 0 <= i < n - 1 ==> xs[..n - 1][i] == xs[i] && outcomes[..n - 1][i] == outcomes[i];
    }
  }

  /** A refusal for any server refuses the whole outer loop. */
  lemma ConnectRefused(xs: seq<Info>, outcomes: seq<Result<ConfigState, string>>, i: nat)
    requires |outcomes| == |xs| && i < |xs| && outcomes[i].Err?
    ensures Connect(xs, outcomes).Err?
  {
    ConnectSpec(xs, outcomes);
  }

  /** A refusal in the outer loop ends it. */
  lemma {:induction false} ConnectFailurePersists(xs: seq<Info>, outcomes: seq<Result<ConfigState, string>>, i: nat)
    requires |outcomes| == |xs| && i <= |xs| && Connect(xs[..i], outcomes[..i]).Err?
    ensures Connect(xs, outcomes) == Connect(xs[..i], outcomes[..i])
    decreases |xs| - i
  {
    if i < |xs| {
      assert xs[..i + 1][..i] == xs[..i] && outcomes[..i + 1][..i] == outcomes[..i];
      ConnectFailurePersists(xs, outcomes, i + 1);
    } else {
      assert xs[..i] == xs && outcomes[..i] == outcomes;
    }
  }

  /** One more step of the outer loop: a refusal ends it, a success adds
      the server with its new settings. */
  lemma ConnectStep(xs: seq<Info>, outcomes: seq<Result<ConfigState, string>>, k: nat, done: seq<Info>)
    requires |outcomes| == |xs| && k < |xs| && Connect(xs[..k], outcomes[..k]) == Ok(done)
    ensures outcomes[k].Err? ==> Connect(xs, outcomes) == Err(outcomes[k].error)
    ensures outcomes[k].Ok? ==> Connect(xs[..k + 1], outcomes[..k + 1]) == Ok(done + [xs[k].(settings := outcomes[k].value)])
  {
    assert xs[..k + 1][..k] == xs[..k] && outcomes[..k + 1][..k] == outcomes[..k];
    if outcomes[k].Err? {
      ConnectFailurePersists(xs, outcomes, k + 1);
    }
  }

  /** "127.0.0.1:<client port>" for a server with these settings. */
  function Endpoint(settings: ConfigState): string
  {
    Localhost + ":" + NatToString(ClientPortOf(settings))
  }

  /** The "127.0.0.1:<client port>" entries of the servers, in id order. */
  function Endpoints(xs: seq<Info>): (r: seq<string>)
    ensures |r| == |xs| && forall i :: 0 <= i < |xs| ==> r[i] == Endpoint(xs[i].settings)
  {
    seq(|xs|, i requires 0 <= i < |xs| => Endpoint(xs[i].settings))
  }

  /** One more server adds its endpoint. */
  lemma EndpointsSnoc(xs: seq<Info>, x: Info)
    ensures Endpoints(xs + [x]) == Endpoints(xs) + [Endpoint(x.settings)]
  {
    assert forall i :: 0 <= i < |xs| ==> (xs + [x])[i] == xs[i];
  }

  /** The connection string: "zk://", the endpoints separated by ',', "/". */
  function ConnectionString(xs: seq<Info>): string
  {
    "zk://" + Join(Endpoints(xs), ",") + "/"
  }

  /** A planned group: its servers and connection string. */
  datatype Group = Group(servers: seq<Info>, connString: string)

  /** `make_ensemble` as a value. */
  function Ensemble(size: nat, base: ConfigState): Result<Group, string>
    requires Configuration.WellFormed(base)
  {
    if base.dataDirectory.value.None? then Err(NoDataDirectory)
    else
      var planned := Plan(base, base.dataDirectory.value.value, BasePort(base), size);
      match Connect(planned, Outcomes(planned, planned))
      case Err(message) => Err(message)
      case Ok(servers) => Ok(Group(servers, ConnectionString(servers)))
  }

  /** The planned servers have distinct names, since distinct ids print
      differently. */
  lemma PlanDistinct(base: ConfigState, dir: string, basePort: nat, size: nat)
    requires Configuration.WellFormed(base)
    ensures DistinctNames(Plan(base, dir, basePort, size))
  {
    var xs := Plan(base, dir, basePort, size);
    forall i, j | 0 <= i < j < |xs|
      ensures xs[i].name != xs[j].name
    {
      PlannedNamesDiffer(base, dir, basePort, i, j);
    }
  }

  /** Servers planned at different positions have different names. */
  lemma PlannedNamesDiffer(base: ConfigState, dir: string, basePort: nat, i: nat, j: nat)
    requires Configuration.WellFormed(base) && i != j
    ensures Planned(base, dir, basePort, i).name != Planned(base, dir, basePort, j).name
  {
    if NatToString(i + 1) == NatToString(j + 1) {
      NatToStringInjective(i + 1, j + 1);
    }
  }

  /** A planned server keeps the base's server list, and its effective
      settings are the base's with its own client port and data directory. */
  lemma PlannedSpec(base: ConfigState, dir: string, basePort: nat, idx: nat)
    requires Configuration.WellFormed(base)
    ensures var x := Planned(base, dir, basePort, idx);
            && x.settings.serverPaths == base.serverPaths
            && Configuration.EffectiveOf(x.settings)
               == Configuration.EffectiveOf(base).(clientPort := PortAt(basePort, 3 * idx), dataDirectory := Some(x.path + "/data"))
  {
    var x := Planned(base, dir, basePort, idx);
    ServerSettingsSpec(base, x.path, PortAt(basePort, 3 * idx));
  }

  /** A server's own settings keep the base's server list and differ from
      the base only in the client port and the data directory. */
  lemma ServerSettingsSpec(base: ConfigState, path: string, clientPort: nat)
    requires Configuration.WellFormed(base) && clientPort < Configuration.Uint16Modulus
    ensures ServerSettings(base, path, clientPort).serverPaths == base.serverPaths
    ensures Configuration.EffectiveOf(ServerSettings(base, path, clientPort))
            == Configuration.EffectiveOf(base).(clientPort := clientPort, dataDirectory := Some(path + "/data"))
  {
    var withPort := Configuration.WithClientPort(base, clientPort);
    Configuration.WithClientPortSpec(base, clientPort);
    Configuration.WithDataDirectorySpec(withPort, path + "/data");
  }

  /** A planned server keeps the base's server list. */
  lemma PlannedPaths(base: ConfigState, dir: string, basePort: nat, idx: nat)
    requires Configuration.WellFormed(base)
    ensures Planned(base, dir, basePort, idx).settings.serverPaths == base.serverPaths
  {
    PlannedSpec(base, dir, basePort, idx);
  }

  /** When the base lists none of the new ids, every planned server can
      take all the planned servers as fresh peers. */
  lemma PlanFresh(base: ConfigState, dir: string, basePort: nat, size: nat, i: nat)
    requires Configuration.WellFormed(base) && i < size
    requires forall k :: 1 <= k <= size ==> NatToString(k) !in base.serverPaths
    ensures Fresh(Plan(base, dir, basePort, size)[i].settings, Plan(base, dir, basePort, size))
  {
    var planned := Plan(base, dir, basePort, size);
    PlanDistinct(base, dir, basePort, size);
    PlannedPaths(base, dir, basePort, i);
    forall j | 0 <= j < size
      ensures planned[j].name !in planned[i].settings.serverPaths
    {
      assert planned[j].name == NatToString(j + 1);
    }
  }

  /** When the base lists one of the new ids, the first planned server
      already lists the planned server of that id. */
  lemma PlanClash(base: ConfigState, dir: string, basePort: nat, size: nat, k: nat)
    requires Configuration.WellFormed(base)
    requires 1 <= k <= size && NatToString(k) in base.serverPaths
    ensures DistinctNames(Plan(base, dir, basePort, size))
    ensures Plan(base, dir, basePort, size)[k - 1].name in Plan(base, dir, basePort, size)[0].settings.serverPaths
  {
    PlanDistinct(base, dir, basePort, size);
    PlannedPaths(base, dir, basePort, 0);
  }

  /** `make_ensemble` succeeds when the base has a data directory and lists
      none of the new ids. */
  lemma EnsembleAccepted(size: nat, base: ConfigState)
    requires Configuration.WellFormed(base) && base.dataDirectory.value.Some?
    requires forall k :: 1 <= k <= size ==> NatToString(k) !in base.serverPaths
    ensures Ensemble(size, base).Ok?
  {
    var dir, bp := base.dataDirectory.value.value, BasePort(base);
    var planned := Plan(base, dir, bp, size);
    var outcomes := Outcomes(planned, planned);
    ConnectSpec(planned, outcomes);
    forall i | 0 <= i < size
      ensures outcomes[i].Ok?
    {
      PlanFresh(base, dir, bp, size, i);
      AddPeersAccepted(planned[i].settings, planned);
    }
  }

  /** `make_ensemble` is refused when the base already lists one of the new
      ids. */
  lemma EnsembleRefused(size: nat, base: ConfigState, k: nat)
    requires Configuration.WellFormed(base) && base.dataDirectory.value.Some?
    requires 1 <= k <= size && NatToString(k) in base.serverPaths
    ensures Ensemble(size, base).Err?
  {
    PlanRefused(base, base.dataDirectory.value.value, BasePort(base), size, k);
  }

  /** The planned servers cannot all take their peers when the base already
      lists one of the new ids. */
  lemma PlanRefused(base: ConfigState, dir: string, basePort: nat, size: nat, k: nat)
    requires Configuration.WellFormed(base)
    requires 1 <= k <= size && NatToString(k) in base.serverPaths
    ensures Connect(Plan(base, dir, basePort, size), Outcomes(Plan(base, dir, basePort, size), Plan(base, dir, basePort, size))).Err?
  {
    PlanClash(base, dir, basePort, size, k);
    RefusedByFirst(Plan(base, dir, basePort, size), k - 1);
  }

  /** When the first server already lists another one, the outer loop is
      refused. */
  lemma RefusedByFirst(xs: seq<Info>, clash: nat)
    requires AllWellFormed(xs) && DistinctNames(xs)
    requires clash < |xs| && xs[clash].name in xs[0].settings.serverPaths
    ensures Connect(xs, Outcomes(xs, xs)).Err?
  {
    AddPeersRefused(xs[0].settings, xs, clash);
    ConnectRefused(xs, Outcomes(xs, xs), 0);
  }

  /** `make_ensemble` fails without a data directory, or when the base
      settings already list a server named like one of the new ids;
      otherwise it succeeds. */
  lemma EnsembleSucceeds(size: nat, base: ConfigState)
    requires Configuration.WellFormed(base)
    ensures base.dataDirectory.value.None? ==> Ensemble(size, base) == Err(NoDataDirectory)
    ensures Ensemble(size, base).Ok? <==>
              base.dataDirectory.value.Some?
              && forall k :: 1 <= k <= size ==> NatToString(k) !in base.serverPaths
  {
    if base.dataDirectory.value.Some? {
      if forall k :: 1 <= k <= size ==> NatToString(k) !in base.serverPaths {
        EnsembleAccepted(size, base);
      } else {
        var k :| 1 <= k <= size && NatToString(k) in base.serverPaths;
        EnsembleRefused(size, base, k);
      }
    }
  }

  /** A group made from `base` holds the planned servers in id order, each
      with its settings after the inner loop. */
  lemma EnsembleShape(size: nat, base: ConfigState)
    requires Configuration.WellFormed(base) && Ensemble(size, base).Ok?
    ensures base.dataDirectory.value.Some?
    ensures var planned := Plan(base, base.dataDirectory.value.value, BasePort(base), size);
            && |Ensemble(size, base).value.servers| == size
            && forall i :: 0 <= i < size ==>
                 AddPeers(planned[i].settings, planned).Ok?
                 && Ensemble(size, base).value.servers[i] == planned[i].(settings := AddPeers(planned[i].settings, planned).value)
    ensures Ensemble(size, base).value.connString == ConnectionString(Ensemble(size, base).value.servers)
  {
    var planned := Plan(base, base.dataDirectory.value.value, BasePort(base), size);
    ConnectSpec(planned, Outcomes(planned, planned));
  }

  /** Server `i` of a group made from `base`: id `i + 1`, its directory
      under the base directory, client port `3 * i` places after the base
      port, peer and leader ports the next two, no instance yet, and every
      other effective setting but the server list as in `base`. */
  lemma EnsembleServers(size: nat, base: ConfigState, i: nat)
    requires Configuration.WellFormed(base) && Ensemble(size, base).Ok? && i < size
    ensures |Ensemble(size, base).value.servers| == size
    ensures var g, dir, bp := Ensemble(size, base).value, base.dataDirectory.value.value, BasePort(base);
            var x, e0 := g.servers[i], Configuration.EffectiveOf(base);
            var e := Configuration.EffectiveOf(x.settings);
            && x.id == i + 1 && x.name == NatToString(i + 1) && x.path == dir + "/" + x.name
            && x.peerPort == PortAt(bp, 3 * i + 1) && x.leaderPort == PortAt(bp, 3 * i + 2)
            && x.instance.None?
            && e.clientPort == PortAt(bp, 3 * i) && e.dataDirectory == Some(x.path + "/data")
            && e.(clientPort := e0.clientPort, dataDirectory := e0.dataDirectory, servers := e0.servers) == e0
  {
    var dir, bp := base.dataDirectory.value.value, BasePort(base);
    var planned := Plan(base, dir, bp, size);
    EnsembleShape(size, base);
    EnsembleSucceeds(size, base);
    PlannedSpec(base, dir, bp, i);
    PlanFresh(base, dir, bp, size, i);
    AddPeersServers(planned[i].settings, planned);
  }

  /** The client port of server `i` of the group, `3 * i` places after the
      base port. */
  lemma EnsembleClientPort(size: nat, base: ConfigState, i: nat)
    requires Configuration.WellFormed(base) && Ensemble(size, base).Ok? && i < size
    ensures |Ensemble(size, base).value.servers| == size
    ensures ClientPortOf(Ensemble(size, base).value.servers[i].settings) == PortAt(BasePort(base), 3 * i)
  {
    EnsembleServers(size, base, i);
  }

  /** Server `i` of the group lists every server of the group, itself
      included, at that server's peer and leader ports. */
  lemma EnsemblePeers(size: nat, base: ConfigState, i: nat)
    requires Configuration.WellFormed(base) && Ensemble(size, base).Ok? && i < size
    ensures |Ensemble(size, base).value.servers| == size
    ensures var g := Ensemble(size, base).value;
            var servers := Configuration.EffectiveOf(g.servers[i].settings).servers;
            forall j :: 0 <= j < size ==>
              g.servers[j].name in servers && servers[g.servers[j].name] == Some(Address(g.servers[j]))
  {
    var dir, bp := base.dataDirectory.value.value, BasePort(base);
    var planned := Plan(base, dir, bp, size);
    EnsembleShape(size, base);
    EnsembleSucceeds(size, base);
    PlanFresh(base, dir, bp, size, i);
    AddPeersServers(planned[i].settings, planned);
    var g := Ensemble(size, base).value;
    assert forall j :: 0 <= j < size ==> g.servers[j].name == planned[j].name && Address(g.servers[j]) == Address(planned[j]);
  }

  /** The client endpoints of a group of `size` from `basePort` on. */
  function ClientEndpoints(basePort: nat, size: nat): (r: seq<string>)
    ensures |r| == size && forall i :: 0 <= i < size ==> r[i] == Localhost + ":" + NatToString(PortAt(basePort, 3 * i))
  {
    seq(size, i requires 0 <= i => Localhost + ":" + NatToString(PortAt(basePort, 3 * i)))
  }

  /** The connection string lists the servers' client ports in id order,
      each `3 * i` places after the base port. */
  lemma EnsembleConnectionString(size: nat, base: ConfigState)
    requires Configuration.WellFormed(base) && Ensemble(size, base).Ok?
    ensures Ensemble(size, base).value.connString == "zk://" + Join(ClientEndpoints(BasePort(base), size), ",") + "/"
  {
    var g := Ensemble(size, base).value;
    var expected := ClientEndpoints(BasePort(base), size);
    EnsembleShape(size, base);
    var endpoints := Endpoints(g.servers);
    forall i | 0 <= i < size
      ensures endpoints[i] == expected[i]
    {
      EnsembleClientPort(size, base, i);
    }
    assert endpoints == expected;
  }

  /** With the default client port and room below 65536, the ports run
      18500, 18501, 18502 for the first server, 18503... for the next. */
  lemma DefaultPortsDoNotWrap(base: ConfigState, i: nat)
    requires Configuration.WellFormed(base) && ClientPortOf(base) == Configuration.DefaultClientPort
    requires DefaultBasePort + 3 * i + 2 < Configuration.Uint16Modulus
    ensures PortAt(BasePort(base), 3 * i) == 18500 + 3 * i
    ensures PortAt(BasePort(base), 3 * i + 1) == 18501 + 3 * i
    ensures PortAt(BasePort(base), 3 * i + 2) == 18502 + 3 * i
  {
    var bp := BasePort(base);
    assert bp == DefaultBasePort;
    PortsBelowWrap(bp, 3 * i);
    PortsBelowWrap(bp, 3 * i + 1);
    PortsBelowWrap(bp, 3 * i + 2);
  }

  /** Below 65536 the ports count up without wrapping. */
  lemma PortsBelowWrap(basePort: nat, k: nat)
    requires basePort + k < Configuration.Uint16Modulus
    ensures PortAt(basePort, k) == basePort + k
  {
    PortAtValue(basePort, k);
  }

  /** `start_all_servers` for one server: start it unless it already runs. */
  function StartOne(x: Info, packages: Classpath.Classpath): Info
  {
    if x.instance.None? then x.(instance := Some(ServerInstance(packages, x.settings))) else x
  }

  /** `start_all_servers` as a value. */
  function Started(xs: seq<Info>, packages: Classpath.Classpath): (r: seq<Info>)
    ensures |r| == |xs| && forall i :: 0 <= i < |xs| ==> r[i] == StartOne(xs[i], packages)
  {
    seq(|xs|, i requires 0 <= i < |xs| => StartOne(xs[i], packages))
  }

  /** After starting, every server runs; one already running keeps its
      instance; a newly started one runs with its own settings; nothing else
      about a server changes. */
  lemma StartedSpec(xs: seq<Info>, packages: Classpath.Classpath)
    ensures forall i :: 0 <= i < |xs| ==> Started(xs, packages)[i].instance.Some?
    ensures forall i :: 0 <= i < |xs| && xs[i].instance.Some? ==> Started(xs, packages)[i] == xs[i]
    ensures forall i :: 0 <= i < |xs| && xs[i].instance.None? ==>
              Started(xs, packages)[i].instance == Some(ServerInstance(packages, xs[i].settings))
    ensures forall i :: 0 <= i < |xs| ==> Started(xs, packages)[i].(instance := xs[i].instance) == xs[i]
  {
  }

  /** Starting twice starts nothing new, whatever class path the second call
      passes. */
  lemma StartedIdempotent(xs: seq<Info>, first: Classpath.Classpath, second: Classpath.Classpath)
    ensures Started(Started(xs, first), second) == Started(xs, first)
  {
    var once := Started(xs, first);
    assert forall i :: 0 <= i < |xs| ==> StartOne(once[i], second) == once[i];
  }

  /** The first loop of `make_ensemble`: each server's id, name, directory,
      settings and three ports, counting the ports up from the base port. */
  method PlanServers(base: ConfigState, dir: string, size: nat) returns (planned: seq<Info>)
    requires Configuration.WellFormed(base)
    ensures planned == Plan(base, dir, BasePort(base), size)
  {
    var basePort := BasePort(base);
    ghost var first := basePort;
    assert PortAt(first, 0) == first;
    planned := [];
    for idx := 0 to size
      invariant planned == Plan(base, dir, first, idx)
      invariant basePort == PortAt(first, 3 * idx)
    {
      var x;
      x, basePort := PlanServer(base, dir, idx, basePort, first);
      PlanSnoc(base, dir, first, idx);
      planned := planned + [x];
    }
  }

  /** One turn of the first loop: server `idx` takes the next three ports. */
  method PlanServer(base: ConfigState, dir: string, idx: nat, basePort: nat, ghost first: nat)
    returns (x: Info, next: nat)
    requires Configuration.WellFormed(base) && basePort == PortAt(first, 3 * idx)
    ensures x == Planned(base, dir, first, idx)
    ensures next == PortAt(first, 3 * (idx + 1))
  {
    var name := NatToString(idx + 1);
    var path := dir + "/" + name;
    var clientPort := basePort;
    next := Increment(basePort);
    var settings := ServerSettings(base, path, clientPort);
    var peerPort := next;
    next := Increment(next);
    var leaderPort := next;
    next := Increment(next);
    assert peerPort == PortAt(first, 3 * idx + 1);
    assert leaderPort == PortAt(first, 3 * idx + 2);
    assert next == PortAt(first, 3 * (idx + 1)) by {
      assert 3 * (idx + 1) == 3 * idx + 3;
    }
    x := Info(idx + 1, name, path, settings, peerPort, leaderPort, None);
  }

  /** The inner loop of `make_ensemble`: `add_server` for every peer, giving
      up at the first refusal. */
  method AddAllPeers(settings: ConfigState, peers: seq<Info>) returns (r: Result<ConfigState, string>)
    requires Configuration.WellFormed(settings)
    ensures r == AddPeers(settings, peers)
  {
    var current := settings;
    for j := 0 to |peers|
      invariant AddPeers(settings, peers[..j]) == Ok(current)
    {
      var peer := peers[j];
      var added := Configuration.AddServerTo(current, peer.name, Localhost, peer.peerPort, peer.leaderPort);
      assert peers[..j + 1][..j] == peers[..j];
      if added.Err? {
        AddPeersFailurePersists(settings, peers, j + 1);
        return Err(added.error);
      }
      Configuration.AddServerToWellFormed(current, peer.name, Localhost, peer.peerPort, peer.leaderPort);
      current := added.value;
    }
    assert peers[..|peers|] == peers;
    r := Ok(current);
  }

  /** The second loop of `make_ensemble`: every server takes all the
      planned servers as peers, in id order, and the connection string
      gains its endpoint, after a ',' from the second on; the first refusal
      ends the loop. */
  method ConnectServers(planned: seq<Info>) returns (r: Result<seq<Info>, string>, text: string)
    requires AllWellFormed(planned)
    ensures r == Connect(planned, Outcomes(planned, planned))
    ensures r.Ok? ==> text == ConnectionString(r.value)
  {
    ghost var outcomes := Outcomes(planned, planned);
    var connected: seq<Info> := [];
    text := "zk://";
    var isFirst := true;
    for k := 0 to |planned|
      invariant Connect(planned[..k], outcomes[..k]) == Ok(connected)
      invariant isFirst <==> |Endpoints(connected)| == 0
      invariant text == "zk://" + Join(Endpoints(connected), ",")
    {
      var server := planned[k];
      var added := AddAllPeers(server.settings, planned);
      ConnectStep(planned, outcomes, k, connected);
      if added.Err? {
        return Err(added.error), text;
      }
      var endpoint := Endpoint(added.value);
      EndpointsSnoc(connected, server.(settings := added.value));
      JoinAfter("zk://", Endpoints(connected), endpoint, ",");
      connected := connected + [server.(settings := added.value)];
      if isFirst {
        isFirst := false;
      } else {
        text := text + ",";
      }
      text := text + endpoint;
    }
    assert planned[..|planned|] == planned && outcomes[..|planned|] == outcomes;
    text := text + "/";
    r := Ok(connected);
  }

  /** `server_group`: the servers in id order and the connection string. */
  class ServerGroup {
    var servers: seq<Info>
    var connString: string

    constructor()
      ensures servers == [] && connString == ""
    {
      servers := [];
      connString := "";
    }

    /** `size`. */
    function Size(): nat
      reads this
    {
      |servers|
    }

    /** `get_connection_string`. */
    function GetConnectionString(): string
      reads this
    {
      connString
    }

    /** `make_ensemble`: plan the servers with a 16-bit port counter, then
        give each server every peer and append its endpoint to the
        connection string. */
    static method MakeEnsemble(size: nat, base: ConfigState) returns (r: Result<ServerGroup, string>)
      requires Configuration.WellFormed(base)
      ensures Ensemble(size, base).Err? ==> r == Err(Ensemble(size, base).error)
      ensures Ensemble(size, base).Ok? ==>
                && r.Ok? && fresh(r.value)
                && r.value.servers == Ensemble(size, base).value.servers
                && r.value.connString == Ensemble(size, base).value.connString
    {
      if base.dataDirectory.value.None? {
        return Err(NoDataDirectory);
      }
      var dir := base.dataDirectory.value.value;
      var planned := PlanServers(base, dir, size);
      var connected, text := ConnectServers(planned);
      match connected {
        case Err(message) =>
          r := Err(message);
        case Ok(servers) =>
          var group := new ServerGroup();
          group.servers, group.connString := servers, text;
          r := Ok(group);
      }
    }

    /** `start_all_servers`: starts, with `packages`, each server that has
        no instance yet. */
    method StartAllServers(packages: Classpath.Classpath)
      modifies this
      ensures servers == Started(old(servers), packages) && connString == old(connString)
    {
      ghost var before := servers;
      for i := 0 to |servers|
        invariant |servers| == |before| && connString == old(connString)
        invariant forall k :: 0 <= k < i ==> servers[k] == StartOne(before[k], packages)
        invariant forall k :: i <= k < |servers| ==> servers[k] == before[k]
      {
        if servers[i].instance.None? {
          servers := servers[i := servers[i].(instance := Some(ServerInstance(packages, servers[i].settings)))];
        }
      }
    }
  }
}
