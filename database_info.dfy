/**
 * How the database-info provider reshapes the replies of a Redis connection
 * into the application's models
 * (redisinsight/api/src/modules/database/providers/database-info.provider.ts).
 *
 * The client is not modelled: each method takes the replies its calls
 * produce, already passed through the reply parsers
 * (`convertBulkStringsToObject`, `convertStringsArrayToObject`,
 * `parseClusterNodes`), or the error the call threw. The order in which the
 * concurrent calls of a `Promise.all` finish is an argument.
 */
module DatabaseInfo {
  import opened Js
  import opened Seqs

  /** One parsed reply item: its field names and their values. */
  type ReplyObject = map<string, string>

  /** `obj[key]`, `None` standing for `undefined`. */
  function Field(o: ReplyObject, key: string): Option<string> {
    if key in o then Some(o[key]) else None
  }

  /** The error a client call threw, with its message. */
  datatype ClientError = ClientError(message: string)

  /** What a client call gave: a reply, or the error it threw. */
  datatype Reply<+T> = Replied(value: T) | Threw(error: ClientError)

  datatype ErrorMessage = WrongDiscoveryTool | WrongDatabaseType

  /**
   * What the provider throws. `Raw` is a client error as it was thrown,
   * `BadRequest` a `BadRequestException` with one of the known messages, and
   * `AclChecked(e)` what `catchAclError` makes of `e` (that helper is not part
   * of this model).
   */
  datatype Failure = Raw(message: string) | BadRequest(kind: ErrorMessage) | AclChecked(cause: Failure)

  datatype Result<+T> = Ok(value: T) | Failed(error: Failure)

  const UnknownSentinelCommand: string := "unknown command `sentinel`"

  // ---------------------------------------------------------------------------
  // Cluster and sentinel detection

  /**
   * `isCluster`: `info` is the parsed `CLUSTER INFO` reply (`None` for a null
   * object), or the error the call or the parsing threw.
   */
  function IsCluster(info: Reply<Option<ReplyObject>>): (r: bool)
    ensures r <==> info.Replied? && info.value.Some? && Field(info.value.value, "cluster_state") == Some("ok")
    ensures info.Threw? ==> !r
  {
    match info
    case Threw(_) => false
    case Replied(obj) => obj.Some? && Field(obj.value, "cluster_state") == Some("ok")
  }

  /** `isSentinel`: whether `SENTINEL MASTERS` answered at all. */
  function IsSentinel<T>(masters: Reply<T>): (r: bool)
    ensures r <==> masters.Replied?
  {
    masters.Replied?
  }

  // ---------------------------------------------------------------------------
  // Cluster nodes

  datatype RedisClusterNodeLinkState = Connected | Disconnected

  /** A node as `parseClusterNodes` gives it (the fields read here). */
  datatype ClusterNode = ClusterNode(id: string, host: string, port: int, linkState: RedisClusterNodeLinkState)

  datatype NodeAddress = NodeAddress(host: string, port: int)

  predicate IsConnected(node: ClusterNode) {
    node.linkState == Connected
  }

  function AddressOf(node: ClusterNode): NodeAddress {
    NodeAddress(node.host, node.port)
  }

  /** `determineClusterNodes`: the connected nodes, in order, reduced to host and port. */
  function DetermineClusterNodes(nodes: seq<ClusterNode>): (r: seq<NodeAddress>)
    ensures |r| <= |nodes|
    ensures forall a :: a in r <==> exists i :: 0 <= i < |nodes| && IsConnected(nodes[i]) && AddressOf(nodes[i]) == a
  {
    var connected := Filter(nodes, IsConnected);
    var r := seq(|connected|, i requires 0 <= i < |connected| => AddressOf(connected[i]));
    assert forall a :: a in r ==> exists i :: 0 <= i < |nodes| && IsConnected(nodes[i]) && AddressOf(nodes[i]) == a by {
      forall a | a in r ensures exists i :: 0 <= i < |nodes| && IsConnected(nodes[i]) && AddressOf(nodes[i]) == a {
        var k :| 0 <= k < |r| && r[k] == a;
        assert connected[k] in nodes;
      }
    }
    assert forall i :: 0 <= i < |nodes| && IsConnected(nodes[i]) ==> AddressOf(nodes[i]) in r by {
      forall i | 0 <= i < |nodes| && IsConnected(nodes[i]) ensures AddressOf(nodes[i]) in r {
        assert nodes[i] in connected;
        var k :| 0 <= k < |connected| && connected[k] == nodes[i];
        assert r[k] == AddressOf(nodes[i]);
      }
    }
    r
  }

  /** The nodes of a concatenation are the nodes of its parts, in the same order. */
  lemma ClusterNodesAppend(a: seq<ClusterNode>, b: seq<ClusterNode>)
    ensures DetermineClusterNodes(a + b) == DetermineClusterNodes(a) + DetermineClusterNodes(b)
  {
    FilterAppend(a, b, IsConnected);
  }

  /** When every node is connected, each one gives its address at its own position. */
  lemma AllConnectedNodesKept(nodes: seq<ClusterNode>)
    requires forall i :: 0 <= i < |nodes| ==> IsConnected(nodes[i])
    ensures |DetermineClusterNodes(nodes)| == |nodes|
    ensures forall i :: 0 <= i < |nodes| ==> DetermineClusterNodes(nodes)[i] == AddressOf(nodes[i])
  {
    FilterKeepsAll(nodes, IsConnected);
  }

  // ---------------------------------------------------------------------------
  // Modules

  /** The `name` and `ver` fields of one `MODULE LIST` entry. */
  datatype ModuleListEntry = ModuleListEntry(name: string, ver: int)

  datatype AdditionalRedisModule = AdditionalRedisModule(name: string, version: Option<int>, semanticVersion: Option<string>)

  /** `SUPPORTED_REDIS_MODULES[name]` is truthy: the module is known under a non-empty alias. */
  predicate IsSupported(supported: map<string, string>, name: string) {
    name in supported && supported[name] != ""
  }

  /**
   * One `MODULE LIST` entry as a module: the alias when the name is known
   * (`??` falls back to the raw name only when there is none), the raw
   * version, and the semantic version only for a supported module, computed
   * by `semver` (standing for `convertIntToSemanticVersion`).
   */
  function ModuleOfEntry(entry: ModuleListEntry, supported: map<string, string>, semver: int -> string): (m: AdditionalRedisModule)
    ensures m.name == if entry.name in supported then supported[entry.name] else entry.name
    ensures m.version == Some(entry.ver)
    ensures m.semanticVersion.Some? <==> IsSupported(supported, entry.name)
    ensures m.semanticVersion.Some? ==> m.semanticVersion.value == semver(entry.ver)
  {
    AdditionalRedisModule(
      Field(supported, entry.name).GetOr(entry.name),
      Some(entry.ver),
      if IsSupported(supported, entry.name) then Some(semver(entry.ver)) else None)
  }

  /** The modules of a `MODULE LIST` reply: one per entry, in reply order. */
  function ModulesOfList(entries: seq<ModuleListEntry>, supported: map<string, string>, semver: int -> string): (r: seq<AdditionalRedisModule>)
    ensures |r| == |entries|
    ensures forall i :: 0 <= i < |r| ==> r[i] == ModuleOfEntry(entries[i], supported, semver)
  {
    seq(|entries|, i requires 0 <= i < |entries| => ModuleOfEntry(entries[i], supported, semver))
  }

  /** A module found by probing: only its name is known. */
  function NameOnly(name: string): AdditionalRedisModule {
    AdditionalRedisModule(name, None, None)
  }

  /** One entry of a `COMMAND INFO` reply: nil for a command the server does not know. */
  datatype CommandInfo = NilInfo | Info(command: string)

  predicate IsPresent(info: CommandInfo) {
    info.Info?
  }

  /** One probe of `REDIS_MODULES_COMMANDS`: a module name and what `COMMAND INFO` on its commands gave. */
  datatype ModuleProbe = ModuleProbe(moduleName: string, reply: Reply<seq<CommandInfo>>)

  /** The probe answered with at least one command the server knows. */
  predicate Detected(probe: ModuleProbe) {
    probe.reply.Replied? && exists k :: 0 <= k < |probe.reply.value| && IsPresent(probe.reply.value[k])
  }

  /**
   * `determineDatabaseModulesUsingInfo`: the probes run concurrently and each
   * pushes its module when it finishes, in the order `completion`. A module is
   * in the result exactly when its probe found a known command; a failed
   * probe only leaves its own module out.
   */
  method DetermineDatabaseModulesUsingInfo(probes: seq<ModuleProbe>, completion: seq<nat>) returns (modules: seq<AdditionalRedisModule>)
    requires IsCompletionOrder(completion, |probes|)
    ensures |modules| <= |probes|
    ensures forall m :: m in modules <==>
      exists i :: 0 <= i < |probes| && Detected(probes[i]) && m == NameOnly(probes[i].moduleName)
  {
    modules := [];
    var k := 0;
    while k < |completion|
      invariant 0 <= k <= |completion|
      invariant |modules| <= k
      invariant forall m :: m in modules <==>
        exists j :: 0 <= j < k && Detected(probes[completion[j]]) && m == NameOnly(probes[completion[j]].moduleName)
    {
      var probe := probes[completion[k]];
      ghost var before := modules;
      match probe.reply {
        case Threw(_) =>
          // continue regardless of error
        case Replied(commandsInfo) =>
          var present := Filter(commandsInfo, IsPresent);
          if |present| > 0 {
            assert present[0] in commandsInfo;
            modules := modules + [NameOnly(probe.moduleName)];
          }
      }
      assert modules == before + (if Detected(probe) then [NameOnly(probe.moduleName)] else []);
      forall m ensures m in modules <==>
        exists j :: 0 <= j < k + 1 && Detected(probes[completion[j]]) && m == NameOnly(probes[completion[j]].moduleName)
      {
        if m in modules && m !in before {
          assert Detected(probes[completion[k]]) && m == NameOnly(probes[completion[k]].moduleName);
        }
      }
      k := k + 1;
    }
    forall m ensures m in modules <==> exists i :: 0 <= i < |probes| && Detected(probes[i]) && m == NameOnly(probes[i].moduleName) {
      if m in modules {
        var j :| 0 <= j < k && Detected(probes[completion[j]]) && m == NameOnly(probes[completion[j]].moduleName);
        assert completion[j] < |probes|;
      }
      if exists i :: 0 <= i < |probes| && Detected(probes[i]) && m == NameOnly(probes[i].moduleName) {
        var i :| 0 <= i < |probes| && Detected(probes[i]) && m == NameOnly(probes[i].moduleName);
        assert i in completion;
        var j :| 0 <= j < |completion| && completion[j] == i;
      }
    }
  }

  /**
   * `determineDatabaseModules`: the `MODULE LIST` reply when there is one;
   * otherwise, whatever that call threw, the probing above.
   */
  method DetermineDatabaseModules(
    list: Reply<seq<ModuleListEntry>>, supported: map<string, string>, semver: int -> string,
    probes: seq<ModuleProbe>, completion: seq<nat>)
    returns (modules: seq<AdditionalRedisModule>)
    requires list.Threw? ==> IsCompletionOrder(completion, |probes|)
    ensures list.Replied? ==> modules == ModulesOfList(list.value, supported, semver)
    ensures list.Threw? ==> forall m :: m in modules <==>
      exists i :: 0 <= i < |probes| && Detected(probes[i]) && m == NameOnly(probes[i].moduleName)
  {
    match list {
      case Replied(entries) =>
        modules := ModulesOfList(entries, supported, semver);
      case Threw(_) =>
        modules := DetermineDatabaseModulesUsingInfo(probes, completion);
    }
  }

  // ---------------------------------------------------------------------------
  // Sentinel

  datatype SentinelMasterStatus = Active | Down

  /** A host and port as reported; either may be missing (`undefined`, or `NaN` for the port). */
  datatype Endpoint = Endpoint(host: Option<string>, port: Option<int>)

  datatype SentinelMaster = SentinelMaster(
    host: Option<string>,
    port: Option<int>,
    name: Option<string>,
    status: SentinelMasterStatus,
    numberOfSlaves: Option<int>,
    nodes: Option<seq<Endpoint>>)

  /** The host and port the client was created with. */
  datatype ClientOptions = ClientOptions(host: string, port: int)

  /** One `SENTINEL MASTERS` item as a master: down exactly when its flags mention `down`. */
  function MasterOfReply(o: ReplyObject): (m: SentinelMaster)
    ensures m.status == Down <==> "flags" in o && Includes(o["flags"], "down")
    ensures m.host == Field(o, "ip") && m.name == Field(o, "name")
    ensures m.port == ParseIntOpt(Field(o, "port")) && m.numberOfSlaves == ParseIntOpt(Field(o, "num-slaves"))
    ensures m.nodes == None
  {
    var flags := Field(o, "flags");
    SentinelMaster(
      Field(o, "ip"),
      ParseIntOpt(Field(o, "port")),
      Field(o, "name"),
      if flags.Some? && Includes(flags.value, "down") then Down else Active,
      ParseIntOpt(Field(o, "num-slaves")),
      None)
  }

  /** Ports and replica counts written in decimal are read as those numbers. */
  lemma MasterNumbersAreDecimal(o: ReplyObject, port: nat, slaves: nat)
    requires Field(o, "port") == Some(NatToDecimal(port))
    requires Field(o, "num-slaves") == Some(NatToDecimal(slaves))
    ensures MasterOfReply(o).port == Some(port) && MasterOfReply(o).numberOfSlaves == Some(slaves)
  {
    ParseIntOfDecimal(port, []);
    ParseIntOfDecimal(slaves, []);
    assert NatToDecimal(port) + [] == NatToDecimal(port);
    assert NatToDecimal(slaves) + [] == NatToDecimal(slaves);
  }

  /** A subjectively or objectively down master (`s_down`, `o_down` among its flags) is Down. */
  lemma DownFlagsMeanDown(o: ReplyObject, before: string, after: string, kind: string)
    requires kind == "s_" || kind == "o_"
    requires Field(o, "flags") == Some(before + kind + "down" + after)
    ensures MasterOfReply(o).status == Down
  {
    IncludesInner(before + kind, "down", after);
    assert before + kind + "down" + after == (before + kind) + "down" + after;
  }

  /** One `SENTINEL SENTINELS` item as an endpoint. */
  function EndpointOfReply(o: ReplyObject): Endpoint {
    Endpoint(Field(o, "ip"), ParseIntOpt(Field(o, "port")))
  }

  /** What an error of a sentinel call turns into: a wrong database type, or the ACL translation. */
  function SentinelsFailure(e: ClientError): Failure {
    if Includes(e.message, UnknownSentinelCommand) then BadRequest(WrongDatabaseType) else AclChecked(Raw(e.message))
  }

  /**
   * `getMasterEndpoints`: the client's own address first, then the reported
   * sentinels in reply order.
   */
  function MasterEndpoints(client: ClientOptions, reply: Reply<seq<ReplyObject>>): (r: Result<seq<Endpoint>>)
    ensures reply.Replied? ==> r.Ok? && |r.value| == |reply.value| + 1
    ensures reply.Replied? ==> r.value[0] == Endpoint(Some(client.host), Some(client.port))
    ensures reply.Replied? ==> forall i :: 0 <= i < |reply.value| ==> r.value[i + 1] == EndpointOfReply(reply.value[i])
    ensures reply.Threw? ==> r == Failed(SentinelsFailure(reply.error))
  {
    match reply
    case Threw(e) => Failed(SentinelsFailure(e))
    case Replied(items) =>
      Ok([Endpoint(Some(client.host), Some(client.port))]
         + seq(|items|, i requires 0 <= i < |items| => EndpointOfReply(items[i])))
  }

  /**
   * What the catch of `determineSentinelMasterGroups` makes of an error: a client
   * error saying the sentinel command is unknown becomes the wrong-discovery-tool
   * request error; anything else goes through the ACL translation. The errors
   * `getMasterEndpoints` already translated are taken not to carry that phrase.
   */
  function MastersFailure(e: Failure): Failure {
    if e.Raw? && Includes(e.message, UnknownSentinelCommand) then BadRequest(WrongDiscoveryTool) else AclChecked(e)
  }

  /** The master of reply item `i` with the endpoints found for it. */
  function MasterWithNodes(o: ReplyObject, nodes: seq<Endpoint>): SentinelMaster {
    MasterOfReply(o).(nodes := Some(nodes))
  }

  /** The `SENTINEL SENTINELS` reply of the master described by `o`. */
  function SentinelsReplyOf(o: ReplyObject, sentinelsOf: Option<string> -> Reply<seq<ReplyObject>>): Reply<seq<ReplyObject>> {
    sentinelsOf(MasterOfReply(o).name)
  }

  /**
   * `determineSentinelMasterGroups`. `sentinelsOf(name)` is what the
   * `SENTINEL SENTINELS name` call gives; those calls run concurrently and
   * finish in the order `completion`, each overwriting its own slot of the
   * result. The first of them to fail, in that order, decides the error.
   */
  method DetermineSentinelMasterGroups(
    client: ClientOptions, reply: Reply<seq<ReplyObject>>,
    sentinelsOf: Option<string> -> Reply<seq<ReplyObject>>, completion: seq<nat>)
    returns (r: Result<seq<SentinelMaster>>)
    requires reply.Replied? ==> IsCompletionOrder(completion, |reply.value|)
    ensures reply.Threw? ==> r == Failed(MastersFailure(Raw(reply.error.message)))
    ensures reply.Replied? ==>
      (r.Ok? <==> forall i :: 0 <= i < |reply.value| ==> SentinelsReplyOf(reply.value[i], sentinelsOf).Replied?)
    ensures reply.Replied? && r.Ok? ==> |r.value| == |reply.value| && forall i :: 0 <= i < |reply.value| ==>
      r.value[i] == MasterWithNodes(reply.value[i], MasterEndpoints(client, SentinelsReplyOf(reply.value[i], sentinelsOf)).value)
    ensures reply.Replied? && r.Failed? ==> (
      exists k :: 0 <= k < |completion| && completion[k] < |reply.value|
        && (forall j :: 0 <= j < k ==> completion[j] < |reply.value| && SentinelsReplyOf(reply.value[completion[j]], sentinelsOf).Replied?)
        && SentinelsReplyOf(reply.value[completion[k]], sentinelsOf).Threw?
        && r.error == MastersFailure(SentinelsFailure(SentinelsReplyOf(reply.value[completion[k]], sentinelsOf).error)))
  {
    match reply {
      case Threw(e) =>
        r := Failed(MastersFailure(Raw(e.message)));
      case Replied(items) =>
        var result := new SentinelMaster[|items|](i requires 0 <= i < |items| => MasterOfReply(items[i]));
        var k := 0;
        while k < |completion|
          invariant 0 <= k <= |completion|
          invariant forall j :: 0 <= j < k ==> SentinelsReplyOf(items[completion[j]], sentinelsOf).Replied?
          invariant forall i :: 0 <= i < |items| ==> (
            result[i] ==
              if i in completion[..k]
              then MasterWithNodes(items[i], MasterEndpoints(client, SentinelsReplyOf(items[i], sentinelsOf)).value)
              else MasterOfReply(items[i]))
        {
          var index := completion[k];
          var master := result[index];
          assert master.name == MasterOfReply(items[index]).name;
          var nodes := MasterEndpoints(client, sentinelsOf(master.name));
          if nodes.Failed? {
            r := Failed(MastersFailure(nodes.error));
            return;
          }
          result[index] := master.(nodes := Some(nodes.value));
          assert completion[..k + 1] == completion[..k] + [index];
          k := k + 1;
        }
        assert completion[..k] == completion;
        r := Ok(result[..]);
    }
  }

  /** An unknown sentinel command on the masters call is the wrong discovery tool. */
  lemma UnknownSentinelOnMasters(e: ClientError)
    requires Includes(e.message, UnknownSentinelCommand)
    ensures MastersFailure(Raw(e.message)) == BadRequest(WrongDiscoveryTool)
  {
  }

  /**
   * On the sentinels call it is the wrong database type, which the masters
   * catch passes on untranslated but for the ACL step: it never becomes the
   * wrong-discovery-tool error.
   */
  lemma UnknownSentinelOnEndpoints(client: ClientOptions, e: ClientError)
    requires Includes(e.message, UnknownSentinelCommand)
    ensures MasterEndpoints(client, Threw(e)) == Failed(BadRequest(WrongDatabaseType))
    ensures MastersFailure(SentinelsFailure(e)) == AclChecked(BadRequest(WrongDatabaseType))
  {
  }
}
