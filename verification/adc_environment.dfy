/**
  An ADC environment (one HA cluster of devices) and the resolver that picks the
  endpoint to talk to. The registry package's `NetScalerAdcEnvironment` and the
  newer `netscaler/adc` package's `Environment` are textually identical types with
  identical methods; both are modelled here.

  The device client library is outside the model: client construction and the
  "is this node primary" query are the two functions of a `DeviceApi`, and the
  SSH password configuration of the file-transfer client is a function parameter.
 */
module AdcEnvironment {
  import opened Wrappers
  import opened Errors
  import opened Transform
  import opened AdcNode
  import NameIndex

  /** One HA cluster: an optional management node (the zero node when absent), peer nodes, logins and settings. */
  datatype NetScalerAdcEnvironment = NetScalerAdcEnvironment(
    name: string,
    management: NetScalerAdcNode,
    nodes: seq<NetScalerAdcNode>,
    credentials: seq<NetScalerAdcCredential>,
    settings: NetScalerAdcSettings)

  /** The encrypted twin of an environment. */
  datatype SecureNetScalerAdcEnvironment = SecureNetScalerAdcEnvironment(
    name: string,
    management: SecureNetScalerAdcNode,
    nodes: seq<SecureNetScalerAdcNode>,
    credentials: seq<SecureNetScalerAdcCredential>,
    settings: NetScalerAdcSettings,
    cryptoParams: CryptoParams)

  function EnvironmentName(e: NetScalerAdcEnvironment): string { e.name }

  function SecureEnvironmentName(e: SecureNetScalerAdcEnvironment): string { e.name }

  /** The error GetCredentialByName reports for a missing credential. */
  function CredentialMissing(name: string, environment: string): Error
  {
    Text("could not find credential " + name + " in environment " + environment)
  }

  /** The first credential called `name`; otherwise an error naming the credential and the environment. */
  function GetCredentialByName(e: NetScalerAdcEnvironment, name: string): (r: Result<NetScalerAdcCredential, Error>)
    ensures r.Success? <==> exists i :: 0 <= i < |e.credentials| && e.credentials[i].name == name
    ensures r.Success? ==> exists i :: NameIndex.FirstNamed(e.credentials, CredentialName, name, i) && r.value == e.credentials[i]
    ensures r.Failure? ==> r.error == CredentialMissing(name, e.name)
  {
    NameIndex.FindByName(e.credentials, CredentialName, name, CredentialMissing(name, e.name))
  }

  /** The same lookup over the secure credentials, comparing the stored clear-text names. */
  function GetSecureCredentialByName(e: SecureNetScalerAdcEnvironment, name: string): (r: Result<SecureNetScalerAdcCredential, Error>)
    ensures r.Success? <==> exists i :: 0 <= i < |e.credentials| && e.credentials[i].name == name
    ensures r.Success? ==> exists i :: NameIndex.FirstNamed(e.credentials, SecureCredentialName, name, i) && r.value == e.credentials[i]
    ensures r.Failure? ==> r.error == CredentialMissing(name, e.name)
  {
    NameIndex.FindByName(e.credentials, SecureCredentialName, name, CredentialMissing(name, e.name))
  }

  /** A management node is present unless the field holds the zero node. */
  function HasManagement(e: NetScalerAdcEnvironment): (b: bool)
    ensures b <==> e.management.name != "" || e.management.address != ""
  {
    e.management != ZeroNode
  }

  /** Peer nodes are present when the list is non-empty. */
  function HasNodes(e: NetScalerAdcEnvironment): (b: bool)
    ensures b <==> e.nodes != []
  {
    |e.nodes| != 0
  }

  /** All endpoints: the peers in order, then the management node when one is present. */
  function GetNodes(e: NetScalerAdcEnvironment): (r: seq<NetScalerAdcNode>)
    ensures |r| == |e.nodes| + (if HasManagement(e) then 1 else 0)
    ensures r[..|e.nodes|] == e.nodes
    ensures HasManagement(e) ==> r[|e.nodes|] == e.management
  {
    if HasManagement(e) then e.nodes + [e.management] else e.nodes
  }

  /** The peer names in order; the management node is never listed. */
  function GetNodeNames(e: NetScalerAdcEnvironment): (r: seq<string>)
    ensures |r| == |e.nodes|
    ensures forall i :: 0 <= i < |e.nodes| ==> r[i] == e.nodes[i].name
  {
    NameIndex.Names(e.nodes, NodeName)
  }

  /** The login handed to the device client factory. */
  datatype Credentials = Credentials(username: string, password: string)

  function LoginOf(c: NetScalerAdcCredential): Credentials
  {
    Credentials(c.username, c.password)
  }

  /**
    The device client library: building a client for (node name, address, login,
    settings), and asking a client whether its node is the primary one.
   */
  datatype DeviceApi<!C> = DeviceApi(
    newClient: (string, string, Credentials, NetScalerAdcSettings) -> Result<C, Error>,
    isPrimaryNode: C -> Result<bool, Error>)

  /** The factory call GetNodeNitroClient makes for endpoint `n`, with its wrapping of a factory error. */
  function BuildNodeClient<C>(e: NetScalerAdcEnvironment, n: NetScalerAdcNode, nodeName: string,
                              credential: NetScalerAdcCredential, api: DeviceApi<C>): Result<C, Error>
  {
    match api.newClient(n.name, n.address, LoginOf(credential), e.settings)
    case Failure(err) => Failure(Wrapped("could not create client for node " + nodeName + " with error ", err))
    case Success(c) => Success(c)
  }

  /** The error GetNodeNitroClient reports for a name no endpoint carries. */
  function NodeMissing(nodeName: string, e: NetScalerAdcEnvironment): Error
  {
    Text("could not create client for node " + nodeName + " with error: node not found in environment " + e.name)
  }

  /**
    A device client for the first endpoint of GetNodes called `nodeName`, so the
    management node is reachable by name; an unknown name fails without a factory call.
   */
  function GetNodeNitroClient<C>(e: NetScalerAdcEnvironment, nodeName: string, credential: NetScalerAdcCredential,
                                 api: DeviceApi<C>): (r: Result<C, Error>)
    ensures NameIndex.Unnamed(GetNodes(e), NodeName, nodeName) ==> r == Failure(NodeMissing(nodeName, e))
    ensures forall k :: NameIndex.FirstNamed(GetNodes(e), NodeName, nodeName, k) ==>
              r == BuildNodeClient(e, GetNodes(e)[k], nodeName, credential, api)
  {
    match NameIndex.FirstMatch(GetNodes(e), NodeName, nodeName)
    case None => Failure(NodeMissing(nodeName, e))
    case Some(k) => BuildNodeClient(e, GetNodes(e)[k], nodeName, credential, api)
  }

  /** A file-transfer client: the `host:port` it targets and its SSH configuration. */
  datatype ScpClient<K> = ScpClient(host: string, config: K)

  /**
    A file-transfer client for the first endpoint of GetNodes called `nodeName`,
    targeting that endpoint's address on port 22. `passwordKey` builds the SSH
    configuration from the login (the host-key callback is bound inside it); its
    error is returned unwrapped.
   */
  function GetNodeScpClient<K>(e: NetScalerAdcEnvironment, nodeName: string, credential: NetScalerAdcCredential,
                               passwordKey: (string, string) -> Result<K, Error>): (r: Result<ScpClient<K>, Error>)
    ensures NameIndex.Unnamed(GetNodes(e), NodeName, nodeName) ==> r == Failure(Text("could not intialize scp client"))
    ensures forall k :: NameIndex.FirstNamed(GetNodes(e), NodeName, nodeName, k) ==>
              match passwordKey(credential.username, credential.password)
              case Success(config) => r == Success(ScpClient(GetNodes(e)[k].address + ":22", config))
              case Failure(err) => r == Failure(err)
  {
    match NameIndex.FirstMatch(GetNodes(e), NodeName, nodeName)
    case None => Failure(Text("could not intialize scp client"))
    case Some(k) =>
      match passwordKey(credential.username, credential.password)
      case Failure(err) => Failure(err)
      case Success(config) => Success(ScpClient(GetNodes(e)[k].address + ":22", config))
  }

  /**
    A device client for the management node. Without a management node it fails
    with "no management node defined" whatever the factory would do.
   */
  function GetManagementClient<C>(e: NetScalerAdcEnvironment, credential: NetScalerAdcCredential, api: DeviceApi<C>): (r: Result<C, Error>)
    ensures !HasManagement(e) ==> r == Failure(Text("no management node defined for environment " + e.name))
    ensures HasManagement(e) ==>
              match api.newClient(e.management.name, e.management.address, LoginOf(credential), e.settings)
              case Success(c) => r == Success(c)
              case Failure(err) =>
                r == Failure(Wrapped("could not create client for management node " + e.management.name
                                     + " for environment " + e.name + " with error ", err))
  {
    if !HasManagement(e) then
      Failure(Text("no management node defined for environment " + e.name))
    else
      match api.newClient(e.management.name, e.management.address, LoginOf(credential), e.settings)
      case Failure(err) =>
        Failure(Wrapped("could not create client for management node " + e.management.name
                        + " for environment " + e.name + " with error ", err))
      case Success(c) => Success(c)
  }

  /** What probing one peer yields. */
  datatype ProbeOutcome<C> = Primary(client: C) | Secondary | BuildFailed(cause: Error) | QueryFailed(cause: Error)

  /** Probing peer `j`: build its client by name, then ask whether it is primary. */
  function Probe<C>(e: NetScalerAdcEnvironment, credential: NetScalerAdcCredential, api: DeviceApi<C>, j: int): ProbeOutcome<C>
    requires 0 <= j < |e.nodes|
  {
    match GetNodeNitroClient(e, e.nodes[j].name, credential, api)
    case Failure(err) => BuildFailed(err)
    case Success(c) =>
      match api.isPrimaryNode(c)
      case Failure(err) => QueryFailed(err)
      case Success(isPrimary) => if isPrimary then Primary(c) else Secondary
  }

  /** Every peer in positions `i` up to (excluding) `j` reported that it is not primary. */
  ghost predicate AllSecondary<C>(e: NetScalerAdcEnvironment, credential: NetScalerAdcCredential, api: DeviceApi<C>, i: int, j: int)
    decreases j - i
  {
    && 0 <= i <= j <= |e.nodes|
    && (i == j || (Probe(e, credential, api, i).Secondary? && AllSecondary(e, credential, api, i + 1, j)))
  }

  /** The error GetPrimaryClient reports when every peer answered "not primary". */
  function NoPrimaryError(e: NetScalerAdcEnvironment): Error
  {
    Text("could not find a primary node for environment " + e.name)
  }

  /** The result GetPrimaryClient returns when probing stops at peer `j` with `outcome`. */
  function Verdict<C>(e: NetScalerAdcEnvironment, j: int, outcome: ProbeOutcome<C>): Result<C, Error>
    requires 0 <= j < |e.nodes|
  {
    match outcome
    case Primary(c) => Success(c)
    case Secondary => Failure(NoPrimaryError(e))
    case BuildFailed(err) =>
      Failure(Wrapped("could not create client for node " + e.nodes[j].name
                      + " to determine status as primary node for environment " + e.name + " with error ", err))
    case QueryFailed(err) =>
      Failure(Wrapped("could not determine status for node " + e.nodes[j].name + " for environment " + e.name
                      + " with error ", err))
  }

  /**
    Probes the peers from position `i` on, in list order, stopping at the first
    peer that is primary or whose probe fails.
   */
  function ProbePeers<C>(e: NetScalerAdcEnvironment, credential: NetScalerAdcCredential, api: DeviceApi<C>, i: nat): (r: Result<C, Error>)
    requires i <= |e.nodes|
    ensures AllSecondary(e, credential, api, i, |e.nodes|) ==> r == Failure(NoPrimaryError(e))
    ensures forall j :: i <= j < |e.nodes| && AllSecondary(e, credential, api, i, j) && !Probe(e, credential, api, j).Secondary? ==>
              r == Verdict(e, j, Probe(e, credential, api, j))
    decreases |e.nodes| - i
  {
    if i == |e.nodes| then Failure(NoPrimaryError(e))
    else
      var outcome := Probe(e, credential, api, i);
      if outcome.Secondary? then
        assert forall j :: i < j <= |e.nodes| && AllSecondary(e, credential, api, i, j) ==> AllSecondary(e, credential, api, i + 1, j);
        ProbePeers(e, credential, api, i + 1)
      else
        assert forall j :: i < j <= |e.nodes| ==> !AllSecondary(e, credential, api, i, j);
        Verdict(e, i, outcome)
  }

  /**
    The client to use for the environment: the management client when one can be
    built (its error is discarded otherwise); else, with no peers, "no individual
    nodes defined"; else the first peer, in list order, that reports itself
    primary, with any build or query failure aborting the search and
    "could not find a primary node" when no peer is primary.
   */
  function GetPrimaryClient<C>(e: NetScalerAdcEnvironment, credential: NetScalerAdcCredential, api: DeviceApi<C>): (r: Result<C, Error>)
    ensures GetManagementClient(e, credential, api).Success? ==> r == GetManagementClient(e, credential, api)
    ensures GetManagementClient(e, credential, api).Failure? && e.nodes == [] ==>
              r == Failure(Text("no individual nodes defined for environment " + e.name))
    ensures GetManagementClient(e, credential, api).Failure? && e.nodes != [] && AllSecondary(e, credential, api, 0, |e.nodes|) ==>
              r == Failure(NoPrimaryError(e))
    ensures GetManagementClient(e, credential, api).Failure? ==>
              forall j :: 0 <= j < |e.nodes| && AllSecondary(e, credential, api, 0, j) && !Probe(e, credential, api, j).Secondary? ==>
                r == Verdict(e, j, Probe(e, credential, api, j))
  {
    match GetManagementClient(e, credential, api)
    case Success(c) => Success(c)
    case Failure(_) =>
      if !HasNodes(e) then Failure(Text("no individual nodes defined for environment " + e.name))
      else ProbePeers(e, credential, api, 0)
  }

  /**
    Probing peer `j` builds its client from the first PEER carrying the same name:
    never from the management node, and never through the "node not found" branch.
   */
  lemma PeerProbeBuildsFirstSameNamedPeer<C>(e: NetScalerAdcEnvironment, credential: NetScalerAdcCredential, api: DeviceApi<C>, j: int)
    requires 0 <= j < |e.nodes|
    ensures exists k :: 0 <= k <= j && NameIndex.FirstNamed(e.nodes, NodeName, e.nodes[j].name, k)
              && GetNodeNitroClient(e, e.nodes[j].name, credential, api) == BuildNodeClient(e, e.nodes[k], e.nodes[j].name, credential, api)
  {
    var name := e.nodes[j].name;
    assert NodeName(e.nodes[j]) == name;
    var k := NameIndex.FirstMatch(e.nodes, NodeName, name).value;
    var all := GetNodes(e);
    var extra := all[|e.nodes|..];
    assert all == e.nodes + extra;
    NameIndex.FirstMatchAppend(e.nodes, extra, NodeName, name);
    assert NameIndex.FirstNamed(all, NodeName, name, k);
    assert all[k] == e.nodes[k];
  }

  /** Removing the management node leaves every peer probe unchanged. */
  lemma ProbeIgnoresManagement<C>(e: NetScalerAdcEnvironment, credential: NetScalerAdcCredential, api: DeviceApi<C>, j: int)
    requires 0 <= j < |e.nodes|
    ensures Probe(e, credential, api, j) == Probe(e.(management := ZeroNode), credential, api, j)
  {
    PeerProbeBuildsFirstSameNamedPeer(e, credential, api, j);
    PeerProbeBuildsFirstSameNamedPeer(e.(management := ZeroNode), credential, api, j);
  }

  /** Peer probing does not depend on the management node. */
  lemma {:induction false} ProbePeersIgnoresManagement<C>(e: NetScalerAdcEnvironment, credential: NetScalerAdcCredential, api: DeviceApi<C>, i: nat)
    requires i <= |e.nodes|
    ensures ProbePeers(e, credential, api, i) == ProbePeers(e.(management := ZeroNode), credential, api, i)
    decreases |e.nodes| - i
  {
    if i < |e.nodes| {
      var e0 := e.(management := ZeroNode);
      ProbeIgnoresManagement(e, credential, api, i);
      var outcome := Probe(e, credential, api, i);
      if outcome.Secondary? {
        ProbePeersIgnoresManagement(e, credential, api, i + 1);
      } else {
        assert Verdict(e, i, outcome) == Verdict(e0, i, outcome);
      }
    }
  }

  /**
    A management client that cannot be built is as good as no management node at
    all: its error is discarded and resolution continues with the peers.
   */
  lemma ManagementFailureFallsThrough<C>(e: NetScalerAdcEnvironment, credential: NetScalerAdcCredential, api: DeviceApi<C>)
    requires GetManagementClient(e, credential, api).Failure?
    ensures GetPrimaryClient(e, credential, api) == GetPrimaryClient(e.(management := ZeroNode), credential, api)
  {
    if e.nodes != [] {
      ProbePeersIgnoresManagement(e, credential, api, 0);
    }
  }

  /** When the management client can be built it is returned, and no peer is ever asked. */
  lemma ManagementClientShortCircuits<C>(e: NetScalerAdcEnvironment, credential: NetScalerAdcCredential,
                                         newClient: (string, string, Credentials, NetScalerAdcSettings) -> Result<C, Error>,
                                         query1: C -> Result<bool, Error>, query2: C -> Result<bool, Error>)
    requires HasManagement(e)
    requires newClient(e.management.name, e.management.address, LoginOf(credential), e.settings).Success?
    ensures GetPrimaryClient(e, credential, DeviceApi(newClient, query1))
            == Success(newClient(e.management.name, e.management.address, LoginOf(credential), e.settings).value)
            == GetPrimaryClient(e, credential, DeviceApi(newClient, query2))
  {
  }

  /** When some peer does not answer "not primary", there is a first such peer: `j`. */
  lemma {:induction false} FirstDecisivePeer<C>(e: NetScalerAdcEnvironment, credential: NetScalerAdcCredential, api: DeviceApi<C>, i: nat)
    returns (j: nat)
    requires i <= |e.nodes| && !AllSecondary(e, credential, api, i, |e.nodes|)
    ensures i <= j < |e.nodes| && AllSecondary(e, credential, api, i, j) && !Probe(e, credential, api, j).Secondary?
    decreases |e.nodes| - i
  {
    if Probe(e, credential, api, i).Secondary? {
      j := FirstDecisivePeer(e, credential, api, i + 1);
    } else {
      j := i;
    }
  }

  /** A client found by peer probing belongs to a primary peer all of whose predecessors answered "not primary". */
  lemma ProbePeersProvenance<C>(e: NetScalerAdcEnvironment, credential: NetScalerAdcCredential, api: DeviceApi<C>, i: nat)
    requires i <= |e.nodes|
    ensures var r := ProbePeers(e, credential, api, i);
            r.Success? ==> exists j :: i <= j < |e.nodes| && AllSecondary(e, credential, api, i, j)
                                       && Probe(e, credential, api, j) == Primary(r.value)
  {
    var r := ProbePeers(e, credential, api, i);
    if r.Success? {
      assert !AllSecondary(e, credential, api, i, |e.nodes|);
      var j := FirstDecisivePeer(e, credential, api, i);
      assert r == Verdict(e, j, Probe(e, credential, api, j));
    }
  }

  /**
    A resolved client is either the management client or the client of a peer
    that reported itself primary after every earlier peer reported it was not.
   */
  lemma PrimaryClientProvenance<C>(e: NetScalerAdcEnvironment, credential: NetScalerAdcCredential, api: DeviceApi<C>)
    ensures var r := GetPrimaryClient(e, credential, api);
            r.Success? ==>
              || r == GetManagementClient(e, credential, api)
              || exists j :: 0 <= j < |e.nodes| && AllSecondary(e, credential, api, 0, j)
                             && Probe(e, credential, api, j) == Primary(r.value)
  {
    if GetManagementClient(e, credential, api).Failure? && e.nodes != [] {
      ProbePeersProvenance(e, credential, api, 0);
    }
  }

  /** With no management node, two peers, and only the second primary: its client after one "not primary" probe. */
  lemma SecondPeerPrimary<C>(e: NetScalerAdcEnvironment, credential: NetScalerAdcCredential, api: DeviceApi<C>, c: C)
    requires !HasManagement(e) && |e.nodes| == 2
    requires Probe(e, credential, api, 0).Secondary? && Probe(e, credential, api, 1) == Primary(c)
    ensures GetPrimaryClient(e, credential, api) == Success(c)
  {
    assert AllSecondary(e, credential, api, 0, 1);
  }

  /** The zero node is the "no management node" sentinel, and it is what the constructor builds from two empty strings. */
  lemma ManagementSentinel(e: NetScalerAdcEnvironment)
    ensures HasManagement(e) <==> e.management != ZeroNode
    ensures HasManagement(e.(management := NewNetScalerAdcNode("", ""))) == false
  {
  }

  /**
    The node names are the names of the peer part of GetNodes: the management
    node, when present, is the one endpoint without a listed name.
   */
  lemma NodeNamesCoverPeersOnly(e: NetScalerAdcEnvironment)
    ensures GetNodeNames(e) == NameIndex.Names(GetNodes(e), NodeName)[..|e.nodes|]
    ensures |GetNodes(e)| == |GetNodeNames(e)| + (if HasManagement(e) then 1 else 0)
  {
    var all := NameIndex.Names(GetNodes(e), NodeName);
    assert forall i :: 0 <= i < |e.nodes| ==> GetNodes(e)[i] == e.nodes[i];
    assert all[..|e.nodes|] == GetNodeNames(e);
  }

  /** Without a management node the factory is never consulted: any two factories give the same failure. */
  lemma ManagementClientNeedsManagement<C>(e: NetScalerAdcEnvironment, credential: NetScalerAdcCredential,
                                           api1: DeviceApi<C>, api2: DeviceApi<C>)
    requires !HasManagement(e)
    ensures GetManagementClient(e, credential, api1) == GetManagementClient(e, credential, api2)
    ensures GetManagementClient(e, credential, api1).Failure?
  {
  }

  /** Every credential is found by its own name, as the first credential carrying that name. */
  lemma CredentialNamesAreFound(e: NetScalerAdcEnvironment, i: int)
    requires 0 <= i < |e.credentials|
    ensures GetCredentialByName(e, e.credentials[i].name).Success?
    ensures exists k :: 0 <= k <= i && NameIndex.FirstNamed(e.credentials, CredentialName, e.credentials[i].name, k)
                        && GetCredentialByName(e, e.credentials[i].name).value == e.credentials[k]
  {
    NameIndex.NamesAreFound(e.credentials, CredentialName, CredentialMissing(e.credentials[i].name, e.name), i);
  }

  /**
    GetPrimaryClient decides in three steps: the management client when one is
    built; otherwise "no individual nodes defined" with no peers; otherwise the
    outcome of probing the peers from the first one.
   */
  lemma PrimaryClientDecisionSequence<C>(e: NetScalerAdcEnvironment, credential: NetScalerAdcCredential, api: DeviceApi<C>)
    ensures GetManagementClient(e, credential, api).Success? ==> GetPrimaryClient(e, credential, api) == GetManagementClient(e, credential, api)
    ensures GetManagementClient(e, credential, api).Failure? && e.nodes == [] ==>
              GetPrimaryClient(e, credential, api) == Failure(Text("no individual nodes defined for environment " + e.name))
    ensures GetManagementClient(e, credential, api).Failure? && e.nodes != [] ==>
              GetPrimaryClient(e, credential, api) == ProbePeers(e, credential, api, 0)
  {
  }
}
