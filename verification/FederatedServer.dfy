/** The server side of federated learning: the listener list in the status, and the node address it advertises.
    Port numbers are kept as their decimal text. */
module FederatedServer {
  import opened Wrappers

  datatype ListenerType = LoadBalancer | NodePort | Route

  datatype Listener = Listener(name: string, kind: ListenerType, address: string, port: string)

  // ---------------------------------------------------------------------------------------------
  // The listener list
  // ---------------------------------------------------------------------------------------------

  function Without(listeners: seq<Listener>, kind: ListenerType): seq<Listener> {
    if listeners == [] then []
    else
      var l := listeners[|listeners| - 1];
      Without(listeners[..|listeners| - 1], kind) + if l.kind == kind then [] else [l]
  }

  /** The address a client workload gets: that of the last listener. */
  function ServerAddress(listeners: seq<Listener>): string {
    if listeners == [] then "" else listeners[|listeners| - 1].address
  }

  method Replaced(listeners: seq<Listener>, l: Listener) returns (updated: seq<Listener>)
    ensures updated == Without(listeners, l.kind) + [l]
  {
    updated := [];
    for i := 0 to |listeners|
      invariant updated == Without(listeners[..i], l.kind)
    {
      assert listeners[..i + 1][..i] == listeners[..i];
      if listeners[i].kind != l.kind {
        updated := updated + [listeners[i]];
      }
    }
    assert listeners[..|listeners|] == listeners;
    updated := updated + [l];
  }

  method LastAddress(listeners: seq<Listener>) returns (address: string)
    ensures address == ServerAddress(listeners)
  {
    address := "";
    for i := 0 to |listeners|
      invariant address == ServerAddress(listeners[..i])
    {
      address := listeners[i].address;
    }
    assert listeners[..|listeners|] == listeners;
  }

  /** What is left are exactly the listeners of the other types. */
  lemma {:induction false} WithoutMembers(listeners: seq<Listener>, kind: ListenerType, l: Listener)
    ensures l in Without(listeners, kind) <==> l in listeners && l.kind != kind
  {
    if listeners != [] {
      var last := listeners[|listeners| - 1];
      WithoutMembers(listeners[..|listeners| - 1], kind, l);
      assert listeners == listeners[..|listeners| - 1] + [last];
    }
  }

  lemma {:induction false} WithoutAppend(listeners: seq<Listener>, more: seq<Listener>, kind: ListenerType)
    ensures Without(listeners + more, kind) == Without(listeners, kind) + Without(more, kind)
    decreases |more|
  {
    if more == [] {
      assert listeners + more == listeners;
    } else {
      var all := listeners + more;
      assert all[..|all| - 1] == listeners + more[..|more| - 1];
      WithoutAppend(listeners, more[..|more| - 1], kind);
    }
  }

  lemma {:induction false} WithoutTwice(listeners: seq<Listener>, kind: ListenerType)
    ensures Without(Without(listeners, kind), kind) == Without(listeners, kind)
  {
    if listeners != [] {
      var rest, l := listeners[..|listeners| - 1], listeners[|listeners| - 1];
      WithoutTwice(rest, kind);
      WithoutAppend(Without(rest, kind), if l.kind == kind then [] else [l], kind);
    }
  }

  /** After an update the list holds one listener of the type, the new one, and clients are given its address;
      the other types keep their listeners, and updating again changes nothing. */
  lemma UpdatedListeners(listeners: seq<Listener>, l: Listener)
    ensures var updated := Without(listeners, l.kind) + [l];
            && ServerAddress(updated) == l.address
            && (forall x :: x in updated && x.kind == l.kind <==> x == l)
            && (forall x: Listener :: x.kind != l.kind ==> (x in updated <==> x in listeners))
            && Without(updated, l.kind) + [l] == updated
  {
    var updated := Without(listeners, l.kind) + [l];
    forall x: Listener
      ensures x in updated <==> x == l || (x in listeners && x.kind != l.kind)
    {
      WithoutMembers(listeners, l.kind, x);
    }
    WithoutAppend(Without(listeners, l.kind), [l], l.kind);
    WithoutTwice(listeners, l.kind);
    assert Without([l], l.kind) == Without([], l.kind) + [];
  }

  // ---------------------------------------------------------------------------------------------
  // The node address of a NodePort service
  // ---------------------------------------------------------------------------------------------

  datatype NodeAddress = NodeAddress(isInternal: bool, address: string)

  type Node = seq<NodeAddress>

  predicate Usable(a: NodeAddress) { a.isInternal && a.address != "" }

  /** The first usable address of a node, or "". */
  function InternalIP(node: Node): string {
    if node == [] then "" else if Usable(node[0]) then node[0].address else InternalIP(node[1..])
  }

  function FirstIP(nodes: seq<Node>): string {
    if nodes == [] then "" else if InternalIP(nodes[0]) != "" then InternalIP(nodes[0]) else FirstIP(nodes[1..])
  }

  function LastIP(nodes: seq<Node>): string {
    if nodes == [] then ""
    else
      var ip := InternalIP(nodes[|nodes| - 1]);
      if ip != "" then ip else LastIP(nodes[..|nodes| - 1])
  }

  /** `ip` is the first non-empty internal address of the node, or empty without any. */
  ghost predicate IsInternalIP(node: Node, ip: string) {
    if ip == "" then forall a :: a in node && a.isInternal ==> a.address == ""
    else exists i :: && 0 <= i < |node| && node[i].isInternal && node[i].address == ip
                     && forall k :: 0 <= k < i && node[k].isInternal ==> node[k].address == ""
  }

  lemma {:induction false} InternalIPIs(node: Node)
    ensures IsInternalIP(node, InternalIP(node))
  {
    if node != [] {
      InternalIPIs(node[1..]);
      var ip := InternalIP(node[1..]);
      assert forall a :: a in node <==> a == node[0] || a in node[1..];
      if !(node[0].isInternal && node[0].address != "") && ip != "" {
        var i :| && 0 <= i < |node[1..]| && node[1..][i].isInternal && node[1..][i].address == ip
                 && forall k :: 0 <= k < i && node[1..][k].isInternal ==> node[1..][k].address == "";
        assert node[i + 1] == node[1..][i];
        forall k | 0 <= k < i + 1 && node[k].isInternal
          ensures node[k].address == ""
        {
          assert k > 0 ==> node[k] == node[1..][k - 1];
        }
      }
    }
  }

  /** Without any internal IP there is no address, first or last. */
  lemma {:induction false} NoInternalIP(nodes: seq<Node>)
    requires forall n :: n in nodes ==> InternalIP(n) == ""
    ensures FirstIP(nodes) == "" && LastIP(nodes) == "" && ServerAddress([]) == ""
  {
    if nodes != [] {
      assert nodes[0] in nodes && nodes[|nodes| - 1] in nodes;
      NoFirstIP(nodes);
      NoLastIP(nodes);
    }
  }

  lemma {:induction false} NoFirstIP(nodes: seq<Node>)
    requires forall n :: n in nodes ==> InternalIP(n) == ""
    ensures FirstIP(nodes) == ""
  {
    if nodes != [] {
      assert nodes[0] in nodes;
      NoFirstIP(nodes[1..]);
    }
  }

  lemma {:induction false} NoLastIP(nodes: seq<Node>)
    requires forall n :: n in nodes ==> InternalIP(n) == ""
    ensures LastIP(nodes) == ""
  {
    if nodes != [] {
      assert nodes[|nodes| - 1] in nodes;
      NoLastIP(nodes[..|nodes| - 1]);
    }
  }

  lemma {:induction false} InternalIPSkips(node: Node, i: nat)
    requires i <= |node| && forall k :: 0 <= k < i ==> !Usable(node[k])
    ensures InternalIP(node) == InternalIP(node[i..])
  {
    if i > 0 {
      InternalIPSkips(node[1..], i - 1);
      assert node[1..][i - 1..] == node[i..];
    }
  }

  /** The inner loop, over the addresses of one node. */
  method ScanNode(node: Node, nodeIp: string) returns (ip: string)
    ensures ip == if InternalIP(node) != "" then InternalIP(node) else nodeIp
  {
    for i := 0 to |node|
      invariant forall k :: 0 <= k < i ==> !Usable(node[k])
    {
      if Usable(node[i]) {
        InternalIPSkips(node, i);
        return node[i].address;
      }
    }
    InternalIPSkips(node, |node|);
    ip := nodeIp;
  }

  lemma {:induction false} FirstIPSkips(nodes: seq<Node>, i: nat)
    requires i <= |nodes| && forall k :: 0 <= k < i ==> InternalIP(nodes[k]) == ""
    ensures FirstIP(nodes) == FirstIP(nodes[i..])
  {
    if i > 0 {
      FirstIPSkips(nodes[1..], i - 1);
      assert nodes[1..][i - 1..] == nodes[i..];
    }
  }

  /** The IP the server is told to bind to: the search stops at the first node that has one. */
  method EndpointNodeIp(listenerIp: string, nodes: seq<Node>) returns (nodeIp: string)
    ensures nodeIp == if listenerIp != "" then listenerIp else FirstIP(nodes)
  {
    nodeIp := listenerIp;
    if nodeIp == "" {
      for i := 0 to |nodes|
        invariant nodeIp == "" && forall k :: 0 <= k < i ==> InternalIP(nodes[k]) == ""
      {
        nodeIp := ScanNode(nodes[i], nodeIp);
        if nodeIp != "" {
          FirstIPSkips(nodes, i);
          return;
        }
      }
      FirstIPSkips(nodes, |nodes|);
    }
  }

  /** The IP clients are told to connect to: the search goes on, so the last node that has one wins. */
  method AdvertisedNodeIp(listenerIp: string, nodes: seq<Node>) returns (nodeIp: string)
    ensures nodeIp == if listenerIp != "" then listenerIp else LastIP(nodes)
  {
    nodeIp := listenerIp;
    if nodeIp == "" {
      for i := 0 to |nodes|
        invariant nodeIp == LastIP(nodes[..i])
      {
        assert nodes[..i + 1][..i] == nodes[..i];
        nodeIp := ScanNode(nodes[i], nodeIp);
      }
      assert nodes[..|nodes|] == nodes;
    }
  }

  lemma {:induction false} FirstIPAt(nodes: seq<Node>, i: nat)
    requires i < |nodes| && InternalIP(nodes[i]) != ""
    requires forall k :: 0 <= k < i ==> InternalIP(nodes[k]) == ""
    ensures FirstIP(nodes) == InternalIP(nodes[i])
  {
    FirstIPSkips(nodes, i);
  }

  lemma {:induction false} LastIPAt(nodes: seq<Node>, j: nat)
    requires j < |nodes| && InternalIP(nodes[j]) != ""
    requires forall k :: j < k < |nodes| ==> InternalIP(nodes[k]) == ""
    ensures LastIP(nodes) == InternalIP(nodes[j])
  {
    if j < |nodes| - 1 {
      LastIPAt(nodes[..|nodes| - 1], j);
    }
  }

  /** With `i` the first and `j` the last node that has an internal IP, the server binds to and advertises the same
      node address exactly when the listener names one or those two nodes have the same one. */
  lemma EndpointsAgreeIff(listenerIp: string, nodes: seq<Node>, i: nat, j: nat)
    requires i <= j < |nodes| && InternalIP(nodes[i]) != "" && InternalIP(nodes[j]) != ""
    requires forall k :: 0 <= k < i || j < k < |nodes| ==> InternalIP(nodes[k]) == ""
    ensures (if listenerIp != "" then listenerIp else FirstIP(nodes))
            == (if listenerIp != "" then listenerIp else LastIP(nodes))
            <==> listenerIp != "" || InternalIP(nodes[i]) == InternalIP(nodes[j])
  {
    FirstIPAt(nodes, i);
    LastIPAt(nodes, j);
  }

  /** Two nodes with different internal IPs: the server binds to one and advertises the other. */
  lemma TwoNodesDisagree(ip: string, other: string)
    requires ip != "" && other != "" && ip != other
    ensures var nodes := [[NodeAddress(true, ip)], [NodeAddress(true, other)]];
            FirstIP(nodes) == ip && LastIP(nodes) == other
  {
    var nodes := [[NodeAddress(true, ip)], [NodeAddress(true, other)]];
    assert nodes[..1] == [[NodeAddress(true, ip)]];
    EndpointsAgreeIff("", nodes, 0, 1);
    FirstIPAt(nodes, 0);
    LastIPAt(nodes, 1);
  }

  // ---------------------------------------------------------------------------------------------
  // The address of the service
  // ---------------------------------------------------------------------------------------------

  datatype Ingress = Ingress(hostname: string, ip: string)

  /** A LoadBalancer service always has a port; a NodePort service lists its node ports. */
  datatype Service =
    | LoadBalancerService(name: string, ingress: seq<Ingress>, port: string)
    | NodePortService(name: string, nodePorts: seq<string>)
    | OtherService(name: string)

  /** The listener to publish; no listener when there is nothing to publish yet. */
  function ServiceListener(svc: Service, listenerIp: string, nodes: Result<seq<Node>, string>)
    : (r: Result<Option<Listener>, string>)
    ensures r.Success? && r.value.Some? ==> r.value.value.address != "" && !r.value.value.kind.Route?
    ensures r.Success? && r.value.Some? ==> r.value.value.name == "listener(service):" + svc.name
    ensures svc.OtherService? ==> r.Failure?
    ensures svc.LoadBalancerService? ==>
              && (r.Success? <==> svc.ingress != [] && (svc.ingress[0].hostname != "" || svc.ingress[0].ip != ""))
              && (r.Success? ==>
                    && r.value.Some? && r.value.value.kind.LoadBalancer? && r.value.value.port == ""
                    && (svc.ingress[0].hostname != "" ==>
                          r.value.value.address == svc.ingress[0].hostname + ":" + svc.port)
                    && (svc.ingress[0].hostname == "" ==> r.value.value.address == svc.ingress[0].ip + ":" + svc.port))
    ensures svc.NodePortService? ==>
              && (r == Success(None) <==> svc.nodePorts == [] || svc.nodePorts[0] == "0")
              && (r.Success? && r.value.Some? ==>
                    && r.value.value.kind.NodePort? && r.value.value.port == svc.nodePorts[0]
                    && (listenerIp != "" ==> r.value.value.address == listenerIp + ":" + svc.nodePorts[0])
                    && (listenerIp == "" ==> nodes.Success?)
                    && (listenerIp == "" ==> r.value.value.address == LastIP(nodes.value) + ":" + svc.nodePorts[0]))
              && (r.Failure? <==> svc.nodePorts != [] && svc.nodePorts[0] != "0" && listenerIp == ""
                                  && (nodes.Failure? || LastIP(nodes.value) == ""))
  {
    match svc
    case OtherService(_) => Failure("failed to update the service address")
    case LoadBalancerService(name, ingress, port) =>
      if ingress == [] then Failure("loadBalancer service address is empty")
      else
        var host := if ingress[0].hostname != "" then ingress[0].hostname else ingress[0].ip;
        if host == "" then Failure("no available ingress address in service")
        else Success(Some(Listener("listener(service):" + name, LoadBalancer, host + ":" + port, "")))
    case NodePortService(name, nodePorts) =>
      if nodePorts == [] || nodePorts[0] == "0" then Success(None)
      else if listenerIp == "" && nodes.Failure? then Failure(nodes.error)
      else
        var ip := if listenerIp != "" then listenerIp else LastIP(nodes.value);
        if ip == "" then Failure("no node internal IP found")
        else Success(Some(Listener("listener(service):" + name, NodePort, ip + ":" + nodePorts[0], nodePorts[0])))
  }

  /** The host the server binds to behind an existing LoadBalancer service: the IP first, then the host name. */
  function IngressEndpoint(ingress: seq<Ingress>): (host: string)
    ensures host == "" <==> ingress == [] || (ingress[0].ip == "" && ingress[0].hostname == "")
    ensures host != "" ==> host == ingress[0].ip || (ingress[0].ip == "" && host == ingress[0].hostname)
  {
    if ingress == [] then "" else if ingress[0].ip != "" then ingress[0].ip else ingress[0].hostname
  }

  lemma SameHostIff(a: string, b: string, port: string)
    ensures a + ":" + port == b + ":" + port <==> a == b
  {
    if a + ":" + port == b + ":" + port {
      assert |a| == |b| && (a + ":" + port)[..|a|] == a && (b + ":" + port)[..|b|] == b;
    }
  }

  /** Clients are told the host name first: behind an ingress with a host the published address is the one the server
      binds to exactly when the ingress does not have both, or both are the same. */
  lemma IngressHostsAgreeIff(name: string, ingress: seq<Ingress>, port: string, listenerIp: string,
                             nodes: Result<seq<Node>, string>)
    requires IngressEndpoint(ingress) != ""
    ensures var r := ServiceListener(LoadBalancerService(name, ingress, port), listenerIp, nodes);
            && r.Success? && r.value.Some?
            && (r.value.value.address == IngressEndpoint(ingress) + ":" + port
                <==> ingress[0].hostname == "" || ingress[0].ip == "" || ingress[0].hostname == ingress[0].ip)
  {
    SameHostIff(ingress[0].hostname, IngressEndpoint(ingress), port);
    SameHostIff(ingress[0].ip, IngressEndpoint(ingress), port);
  }

  /** An ingress with an IP and a host name: the server binds to the one and clients are told the other. */
  lemma IngressHostsDisagree(name: string, port: string, hostname: string, ip: string)
    requires hostname != "" && ip != "" && hostname != ip
    ensures var ingress := [Ingress(hostname, ip)];
            && IngressEndpoint(ingress) == ip
            && exists l: Listener ::
                 && ServiceListener(LoadBalancerService(name, ingress, port), "", Success([])) == Success(Some(l))
                 && l.address == hostname + ":" + port != ip + ":" + port
  {
    var ingress := [Ingress(hostname, ip)];
    var r := ServiceListener(LoadBalancerService(name, ingress, port), "", Success([]));
    IngressHostsAgreeIff(name, ingress, port, "", Success([]));
    assert r == Success(Some(r.value.value));
  }
}
