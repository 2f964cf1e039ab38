/**
 * `generate_kubeconfig_usecase`: read the kubeconfig Secret of a virtual
 * cluster from its host namespace, take the API server address and the CA
 * data from it, make sure the virtual cluster has a service account of the
 * cluster's name bound to an all-powerful ClusterRole, and ask for a token
 * of that account.
 *
 * The virtual cluster the kubeconfig addresses is a `VirtualCluster` object:
 * its service accounts in namespace "default", its ClusterRoles and
 * ClusterRoleBindings, and the token requests it has answered. The token it
 * issues is opaque and comes in as a parameter.
 */
module Kubeconfig {
  import opened Wrappers
  import opened KubeApi
  import opened UseCases

  /** Python's truth test on an optional string: present and non-empty. */
  predicate Present(v: Option<string>) {
    v.Some? && v.value != ""
  }

  /** Index of the first present value, or `|vs|` when there is none. */
  function FirstPresentIndex(vs: seq<Option<string>>): (k: nat)
    ensures k <= |vs|
    ensures k < |vs| ==> Present(vs[k])
    ensures forall j :: 0 <= j < k ==> !Present(vs[j])
  {
    if vs == [] then 0
    else if Present(vs[0]) then 0
    else 1 + FirstPresentIndex(vs[1..])
  }

  /** The first present value, as the `for … if x: … break` loops of the source pick it. */
  function FirstPresent(vs: seq<Option<string>>): (r: Option<string>)
    ensures r.None? <==> forall j :: 0 <= j < |vs| ==> !Present(vs[j])
    ensures r.Some? ==> Present(r) && r in vs
  {
    var k := FirstPresentIndex(vs);
    if k < |vs| then vs[k] else None
  }

  /** Looking in `vs + ws` finds the first present value of `vs`, and only failing that looks in `ws`. */
  lemma {:induction false} FirstPresentConcat(vs: seq<Option<string>>, ws: seq<Option<string>>)
    ensures FirstPresent(vs + ws) == if FirstPresent(vs).Some? then FirstPresent(vs) else FirstPresent(ws)
  {
    if vs != [] {
      assert (vs + ws)[0] == vs[0];
      if !Present(vs[0]) {
        assert (vs + ws)[1..] == vs[1..] + ws;
        FirstPresentConcat(vs[1..], ws);
        assert FirstPresent(vs + ws) == FirstPresent(vs[1..] + ws);
        assert FirstPresent(vs) == FirstPresent(vs[1..]);
      }
    } else {
      assert vs + ws == ws;
    }
  }

  function Servers(cs: seq<KubeconfigCluster>): (r: seq<Option<string>>)
    ensures |r| == |cs| && forall i :: 0 <= i < |cs| ==> r[i] == cs[i].server
  {
    if cs == [] then [] else [cs[0].server] + Servers(cs[1..])
  }

  function CaData(cs: seq<KubeconfigCluster>): (r: seq<Option<string>>)
    ensures |r| == |cs| && forall i :: 0 <= i < |cs| ==> r[i] == cs[i].caData
  {
    if cs == [] then [] else [cs[0].caData] + CaData(cs[1..])
  }

  /** One of the two scans over the kubeconfig's `clusters` entries. */
  method FindFirstPresent(vs: seq<Option<string>>) returns (found: Option<string>)
    ensures found == FirstPresent(vs)
  {
    found := None;
    var i := 0;
    while i < |vs|
      invariant 0 <= i <= |vs|
      invariant forall j :: 0 <= j < i ==> !Present(vs[j])
      invariant found.None?
    {
      if Present(vs[i]) {
        found := vs[i];
        break;
      }
      i := i + 1;
    }
    assert found.Some? ==> FirstPresentIndex(vs) == i;
  }

  /**
   * The server and the CA data are looked for independently: they may come
   * from different entries.
   */
  lemma ServerAndCaFromDifferentEntries()
    ensures var cs := [KubeconfigCluster(Some("https://a"), Some("")), KubeconfigCluster(None, Some("ca-b"))];
            FirstPresent(Servers(cs)) == Some("https://a") && FirstPresent(CaData(cs)) == Some("ca-b")
  {
    var cs := [KubeconfigCluster(Some("https://a"), Some("")), KubeconfigCluster(None, Some("ca-b"))];
    assert Servers(cs) == [Some("https://a"), None];
    assert CaData(cs) == [Some(""), Some("ca-b")];
    assert FirstPresentIndex(CaData(cs)[1..]) == 0;
  }

  /** The kinds of call made to the virtual cluster, for fault injection. */
  datatype VCall = AccountRead | AccountCreate | RoleCreate | BindingCreate | TokenCreate

  /** A ClusterRoleBinding granting a ClusterRole to a service account. */
  datatype Binding = Binding(role: string, account: string, accountNamespace: string)

  /** A TokenRequest: the account, the lifetime asked for and the audiences. */
  datatype TokenRequest = TokenRequest(account: string, expirationSeconds: int, audiences: seq<string>)

  const Audiences: seq<string> := ["https://kubernetes.default.svc.cluster.local", "k3s"]

  function BindingName(name: string): string {
    name + "-binding"
  }

  /** The Kubernetes API of one virtual cluster, as far as kubeconfig generation uses it. */
  class VirtualCluster {
    /** Service accounts in namespace "default". */
    var accounts: set<string>
    /** ClusterRoles, each allowing every verb on every resource of every API group. */
    var roles: set<string>
    var bindings: map<string, Binding>
    var tokenRequests: seq<TokenRequest>
    const faults: map<VCall, int>

    ghost predicate Valid()
      reads this
    {
      forall c :: c in faults ==> faults[c] != 404
    }

    constructor(accounts: set<string>, roles: set<string>, bindings: map<string, Binding>, faults: map<VCall, int>)
      requires forall c :: c in faults ==> faults[c] != 404
      ensures Valid()
      ensures this.accounts == accounts && this.roles == roles && this.bindings == bindings
      ensures this.tokenRequests == [] && this.faults == faults
    {
      this.accounts := accounts;
      this.roles := roles;
      this.bindings := bindings;
      this.tokenRequests := [];
      this.faults := faults;
    }

    function Fault(c: VCall): Option<ApiError>
      reads this
    {
      if c in faults then Some(ApiError(faults[c])) else None
    }

    /** `read_namespaced_service_account` in "default". */
    function ReadAccount(name: string): (r: Result<(), ApiError>)
      requires Valid()
      reads this
      ensures Fault(AccountRead).None? ==> (r.Ok? <==> name in accounts)
      ensures r.Err? ==> (r.error.status == 404 <==> Fault(AccountRead).None? && name !in accounts)
    {
      if Fault(AccountRead).Some? then Err(Fault(AccountRead).value)
      else if name in accounts then Ok(())
      else Err(ApiError(404))
    }

    method CreateAccount(name: string) returns (r: Result<(), ApiError>)
      requires Valid()
      modifies this
      ensures Valid() && roles == old(roles) && bindings == old(bindings) && tokenRequests == old(tokenRequests)
      ensures r.Ok? <==> Fault(AccountCreate).None? && name !in old(accounts)
      ensures accounts == if r.Ok? then old(accounts) + {name} else old(accounts)
    {
      if Fault(AccountCreate).Some? {
        return Err(Fault(AccountCreate).value);
      }
      if name in accounts {
        return Err(ApiError(409));
      }
      accounts := accounts + {name};
      r := Ok(());
    }

    method CreateRole(name: string) returns (r: Result<(), ApiError>)
      requires Valid()
      modifies this
      ensures Valid() && accounts == old(accounts) && bindings == old(bindings) && tokenRequests == old(tokenRequests)
      ensures r.Ok? <==> Fault(RoleCreate).None? && name !in old(roles)
      ensures roles == if r.Ok? then old(roles) + {name} else old(roles)
    {
      if Fault(RoleCreate).Some? {
        return Err(Fault(RoleCreate).value);
      }
      if name in roles {
        return Err(ApiError(409));
      }
      roles := roles + {name};
      r := Ok(());
    }

    method CreateBinding(name: string, b: Binding) returns (r: Result<(), ApiError>)
      requires Valid()
      modifies this
      ensures Valid() && accounts == old(accounts) && roles == old(roles) && tokenRequests == old(tokenRequests)
      ensures r.Ok? <==> Fault(BindingCreate).None? && name !in old(bindings)
      ensures bindings == if r.Ok? then old(bindings)[name := b] else old(bindings)
    {
      if Fault(BindingCreate).Some? {
        return Err(Fault(BindingCreate).value);
      }
      if name in bindings {
        return Err(ApiError(409));
      }
      bindings := bindings[name := b];
      r := Ok(());
    }

    /** `create_namespaced_service_account_token`: answered with `issued` when the account exists. */
    method CreateToken(req: TokenRequest, issued: string) returns (r: Result<string, ApiError>)
      requires Valid()
      modifies this
      ensures Valid() && accounts == old(accounts) && roles == old(roles) && bindings == old(bindings)
      ensures r.Ok? <==> Fault(TokenCreate).None? && req.account in accounts
      ensures r.Ok? ==> r.value == issued && tokenRequests == old(tokenRequests) + [req]
      ensures r.Err? ==> tokenRequests == old(tokenRequests)
    {
      if Fault(TokenCreate).Some? {
        return Err(Fault(TokenCreate).value);
      }
      if req.account !in accounts {
        return Err(ApiError(404));
      }
      tokenRequests := tokenRequests + [req];
      r := Ok(issued);
    }
  }

  datatype KubeconfigRequest = KubeconfigRequest(name: string, hostClusterId: string, expirationTime: int)

  /** The JSON reply: the cluster name, the CA data, the token and the server, the last two possibly null. */
  datatype KubeconfigReply = KubeconfigReply(cluster: string, clusterCerts: Option<string>, token: string, server: Option<string>)

  /**
   * Creates the service account, its ClusterRole and its ClusterRoleBinding,
   * in that order, stopping at the first failure, then sleeps one second.
   */
  method ProvisionAccess(cp: ControlPlane, vc: VirtualCluster, name: string) returns (r: Result<(), ApiError>)
    requires cp.Valid() && vc.Valid()
    modifies cp, vc
    ensures cp.Valid() && vc.Valid() && vc.tokenRequests == old(vc.tokenRequests)
    ensures OnlyPurged(old(cp.namespaces), cp.namespaces)
    ensures r.Ok? <==> vc.Fault(AccountCreate).None? && vc.Fault(RoleCreate).None? && vc.Fault(BindingCreate).None? &&
                       name !in old(vc.accounts) && name !in old(vc.roles) && BindingName(name) !in old(vc.bindings)
    ensures r.Ok? ==> vc.accounts == old(vc.accounts) + {name} && vc.roles == old(vc.roles) + {name} &&
                      vc.bindings == old(vc.bindings)[BindingName(name) := Binding(name, name, "default")] &&
                      cp.clock == old(cp.clock) + 1
    ensures r.Err? ==> cp.clock == old(cp.clock) && cp.namespaces == old(cp.namespaces)
  {
    r := vc.CreateAccount(name);
    if r.Err? {
      return;
    }
    r := vc.CreateRole(name);
    if r.Err? {
      return;
    }
    r := vc.CreateBinding(BindingName(name), Binding(name, name, "default"));
    if r.Err? {
      return;
    }
    cp.Sleep(1);
  }

  /**
   * `generate_kubeconfig_usecase`. Every API error other than the 404 of the
   * service-account read escapes as an exception (here: `Err`). The access
   * objects are created only when that read said 404; an existing account is
   * used as it is.
   */
  method GenerateKubeconfig(cp: ControlPlane, vc: VirtualCluster, req: KubeconfigRequest, issued: string)
    returns (r: Result<KubeconfigReply, ApiError>)
    requires cp.Valid() && vc.Valid()
    modifies cp, vc
    ensures cp.Valid() && vc.Valid()
    ensures OnlyPurged(old(cp.namespaces), cp.namespaces)
    ensures var secret := old(cp.ReadKubeconfigSecret(NamespaceFor(req.name), req.name + "-kubeconfig"));
      && (secret.Err? ==> r == Err(secret.error) && cp.namespaces == old(cp.namespaces) &&
                          vc.accounts == old(vc.accounts) && vc.tokenRequests == old(vc.tokenRequests))
      && (r.Ok? ==> secret.Ok? &&
                    r.value == KubeconfigReply(req.name, FirstPresent(CaData(secret.value)), issued,
                                               FirstPresent(Servers(secret.value))))
    ensures var read := old(vc.ReadAccount(req.name));
      && (read.Ok? ==> vc.accounts == old(vc.accounts) && vc.roles == old(vc.roles) &&
                       vc.bindings == old(vc.bindings) && cp.clock == old(cp.clock))
      && (read.Err? && read.error.status != 404 ==> r.Err? && vc.tokenRequests == old(vc.tokenRequests))
      && (read.Err? && read.error.status == 404 && r.Ok? ==>
            vc.accounts == old(vc.accounts) + {req.name} && vc.roles == old(vc.roles) + {req.name} &&
            vc.bindings == old(vc.bindings)[BindingName(req.name) := Binding(req.name, req.name, "default")] &&
            cp.clock == old(cp.clock) + 1)
    ensures r.Ok? ==> vc.tokenRequests == old(vc.tokenRequests) + [TokenRequest(req.name, req.expirationTime, Audiences)]
    ensures r.Err? ==> vc.tokenRequests == old(vc.tokenRequests)
    ensures (vc.faults == map[] && cp.Fault(SecretRead).None? &&
             NamespaceFor(req.name) in old(cp.namespaces) &&
             req.name + "-kubeconfig" in old(cp.namespaces)[NamespaceFor(req.name)].kubeconfigs &&
             (req.name in old(vc.accounts) ||
              (req.name !in old(vc.roles) && BindingName(req.name) !in old(vc.bindings)))) ==> r.Ok?
  {
    var ns := NamespaceFor(req.name);
    var secret := cp.ReadKubeconfigSecret(ns, req.name + "-kubeconfig");
    if secret.Err? {
      return Err(secret.error);
    }
    var server := FindFirstPresent(Servers(secret.value));
    var cert := FindFirstPresent(CaData(secret.value));
    var read := vc.ReadAccount(req.name);
    if read.Err? {
      if read.error.status != 404 {
        return Err(read.error);
      }
      var provisioned := ProvisionAccess(cp, vc, req.name);
      if provisioned.Err? {
        return Err(provisioned.error);
      }
    }
    var token := vc.CreateToken(TokenRequest(req.name, req.expirationTime, Audiences), issued);
    if token.Err? {
      return Err(token.error);
    }
    r := Ok(KubeconfigReply(req.name, cert, token.value, server));
  }
}
