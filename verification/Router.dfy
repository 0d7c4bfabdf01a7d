/** The gateway router: gateways registered and looked up under their lower-cased names. */
module Routing {
  import opened Base
  import opened Text

  /** `tag` stands for the gateway object's identity: two gateways may share a name. */
  datatype Gateway = Gateway(name: string, enabled: bool, tag: nat)

  datatype Router = Router(gateways: map<string, Gateway>, defaultName: string)

  /** Every map key is the lower-cased name of the gateway stored under it. */
  predicate ValidRouter(r: Router) {
    forall k :: k in r.gateways ==> Lower(r.gateways[k].name) == k
  }

  /** Is `i` the last entry of `gs` that is not nil and whose lower-cased name is `k`? */
  ghost predicate LastNamed(gs: seq<Option<Gateway>>, k: string, i: int) {
    && 0 <= i < |gs| && gs[i].Some? && Lower(gs[i].value.name) == k
    && forall j :: i < j < |gs| && gs[j].Some? ==> Lower(gs[j].value.name) != k
  }

  method NewRouter(defaultName: string, gs: seq<Option<Gateway>>) returns (r: Router)
    ensures ValidRouter(r)
    ensures r.defaultName == defaultName
    ensures forall k, i :: LastNamed(gs, k, i) ==> k in r.gateways && r.gateways[k] == gs[i].value
    ensures forall k :: k in r.gateways ==> exists i :: LastNamed(gs, k, i)
  {
    var m: map<string, Gateway> := map[];
    for n := 0 to |gs|
      invariant forall k :: k in m ==> Lower(m[k].name) == k
      invariant forall k, i :: LastNamed(gs[..n], k, i) ==> k in m && m[k] == gs[i].value
      invariant forall k :: k in m ==> exists i :: LastNamed(gs[..n], k, i)
    {
      ghost var seen := gs[..n + 1];
      assert forall i :: 0 <= i < n ==> seen[i] == gs[..n][i];
      if gs[n].Some? {
        m := m[Lower(gs[n].value.name) := gs[n].value];
        assert LastNamed(seen, Lower(gs[n].value.name), n);
      }
      forall k | k in m
        ensures exists i :: LastNamed(seen, k, i)
      {
        if !(gs[n].Some? && k == Lower(gs[n].value.name)) {
          var i :| LastNamed(gs[..n], k, i);
          assert LastNamed(seen, k, i);
        }
      }
      forall k, i | LastNamed(seen, k, i)
        ensures k in m && m[k] == gs[i].value
      {
        if i < n {
          assert LastNamed(gs[..n], k, i);
        }
      }
    }
    assert gs[..|gs|] == gs;
    r := Router(m, defaultName);
  }

  function GetGateway(r: Router, name: string): (g: Result<Gateway, Error>)
    ensures g.Fail? ==> g.error in {UnknownGateway, GatewayNotEnabled}
    ensures g.Ok? ==> g.value.enabled
  {
    var k := Lower(name);
    if k !in r.gateways then Fail(UnknownGateway)
    else if !r.gateways[k].enabled then Fail(GatewayNotEnabled)
    else Ok(r.gateways[k])
  }

  function GetGatewayOrDefault(r: Router, name: string): (g: Result<Gateway, Error>)
    ensures g.Fail? ==> g.error in {UnknownGateway, GatewayNotEnabled}
  {
    if Trim(name) == "" then GetGateway(r, r.defaultName) else GetGateway(r, name)
  }

  /** The key a payment's gateway is looked up under: the name asked for, or the default's if that is blank. */
  function AskedKey(defaultName: string, name: string): string {
    if Blank(name) then Lower(defaultName) else Lower(name)
  }

  /** A gateway is registered under the key, and enabled. */
  predicate Offers(r: Router, key: string) {
    key in r.gateways && r.gateways[key].enabled
  }

  /** What leads to gateway `g`, or to the error: the map alone. */
  ghost predicate Leads(r: Router, key: string, found: Result<Gateway, Error>) {
    match found
    case Ok(g) => key in r.gateways && r.gateways[key] == g && g.enabled
    case Fail(UnknownGateway) => key !in r.gateways
    case Fail(GatewayNotEnabled) => key in r.gateways && !r.gateways[key].enabled
    case Fail(_) => false
  }

  /** The lookup finds the gateway registered under the lower-cased name, if there is one and it is enabled. */
  lemma FindsByName(r: Router, name: string)
    ensures Leads(r, Lower(name), GetGateway(r, name))
  {
  }

  /**
    The choice for a payment: the gateway asked for by name, whatever the case, or the default one if the name is blank.
    It succeeds exactly when that gateway is registered and enabled, and says which of the two it is not.
  */
  lemma ChoosesAsked(r: Router, name: string)
    ensures Leads(r, AskedKey(r.defaultName, name), GetGatewayOrDefault(r, name))
    ensures ValidRouter(r) && GetGatewayOrDefault(r, name).Ok? ==>
              Lower(GetGatewayOrDefault(r, name).value.name) == Lower(if Blank(name) then r.defaultName else name)
  {
    var i, j := StoredOrNull(name);
  }

  /** The name a chosen gateway reports leads back to that same gateway, whatever name chose it. */
  lemma ResolvesBack(r: Router, name: string, g: Gateway)
    requires ValidRouter(r)
    requires GetGatewayOrDefault(r, name) == Ok(g)
    ensures GetGateway(r, g.name) == Ok(g)
  {
    var asked := if Trim(name) == "" then r.defaultName else name;
    assert Lower(g.name) == Lower(asked);
  }
}
