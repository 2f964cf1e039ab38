/**
 * The cluster API's subscription plan and `is_subscription_upgrade`: a new
 * plan is an upgrade when it raises at least one of the eight resource
 * counts, whatever it does to the others.
 */
module Plans {
  datatype Plan = Plan(
    id: string, name: string,
    pods: int, service: int, configMap: int, persistanceVolClaims: int,
    replicationCtl: int, secrets: int, loadbalancer: int, nodePort: int)

  /** The eight resource counts, in the order the comparison visits them. */
  function Counts(p: Plan): (r: seq<int>)
    ensures |r| == 8
  {
    [p.pods, p.service, p.configMap, p.persistanceVolClaims, p.replicationCtl, p.secrets, p.loadbalancer, p.nodePort]
  }

  /** `self.is_subscription_upgrade(newPlan)`: the first count found higher answers True. */
  function IsSubscriptionUpgrade(self: Plan, newPlan: Plan): (r: bool)
    ensures r <==> exists i :: 0 <= i < 8 && Counts(newPlan)[i] > Counts(self)[i]
  {
    var a, b := Counts(self), Counts(newPlan);
    assert a[0] == self.pods && a[1] == self.service && a[2] == self.configMap && a[3] == self.persistanceVolClaims;
    assert a[4] == self.replicationCtl && a[5] == self.secrets && a[6] == self.loadbalancer && a[7] == self.nodePort;
    assert b[0] == newPlan.pods && b[1] == newPlan.service && b[2] == newPlan.configMap;
    assert b[3] == newPlan.persistanceVolClaims && b[4] == newPlan.replicationCtl && b[5] == newPlan.secrets;
    assert b[6] == newPlan.loadbalancer && b[7] == newPlan.nodePort;
    if newPlan.pods > self.pods then true
    else if newPlan.service > self.service then true
    else if newPlan.configMap > self.configMap then true
    else if newPlan.persistanceVolClaims > self.persistanceVolClaims then true
    else if newPlan.replicationCtl > self.replicationCtl then true
    else if newPlan.secrets > self.secrets then true
    else if newPlan.loadbalancer > self.loadbalancer then true
    else if newPlan.nodePort > self.nodePort then true
    else false
  }

  /** A plan with the same counts, the plan itself among them, is not an upgrade. */
  lemma SameCountsNotAnUpgrade(self: Plan, newPlan: Plan)
    requires Counts(newPlan) == Counts(self)
    ensures !IsSubscriptionUpgrade(self, newPlan)
  {
  }

  /** Lowering counts only is never an upgrade; raising any one is, even if all others drop. */
  lemma LoweringIsNotRaisingIs(self: Plan, newPlan: Plan, k: nat)
    requires k < 8 && Counts(newPlan)[k] > Counts(self)[k]
    ensures IsSubscriptionUpgrade(self, newPlan)
    ensures forall p :: (forall i :: 0 <= i < 8 ==> Counts(p)[i] <= Counts(self)[i]) ==> !IsSubscriptionUpgrade(self, p)
  {
  }

  /** Trading one resource for another is an upgrade in both directions. */
  lemma NotAntisymmetric()
    ensures var a := Plan("a", "a", 5, 1, 0, 0, 0, 0, 0, 0);
            var b := Plan("b", "b", 1, 5, 0, 0, 0, 0, 0, 0);
            IsSubscriptionUpgrade(a, b) && IsSubscriptionUpgrade(b, a)
  {
  }

  /** Names, ids and timestamps play no part. */
  lemma OnlyCountsMatter(self: Plan, newPlan: Plan, self2: Plan, newPlan2: Plan)
    requires Counts(self) == Counts(self2) && Counts(newPlan) == Counts(newPlan2)
    ensures IsSubscriptionUpgrade(self, newPlan) == IsSubscriptionUpgrade(self2, newPlan2)
  {
  }
}
