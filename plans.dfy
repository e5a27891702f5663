/** The static plan table of `lib/plans.ts` and its read-only permission
    gate. Nothing here changes at runtime. */
module Plans {
  import opened Lists

  /** The capability limits of a plan. A numeric limit of -1 means unlimited. */
  datatype Limits = Limits(
    eventsPerMonth: int,
    invitesPerEvent: int,
    marketplaceListings: int,
    canSellTickets: bool,
    canSendInvites: bool,
    canAcceptInvites: bool,
    canSellProducts: bool)

  datatype Plan = Plan(id: string, name: string, price: real, features: seq<string>, limits: Limits)

  /** The boolean keys of `Plan["limits"]`. */
  datatype Capability = CanSellTickets | CanSendInvites | CanAcceptInvites | CanSellProducts

  /** Every key of `Plan["limits"]`, as `getUserLimit` accepts them. */
  datatype LimitKey =
    | EventsPerMonth | InvitesPerEvent | MarketplaceListings
    | Flag(capability: Capability)

  /** `number | boolean`. */
  datatype LimitValue = Num(n: int) | Bool(b: bool)

  /** The value `-1` that the pro row uses for "unlimited". */
  const Unlimited: int := -1

  const FreePlan := Plan("free", "Gratuito", 0.0,
    ["Visualizar eventos públicos", "Participar do feed", "Comprar produtos no marketplace", "Perfil básico"],
    Limits(0, 0, 0, false, false, false, false))

  const PremiumPlan := Plan("premium", "Premium", 29.9,
    ["Publicar até 5 eventos por mês", "Enviar até 50 convites por evento",
     "Vender até 10 produtos no marketplace", "Aceitar convites para eventos secretos",
     "Vender ingressos para seus eventos", "Perfil verificado"],
    Limits(5, 50, 10, true, true, true, true))

  const ProPlan := Plan("pro", "Pro", 59.9,
    ["Eventos ilimitados", "Convites ilimitados", "Marketplace ilimitado",
     "Análises avançadas", "Suporte prioritário", "Badge exclusivo"],
    Limits(Unlimited, Unlimited, Unlimited, true, true, true, true))

  /** `PLANS`, in table order: free first. */
  const PLANS: seq<Plan> := [FreePlan, PremiumPlan, ProPlan]

  /** `PLANS.find((plan) => plan.id === planId) || PLANS[0]`. */
  function GetPlanById(planId: string): (plan: Plan)
    ensures plan in PLANS
    ensures (exists i :: 0 <= i < |PLANS| && PLANS[i].id == planId) ==> plan.id == planId
    ensures (forall i :: 0 <= i < |PLANS| ==> PLANS[i].id != planId) ==> plan == PLANS[0]
  {
    match Find(PLANS, (p: Plan) => p.id == planId)
    case Some(p) => p
    case None => PLANS[0]
  }

  function Grants(limits: Limits, c: Capability): bool
  {
    match c
    case CanSellTickets => limits.canSellTickets
    case CanSendInvites => limits.canSendInvites
    case CanAcceptInvites => limits.canAcceptInvites
    case CanSellProducts => limits.canSellProducts
  }

  /** `canUserPerformAction`, on the boolean capabilities. */
  function CanUserPerformAction(userPlan: string, action: Capability): (allowed: bool)
    ensures allowed == Grants(GetPlanById(userPlan).limits, action)
    ensures userPlan != "premium" && userPlan != "pro" ==> !allowed
  {
    Grants(GetPlanById(userPlan).limits, action)
  }

  /** `getUserLimit`: the raw value stored under a key. */
  function GetUserLimit(userPlan: string, limit: LimitKey): (v: LimitValue)
    ensures limit.Flag? <==> v.Bool?
    ensures limit.Flag? ==> v.b == CanUserPerformAction(userPlan, limit.capability)
    ensures limit == EventsPerMonth ==> v == Num(GetPlanById(userPlan).limits.eventsPerMonth)
    ensures limit == InvitesPerEvent ==> v == Num(GetPlanById(userPlan).limits.invitesPerEvent)
    ensures limit == MarketplaceListings ==> v == Num(GetPlanById(userPlan).limits.marketplaceListings)
  {
    var limits := GetPlanById(userPlan).limits;
    match limit
    case EventsPerMonth => Num(limits.eventsPerMonth)
    case InvitesPerEvent => Num(limits.invitesPerEvent)
    case MarketplaceListings => Num(limits.marketplaceListings)
    case Flag(c) => Bool(Grants(limits, c))
  }

  /** The three ids are pairwise distinct, so the lookup can match at most one row. */
  lemma PlanIdsDistinct()
    ensures forall i, j :: 0 <= i < j < |PLANS| ==> PLANS[i].id != PLANS[j].id
  {
  }

  /** Each known id finds its own row; any other id falls back to the free row. */
  lemma GetPlanByIdRows(planId: string)
    ensures GetPlanById("free") == FreePlan
    ensures GetPlanById("premium") == PremiumPlan
    ensures GetPlanById("pro") == ProPlan
    ensures planId != "free" && planId != "premium" && planId != "pro" ==> GetPlanById(planId) == FreePlan
  {
    assert PLANS[0].id == "free" && PLANS[1].id == "premium" && PLANS[2].id == "pro";
  }

  /** Free denies all four capabilities; premium and pro grant all four. */
  lemma CapabilitiesPerPlan(c: Capability)
    ensures !CanUserPerformAction("free", c)
    ensures CanUserPerformAction("premium", c)
    ensures CanUserPerformAction("pro", c)
  {
    GetPlanByIdRows("");
  }

  /** Capabilities grow with the tier: free's are included in premium's, and
      premium and pro grant the same ones. */
  lemma CapabilitiesMonotone(c: Capability)
    ensures CanUserPerformAction("free", c) ==> CanUserPerformAction("premium", c)
    ensures CanUserPerformAction("premium", c) <==> CanUserPerformAction("pro", c)
  {
    CapabilitiesPerPlan(c);
  }

  /** The numeric limits per plan: free 0/0/0, premium 5/50/10, pro unlimited. */
  lemma NumericLimitsPerPlan()
    ensures GetUserLimit("free", EventsPerMonth) == Num(0)
    ensures GetUserLimit("free", InvitesPerEvent) == Num(0)
    ensures GetUserLimit("free", MarketplaceListings) == Num(0)
    ensures GetUserLimit("premium", EventsPerMonth) == Num(5)
    ensures GetUserLimit("premium", InvitesPerEvent) == Num(50)
    ensures GetUserLimit("premium", MarketplaceListings) == Num(10)
    ensures GetUserLimit("pro", EventsPerMonth) == Num(Unlimited)
    ensures GetUserLimit("pro", InvitesPerEvent) == Num(Unlimited)
    ensures GetUserLimit("pro", MarketplaceListings) == Num(Unlimited)
  {
    GetPlanByIdRows("");
  }
}
