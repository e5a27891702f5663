/** The plan checks that the views run before a gated action: the sell
    button of both marketplaces, and the invite-request / check-in path of
    the event map and the feed, which share one branching shape. */
module Gates {
  import opened Lists
  import opened Plans
  import opened Auth

  /** `!user || !canUserPerformAction(user.plan, "canSellProducts")`: the sell
      button only opens the upgrade prompt. */
  predicate SellBlocked(user: Option<User>)
  {
    user.None? || !CanUserPerformAction(user.value.plan, CanSellProducts)
  }

  /** Selling is blocked exactly for no user and for every plan other than premium and pro. */
  lemma SellBlockedIff(user: Option<User>)
    ensures SellBlocked(user) <==> user.None? || (user.value.plan != "premium" && user.value.plan != "pro")
  {
    CapabilitiesPerPlan(CanSellProducts);
  }

  /** Where an invite-gated action goes. */
  datatype InviteGate = OpenInviteSystem | AskUpgrade | Proceed

  /** `if (!user || user.plan === "free") ... if (!canUserPerformAction(user.plan,
      "canAcceptInvites")) ... else proceed`. */
  function InviteGateFor(user: Option<User>): (g: InviteGate)
    ensures g == Proceed ==> user.Some? && CanUserPerformAction(user.value.plan, CanAcceptInvites)
  {
    if user.None? || user.value.plan == "free" then OpenInviteSystem
    else if !CanUserPerformAction(user.value.plan, CanAcceptInvites) then AskUpgrade
    else Proceed
  }

  /** No user and the free plan go to the invite system; premium and pro always
      proceed and never see the upgrade prompt; only a plan id outside the table
      reaches the upgrade prompt. */
  lemma InviteGatePerPlan(user: Option<User>)
    ensures user.None? ==> InviteGateFor(user) == OpenInviteSystem
    ensures user.Some? && user.value.plan == "free" ==> InviteGateFor(user) == OpenInviteSystem
    ensures user.Some? && (user.value.plan == "premium" || user.value.plan == "pro") ==>
              InviteGateFor(user) == Proceed
    ensures user.Some? && user.value.plan !in {"free", "premium", "pro"} ==> InviteGateFor(user) == AskUpgrade
  {
    CapabilitiesPerPlan(CanAcceptInvites);
  }
}
