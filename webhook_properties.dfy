/** What a delivery of each event does to the site, stated field by field,
    and what a repeated delivery does. */
module WebhookProperties {
  import opened Optional
  import opened Entities
  import Reasons
  import Dates
  import Plans
  import opened Webhook

  /** The event types the `switch` of `listener` handles. */
  predicate Handled(eventType: string) {
    || eventType == PauseRemoved || eventType == Paused || eventType == Resumed
    || eventType == Cancelled || eventType == Created || eventType == Updated || eventType == Reactivated
    || eventType == PaymentFailed || eventType == PaymentSucceeded
  }

  /** A well-formed delivery with the right token is answered 200 whatever its
      event type; one of a type the `switch` does not know changes nothing. */
  lemma UnknownEventAcknowledged(s: Site, config: Config, body: Option<Payload>, now: int)
    requires s.Valid() && WellFormed(body) && !Handled(body.value.eventType.value)
    ensures Respond(s, config, config.token, body, now) == Response(200, Effect(s, []))
  {
  }

  /** The account flag each of the pause and payment events writes. */
  function FlagWritten(u: User, eventType: string): User
    requires eventType in {PauseRemoved, Resumed, Paused, PaymentFailed, PaymentSucceeded}
  {
    if eventType == Paused then u.(pause := Some(true))
    else if eventType == PaymentFailed then u.(paymentFailed := Some(true))
    else if eventType == PaymentSucceeded then u.(paymentFailed := Some(false))
    else u.(pause := Some(false))
  }

  /** The pause and payment events write one flag of the customer's account,
      save it once and change nothing else; an unknown customer is left alone. */
  lemma FlagEvents(s: Site, config: Config, eventType: string, customerId: string, sub: Subscription, now: int)
    requires s.Valid() && eventType in {PauseRemoved, Resumed, Paused, PaymentFailed, PaymentSucceeded}
    ensures var e := EventHandled(s, config, eventType, customerId, sub, now);
            if customerId !in s.customers then e == Effect(s, [])
            else
              var uid := s.customers[customerId];
              e == Effect(s.(users := s.users[uid := FlagWritten(s.users[uid], eventType)]), [UserSaved(uid)])
  {
  }

  /** The end date and the reason code `subscription_cancelled` records. */
  function EndDate(sub: Subscription, now: int): string {
    Dates.DateOf(sub.currentTermEnd.GetOr(now))
  }

  function EndReason(sub: Subscription): string {
    Reasons.ReasonCode(sub.cancelReasonCode.GetOr(DefaultReason))
  }

  /** `subscription_cancelled` for a known customer: the main profile, if any,
      gets the end date and reason code and is saved; the account's pause flag,
      if set, becomes 0; the member role, if configured and held, is removed;
      the account is saved once per write. Nothing else changes. */
  lemma CancellationOutcome(s: Site, config: Config, customerId: string, sub: Subscription, now: int)
    requires s.Valid() && customerId in s.customers
    ensures var e := SubscriptionCancelled(s, config, customerId, sub, now);
            var uid := s.customers[customerId];
            var u := s.users[uid];
            var unpause := u.pause.Some?;
            var unrole := RoleConfigured(config) && config.memberRole.value in u.roles;
            && e.site.customers == s.customers && e.site.plans == s.plans
            && e.site.profiles == (if uid in s.profiles
                                   then s.profiles[uid := s.profiles[uid].(endDate := Some(EndDate(sub, now)),
                                                                           endReason := Some(EndReason(sub)))]
                                   else s.profiles)
            && e.site.users == s.users[uid := u.(pause := if unpause then Some(false) else None,
                                                roles := if unrole then u.roles - {config.memberRole.value} else u.roles)]
            && e.saved == (if uid in s.profiles then [ProfileSaved(uid)] else [])
                          + (if unpause then [UserSaved(uid)] else [])
                          + (if unrole then [UserSaved(uid)] else [])
  {
  }

  /** The end reason is always one of the twelve table codes or `unknown`. */
  lemma EndReasonInRange(sub: Subscription)
    ensures EndReason(sub) == Reasons.Unknown || exists k | 0 <= k < |Reasons.Table| :: EndReason(sub) == Reasons.Table[k].code
  {
    Reasons.ReasonCodeInRange(sub.cancelReasonCode.GetOr(DefaultReason));
  }

  /** A cancellation without a reason records `unknown`. */
  lemma MissingReasonIsUnknown(sub: Subscription)
    requires sub.cancelReasonCode.None?
    ensures EndReason(sub) == Reasons.Unknown
  {
    Reasons.DefaultReasonIsUnknown();
  }

  /** A subscription cancelled at the end of a term ending at 1700000000 for
      "Financial Considerations" records 2023-11-14 and `cost`. */
  lemma CancellationExample(s: Site, config: Config, customerId: string, sub: Subscription, now: int)
    requires s.Valid() && customerId in s.customers && s.customers[customerId] in s.profiles
    requires sub.currentTermEnd == Some(1700000000) && sub.cancelReasonCode == Some("Financial Considerations")
    ensures var p := SubscriptionCancelled(s, config, customerId, sub, now).site.profiles[s.customers[customerId]];
            p.endDate == Some("2023-11-14") && p.endReason == Some("cost")
  {
    CancellationOutcome(s, config, customerId, sub, now);
    Dates.DateOfExample();
    Reasons.FinancialConsiderationsIsCost();
  }

  /** The membership type a profile holds after the plan's mapping is applied:
      the mapped id when the plan maps to a non-zero id, the profile has the
      field and holds a different id; its old value otherwise. */
  function MembershipAfter(p: Profile, term: Option<PlanTerm>): Option<int> {
    if && term.Some? && term.value.membershipType.Some? && term.value.membershipType.value != 0
       && p.hasMembershipField && TargetIdInt(p.membershipType) != term.value.membershipType.value
    then term.value.membershipType
    else p.membershipType
  }

  /** The plan id a subscription event records. */
  function PlanIdOf(sub: Subscription): string {
    sub.planId.GetOr(DefaultPlanId)
  }

  /** The main profile after the monthly payment of `sub` was stored. */
  function Paid(p: Profile, sub: Subscription): Profile {
    p.(monthlyPayment := if sub.planAmount.Some? && p.hasMonthlyField then sub.planAmount else p.monthlyPayment)
  }

  /** The account after the plan id was recorded. */
  function Planned(u: User, planId: string): User {
    u.(plan := if u.hasPlanField then SavedItem(Some(planId)) else u.plan)
  }

  lemma PaymentRegisteredOutcome(s: Site, customerId: string, sub: Subscription)
    requires s.Valid() && customerId in s.customers
    ensures var e := PaymentRegistered(s, customerId, sub);
            var uid := s.customers[customerId];
            e.site == s.(plans := PlansUpserted(s, sub).plans,
                         profiles := if uid in s.profiles then s.profiles[uid := Paid(s.profiles[uid], sub)] else s.profiles)
  {
  }

  lemma PlanAppliedOutcome(s: Site, customerId: string, planId: string, term: Option<PlanTerm>)
    requires s.Valid() && customerId in s.customers
    ensures var e := PlanApplied(s, customerId, planId, term);
            var uid := s.customers[customerId];
            e.site == s.(users := s.users[uid := Planned(s.users[uid], planId)],
                         profiles := if uid !in s.profiles then s.profiles
                                     else var p := s.profiles[uid];
                                          s.profiles[uid := p.(membershipType := MembershipAfter(p, term))])
  {
  }

  /** `subscription_created` / `_updated` for a known customer: the plan is
      upserted with provider `chargebee`; the account's plan field, if it has
      one, holds the plan id; the main profile, if any, holds the amount (when
      one came and it has the field) and the plan's membership type. */
  lemma {:induction false} RecordedOutcome(s: Site, customerId: string, sub: Subscription)
    requires s.Valid() && customerId in s.customers
    ensures var e := SubscriptionRecorded(s, customerId, sub);
            var upsert := Plans.Upserted(s.plans, PlanIdOf(sub), PlanMetadataOf(sub));
            var uid := s.customers[customerId];
            && e.site.customers == s.customers
            && e.site.plans == upsert.plans
            && e.site.users == s.users[uid := Planned(s.users[uid], PlanIdOf(sub))]
            && e.site.profiles == (if uid !in s.profiles then s.profiles
                                   else var p := Paid(s.profiles[uid], sub);
                                        s.profiles[uid := p.(membershipType := MembershipAfter(p, upsert.term))])
  {
    PaymentRegisteredOutcome(s, customerId, sub);
    var registered := PaymentRegistered(s, customerId, sub);
    PlanAppliedOutcome(registered.site, customerId, PlanIdOf(sub), PlansUpserted(s, sub).term);
  }

  /** For an unknown customer, the subscription events still upsert the plan
      but touch no account and no profile. */
  lemma UnknownCustomerOnlyUpserts(s: Site, config: Config, customerId: string, reactivated: bool, sub: Subscription, now: int)
    requires s.Valid() && customerId !in s.customers
    ensures var e := SubscriptionChanged(s, config, customerId, reactivated, sub, now);
            var upsert := Plans.Upserted(s.plans, PlanIdOf(sub), PlanMetadataOf(sub));
            e == Effect(s.(plans := upsert.plans), upsert.saved)
  {
  }

  /** A plan seen for the first time has no membership mapping yet, so the
      event leaves every profile's membership type as it was. */
  lemma NewPlanKeepsMembership(s: Site, customerId: string, sub: Subscription)
    requires s.Valid() && customerId in s.customers && s.customers[customerId] in s.profiles
    requires PlanIdOf(sub) !in s.plans
    ensures var uid := s.customers[customerId];
            SubscriptionRecorded(s, customerId, sub).site.profiles[uid].membershipType == s.profiles[uid].membershipType
  {
    RecordedOutcome(s, customerId, sub);
  }

  /** The account with a set pause flag reset to 0. */
  function Unpaused(u: User): User {
    u.(pause := if u.pause.Some? then Some(false) else None)
  }

  /** The main profile after `clearCancellationFields` on day `today`. */
  function Cleared(p: Profile, today: string): Profile {
    p.(endDate := None, endReason := None,
       reactivationDate := if p.hasReactivationField then Some(today) else p.reactivationDate,
       pause := if p.pause.Some? then Some(false) else None)
  }

  /** The account with the configured member role. */
  function WithRole(u: User, config: Config): User {
    u.(roles := if RoleConfigured(config) then u.roles + {config.memberRole.value} else u.roles)
  }

  /** The account at the end of `subscription_reactivated`, when it has a main
      profile: with its pause flag set and the branch's account object
      `detached`, the old object is saved back with the flag at 0 and without
      the role just added; otherwise the role is added and a set flag is 0. */
  function ReactivatedAccount(u: User, config: Config, detached: bool): User {
    if detached && u.pause.Some? then Unpaused(u) else Unpaused(WithRole(u, config))
  }

  lemma CancellationClearedOutcome(s: Site, config: Config, customerId: string, today: string)
    requires s.Valid() && customerId in s.customers && s.customers[customerId] in s.profiles
    ensures var e := CancellationCleared(s, config, customerId, today);
            var uid := s.customers[customerId];
            var p := s.profiles[uid];
            var u := s.users[uid];
            var addRole := RoleConfigured(config) && config.memberRole.value !in u.roles;
            var touched := p.endDate.Some? || p.endReason.Some? || p.hasReactivationField || p.pause.Some?;
            && e.site == s.(users := s.users[uid := WithRole(u, config)], profiles := s.profiles[uid := Cleared(p, today)])
            && e.saved == (if addRole then [UserSaved(uid)] else []) + (if touched then [ProfileSaved(uid)] else [])
  {
    var u := s.users[s.customers[customerId]];
    if RoleConfigured(config) && config.memberRole.value in u.roles {
      assert u.roles + {config.memberRole.value} == u.roles;
    }
  }

  /** What `subscription_reactivated` adds, for a known customer: with a main
      profile, its end date and reason are cleared, its reactivation date (if
      it has the field) is today, its pause flag (if set) is 0, and the account
      becomes `ReactivatedAccount`; the saves are the role's, the profile's and the
      pause flag's. Without a main profile only the account's pause flag is
      written. */
  lemma {:induction false} ReactivationOutcome(s: Site, config: Config, customerId: string, now: int, detached: bool)
    requires s.Valid() && customerId in s.customers
    ensures var e := ReactivationApplied(s, config, customerId, now, detached);
            var uid := s.customers[customerId];
            var u := s.users[uid];
            var unpauseSaved := if u.pause.Some? then [UserSaved(uid)] else [];
            if uid !in s.profiles then e == Effect(s.(users := s.users[uid := Unpaused(u)]), unpauseSaved)
            else
              var p := s.profiles[uid];
              var addRole := RoleConfigured(config) && config.memberRole.value !in u.roles;
              var touched := p.endDate.Some? || p.endReason.Some? || p.hasReactivationField || p.pause.Some?;
              && e.site == s.(users := s.users[uid := ReactivatedAccount(u, config, detached)],
                              profiles := s.profiles[uid := Cleared(p, Dates.DateOf(now))])
              && e.saved == (if addRole then [UserSaved(uid)] else []) + (if touched then [ProfileSaved(uid)] else [])
                            + unpauseSaved
  {
    var uid := s.customers[customerId];
    if uid in s.profiles {
      CancellationClearedOutcome(s, config, customerId, Dates.DateOf(now));
    }
  }

  /** `subscription_reactivated` for a known customer with a main profile and a
      configured member role: the account holds the role at the end exactly
      when it held it before, or its pause flag was empty, or it lacks the plan
      field. An account that has the plan field and was ever paused or resumed
      loses the role `clearCancellationFields` gave it, because the account
      object loaded at the start of the branch is saved over it. */
  lemma {:induction false} ReactivationRoleKept(s: Site, config: Config, customerId: string, sub: Subscription, now: int)
    requires s.Valid() && customerId in s.customers && s.customers[customerId] in s.profiles
    requires RoleConfigured(config)
    ensures var uid := s.customers[customerId];
            var u := s.users[uid];
            var e := SubscriptionChanged(s, config, customerId, true, sub, now);
            var role := config.memberRole.value;
            role in e.site.users[uid].roles <==> role in u.roles || u.pause.None? || !u.hasPlanField
  {
    var recorded := SubscriptionRecorded(s, customerId, sub);
    RecordedOutcome(s, customerId, sub);
    SameShapeValid(s, recorded.site);
    ReactivationOutcome(recorded.site, config, customerId, now, PlanSavesAccount(s, customerId));
  }

  // ---------------------------------------------------------------------
  // Redelivery: the billing provider retries a delivery it saw no 200 for

  /** The account flag events reach a fixed point after one delivery. */
  lemma FlagEventConverges(s: Site, config: Config, eventType: string, customerId: string, sub: Subscription, now: int)
    requires s.Valid() && eventType in {PauseRemoved, Resumed, Paused, PaymentFailed, PaymentSucceeded}
    ensures var first := EventHandled(s, config, eventType, customerId, sub, now);
            first.site.Valid() && EventHandled(first.site, config, eventType, customerId, sub, now).site == first.site
  {
    var first := EventHandled(s, config, eventType, customerId, sub, now);
    SameShapeValid(s, first.site);
    FlagEvents(s, config, eventType, customerId, sub, now);
    FlagEvents(first.site, config, eventType, customerId, sub, now);
  }

  /** The account with a set pause flag reset to 0 and the configured member role taken away. */
  function Disarmed(u: User, config: Config): User {
    Unpaused(u).(roles := if RoleConfigured(config) then u.roles - {config.memberRole.value} else u.roles)
  }

  /** A site that already holds everything `subscription_cancelled` writes is
      left as it is by it. */
  lemma CancellationFixpoint(t: Site, config: Config, customerId: string, sub: Subscription, now: int)
    requires t.Valid() && customerId in t.customers
    requires var uid := t.customers[customerId];
             && Disarmed(t.users[uid], config) == t.users[uid]
             && (uid in t.profiles ==> t.profiles[uid].endDate == Some(EndDate(sub, now))
                                       && t.profiles[uid].endReason == Some(EndReason(sub)))
    ensures SubscriptionCancelled(t, config, customerId, sub, now).site == t
  {
    CancellationOutcome(t, config, customerId, sub, now);
    var uid := t.customers[customerId];
    assert t.users[uid := t.users[uid]] == t.users;
    if uid in t.profiles {
      assert t.profiles[uid := t.profiles[uid]] == t.profiles;
    }
  }

  /** `subscription_cancelled` reaches a fixed point after one delivery. */
  lemma {:induction false} CancellationConverges(s: Site, config: Config, customerId: string, sub: Subscription, now: int)
    requires s.Valid()
    ensures var first := SubscriptionCancelled(s, config, customerId, sub, now);
            first.site.Valid() && SubscriptionCancelled(first.site, config, customerId, sub, now).site == first.site
  {
    var first := SubscriptionCancelled(s, config, customerId, sub, now);
    SameShapeValid(s, first.site);
    if customerId in s.customers {
      CancellationOutcome(s, config, customerId, sub, now);
      var u := s.users[s.customers[customerId]];
      if RoleConfigured(config) {
        assert u.roles - {config.memberRole.value} - {config.memberRole.value} == u.roles - {config.memberRole.value};
      }
      CancellationFixpoint(first.site, config, customerId, sub, now);
    }
  }

  /** A site that already holds everything the common part of the
      subscription events writes is left as it is by it. */
  lemma RecordedFixpoint(t: Site, customerId: string, sub: Subscription)
    requires t.Valid() && customerId in t.customers
    requires var upsert := PlansUpserted(t, sub);
             var uid := t.customers[customerId];
             && upsert.plans == t.plans
             && Planned(t.users[uid], PlanIdOf(sub)) == t.users[uid]
             && (uid in t.profiles ==> var q := t.profiles[uid];
                                       Paid(q, sub) == q && MembershipAfter(q, upsert.term) == q.membershipType)
    ensures SubscriptionRecorded(t, customerId, sub).site == t
  {
    RecordedOutcome(t, customerId, sub);
    var uid := t.customers[customerId];
    assert t.users[uid := t.users[uid]] == t.users;
    if uid in t.profiles {
      assert t.profiles[uid := t.profiles[uid]] == t.profiles;
    }
  }

  /** The common part of the subscription events reaches a fixed point, for a known customer. */
  lemma {:induction false} RecordedConverges(s: Site, customerId: string, sub: Subscription)
    requires s.Valid() && customerId in s.customers
    ensures var first := SubscriptionRecorded(s, customerId, sub);
            first.site.Valid() && SubscriptionRecorded(first.site, customerId, sub).site == first.site
  {
    var first := SubscriptionRecorded(s, customerId, sub);
    SameShapeValid(s, first.site);
    Plans.UpsertIdempotent(s.plans, PlanIdOf(sub), PlanMetadataOf(sub));
    RecordedOutcome(s, customerId, sub);
    RecordedFixpoint(first.site, customerId, sub);
  }

  /** A site that already holds everything the reactivation steps write is
      left as it is by them. */
  lemma ReactivationFixpoint(t: Site, config: Config, customerId: string, now: int, detached: bool)
    requires t.Valid() && customerId in t.customers
    requires var uid := t.customers[customerId];
             var u := t.users[uid];
             && Unpaused(u) == u
             && (uid in t.profiles ==> ReactivatedAccount(u, config, detached) == u && Cleared(t.profiles[uid], Dates.DateOf(now)) == t.profiles[uid])
    ensures ReactivationApplied(t, config, customerId, now, detached).site == t
  {
    ReactivationOutcome(t, config, customerId, now, detached);
    var uid := t.customers[customerId];
    assert t.users[uid := t.users[uid]] == t.users;
    if uid in t.profiles {
      assert t.profiles[uid := t.profiles[uid]] == t.profiles;
    }
  }

  /** The reactivation steps reach a fixed point, for a known customer. */
  lemma {:induction false} ReactivationConverges(s: Site, config: Config, customerId: string, now: int, detached: bool)
    requires s.Valid() && customerId in s.customers
    ensures var first := ReactivationApplied(s, config, customerId, now, detached);
            first.site.Valid() && ReactivationApplied(first.site, config, customerId, now, detached).site == first.site
  {
    var first := ReactivationApplied(s, config, customerId, now, detached);
    SameShapeValid(s, first.site);
    ReactivationOutcome(s, config, customerId, now, detached);
    var uid := s.customers[customerId];
    var u := s.users[uid];
    if uid in s.profiles && RoleConfigured(config) {
      assert u.roles + {config.memberRole.value} + {config.memberRole.value} == u.roles + {config.memberRole.value};
    }
    ReactivationFixpoint(first.site, config, customerId, now, detached);
  }

  /** Recording a subscription after a reactivation changes nothing more: the
      reactivation writes none of the fields the recording writes. */
  lemma {:induction false} RecordedAfterReactivation(s: Site, config: Config, customerId: string, sub: Subscription,
                                                     now: int, detached: bool)
    requires s.Valid() && customerId in s.customers
    ensures var recorded := SubscriptionRecorded(s, customerId, sub);
            var applied := ReactivationApplied(recorded.site, config, customerId, now, detached);
            applied.site.Valid() && SubscriptionRecorded(applied.site, customerId, sub).site == applied.site
  {
    var recorded := SubscriptionRecorded(s, customerId, sub);
    var applied := ReactivationApplied(recorded.site, config, customerId, now, detached);
    SameShapeValid(s, recorded.site);
    SameShapeValid(recorded.site, applied.site);
    Plans.UpsertIdempotent(s.plans, PlanIdOf(sub), PlanMetadataOf(sub));
    RecordedOutcome(s, customerId, sub);
    ReactivationOutcome(recorded.site, config, customerId, now, detached);
    RecordedFixpoint(applied.site, customerId, sub);
  }

  /** The subscription events reach a fixed point after one delivery. */
  lemma {:induction false} SubscriptionChangeConverges(s: Site, config: Config, customerId: string, reactivated: bool,
                                                       sub: Subscription, now: int)
    requires s.Valid()
    ensures var first := SubscriptionChanged(s, config, customerId, reactivated, sub, now);
            first.site.Valid() && SubscriptionChanged(first.site, config, customerId, reactivated, sub, now).site == first.site
  {
    var first := SubscriptionChanged(s, config, customerId, reactivated, sub, now);
    SameShapeValid(s, first.site);
    if customerId !in s.customers {
      Plans.UpsertIdempotent(s.plans, PlanIdOf(sub), PlanMetadataOf(sub));
      UnknownCustomerOnlyUpserts(s, config, customerId, reactivated, sub, now);
      UnknownCustomerOnlyUpserts(first.site, config, customerId, reactivated, sub, now);
    } else if !reactivated {
      RecordedConverges(s, customerId, sub);
    } else {
      var recorded := SubscriptionRecorded(s, customerId, sub);
      var detached := PlanSavesAccount(s, customerId);
      SameShapeValid(s, recorded.site);
      RecordedAfterReactivation(s, config, customerId, sub, now, detached);
      ReactivationConverges(recorded.site, config, customerId, now, detached);
      RecordedOutcome(s, customerId, sub);
      ReactivationOutcome(recorded.site, config, customerId, now, detached);
      assert PlanSavesAccount(first.site, customerId) == detached;
    }
  }

  /** Delivering the same event twice, at the same time, leaves the site as
      the first delivery left it: every write either is guarded by the value
      it would change or sets a value that is already there. Only saves repeat. */
  lemma {:induction false} RedeliveryConverges(s: Site, config: Config, eventType: string, customerId: string,
                                               sub: Subscription, now: int)
    requires s.Valid()
    ensures var first := EventHandled(s, config, eventType, customerId, sub, now);
            first.site.Valid() && EventHandled(first.site, config, eventType, customerId, sub, now).site == first.site
  {
    var first := EventHandled(s, config, eventType, customerId, sub, now);
    SameShapeValid(s, first.site);
    if eventType in {PauseRemoved, Resumed, Paused, PaymentFailed, PaymentSucceeded} {
      FlagEventConverges(s, config, eventType, customerId, sub, now);
    } else if eventType == Cancelled {
      CancellationConverges(s, config, customerId, sub, now);
    } else if eventType == Created || eventType == Updated || eventType == Reactivated {
      SubscriptionChangeConverges(s, config, customerId, eventType == Reactivated, sub, now);
    }
  }
}
