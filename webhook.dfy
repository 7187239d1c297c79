/** The webhook controller (`ChargebeeWebhookController`): authenticates a
    delivery by the token in its URL, checks the payload's shape, and applies
    the event to the user, the user's main profile and the plan registry.

    Every handler is a pure function from the site before to an `Effect` (the
    site after and the saves made), and a method that performs the same
    read-modify-save on the `Store` and is proved to agree with it. */
module Webhook {
  import opened Optional
  import opened Text
  import opened Entities
  import opened Storage
  import Reasons
  import Dates
  import Plans

  /** `content.subscription` of a decoded payload; absent or null keys are `None`. */
  datatype Subscription = Subscription(
    planId: Option<string>,
    planAmount: Option<int>,        // cents
    currencyCode: Option<string>,
    currentTermEnd: Option<int>,    // Unix seconds
    cancelReasonCode: Option<string>)

  /** A decoded JSON payload: `event_type`, `content.customer.id` and the subscription. */
  datatype Payload = Payload(eventType: Option<string>, customerId: Option<string>, subscription: Subscription)

  /** The HTTP status of the reply and what the request did to the site. */
  datatype Response = Response(status: int, effect: Effect)

  const PauseRemoved: string := "subscription_scheduled_pause_removed"
  const Paused: string := "subscription_paused"
  const Resumed: string := "subscription_resumed"
  const Cancelled: string := "subscription_cancelled"
  const Created: string := "subscription_created"
  const Updated: string := "subscription_updated"
  const Reactivated: string := "subscription_reactivated"
  const PaymentFailed: string := "payment_failed"
  const PaymentSucceeded: string := "payment_succeeded"

  /** The cancel reason used when the payload has none. */
  const DefaultReason: string := "Unknown"
  /** The plan id used when the payload has none. */
  const DefaultPlanId: string := "Unknown"
  /** The provider every plan upserted by the webhook is recorded under. */
  const Provider: string := "chargebee"

  /** The handlers never add or drop a customer, an account or a profile. */
  predicate SameShape(before: Site, after: Site) {
    && after.customers == before.customers
    && after.users.Keys == before.users.Keys
    && after.profiles.Keys == before.profiles.Keys
  }

  lemma SameShapeValid(before: Site, after: Site)
    requires before.Valid() && SameShape(before, after)
    ensures after.Valid()
  {
  }

  // ---------------------------------------------------------------------
  // The handlers, as functions of the site

  /** `updateUserFields($customer_id, $is_paused, $payment_failed)`: set the
      pause flag and/or the payment-failed flag given, save the account if
      either was given; nothing happens for an unknown customer. */
  function UserFlagsUpdated(s: Site, customerId: string, isPaused: Option<bool>, paymentFailed: Option<bool>): (e: Effect)
    requires s.Valid()
    ensures SameShape(s, e.site) && e.site.profiles == s.profiles && e.site.plans == s.plans
  {
    match s.UserIdOf(customerId)
    case None => Effect(s, [])
    case Some(uid) =>
      var user := s.users[uid];
      var paused := if isPaused.Some? then user.(pause := isPaused) else user;
      var flagged := if paymentFailed.Some? then paused.(paymentFailed := paymentFailed) else paused;
      if isPaused.Some? || paymentFailed.Some? then Effect(s.(users := s.users[uid := flagged]), [UserSaved(uid)])
      else Effect(s, [])
  }

  /** `updateSubscriptionFields`: write the end date and the normalised end
      reason to the customer's main profile and save it. */
  function CancellationRecorded(s: Site, customerId: string, endDate: string, reason: string): (e: Effect)
    requires s.Valid()
    ensures SameShape(s, e.site) && e.site.users == s.users && e.site.plans == s.plans
  {
    match s.ProfileOwnerOf(customerId)
    case None => Effect(s, [])
    case Some(uid) =>
      var profile := s.profiles[uid].(endDate := Some(endDate), endReason := Some(Reasons.ReasonCode(reason)));
      Effect(s.(profiles := s.profiles[uid := profile]), [ProfileSaved(uid)])
  }

  /** `clearUserPauseField($user)`, where `user` is the account object the
      caller holds: when its pause flag is non-empty, the flag is set to 0 and
      that object is saved, over whatever the storage holds for the account;
      otherwise nothing happens. */
  function UserPauseCleared(s: Site, uid: int, user: User): (e: Effect)
    requires s.Valid() && uid in s.users
    ensures SameShape(s, e.site) && e.site.profiles == s.profiles && e.site.plans == s.plans
  {
    if user.pause.Some? then Effect(s.(users := s.users[uid := user.(pause := Some(false))]), [UserSaved(uid)])
    else Effect(s, [])
  }

  /** `removeMemberRole`: take the configured member role away from the
      customer's account if it holds it, and save the account. */
  function MemberRoleRemoved(s: Site, config: Config, customerId: string): (e: Effect)
    requires s.Valid()
    ensures SameShape(s, e.site) && e.site.profiles == s.profiles && e.site.plans == s.plans
  {
    match s.UserIdOf(customerId)
    case None => Effect(s, [])
    case Some(uid) =>
      var user := s.users[uid];
      if RoleConfigured(config) && config.memberRole.value in user.roles
      then Effect(s.(users := s.users[uid := user.(roles := user.roles - {config.memberRole.value})]), [UserSaved(uid)])
      else Effect(s, [])
  }

  /** `clearCancellationFields`: on the customer's main profile clear a
      non-empty end date and end reason, set the reactivation date to today,
      reset a non-empty pause flag to 0; give the owner the configured member
      role if missing (saving the account); save the profile if any of its
      fields was written. */
  function CancellationCleared(s: Site, config: Config, customerId: string, today: string): (e: Effect)
    requires s.Valid()
    ensures SameShape(s, e.site) && e.site.plans == s.plans
  {
    match s.ProfileOwnerOf(customerId)
    case None => Effect(s, [])
    case Some(uid) =>
      var p := s.profiles[uid];
      var p4 := ProfileCleared(p, today);
      var modified := p.endDate.Some? || p.endReason.Some? || p.hasReactivationField || p.pause.Some?;
      var user := s.users[uid];
      var roleAdded := RoleConfigured(config) && config.memberRole.value !in user.roles;
      var s1 := if roleAdded then s.(users := s.users[uid := user.(roles := user.roles + {config.memberRole.value})]) else s;
      var s2 := if modified then s1.(profiles := s1.profiles[uid := p4]) else s1;
      Effect(s2, (if roleAdded then [UserSaved(uid)] else []) + (if modified then [ProfileSaved(uid)] else []))
  }

  /** The profile fields `clearCancellationFields` writes, each under its own guard. */
  function ProfileCleared(p: Profile, today: string): Profile {
    var p1 := if p.endDate.Some? then p.(endDate := None) else p;
    var p2 := if p1.endReason.Some? then p1.(endReason := None) else p1;
    var p3 := if p2.hasReactivationField then p2.(reactivationDate := Some(today)) else p2;
    if p3.pause.Some? then p3.(pause := Some(false)) else p3
  }

  /** `updateUserPlan`: record the plan id on the customer's account (when the
      account has the plan field) and save it; an empty plan id is stored as none. */
  function UserPlanUpdated(s: Site, customerId: string, planId: string): (e: Effect)
    requires s.Valid()
    ensures SameShape(s, e.site) && e.site.profiles == s.profiles && e.site.plans == s.plans
  {
    match s.UserIdOf(customerId)
    case None => Effect(s, [])
    case Some(uid) =>
      var user := s.users[uid];
      if user.hasPlanField then Effect(s.(users := s.users[uid := user.(plan := SavedItem(Some(planId)))]), [UserSaved(uid)])
      else Effect(s, [])
  }

  /** `updateMonthlyPaymentField`: store the amount on the customer's main
      profile (when it has the field) and save it. */
  function MonthlyPaymentUpdated(s: Site, customerId: string, cents: int): (e: Effect)
    requires s.Valid()
    ensures SameShape(s, e.site) && e.site.users == s.users && e.site.plans == s.plans
  {
    match s.ProfileOwnerOf(customerId)
    case None => Effect(s, [])
    case Some(uid) =>
      var profile := s.profiles[uid];
      if profile.hasMonthlyField
      then Effect(s.(profiles := s.profiles[uid := profile.(monthlyPayment := Some(cents))]), [ProfileSaved(uid)])
      else Effect(s, [])
  }

  /** The metadata the webhook upserts a plan with. */
  function PlanMetadataOf(sub: Subscription): Plans.PlanMetadata {
    Plans.PlanMetadata(None, Some(Provider), sub.currencyCode, sub.planAmount)
  }

  /** The plan terms after the upsert of `subscription_created`/`_updated`/`_reactivated`. */
  function PlansUpserted(s: Site, sub: Subscription): Plans.Upsert {
    Plans.Upserted(s.plans, sub.planId.GetOr(DefaultPlanId), PlanMetadataOf(sub))
  }

  // ---------------------------------------------------------------------
  // The event handlers of `listener`

  /** `subscription_cancelled`: record end date and reason on the profile,
      clear the account's pause flag, remove the member role. A payload
      without `current_term_end` gives `date('Y-m-d', NULL)`, today's date. */
  function SubscriptionCancelled(s: Site, config: Config, customerId: string, sub: Subscription, now: int): (e: Effect)
    requires s.Valid()
    ensures SameShape(s, e.site) && e.site.plans == s.plans
  {
    var endDate := Dates.DateOf(sub.currentTermEnd.GetOr(now));
    var reason := sub.cancelReasonCode.GetOr(DefaultReason);
    var recorded := CancellationRecorded(s, customerId, endDate, reason);
    var unpaused := match s.UserIdOf(customerId)
                    case Some(uid) => UserPauseCleared(recorded.site, uid, recorded.site.users[uid])
                    case None => Effect(recorded.site, []);
    var removed := MemberRoleRemoved(unpaused.site, config, customerId);
    Then(Then(recorded, unpaused), removed)
  }

  /** The first half of the common part: store the monthly payment if an
      amount came, then upsert the plan (id defaulting to "Unknown"). */
  function PaymentRegistered(s: Site, customerId: string, sub: Subscription): (e: Effect)
    requires s.Valid()
    ensures SameShape(s, e.site) && e.site.users == s.users
  {
    var paid := if sub.planAmount.Some? then MonthlyPaymentUpdated(s, customerId, sub.planAmount.value) else Effect(s, []);
    var upsert := PlansUpserted(s, sub);
    Then(paid, Effect(paid.site.(plans := upsert.plans), upsert.saved))
  }

  /** The second half: record the plan id on the account, then apply the
      plan's membership type if the plan term and the account exist. */
  function PlanApplied(s: Site, customerId: string, planId: string, term: Option<PlanTerm>): (e: Effect)
    requires s.Valid()
    ensures SameShape(s, e.site) && e.site.plans == s.plans
  {
    var planned := UserPlanUpdated(s, customerId, planId);
    var user := s.UserIdOf(customerId);
    if term.Some? && user.Some? then Then(planned, Plans.MembershipAssigned(planned.site, user.value, term.value))
    else planned
  }

  /** The part of `subscription_created`, `subscription_updated` and
      `subscription_reactivated` common to all three. The upsert does not
      depend on the monthly payment, so its term is that of the site before. */
  function SubscriptionRecorded(s: Site, customerId: string, sub: Subscription): (e: Effect)
    requires s.Valid()
    ensures SameShape(s, e.site)
  {
    var registered := PaymentRegistered(s, customerId, sub);
    Then(registered, PlanApplied(registered.site, customerId, sub.planId.GetOr(DefaultPlanId), PlansUpserted(s, sub).term))
  }

  /** `updateUserPlan` saves the customer's account: it exists and has the plan field. */
  predicate PlanSavesAccount(s: Site, customerId: string) {
    s.UserIdOf(customerId).Some? && s.UserIdOf(customerId).value in s.users
    && s.users[s.UserIdOf(customerId).value].hasPlanField
  }

  /** What `subscription_reactivated` adds: clear the cancellation fields
      (reactivation date: today), then `clearUserPauseField($user)` on the
      account object loaded at the start of the branch. The entity cache hands
      `updateUserPlan` that same object; when it saves it (`detached`), Drupal
      drops it from the cache, so `clearCancellationFields` adds the member
      role to a fresh copy, and the old object, which is the account as it
      stood before the role was added, is what gets saved here. Otherwise the
      object is still the cached one and carries the role. */
  function ReactivationApplied(s: Site, config: Config, customerId: string, now: int, detached: bool): (e: Effect)
    requires s.Valid()
    ensures SameShape(s, e.site) && e.site.plans == s.plans
  {
    var cleared := CancellationCleared(s, config, customerId, Dates.DateOf(now));
    var unpaused := match s.UserIdOf(customerId)
                    case Some(uid) => UserPauseCleared(cleared.site, uid, if detached then s.users[uid] else cleared.site.users[uid])
                    case None => Effect(cleared.site, []);
    Then(cleared, unpaused)
  }

  /** `subscription_created`, `subscription_updated` and `subscription_reactivated`. */
  function SubscriptionChanged(s: Site, config: Config, customerId: string, reactivated: bool, sub: Subscription, now: int): (e: Effect)
    requires s.Valid()
    ensures SameShape(s, e.site)
  {
    var recorded := SubscriptionRecorded(s, customerId, sub);
    if reactivated then Then(recorded, ReactivationApplied(recorded.site, config, customerId, now, PlanSavesAccount(s, customerId)))
    else recorded
  }

  /** The `switch` on `event_type`; an unhandled type changes nothing. */
  function EventHandled(s: Site, config: Config, eventType: string, customerId: string, sub: Subscription, now: int): (e: Effect)
    requires s.Valid()
    ensures SameShape(s, e.site)
  {
    if eventType == PauseRemoved || eventType == Resumed then UserFlagsUpdated(s, customerId, Some(false), None)
    else if eventType == Paused then UserFlagsUpdated(s, customerId, Some(true), None)
    else if eventType == Cancelled then SubscriptionCancelled(s, config, customerId, sub, now)
    else if eventType == Created || eventType == Updated || eventType == Reactivated
    then SubscriptionChanged(s, config, customerId, eventType == Reactivated, sub, now)
    else if eventType == PaymentFailed then UserFlagsUpdated(s, customerId, None, Some(true))
    else if eventType == PaymentSucceeded then UserFlagsUpdated(s, customerId, None, Some(false))
    else Effect(s, [])
  }

  /** The payload decoded to a non-empty array with an `event_type` and a
      customer id that is neither missing nor falsy. */
  predicate WellFormed(body: Option<Payload>) {
    && body.Some? && body.value.eventType.Some?
    && body.value.customerId.Some? && !PhpEmpty(body.value.customerId.value)
  }

  /** `listener`: 403 for a token that differs from the stored one; 400 for a
      payload that did not decode to a non-empty array or lacks `event_type`;
      400 for a missing or falsy customer id; otherwise the event is handled
      and the reply is 200. `body` is `None` when `json_decode` gave nothing usable. */
  function Respond(s: Site, config: Config, token: string, body: Option<Payload>, now: int): (r: Response)
    requires s.Valid()
    ensures r.status == 403 || r.status == 400 || r.status == 200
    ensures r.status == 403 <==> config.token != token
    ensures r.status == 400 <==> config.token == token && !WellFormed(body)
    ensures r.status != 200 ==> r.effect == Effect(s, [])
    ensures SameShape(s, r.effect.site)
  {
    if config.token != token then Response(403, Effect(s, []))
    else if body.None? || body.value.eventType.None? then Response(400, Effect(s, []))
    else if body.value.customerId.None? || PhpEmpty(body.value.customerId.value) then Response(400, Effect(s, []))
    else Response(200, EventHandled(s, config, body.value.eventType.value, body.value.customerId.value,
                                    body.value.subscription, now))
  }

  // ---------------------------------------------------------------------
  // The controller's methods on the store

  /** `getUserByCustomerId` / the `field_user_chargebee_id` query: the uid of the customer's account. */
  function UserIdIn(store: Store, customerId: string): Option<int>
    reads store
  {
    store.State().UserIdOf(customerId)
  }

  method UpdateUserFields(store: Store, customerId: string, isPaused: Option<bool>, paymentFailed: Option<bool>)
    requires store.Valid()
    modifies store
    ensures store.Valid()
    ensures var e := UserFlagsUpdated(old(store.State()), customerId, isPaused, paymentFailed);
            store.State() == e.site && store.saves == old(store.saves) + e.saved
  {
    var found := UserIdIn(store, customerId);
    if found.None? {
      return;
    }
    var uid := found.value;
    var user := store.users[uid];
    var modified := false;
    if isPaused.Some? {
      user := user.(pause := isPaused);
      modified := true;
    }
    if paymentFailed.Some? {
      user := user.(paymentFailed := paymentFailed);
      modified := true;
    }
    if modified {
      store.SaveUser(uid, user);
    }
  }

  method UpdateSubscriptionFields(store: Store, customerId: string, endDate: string, reason: string)
    requires store.Valid()
    modifies store
    ensures store.Valid()
    ensures var e := CancellationRecorded(old(store.State()), customerId, endDate, reason);
            store.State() == e.site && store.saves == old(store.saves) + e.saved
  {
    var owner := store.State().ProfileOwnerOf(customerId);
    if owner.Some? {
      var mapped := Reasons.MapCancellationReason(reason);
      var profile := store.profiles[owner.value];
      profile := profile.(endDate := Some(endDate));
      profile := profile.(endReason := Some(mapped));
      store.SaveProfile(owner.value, profile);
    }
  }

  method RemoveMemberRole(store: Store, config: Config, customerId: string)
    requires store.Valid()
    modifies store
    ensures store.Valid()
    ensures var e := MemberRoleRemoved(old(store.State()), config, customerId);
            store.State() == e.site && store.saves == old(store.saves) + e.saved
  {
    var found := UserIdIn(store, customerId);
    if found.Some? {
      var user := store.users[found.value];
      if RoleConfigured(config) && config.memberRole.value in user.roles {
        store.SaveUser(found.value, user.(roles := user.roles - {config.memberRole.value}));
      }
    }
  }

  method ClearUserPauseField(store: Store, uid: int, user: User)
    requires store.Valid() && uid in store.users
    modifies store
    ensures store.Valid()
    ensures var e := UserPauseCleared(old(store.State()), uid, user);
            store.State() == e.site && store.saves == old(store.saves) + e.saved
  {
    if user.pause.Some? {
      store.SaveUser(uid, user.(pause := Some(false)));
    }
  }

  method ClearCancellationFields(store: Store, config: Config, customerId: string, today: string)
    requires store.Valid()
    modifies store
    ensures store.Valid()
    ensures var e := CancellationCleared(old(store.State()), config, customerId, today);
            store.State() == e.site && store.saves == old(store.saves) + e.saved
  {
    var owner := store.State().ProfileOwnerOf(customerId);
    if owner.None? {
      return;
    }
    var uid := owner.value;
    var profile := store.profiles[uid];
    ghost var loaded := profile;
    var profileModified := false;
    if profile.endDate.Some? {
      profile := profile.(endDate := None);
      profileModified := true;
    }
    if profile.endReason.Some? {
      profile := profile.(endReason := None);
      profileModified := true;
    }
    if profile.hasReactivationField {
      profile := profile.(reactivationDate := Some(today));
      profileModified := true;
    }
    if profile.pause.Some? {
      profile := profile.(pause := Some(false));
      profileModified := true;
    }
    assert profile == ProfileCleared(loaded, today);
    var user := store.users[uid];
    if RoleConfigured(config) && config.memberRole.value !in user.roles {
      store.SaveUser(uid, user.(roles := user.roles + {config.memberRole.value}));
    }
    ghost var v1 := store.saves;
    if profileModified {
      store.SaveProfile(uid, profile);
    }
    SavesAppend(old(store.saves), v1[|old(store.saves)|..], store.saves[|v1|..]);
  }

  method UpdateUserPlan(store: Store, customerId: string, planId: string)
    requires store.Valid()
    modifies store
    ensures store.Valid()
    ensures var e := UserPlanUpdated(old(store.State()), customerId, planId);
            store.State() == e.site && store.saves == old(store.saves) + e.saved
  {
    var found := UserIdIn(store, customerId);
    if found.Some? {
      var user := store.users[found.value];
      if user.hasPlanField {
        // The save drops an empty item.
        store.SaveUser(found.value, user.(plan := SavedItem(Some(planId))));
      }
    }
  }

  method UpdateMonthlyPaymentField(store: Store, customerId: string, cents: int)
    requires store.Valid()
    modifies store
    ensures store.Valid()
    ensures var e := MonthlyPaymentUpdated(old(store.State()), customerId, cents);
            store.State() == e.site && store.saves == old(store.saves) + e.saved
  {
    var owner := store.State().ProfileOwnerOf(customerId);
    if owner.Some? {
      var profile := store.profiles[owner.value];
      if profile.hasMonthlyField {
        store.SaveProfile(owner.value, profile.(monthlyPayment := Some(cents)));
      }
    }
  }

  /** The `subscription_cancelled` branch of `listener`. */
  method HandleCancellation(store: Store, config: Config, customerId: string, sub: Subscription, now: int)
    requires store.Valid()
    modifies store
    ensures store.Valid()
    ensures var e := SubscriptionCancelled(old(store.State()), config, customerId, sub, now);
            store.State() == e.site && store.saves == old(store.saves) + e.saved
  {
    var user := UserIdIn(store, customerId);
    var endDate := Dates.DateOf(sub.currentTermEnd.GetOr(now));
    var cancelReason := sub.cancelReasonCode.GetOr(DefaultReason);
    ghost var v0 := store.saves;
    UpdateSubscriptionFields(store, customerId, endDate, cancelReason);
    ghost var v1 := store.saves;
    if user.Some? {
      ClearUserPauseField(store, user.value, store.users[user.value]);
    }
    ghost var v2 := store.saves;
    RemoveMemberRole(store, config, customerId);
    SavesAppend(v0, v1[|v0|..], v2[|v1|..]);
    SavesAppend(v0, v1[|v0|..] + v2[|v1|..], store.saves[|v2|..]);
  }

  /** The `subscription_created` / `_updated` / `_reactivated` branch of `listener`. */
  method HandleSubscriptionChange(store: Store, config: Config, customerId: string, reactivated: bool, sub: Subscription, now: int)
    requires store.Valid()
    modifies store
    ensures store.Valid()
    ensures var e := SubscriptionChanged(old(store.State()), config, customerId, reactivated, sub, now);
            store.State() == e.site && store.saves == old(store.saves) + e.saved
  {
    ghost var s0 := store.State();
    ghost var recorded := SubscriptionRecorded(s0, customerId, sub);
    var user := UserIdIn(store, customerId);
    var detached := user.Some? && store.users[user.value].hasPlanField;
    assert detached == PlanSavesAccount(s0, customerId);
    RecordSubscription(store, customerId, sub);
    if reactivated {
      ghost var reactivation := ReactivationApplied(recorded.site, config, customerId, now, detached);
      Reactivate(store, config, customerId, now, detached);
      SavesAppend(old(store.saves), recorded.saved, reactivation.saved);
      assert SubscriptionChanged(s0, config, customerId, reactivated, sub, now) == Then(recorded, reactivation);
    } else {
      assert SubscriptionChanged(s0, config, customerId, reactivated, sub, now) == recorded;
    }
  }

  method RecordSubscription(store: Store, customerId: string, sub: Subscription)
    requires store.Valid()
    modifies store
    ensures store.Valid()
    ensures var e := SubscriptionRecorded(old(store.State()), customerId, sub);
            store.State() == e.site && store.saves == old(store.saves) + e.saved
  {
    var planTerm := RegisterPayment(store, customerId, sub);
    ghost var v1 := store.saves;
    ApplyPlan(store, customerId, sub.planId.GetOr(DefaultPlanId), planTerm);
    SavesAppend(old(store.saves), v1[|old(store.saves)|..], store.saves[|v1|..]);
  }

  method RegisterPayment(store: Store, customerId: string, sub: Subscription) returns (planTerm: Option<PlanTerm>)
    requires store.Valid()
    modifies store
    ensures store.Valid()
    ensures var e := PaymentRegistered(old(store.State()), customerId, sub);
            store.State() == e.site && store.saves == old(store.saves) + e.saved
    ensures planTerm == PlansUpserted(old(store.State()), sub).term
  {
    var planId := sub.planId.GetOr(DefaultPlanId);
    if sub.planAmount.Some? {
      UpdateMonthlyPaymentField(store, customerId, sub.planAmount.value);
    }
    planTerm := None;
    if !PhpEmpty(planId) {
      planTerm := Plans.UpsertPlan(store, planId, PlanMetadataOf(sub));
    }
  }

  method ApplyPlan(store: Store, customerId: string, planId: string, planTerm: Option<PlanTerm>)
    requires store.Valid()
    modifies store
    ensures store.Valid()
    ensures var e := PlanApplied(old(store.State()), customerId, planId, planTerm);
            store.State() == e.site && store.saves == old(store.saves) + e.saved
  {
    var user := UserIdIn(store, customerId);
    UpdateUserPlan(store, customerId, planId);
    if planTerm.Some? && user.Some? {
      Plans.AssignMembershipTypeToUser(store, user.value, planTerm.value);
    }
  }

  /** The extra steps of `subscription_reactivated`; `detached` says that the
      account object the branch holds was saved by `updateUserPlan`. */
  method Reactivate(store: Store, config: Config, customerId: string, now: int, detached: bool)
    requires store.Valid()
    modifies store
    ensures store.Valid()
    ensures var e := ReactivationApplied(old(store.State()), config, customerId, now, detached);
            store.State() == e.site && store.saves == old(store.saves) + e.saved
  {
    var user := UserIdIn(store, customerId);
    var held := store.users;
    ClearCancellationFields(store, config, customerId, Dates.DateOf(now));
    ghost var v1 := store.saves;
    if user.Some? {
      var copy := if detached then held[user.value] else store.users[user.value];
      ClearUserPauseField(store, user.value, copy);
    }
    SavesAppend(old(store.saves), v1[|old(store.saves)|..], store.saves[|v1|..]);
  }

  /** `listener`: the reply's status and the whole change to the store are those of `Respond`. */
  method Listener(store: Store, config: Config, token: string, body: Option<Payload>, now: int) returns (status: int)
    requires store.Valid()
    modifies store
    ensures store.Valid()
    ensures var r := Respond(old(store.State()), config, token, body, now);
            && status == r.status
            && store.State() == r.effect.site
            && store.saves == old(store.saves) + r.effect.saved
  {
    if config.token != token {
      return 403;
    }
    if body.None? || body.value.eventType.None? {
      return 400;
    }
    var data := body.value;
    var customerId := data.customerId.GetOr("");
    if PhpEmpty(customerId) {
      return 400;
    }
    var eventType := data.eventType.value;
    if eventType == PauseRemoved || eventType == Resumed {
      UpdateUserFields(store, customerId, Some(false), None);
    } else if eventType == Paused {
      UpdateUserFields(store, customerId, Some(true), None);
    } else if eventType == Cancelled {
      HandleCancellation(store, config, customerId, data.subscription, now);
    } else if eventType == Created || eventType == Updated || eventType == Reactivated {
      HandleSubscriptionChange(store, config, customerId, eventType == Reactivated, data.subscription, now);
    } else if eventType == PaymentFailed {
      UpdateUserFields(store, customerId, None, Some(true));
    } else if eventType == PaymentSucceeded {
      UpdateUserFields(store, customerId, None, Some(false));
    }
    return 200;
  }
}
