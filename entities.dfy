/** The records the webhook reads and writes: user accounts, their "main"
    profiles and the terms of the `billing_plan` vocabulary, plus the module
    configuration. A field that Drupal reports as empty is `None`. */
module Entities {
  import opened Optional
  import opened Text

  /** A user account, as far as the webhook touches it. */
  datatype User = User(
    pause: Option<bool>,          // field_chargebee_payment_pause: 1 paused, 0 active
    paymentFailed: Option<bool>,  // field_payment_failed
    roles: set<string>,
    hasPlanField: bool,           // the account carries field_user_chargebee_plan
    plan: Option<string>)         // field_user_chargebee_plan: last known plan id

  /** A user's "main" profile. The `has...` flags say whether the profile type
      carries the field, for the fields whose writes the code guards by
      `hasField` alone. */
  datatype Profile = Profile(
    hasMembershipField: bool,
    membershipType: Option<int>,      // field_membership_type: target term id
    endDate: Option<string>,          // field_member_end_date, "Y-m-d"
    endReason: Option<string>,        // field_member_end_reason, a reason code
    hasReactivationField: bool,
    reactivationDate: Option<string>, // field_member_reactivation_date, "Y-m-d"
    pause: Option<bool>,              // field_chargebee_payment_pause on the profile
    hasMonthlyField: bool,
    monthlyPayment: Option<int>)      // field_member_payment_monthly, in cents

  /** A term of the `billing_plan` vocabulary; its `field_plan_id` is the key
      under which the site stores it. */
  datatype PlanTerm = PlanTerm(
    name: string,
    provider: Option<string>,     // field_plan_provider
    currency: Option<string>,     // field_plan_currency, upper case
    amount: Option<string>,       // field_plan_amount, "19.99"
    membershipType: Option<int>)  // field_membership_type, curated by administrators

  /** What the webhook can see of the site's entity storage:
      - `customers`: field_user_chargebee_id -> uid (the entity query takes at most one);
      - `users`: uid -> account;
      - `profiles`: uid -> the user's "main" profile;
      - `plans`: field_plan_id -> term of `billing_plan`. */
  datatype Site = Site(
    customers: map<string, int>,
    users: map<int, User>,
    profiles: map<int, Profile>,
    plans: map<string, PlanTerm>)
  {
    /** Every customer id leads to an account that loads. */
    predicate Valid() {
      forall c :: c in customers ==> customers[c] in users
    }

    /** `getUserByCustomerId`: the uid of the account with this customer id. */
    function UserIdOf(customerId: string): Option<int> {
      if customerId in customers then Some(customers[customerId]) else None
    }

    /** `getUserProfileByCustomerId`: the owner's uid when the customer's
        account has a main profile. */
    function ProfileOwnerOf(customerId: string): Option<int> {
      if customerId in customers && customers[customerId] in profiles
      then Some(customers[customerId]) else None
    }
  }

  /** One `save()` of an entity. */
  datatype Saved = UserSaved(uid: int) | ProfileSaved(owner: int) | PlanSaved(planId: string)

  /** The outcome of a step: the site afterwards and the saves it made, in order. */
  datatype Effect = Effect(site: Site, saved: seq<Saved>)

  /** Running `second` after `first`, given as the effect of `second` on `first.site`. */
  function Then(first: Effect, second: Effect): Effect {
    Effect(second.site, first.saved + second.saved)
  }

  /** Saves made in two steps are the saves of the first step, then those of the second. */
  lemma SavesAppend(before: seq<Saved>, first: seq<Saved>, second: seq<Saved>)
    ensures before + first + second == before + (first + second)
  {
  }

  /** A string field item after its entity is saved: Drupal drops an item
      holding "" as empty, so it reads back as no value. */
  function SavedItem(v: Option<string>): Option<string> {
    if v == Some("") then None else v
  }

  /** The module's settings: the URL token and the member role (`chargebee_status_member_role`). */
  datatype Config = Config(token: string, memberRole: Option<string>)

  /** `if ($member_role_id)`: a role is configured and its id is not falsy. */
  predicate RoleConfigured(config: Config) {
    config.memberRole.Some? && !PhpEmpty(config.memberRole.value)
  }

  /** `(int) $target_id` of an entity-reference field: an empty field reads as 0. */
  function TargetIdInt(target: Option<int>): int {
    target.GetOr(0)
  }
}
