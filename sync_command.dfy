/** The `chargebee:sync-membership-type` command: for one user, look up the
    plan recorded on the account, the plan's membership mapping and the main
    profile, and either report the change a sync would make (dry run) or make
    it. Each guard that fails ends the command with a message and no write. */
module SyncCommand {
  import opened Optional
  import opened Text
  import opened Entities
  import opened Storage
  import Plans

  /** How the command ended; the log message it prints is left out. */
  datatype Outcome =
    | InvalidUid                           // --uid missing or not positive
    | UserNotFound                         // no account with that uid
    | NoPlanId                             // the account has no plan field, or it is empty
    | BlankPlanId                          // the plan id is blank after trimming
    | NoPlanTerm(planId: string)           // no billing_plan term has that plan id
    | NoMapping(planId: string)            // the term maps to no membership type
    | NoProfile                            // the user has no main profile
    | NoMembershipField                    // the profile type lacks field_membership_type
    | AlreadySet(target: int)              // the profile already holds the mapped type
    | DryRun(current: int, target: int)    // without --apply: the change it would make
    | Applied(target: int)                 // with --apply: the profile was written

  /** The outcomes that write. */
  predicate Writes(o: Outcome) {
    o.Applied?
  }

  /** `(string) $user->get('field_user_chargebee_plan')->value` when the field
      is present and not empty (a string item is empty when null or ""). */
  function StoredPlanId(u: User): Option<string> {
    if u.hasPlanField && u.plan.Some? && u.plan.value != "" then u.plan else None
  }

  /** The guard chain of `syncMembershipType`, in the order of the source.
      `uid` is the `--uid` option cast to an integer (absent: none). */
  function SyncDecision(s: Site, uid: Option<int>, apply: bool): (o: Outcome)
    ensures Writes(o) ==> apply
    ensures (o.Applied? || o.DryRun? || o.AlreadySet?) ==>
              && uid.Some? && uid.value > 0 && uid.value in s.users && uid.value in s.profiles
              && s.profiles[uid.value].hasMembershipField
  {
    var id := uid.GetOr(0);
    if id <= 0 then InvalidUid
    else if id !in s.users then UserNotFound
    else
      var stored := StoredPlanId(s.users[id]);
      if stored.None? then NoPlanId
      else
        var planId := Trim(stored.value);
        if planId == "" then BlankPlanId
        else
          var term := Plans.LoadPlanByIdentifier(s.plans, planId);
          if term.None? then NoPlanTerm(planId)
          else
            var target := Plans.MembershipTarget(term.value);
            if target.None? || target.value == 0 then NoMapping(planId)
            else if id !in s.profiles then NoProfile
            else if !s.profiles[id].hasMembershipField then NoMembershipField
            else
              var current := TargetIdInt(s.profiles[id].membershipType);
              if current == target.value then AlreadySet(target.value)
              else if apply then Applied(target.value)
              else DryRun(current, target.value)
  }

  /** What the command does to the site: one profile write and save for
      `Applied`, nothing otherwise. */
  function SyncEffect(s: Site, uid: Option<int>, o: Outcome): Effect
    requires o.Applied? ==> uid.Some? && uid.value in s.profiles
  {
    if o.Applied? then
      var id := uid.value;
      Effect(s.(profiles := s.profiles[id := s.profiles[id].(membershipType := Some(o.target))]), [ProfileSaved(id)])
    else Effect(s, [])
  }

  method SyncMembershipType(store: Store, uid: Option<int>, apply: bool) returns (outcome: Outcome)
    requires store.Valid()
    modifies store
    ensures store.Valid()
    ensures outcome == SyncDecision(old(store.State()), uid, apply)
    ensures var e := SyncEffect(old(store.State()), uid, outcome);
            store.State() == e.site && store.saves == old(store.saves) + e.saved
  {
    var id := uid.GetOr(0);
    if id <= 0 {
      return InvalidUid;
    }
    if id !in store.users {
      return UserNotFound;
    }
    var user := store.users[id];
    if !user.hasPlanField || user.plan.None? || user.plan.value == "" {
      return NoPlanId;
    }
    var planId := Trim(user.plan.value);
    if planId == "" {
      return BlankPlanId;
    }
    var term := Plans.LoadPlanByIdentifier(store.plans, planId);
    if term.None? {
      return NoPlanTerm(planId);
    }
    var target := Plans.MembershipTarget(term.value);
    if target.None? || target.value == 0 {
      return NoMapping(planId);
    }
    if id !in store.profiles {
      return NoProfile;
    }
    var profile := store.profiles[id];
    if !profile.hasMembershipField {
      return NoMembershipField;
    }
    var current := TargetIdInt(profile.membershipType);
    if current == target.value {
      return AlreadySet(target.value);
    }
    if apply {
      store.SaveProfile(id, profile.(membershipType := Some(target.value)));
      return Applied(target.value);
    }
    return DryRun(current, target.value);
  }

  /** The plan term the command consults for a user: none when the account
      holds no plan id or a blank one, else the term with the trimmed id. */
  function PlanTermOf(s: Site, id: int): Option<PlanTerm>
    requires id in s.users
  {
    var stored := StoredPlanId(s.users[id]);
    if stored.None? || Trim(stored.value) == "" then None else Plans.LoadPlanByIdentifier(s.plans, Trim(stored.value))
  }

  /** A dry run never writes, and it reports exactly the change the same
      command with `--apply` makes. */
  lemma DryRunMirrorsApply(s: Site, uid: Option<int>)
    ensures SyncEffect(s, uid, SyncDecision(s, uid, false)) == Effect(s, [])
    ensures var dry := SyncDecision(s, uid, false);
            var wet := SyncDecision(s, uid, true);
            && (dry.DryRun? <==> wet.Applied?)
            && (dry.DryRun? ==> dry.target == wet.target)
            && (!dry.DryRun? ==> dry == wet)
  {
  }

  /** With `--apply`, the command writes exactly when the user, the plan
      term with a non-zero mapping and the main profile with the field all
      exist and the profile holds a different type; the write is the same one
      the webhook makes for that plan (`assignMembershipTypeToUser`). */
  lemma ApplyIsMembershipAssignment(s: Site, id: int)
    requires id > 0
    ensures var o := SyncDecision(s, Some(id), true);
            o.Applied? <==>
              && id in s.users && PlanTermOf(s, id).Some?
              && Plans.MembershipAssigned(s, id, PlanTermOf(s, id).value).saved != []
    ensures var o := SyncDecision(s, Some(id), true);
            o.Applied? ==> SyncEffect(s, Some(id), o) == Plans.MembershipAssigned(s, id, PlanTermOf(s, id).value)
  {
  }

  /** Running the command with `--apply` twice: the second run finds the
      type already set and writes nothing. */
  lemma {:induction false} ApplyThenAlreadySet(s: Site, uid: Option<int>)
    requires SyncDecision(s, uid, true).Applied?
    ensures var first := SyncDecision(s, uid, true);
            var after := SyncEffect(s, uid, first).site;
            SyncDecision(after, uid, true) == AlreadySet(first.target)
  {
    var id := uid.value;
    var after := SyncEffect(s, uid, SyncDecision(s, uid, true)).site;
    assert after.users == s.users && after.plans == s.plans;
    assert after.profiles[id].hasMembershipField;
  }

  /** The guards before the profile lookup do not look at profiles: when one
      of them ends the command, it ends the same way whatever the profiles are,
      and nothing is written. */
  lemma EarlyGuardsIgnoreProfiles(s: Site, uid: Option<int>, apply: bool, profiles: map<int, Profile>)
    requires var o := SyncDecision(s, uid, apply);
             o.InvalidUid? || o.UserNotFound? || o.NoPlanId? || o.BlankPlanId? || o.NoPlanTerm? || o.NoMapping?
    ensures SyncDecision(s.(profiles := profiles), uid, apply) == SyncDecision(s, uid, apply)
    ensures SyncEffect(s, uid, SyncDecision(s, uid, apply)) == Effect(s, [])
  {
  }
}
