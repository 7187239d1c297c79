/** The plan registry (`PlanManager`): keeps one `billing_plan` term per
    external plan id up to date with what the billing provider reports, and
    copies a plan's curated membership type onto a user's main profile. */
module Plans {
  import opened Optional
  import opened Text
  import opened Entities
  import opened Storage
  import Money

  /** The `$metadata` array of `upsertPlan`; a key that is absent or null is `None`.
      The amount is in cents. */
  datatype PlanMetadata = PlanMetadata(
    planLabel: Option<string>,
    provider: Option<string>,
    currency: Option<string>,
    amountCents: Option<int>)

  /** What `upsertPlan` leaves behind: the plan terms, the term it returns
      (none for an empty plan id) and the saves it made. */
  datatype Upsert = Upsert(plans: map<string, PlanTerm>, term: Option<PlanTerm>, saved: seq<Saved>)

  /** `loadPlanByIdentifier`: the `billing_plan` term whose plan id is `planId`,
      if there is one. The commands' `getPlanTermForPlanId`, whose body is not
      part of this model, is taken to be this lookup. */
  function LoadPlanByIdentifier(plans: map<string, PlanTerm>, planId: string): (r: Option<PlanTerm>)
    ensures r.Some? <==> planId in plans
    ensures r.Some? ==> r.value == plans[planId]
  {
    if planId in plans then Some(plans[planId]) else None
  }

  /** The term `upsertPlan` creates for an unknown plan id: named after the
      label if one is given (even an empty one), else after the plan id. */
  function NewTerm(planId: string, meta: PlanMetadata): PlanTerm {
    PlanTerm(meta.planLabel.GetOr(planId), None, None, None, None)
  }

  /** The term with the metadata applied: a non-empty label renames it, a
      provider is stored as given, a currency upper-cased, an amount as its
      two-decimal string; absent keys leave their fields alone. */
  function WithMetadata(t: PlanTerm, meta: PlanMetadata): PlanTerm {
    var named := if meta.planLabel.Some? && !PhpEmpty(meta.planLabel.value) then t.(name := meta.planLabel.value) else t;
    var provided := if meta.provider.Some? then named.(provider := Some(meta.provider.value)) else named;
    var priced := if meta.currency.Some? then provided.(currency := Some(Upper(meta.currency.value))) else provided;
    if meta.amountCents.Some? then priced.(amount := Some(Money.FormatAmount(meta.amountCents.value))) else priced
  }

  /** The term as its save leaves it: an empty provider, currency or amount is dropped. */
  function Kept(t: PlanTerm): PlanTerm {
    t.(provider := SavedItem(t.provider), currency := SavedItem(t.currency), amount := SavedItem(t.amount))
  }

  /** A term as the storage hands it out: no string item holds "". */
  predicate Settled(t: PlanTerm) {
    Kept(t) == t
  }

  /** `upsertPlan($plan_id, $metadata)` on the plan terms. The comparisons
      are made on the term in memory, which holds what was just set; the saved
      term is what the storage keeps of it. */
  function Upserted(plans: map<string, PlanTerm>, planId: string, meta: PlanMetadata): (u: Upsert)
    ensures u.term.None? <==> PhpEmpty(planId)
    ensures u.term.Some? ==> planId in u.plans && u.plans[planId] == u.term.value
    ensures u.saved == [] || u.saved == [PlanSaved(planId)]
    ensures u.saved == [] ==> u.plans == plans
    ensures forall p :: p in plans && p != planId ==> p in u.plans && u.plans[p] == plans[p]
  {
    if PhpEmpty(planId) then Upsert(plans, None, [])
    else
      var created := planId !in plans;
      var base := if created then NewTerm(planId, meta) else plans[planId];
      var term := WithMetadata(base, meta);
      if created || term != base then Upsert(plans[planId := Kept(term)], Some(Kept(term)), [PlanSaved(planId)])
      else Upsert(plans, Some(term), [])
  }

  /** `upsertPlan`: load or create the term, write each metadata field whose
      normalised value differs from the stored one, save once if anything changed. */
  method UpsertPlan(store: Store, planId: string, meta: PlanMetadata) returns (term: Option<PlanTerm>)
    requires store.Valid()
    modifies store
    ensures store.Valid()
    ensures var u := Upserted(old(store.plans), planId, meta);
            && store.State() == old(store.State()).(plans := u.plans)
            && term == u.term
            && store.saves == old(store.saves) + u.saved
  {
    if PhpEmpty(planId) {
      return None;
    }
    var existing := LoadPlanByIdentifier(store.plans, planId);
    var t: PlanTerm;
    var changed := false;
    if existing.None? {
      t := NewTerm(planId, meta);
      changed := true;
    } else {
      t := existing.value;
    }
    ghost var base := t;
    if meta.planLabel.Some? && !PhpEmpty(meta.planLabel.value) && t.name != meta.planLabel.value {
      t := t.(name := meta.planLabel.value);
      changed := true;
    }
    if meta.provider.Some? {
      var provider := meta.provider.value;
      if t.provider != Some(provider) {
        t := t.(provider := Some(provider));
        changed := true;
      }
    }
    if meta.currency.Some? {
      var currency := Upper(meta.currency.value);
      if t.currency != Some(currency) {
        t := t.(currency := Some(currency));
        changed := true;
      }
    }
    if meta.amountCents.Some? {
      var amount := Money.FormatAmount(meta.amountCents.value);
      if t.amount != Some(amount) {
        t := t.(amount := Some(amount));
        changed := true;
      }
    }
    assert t == WithMetadata(base, meta);
    assert changed == (existing.None? || t != base);
    if changed {
      t := Kept(t);
      store.SavePlan(planId, t);
    }
    return Some(t);
  }

  /** An empty plan id ("" or "0") returns nothing and touches no term. */
  lemma UpsertEmptyPlanId(plans: map<string, PlanTerm>, planId: string, meta: PlanMetadata)
    requires PhpEmpty(planId)
    ensures Upserted(plans, planId, meta) == Upsert(plans, None, [])
  {
  }

  /** After an upsert with a non-empty plan id, exactly that plan id has a
      term, it is the term returned, no other term changed and none was added
      besides it; its fields hold the normalised metadata where given (an
      empty provider or currency read back as none) and keep their old values
      (none for a new term) otherwise; the membership mapping is never
      written; the term stays as the storage hands terms out. */
  lemma UpsertStoresNormalised(plans: map<string, PlanTerm>, planId: string, meta: PlanMetadata)
    requires !PhpEmpty(planId)
    requires planId in plans ==> Settled(plans[planId])
    ensures var u := Upserted(plans, planId, meta);
            && u.plans.Keys == plans.Keys + {planId}
            && (forall p :: p in plans && p != planId ==> u.plans[p] == plans[p])
            && u.term == Some(u.plans[planId])
            && Settled(u.plans[planId])
    ensures var t := Upserted(plans, planId, meta).plans[planId];
            var created := planId !in plans;
            && t.name == (if meta.planLabel.Some? && !PhpEmpty(meta.planLabel.value) then meta.planLabel.value
                          else if created then meta.planLabel.GetOr(planId) else plans[planId].name)
            && t.provider == (if meta.provider.Some? then SavedItem(meta.provider)
                              else if created then None else plans[planId].provider)
            && t.currency == (if meta.currency.Some? then SavedItem(Some(Upper(meta.currency.value)))
                              else if created then None else plans[planId].currency)
            && t.amount == (if meta.amountCents.Some? then Some(Money.FormatAmount(meta.amountCents.value))
                            else if created then None else plans[planId].amount)
            && t.membershipType == (if created then None else plans[planId].membershipType)
  {
  }

  /** The term is saved, once, exactly when it was created or some field's
      normalised value differed from the stored one. */
  lemma UpsertSavesIffChanged(plans: map<string, PlanTerm>, planId: string, meta: PlanMetadata)
    requires !PhpEmpty(planId)
    ensures var old_ := if planId in plans then plans[planId] else NewTerm(planId, meta);
            var changed :=
              || planId !in plans
              || (meta.planLabel.Some? && !PhpEmpty(meta.planLabel.value) && old_.name != meta.planLabel.value)
              || (meta.provider.Some? && old_.provider != meta.provider)
              || (meta.currency.Some? && old_.currency != Some(Upper(meta.currency.value)))
              || (meta.amountCents.Some? && old_.amount != Some(Money.FormatAmount(meta.amountCents.value)));
            Upserted(plans, planId, meta).saved == if changed then [PlanSaved(planId)] else []
  {
  }

  /** The metadata gives a provider or a currency that is "": the term in
      memory holds "", the stored term holds nothing, and `!==` tells them apart. */
  predicate BlankGiven(meta: PlanMetadata) {
    meta.provider == Some("") || meta.currency == Some("")
  }

  /** A second upsert with the same metadata leaves the same terms and returns
      the same term; it saves nothing unless the metadata gives a blank
      provider or currency. */
  lemma UpsertIdempotent(plans: map<string, PlanTerm>, planId: string, meta: PlanMetadata)
    ensures var first := Upserted(plans, planId, meta);
            var second := Upserted(first.plans, planId, meta);
            && second.plans == first.plans && second.term == first.term
            && (!BlankGiven(meta) ==> second.saved == [])
  {
    if !PhpEmpty(planId) {
      var first := Upserted(plans, planId, meta);
      var t := first.plans[planId];
      assert |Money.FormatAmount(meta.amountCents.GetOr(0))| > 0;
      if first.saved == [] {
        assert WithMetadata(t, meta) == t;
      } else {
        var second := WithMetadata(t, meta);
        assert Kept(second) == t;
        if !BlankGiven(meta) {
          assert second == t;
        }
      }
    }
  }

  /** With a blank provider or currency, every upsert of a non-empty plan id
      saves the term, the second one as well as the first. */
  lemma UpsertBlankResaves(plans: map<string, PlanTerm>, planId: string, meta: PlanMetadata)
    requires !PhpEmpty(planId) && BlankGiven(meta)
    requires planId in plans ==> Settled(plans[planId])
    ensures var first := Upserted(plans, planId, meta);
            && first.saved == [PlanSaved(planId)]
            && Upserted(first.plans, planId, meta).saved == [PlanSaved(planId)]
  {
    UpsertStoresNormalised(plans, planId, meta);
  }

  /** `getMembershipTypeTargetIdFromPlanTerm`, whose body is not part of this
      model: the plan's mapped membership term id, none when the field is empty. */
  function MembershipTarget(term: PlanTerm): Option<int> {
    term.membershipType
  }

  /** `assignMembershipTypeToUser`: copy the plan's membership type onto the
      user's main profile when the plan maps to a non-zero term id, the profile
      exists and has the field, and the current value differs as an integer. */
  function MembershipAssigned(site: Site, uid: int, term: PlanTerm): (e: Effect)
    ensures e.site.(profiles := site.profiles) == site
    ensures e.saved == [] || e.saved == [ProfileSaved(uid)]
    ensures e.saved == [] <==> e.site == site
    ensures e.saved != [] ==> uid in site.profiles
                              && e.site.profiles == site.profiles[uid := site.profiles[uid].(membershipType := term.membershipType)]
  {
    var target := TargetIdInt(term.membershipType);
    if term.membershipType.None? || target == 0 then Effect(site, [])
    else if uid !in site.profiles then Effect(site, [])
    else
      var profile := site.profiles[uid];
      if !profile.hasMembershipField || TargetIdInt(profile.membershipType) == target then Effect(site, [])
      else Effect(site.(profiles := site.profiles[uid := profile.(membershipType := Some(target))]),
                  [ProfileSaved(uid)])
  }

  method AssignMembershipTypeToUser(store: Store, uid: int, term: PlanTerm)
    requires store.Valid()
    modifies store
    ensures store.Valid()
    ensures var e := MembershipAssigned(old(store.State()), uid, term);
            store.State() == e.site && store.saves == old(store.saves) + e.saved
  {
    if term.membershipType.None? {
      return;
    }
    var target := term.membershipType.value;
    if target == 0 {
      return;
    }
    if uid !in store.profiles {
      return;
    }
    var profile := store.profiles[uid];
    if !profile.hasMembershipField {
      return;
    }
    if TargetIdInt(profile.membershipType) == target {
      return;
    }
    store.SaveProfile(uid, profile.(membershipType := Some(target)));
  }

  /** The profile is written, once, exactly when the plan maps to a non-zero
      term id, the main profile exists with the membership field, and its
      current value differs; the write sets the mapped id and nothing else. */
  lemma MembershipAssignedWrites(site: Site, uid: int, term: PlanTerm)
    ensures var e := MembershipAssigned(site, uid, term);
            var writes := term.membershipType.Some? && term.membershipType.value != 0
                          && uid in site.profiles && site.profiles[uid].hasMembershipField
                          && TargetIdInt(site.profiles[uid].membershipType) != term.membershipType.value;
            && (writes ==> e.saved == [ProfileSaved(uid)]
                           && e.site.profiles.Keys == site.profiles.Keys
                           && e.site.profiles[uid] == site.profiles[uid].(membershipType := term.membershipType))
            && (!writes ==> e == Effect(site, []))
            && e.site.(profiles := site.profiles) == site
            && forall o :: o in site.profiles && o != uid ==> e.site.profiles[o] == site.profiles[o]
  {
  }

  /** Applying the mapping again is a no-op: the second call neither writes nor saves. */
  lemma MembershipAssignedIdempotent(site: Site, uid: int, term: PlanTerm)
    ensures var first := MembershipAssigned(site, uid, term);
            MembershipAssigned(first.site, uid, term) == Effect(first.site, [])
  {
  }
}
