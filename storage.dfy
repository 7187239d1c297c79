/** The site's entity storage as one mutable object: the loaded entities are
    values in maps, and every `save()` is recorded in order. */
module Storage {
  import opened Entities

  class Store {
    var customers: map<string, int>
    var users: map<int, User>
    var profiles: map<int, Profile>
    var plans: map<string, PlanTerm>
    /** Every entity save so far, oldest first. */
    var saves: seq<Saved>

    function State(): Site
      reads this
    {
      Site(customers, users, profiles, plans)
    }

    ghost predicate Valid()
      reads this
    {
      State().Valid()
    }

    constructor (site: Site)
      requires site.Valid()
      ensures Valid() && State() == site && saves == []
    {
      customers, users, profiles, plans := site.customers, site.users, site.profiles, site.plans;
      saves := [];
    }

    /** `$user->save()` after the account was changed to `user`. */
    method SaveUser(uid: int, user: User)
      requires Valid() && uid in users
      modifies this
      ensures Valid()
      ensures State() == old(State()).(users := old(users)[uid := user])
      ensures saves == old(saves) + [UserSaved(uid)]
    {
      users := users[uid := user];
      saves := saves + [UserSaved(uid)];
    }

    /** `$profile->save()` after the main profile of `owner` was changed to `profile`. */
    method SaveProfile(owner: int, profile: Profile)
      requires Valid()
      modifies this
      ensures Valid()
      ensures State() == old(State()).(profiles := old(profiles)[owner := profile])
      ensures saves == old(saves) + [ProfileSaved(owner)]
    {
      profiles := profiles[owner := profile];
      saves := saves + [ProfileSaved(owner)];
    }

    /** `$term->save()` for the `billing_plan` term with this plan id, new or not. */
    method SavePlan(planId: string, term: PlanTerm)
      requires Valid()
      modifies this
      ensures Valid()
      ensures State() == old(State()).(plans := old(plans)[planId := term])
      ensures saves == old(saves) + [PlanSaved(planId)]
    {
      plans := plans[planId := term];
      saves := saves + [PlanSaved(planId)];
    }
  }
}
