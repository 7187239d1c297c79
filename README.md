# Chargebee status sync, modelled in Dafny

This project models the decision logic of the Drupal module
`chargebee_status_sync`. The module keeps member accounts in step with the
Chargebee billing service, and has three parts:

- **The webhook controller** (`ChargebeeWebhookController`). It authenticates
  a delivery by the token in its URL and checks the payload. It then
  dispatches on `event_type` to read-modify-save handlers. These handlers
  write the user account (pause flag, payment-failed flag, plan id, member
  role) and the user's "main" profile (end date and reason, reactivation
  date, pause flag, monthly payment, membership type). It also maps
  Chargebee's free-text cancellation reasons to short codes.
- **The plan registry** (`PlanManager`). It keeps one `billing_plan` term per
  Chargebee plan id. Currency and amount are stored normalised, and a term is
  saved only when something changed. It also copies a plan's curated
  membership type onto a user's profile.
- **The `chargebee:sync-membership-type` command**
  (`ChargebeeStatusSyncCommands::syncMembershipType`). It is a guard chain
  that ends in an error, a no-op, a dry-run report, or a single profile
  write.

How the model is built:

- The site's entity storage is a `Site` value. It holds four maps:
  - customer id → uid;
  - uid → account;
  - uid → main profile;
  - plan id → plan term.
- `Storage.Store` is the same storage as a mutable object. It also keeps a
  log of every entity `save()`, in order.
- Each handler has two forms:
  - a function from the site before to an `Effect`, which is the site after
    plus the saves made;
  - a method on the `Store` that performs the same guarded writes and saves
    as the PHP code. Its contract states that it agrees with the function.
- Properties of the functions are proved as lemmas:
  - field-by-field outcomes of each event;
  - the first-match rule of the reason table;
  - the normalisation and the saves of the plan upsert;
  - convergence of a redelivered event;
  - the relation between the command and the webhook's membership assignment.

Conventions of the model:

- Amounts are integer cents. The webhook divides `plan_amount` by 100 and the
  registry prints the result with two decimals. This is modelled as exact
  decimal printing of the cents.
- Times are Unix seconds. `date('Y-m-d', …)` is computed for a server running
  in UTC.
- A field that Drupal reports as empty is `None`. A string item set to `""`
  is dropped when its entity is saved, so it reads back as `None`. Tests made
  before the save see the `""` in memory.
- PHP's `empty()` and falsy tests on strings treat `""` and `"0"` as empty.

## Model

| member | source | states |
|---|---|---|
| Text.TrimCuts | src/Controller/ChargebeeWebhookController.php:354 | `trim` keeps one occurrence of a contiguous piece of the text. That piece neither starts nor ends with a blank (space, tab, LF, CR, NUL, VT), and every non-blank character of the input lies inside that one occurrence. |
| Text.Lower | src/Controller/ChargebeeWebhookController.php:354 | `strtolower` keeps the length, turns each ASCII capital into its own small letter (code point plus 32), leaves no capital and changes no other character. |
| Text.Upper | src/Service/PlanManager.php:110 | `strtoupper` keeps the length, turns each ASCII small letter into its own capital (code point minus 32), leaves no small letter and changes no other character. |
| Reasons.MapCancellationReason | src/Controller/ChargebeeWebhookController.php:347-381 | The early return plus the loop over the table returns exactly `ReasonCode(reason)`. |
| Reasons.CodesDistinct | src/Controller/ChargebeeWebhookController.php:357-370 | The 12 codes of the table are pairwise distinct and none is `unknown`. Every keyword is non-empty. |
| Reasons.ReasonCodeInRange | src/Controller/ChargebeeWebhookController.php:347-381 | The result is always one of the 12 table codes or `unknown`. |
| Reasons.ReasonCodeIsFirstRule | src/Controller/ChargebeeWebhookController.php:372-377 | The result is rule k's code iff the reason is not empty, rule k's keyword occurs in the trimmed lower-cased reason, and no earlier keyword occurs in it. |
| Reasons.ReasonCodeUnknown | src/Controller/ChargebeeWebhookController.php:347-381 | The result is `unknown` iff the reason is empty (`""` or `"0"`) or no keyword occurs in the normalised reason. |
| Reasons.TimeWins | src/Controller/ChargebeeWebhookController.php:358-376 | A reason whose normalised text contains "time" maps to `time`, whatever other keywords it contains and wherever they appear. Table order beats position in the text. |
| Reasons.BlankReasonIsUnknown | src/Controller/ChargebeeWebhookController.php:349-380 | A reason made only of blanks trims to nothing and maps to `unknown`. |
| Reasons.DefaultReasonIsUnknown | src/Controller/ChargebeeWebhookController.php:347-381 | The default reason "Unknown" maps to `unknown`. |
| Reasons.FinancialConsiderationsIsCost | src/Controller/ChargebeeWebhookController.php:360 | "Financial Considerations" maps to `cost`. |
| Money.FormatAmountRoundTrip | src/Service/PlanManager.php:118 | The two-decimal string of an amount reads back to the same number of cents. |
| Money.FormatAmountInjective | src/Service/PlanManager.php:117-122 | Different amounts print differently, so the `!==` test on the stored string notices every change of amount. |
| Money.FormatAmountExample | src/Service/PlanManager.php:118 | 1999 cents print as "19.99". |
| Money.FormatAmount | src/Service/PlanManager.php:118 | The printed amount has at least four characters, ends in a point and two digits, and starts with a minus sign iff the amount is negative. |
| Dates.DateOfExample | src/Controller/ChargebeeWebhookController.php:121 | `date('Y-m-d', 1700000000)` in UTC is "2023-11-14". |
| Dates.DateOf | src/Controller/ChargebeeWebhookController.php:121 | The printed date has at least ten characters (a year of at least four digits, then month and day of at least two), all of them digits or dashes. |
| Plans.LoadPlanByIdentifier | src/Service/PlanManager.php:180-196 | Returns a term iff one has that plan id, and then it is that term. |
| Plans.Upserted | src/Service/PlanManager.php:77-130 | Returns no term iff the plan id is empty (`""` or `"0"`); a returned term is the one stored under that plan id. It saves nothing or that one term, changes nothing when it saves nothing, and never changes another plan's term. |
| Plans.UpsertPlan | src/Service/PlanManager.php:77-130 | The guarded field writes and the single conditional save change only the plan terms and the save log, exactly as `Upserted` says. The method returns `Upserted`'s term. |
| Plans.UpsertEmptyPlanId | src/Service/PlanManager.php:78-80 | An empty plan id returns no term and changes and saves nothing. |
| Plans.UpsertStoresNormalised | src/Service/PlanManager.php:82-123 | For a non-empty id and a stored term as storage hands it out (no empty string item), exactly that id gains or keeps a term and it is the term returned. No other term changes. Name, provider, currency (upper-cased) and amount (two decimals) hold the metadata where given, and keep their old values otherwise. A provider or currency given as `""` reads back as none after the save, because Drupal drops an empty item. The membership mapping is never written, and the term stays free of empty items. |
| Plans.UpsertSavesIffChanged | src/Service/PlanManager.php:84-127 | The term is saved exactly once when it was created or some normalised field differed, and not at all otherwise. |
| Plans.UpsertIdempotent | src/Service/PlanManager.php:77-130 | A second upsert with the same metadata leaves the same terms and returns the same term. It saves nothing unless the metadata gives `""` as provider or currency. |
| Plans.UpsertBlankResaves | src/Service/PlanManager.php:101-129 | With `""` as provider or currency, the `!==` test compares the stored empty value (NULL) with `""`, so every upsert of a non-empty id saves the term, the second as well as the first. |
| Plans.AssignMembershipTypeToUser | src/Service/PlanManager.php:135-175 | The guard chain changes the store exactly as `MembershipAssigned` says. |
| Plans.MembershipAssigned | src/Service/PlanManager.php:135-175 | Touches only profiles. It saves nothing, or the uid's main profile once. It changes nothing iff it saves nothing. When it saves, the only change is the profile's membership type, set to the plan's mapping. |
| Plans.MembershipAssignedWrites | src/Service/PlanManager.php:136-171 | Writes and saves the profile exactly once iff the plan maps to a non-zero id, the main profile exists and has the field, and its id differs as an integer. The write sets only the membership type. In every other case nothing changes. |
| Plans.MembershipAssignedIdempotent | src/Service/PlanManager.php:164-167 | A second application neither writes nor saves. |
| Webhook.Respond | src/Controller/ChargebeeWebhookController.php:69-206 | The status is 403, 400 or 200. It is 403 iff the token differs. It is 400 iff the token matches but the payload is empty, has no `event_type`, or has a missing or falsy customer id. Any non-200 reply changes and saves nothing. No request adds or drops a customer, an account or a profile. |
| Webhook.Listener | src/Controller/ChargebeeWebhookController.php:69-206 | The status returned and the whole change to the store, saves included, are those of `Respond`. |
| Webhook.EventHandled | src/Controller/ChargebeeWebhookController.php:102-204 | The dispatch never adds or drops a customer, an account or a profile. |
| Webhook.UserFlagsUpdated | src/Controller/ChargebeeWebhookController.php:490-572 | Touches only accounts. It never changes profiles or plan terms. |
| Webhook.UpdateUserFields | src/Controller/ChargebeeWebhookController.php:490-572 | Sets the given flags on the customer's account and saves it once if any flag was given. The result is `UserFlagsUpdated`. |
| Webhook.CancellationRecorded | src/Controller/ChargebeeWebhookController.php:212-230 | Touches only profiles. |
| Webhook.UpdateSubscriptionFields | src/Controller/ChargebeeWebhookController.php:212-230 | Writes the end date and the mapped reason to the main profile and saves it. The result is `CancellationRecorded`. |
| Webhook.MemberRoleRemoved | src/Controller/ChargebeeWebhookController.php:235-247 | Touches only accounts. |
| Webhook.RemoveMemberRole | src/Controller/ChargebeeWebhookController.php:235-247 | Removes a configured, held member role and saves the account. The result is `MemberRoleRemoved`. |
| Webhook.UserPauseCleared | src/Controller/ChargebeeWebhookController.php:249-255 | Works on the account object the caller holds, and touches only accounts. |
| Webhook.ClearUserPauseField | src/Controller/ChargebeeWebhookController.php:249-255 | When the held account object's pause flag is non-empty, sets it to 0 and saves that object over the stored account. The result is `UserPauseCleared`. |
| Webhook.CancellationCleared | src/Controller/ChargebeeWebhookController.php:288-344 | Never touches plan terms, and adds or drops no record. |
| Webhook.ClearCancellationFields | src/Controller/ChargebeeWebhookController.php:288-344 | Makes the guarded profile writes, adds the role and saves the account before it saves the profile, and saves the profile only if it was modified. The result is `CancellationCleared`. |
| Webhook.UserPlanUpdated | src/Controller/ChargebeeWebhookController.php:401-424 | Touches only accounts. An empty plan id is stored as none. |
| Webhook.UpdateUserPlan | src/Controller/ChargebeeWebhookController.php:401-424 | The result is `UserPlanUpdated`. |
| Webhook.MonthlyPaymentUpdated | src/Controller/ChargebeeWebhookController.php:427-448 | Touches only profiles. |
| Webhook.UpdateMonthlyPaymentField | src/Controller/ChargebeeWebhookController.php:427-448 | The result is `MonthlyPaymentUpdated`. |
| Webhook.SubscriptionCancelled | src/Controller/ChargebeeWebhookController.php:118-136 | Never touches plan terms. |
| Webhook.HandleCancellation | src/Controller/ChargebeeWebhookController.php:118-136 | Runs the three steps of the cancelled branch, in order. The result is `SubscriptionCancelled`. |
| Webhook.PaymentRegistered | src/Controller/ChargebeeWebhookController.php:141-166 | Never touches accounts. |
| Webhook.RegisterPayment | src/Controller/ChargebeeWebhookController.php:141-166 | Stores the monthly payment, then upserts the plan (skipped for an empty id). The result is `PaymentRegistered`, and the term is the upsert's term on the site before. |
| Webhook.PlanApplied | src/Controller/ChargebeeWebhookController.php:168-177 | Never touches plan terms. |
| Webhook.ApplyPlan | src/Controller/ChargebeeWebhookController.php:168-177 | The result is `PlanApplied`. |
| Webhook.SubscriptionRecorded | src/Controller/ChargebeeWebhookController.php:141-177 | Adds or drops no customer, account or profile. |
| Webhook.RecordSubscription | src/Controller/ChargebeeWebhookController.php:141-177 | The result is `SubscriptionRecorded`. |
| Webhook.ReactivationApplied | src/Controller/ChargebeeWebhookController.php:179-184 | Never touches plan terms. The pause flag is cleared on the account object loaded at :145, which is stale when `updateUserPlan` saved it. |
| Webhook.Reactivate | src/Controller/ChargebeeWebhookController.php:179-184 | Keeps the account as it stood before `clearCancellationFields` and clears the pause flag on that copy when it is detached. The result is `ReactivationApplied`. |
| Webhook.SubscriptionChanged | src/Controller/ChargebeeWebhookController.php:138-186 | Adds or drops no customer, account or profile. |
| Webhook.HandleSubscriptionChange | src/Controller/ChargebeeWebhookController.php:138-186 | The result is `SubscriptionChanged`. |
| WebhookProperties.UnknownEventAcknowledged | src/Controller/ChargebeeWebhookController.php:198-206 | A well-formed delivery with the right token and an unhandled event type gets 200 and changes and saves nothing. |
| WebhookProperties.FlagEvents | src/Controller/ChargebeeWebhookController.php:103-196 | `subscription_paused` sets the account's pause flag to 1. `_resumed` and `_scheduled_pause_removed` set it to 0. `payment_failed` and `payment_succeeded` set the payment-failed flag to 1 and 0. Exactly one account save happens and nothing else changes. An unknown customer is left alone. |
| WebhookProperties.CancellationOutcome | src/Controller/ChargebeeWebhookController.php:118-136 | For a known customer, the main profile (if any) gets the end date and the reason code and is saved. A set pause flag becomes 0. A configured, held member role is removed. Each account write is saved once and nothing else changes. |
| WebhookProperties.EndReasonInRange | src/Controller/ChargebeeWebhookController.php:122-126 | The recorded end reason is a table code or `unknown`. |
| WebhookProperties.MissingReasonIsUnknown | src/Controller/ChargebeeWebhookController.php:122 | A cancellation without a reason records `unknown`. |
| WebhookProperties.CancellationExample | src/Controller/ChargebeeWebhookController.php:118-136 | A term end of 1700000000 and the reason "Financial Considerations" record 2023-11-14 and `cost`. |
| WebhookProperties.PaymentRegisteredOutcome | src/Controller/ChargebeeWebhookController.php:141-166 | Monthly payment and plan upsert, field by field. |
| WebhookProperties.PlanAppliedOutcome | src/Controller/ChargebeeWebhookController.php:168-177 | The plan id goes on the account (if it has the field). The membership type goes on the profile only when both the term and the account exist. |
| WebhookProperties.RecordedOutcome | src/Controller/ChargebeeWebhookController.php:141-177 | For a known customer, the plan terms are those of the upsert with provider `chargebee`. The account holds the plan id. The profile holds the amount (when one came) and the plan's membership type. |
| WebhookProperties.UnknownCustomerOnlyUpserts | src/Controller/ChargebeeWebhookController.php:138-186 | For an unknown customer, the subscription events upsert the plan and touch no account and no profile. |
| WebhookProperties.NewPlanKeepsMembership | src/Service/PlanManager.php:86-94 | A plan seen for the first time has no mapping, so no membership type changes. |
| WebhookProperties.CancellationClearedOutcome | src/Controller/ChargebeeWebhookController.php:288-344 | End date and reason are cleared. The reactivation date is today. A set profile pause becomes 0. The role is added if missing. The saves are the role's account save, then the profile save if any field was written. |
| WebhookProperties.ReactivationOutcome | src/Controller/ChargebeeWebhookController.php:179-184 | The reactivation steps field by field, with and without a main profile. A detached account object with a set pause flag is saved back without the member role just added. Otherwise the role is added and a set flag becomes 0. |
| WebhookProperties.ReactivationRoleKept | src/Controller/ChargebeeWebhookController.php:145-184 | For `subscription_reactivated` with a main profile and a configured role: the account holds the role at the end iff it held it before, or its pause flag was empty, or it lacks the plan field. An account with the plan field that was ever paused or resumed loses the role `clearCancellationFields` gave it. |
| WebhookProperties.FlagEventConverges | src/Controller/ChargebeeWebhookController.php:490-572 | Redelivering a pause or payment event leaves the site as the first delivery left it. |
| WebhookProperties.CancellationConverges | src/Controller/ChargebeeWebhookController.php:118-136 | Redelivering `subscription_cancelled` changes nothing more. |
| WebhookProperties.RecordedConverges | src/Controller/ChargebeeWebhookController.php:141-177 | Recording the same subscription twice changes nothing more. |
| WebhookProperties.ReactivationConverges | src/Controller/ChargebeeWebhookController.php:179-184 | Repeating the reactivation steps on the same day, with the same account object state, changes nothing more. |
| WebhookProperties.RecordedAfterReactivation | src/Controller/ChargebeeWebhookController.php:141-184 | The reactivation writes none of the fields the recording writes, so recording again after it changes nothing. |
| WebhookProperties.SubscriptionChangeConverges | src/Controller/ChargebeeWebhookController.php:138-186 | Redelivering `subscription_created`, `_updated` or `_reactivated` changes nothing more. |
| WebhookProperties.RedeliveryConverges | src/Controller/ChargebeeWebhookController.php:102-204 | Any event delivered twice at the same time leaves the site as one delivery did. Only the saves repeat. |
| SyncCommand.SyncDecision | src/Commands/ChargebeeStatusSyncCommands.php:42-127 | Only `--apply` can lead to a write. A dry run, an applied change or "already set" imply a positive uid with an account and a main profile that has the membership field. |
| SyncCommand.SyncMembershipType | src/Commands/ChargebeeStatusSyncCommands.php:42-127 | The command's outcome is `SyncDecision`. The store changes only for `Applied`, by one profile write and one save. |
| SyncCommand.DryRunMirrorsApply | src/Commands/ChargebeeStatusSyncCommands.php:110-126 | Without `--apply` nothing is written. The dry run reports a change iff `--apply` would apply it, with the same target. Otherwise both runs end the same way. |
| SyncCommand.ApplyIsMembershipAssignment | src/Commands/ChargebeeStatusSyncCommands.php:71-118 | With `--apply` the command writes iff `assignMembershipTypeToUser` would write for the account's plan, and then it makes the same write. |
| SyncCommand.ApplyThenAlreadySet | src/Commands/ChargebeeStatusSyncCommands.php:98-118 | After an applied change, a second run reports the type as already set. |
| SyncCommand.EarlyGuardsIgnoreProfiles | src/Commands/ChargebeeStatusSyncCommands.php:46-81 | A uid that is not positive, an unknown user, a missing or blank plan id, an unknown plan or a plan without mapping each end the command the same way whatever the profiles are. None of them writes. |

## Left out

- Logging, log messages, the revision flags and revision log messages of profile saves, and the `notice`/`warning`/`error` choice. None of them affects any stored value.
- HTTP and JSON:
  - The request is the token and an already decoded payload (`None` when `json_decode` gives nothing usable).
  - The response is its status code.
  - Payload values of the wrong JSON type (a number as plan id, a string as amount) are not modelled.
- `hash_equals` is plain string equality. Its constant running time is not modelled.
- Float arithmetic. `plan_amount / 100` and `number_format` are modelled as exact printing of integer cents. PHP's float rounding of very large amounts is not modelled.
- The monthly payment field receives `plan_amount / 100` in the source. The model stores the same value as cents.
- The wall clock and time zones. The current time is a parameter `now`, and `date()` is computed for UTC.
- Dates.DateOf: only a concrete date is checked. That month and day always fall in range is not proved.
- Plans.UpsertStoresNormalised: stated for a stored term with no empty string item, which is all Drupal's storage hands out. A term that held one anyway would keep it when the metadata repeats the `""`.
- `hasField` checks:
  - The account and profile fields whose writes the code guards by `hasField` alone are modelled by a per-record flag. These are the plan field, the monthly-payment field, the reactivation-date field and the membership field.
  - Fields that are also tested for emptiness (the pause flags, the end date and reason) count as present, with an absent field reading as empty.
  - The plan term's provider, currency and amount fields count as present.
- Entities are values in maps. A handler makes one or more writes to a loaded entity and then saves it; the model makes the writes on a copy and stores the copy at the save. A load returns what the last save stored, as Drupal's entity cache does once it drops a saved entity. The one object held across another save of the same entity, the account loaded at the start of the subscription branch, is modelled explicitly. Concurrent requests are not modelled.
- `clearReactivationFields` and the end-date, cancel-reason and reactivated parameters of `updateUserFields` are not modelled. `listener` never passes them, so that code never runs.
- The settings form (token generation, role selection) is not part of this model. The configuration is a parameter.
- `getPlanTermForPlanId` and `getMembershipTypeTargetIdFromPlanTerm` are called by the command, but their bodies are not part of this model. They are modelled as the lookup of the term by plan id and the term's membership target id, an integer or none.
- The command's strict `===` between the current id and the helper's result is modelled as integer equality. If the helper returned a numeric string, the comparison would never hold in PHP, so the command would report or make a change on every run.
- The command's lookup of the target term's label is not modelled. It only affects the message.
- RedeliveryConverges: convergence is stated for a redelivery with the same `now`. A cancellation without `current_term_end`, or a reactivation, delivered on another day records that day's date.
