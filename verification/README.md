# Verification of the identity, bill-payment and admin service

Dafny models of the parts of `identity-billpay-admin-service` whose correctness spans several calls, tables and outside systems, with proofs over all inputs, runs and failures. `dafny verify dfyconfig.toml` checks the whole project.

* **Bill payment** (`BillingTables`, `PaymentService`, `CatalogSeeder`, `PaymentRuns`, `PaymentLedger`, `PaymentHistory`, `PaymentRaces`, `PaymentRaceLedger`, `PaymentOverlaps`, `PaymentRules`): idempotent payments against two billing tables, retry, re-seeding at start-up, and concurrent calls.
* **Registration** (`RegistrationSaga`, `RegistrationService`, `SagaRuns`, `SagaProgress`, `SagaCompletion`, `SagaPasscodes`, `SagaFailures`) and **one-time passcodes** (`OtpService`, `OtpRuns`): a resumable saga with compensation, and challenges with an attempt counter, a lock and an expiry.
* **Roles and employees** (`RbacConstants`, `ActorClaims`, `RoleNames`, `RbacTables`, `RolesService`, `RoleDelegations`, `EmployeesService`, `EmployeeAccess`, `EmployeeRuns`, `EmployeeAgreement`, `AdminUserRuns`): the role hierarchy and its delegations, the dual write to the local tables and the Keycloak realm, and the read model fed by its events.
* **Authorization rules** (`AuthorizationRules`, `RuleEdits`, `RuleHistory`) and the **audit outbox** (`ResilientClient`, `AuditOutbox`, `OutboxRuns`, `OutboxDeliveries`).
* **Reports** (`Reporting`, `ReportLaws`, `ColumnLetters`) and **mock tokens** (`BearerTokens`, `BearerLaws`).
* Shared: `Outcomes`, `Faults`, `Sequences`, `Sums`, `Texts`, `TextLaws`.

Services that change tables are classes whose methods follow the source step by step; each is proved equal to a specification function, and the theorems about runs are about those functions. What each operation promises is then stated again without them, on the fields of the request and the rows before and after (`PaymentRules`, `EmployeeAccess`, `RoleDelegations`, `SagaFailures`, `RuleEdits`, `OtpRuns.VerifyIsDecided`). Keycloak, the payment network and the audit service may answer anything. In the registration, employee, role, rule and outbox models every awaited call has a mode: it works, throws, takes effect but loses its reply, or crashes the call for good. A crashed call's final state is a state between two awaits, so a claim for all plans of failures is a claim about every await. Rows are identified by their position in their table.

## Where the code differs from its documentation or from what one would expect

* A passcode challenge is not compared with the attempt's mobile number (`SagaPasscodes.ForeignCodeVerifies`, `SagaPasscodes.OwnCodesIffNamed`).
* A retry of a payment, and two concurrent payments, can charge one bill twice (`PaymentLedger.RetryCanChargeTwice`, `PaymentOverlaps.RaceCanChargeTwice`); so can two payments when a bill number names another record than its pair (`PaymentLedger.DisagreementPaysTwice`).
* A create-credentials step that failed after Keycloak made the user cannot be retried (`SagaCompletion.RetryIsPossibleIffNoUserWasMade`).
* `createCredentials` and `registerDevice` return the promise of their last advance from inside `try` without awaiting it. Its rejection reaches the caller but not `catch`: nothing is recorded or compensated, and the new device stays live (`SagaProgress.RejectedAdvanceLeaksDevice`).
* A role change that is interrupted before its row is saved can lead to two managed roles (`EmployeeAgreement.InterruptedChangeLeavesTwoRoles`), and a demoted employee's admin_user row goes stale (`AdminUserRuns.RowIsCurrentIffPortalRole`).
* `assertCanAssignRole` reads the superadmin role from `realm_access` only, while the other checks fall back to `roles`; a superadmin may assign any role, also one at the superadmin's own level (`EmployeeAccess.HireIsPermitted`).
* The level of a role name that is not listed depends on its white space (`RoleNames.GapDecidesSuperAdmin`).
* A rule change and its history entry are two saves without a transaction (`RuleHistory.NumberedIffNothingTorn`), and so are an audit delivery and its SENT row (`OutboxDeliveries.DeliveredAgainIff`).
* Two report windows that meet count the transactions of the common instant twice, and a transaction or filter date that cannot be read restricts nothing (`ReportLaws.WindowsThatMeet`).

## Model

| member | source | states |
|---|---|---|
| `PaymentLedger.MoneyIsConserved` | backend/nestjs/identity-billpay-admin-service/src/modules/bill-payment/payment/payment.service.ts:138-203 | over any serial run of payments and retries, with any answers of the payment network and for every way of valuing a charge, collected minus settled changes by exactly what the retries charged again |
| `PaymentLedger.PaymentsSettleTheirBills` | backend/nestjs/identity-billpay-admin-service/src/modules/bill-payment/payment/payment.service.ts:138-215 | without retries the SUCCESS payments add up to the PAID bills, for every valuation, so bill by bill; nothing is assumed about how bills share numbers or pairs |
| `PaymentLedger.AtMostOnePaymentPlusRetries` | backend/nestjs/identity-billpay-admin-service/src/modules/bill-payment/payment/payment.service.ts:138-284 | where the lookups by number and by pair agree, a (biller, consumer) pair has at most one SUCCESS payment plus one per retry sent for it |
| `PaymentLedger.PaidOnceIffNumbersAgree` | backend/nestjs/identity-billpay-admin-service/src/modules/bill-payment/payment/payment.service.ts:44-75 | every run of payments charges every pair at most once, if and only if in the tables each bill number leads to the record its pair leads to |
| `PaymentLedger.DisagreementPaysTwice` | backend/nestjs/identity-billpay-admin-service/src/modules/bill-payment/payment/payment.service.ts:44-75 | two payments and no retry charge one pair twice as soon as a number names a record its pair does not lead to |
| `PaymentLedger.SurplusIsChargedAgain` | backend/nestjs/identity-billpay-admin-service/src/modules/bill-payment/payment/payment.service.ts:251-284 | where numbers and pairs agree, the SUCCESS payments beyond a pair's PAID bill are exactly the retries that succeeded after the bill was paid |
| `PaymentLedger.RetryCanChargeTwice` | backend/nestjs/identity-billpay-admin-service/src/modules/bill-payment/payment/payment.service.ts:251-284 | two keys and one retry leave two SUCCESS payments of one bill: a retry does not read the bill's status |
| `PaymentHistory.PaidExactlyWhenSuccess` | backend/nestjs/identity-billpay-admin-service/src/modules/bill-payment/payment/payment.service.ts:193-203 | over every run of payments, retries and re-seedings from unpaid tables, a pair has a PAID record in one of the two tables exactly when it has a SUCCESS payment |
| `PaymentHistory.PaidAndSuccessAreFinal` | backend/nestjs/identity-billpay-admin-service/src/modules/bill-payment/catalog/bbps-catalog.seeder.ts:55-98 | PAID bills and SUCCESS payments stay so through every later run, re-seeding included |
| `PaymentHistory.KeyReplaysItsPayment` | backend/nestjs/identity-billpay-admin-service/src/modules/bill-payment/payment/payment.service.ts:109-136 | a stored payment is found again by its key after any later run: the same request charges nothing, changes nothing and returns the same payment as a duplicate (always when the catalog was not re-seeded or the request has no bill number, otherwise exactly when the number still names the same charge); anyone else is told it does not exist |
| `PaymentHistory.ReplaySurvivesSeedingIff` | backend/nestjs/identity-billpay-admin-service/src/modules/bill-payment/catalog/bbps-catalog.seeder.ts:55-98 | after a re-seeding whose catalog names the paid bill (and leaves no number on two mock bills), a request by number is still the stored payment's exactly when the catalog gives the bill that number and the paid amount |
| `PaymentHistory.SeedingCanRefuseReplay` | backend/nestjs/identity-billpay-admin-service/src/modules/bill-payment/payment/payment.service.ts:227-249 | a re-seeding with a new amount turns the replay of a stored payment into a refusal |
| `PaymentHistory.KeysStayDistinct` | backend/nestjs/identity-billpay-admin-service/src/modules/bill-payment/payment/payment.service.ts:183-193 | no serial run stores two payments under one key |
| `PaymentHistory.DispatchesAreAccountedFor` | backend/nestjs/identity-billpay-admin-service/src/modules/bill-payment/payment/payment.service.ts:175-193 | requests sent to the payment network are exactly the stored payments, the retries sent, and the payment requests left unanswered |
| `PaymentService.Service.Create` | backend/nestjs/identity-billpay-admin-service/src/modules/bill-payment/payment/payment.service.ts:99-215 | the call with its reads and writes in order has the effect and reply of the specification the run theorems are about |
| `PaymentService.Service.PayViaBbps` | backend/nestjs/identity-billpay-admin-service/src/modules/bill-payment/payment/payment.service.ts:251-284 | likewise for a retry |
| `PaymentService.Service.FindBillingRecordByBillNumber` | backend/nestjs/identity-billpay-admin-service/src/modules/bill-payment/payment/payment.service.ts:44-58 | the first mock row with the number, else the first demo row; nothing exactly when neither table has one |
| `PaymentService.Service.IsSamePaymentRequest` | backend/nestjs/identity-billpay-admin-service/src/modules/bill-payment/payment/payment.service.ts:227-249 | decides whether the request names the charge that was stored, through the bill its number names today |
| `PaymentRuns.RunIsLocal` | backend/nestjs/identity-billpay-admin-service/src/modules/bill-payment/payment/payment.service.ts:193-203 | in a run without re-seeding only a bill's status ever changes: pairs, numbers and amounts stay |
| `PaymentRuns.NewPaymentOrigin` | backend/nestjs/identity-billpay-admin-service/src/modules/bill-payment/payment/payment.service.ts:138-193 | a new payment row comes from a request that passed all checks and carries the charge of the record it names |
| `PaymentRules.NewKeyIsDecided` | backend/nestjs/identity-billpay-admin-service/src/modules/bill-payment/payment/payment.service.ts:99-215 | a request with a new key, on the fields of the request and the rows: which of the five refusals it gets, in which order, with no table changed; otherwise the charge of the first row with its number or pair is sent, the answer stored with that charge, the key and the caller, and SUCCESS alone pays that bill |
| `PaymentRules.PaysIffOrdered` | backend/nestjs/identity-billpay-admin-service/src/modules/bill-payment/payment/payment.service.ts:138-181 | a request with a new key changes anything, and reaches the payment network, if and only if there is a caller, and it names an UNPAID bill and gives no other amount than the bill's |
| `PaymentRules.StoredKeyIsDecided` | backend/nestjs/identity-billpay-admin-service/src/modules/bill-payment/payment/payment.service.ts:109-136 | a request whose key is stored changes nothing: it is the stored row's receipt for its owner, or anyone when it has none, while it names the same charge, and otherwise a named refusal |
| `PaymentRules.ReceiptsAreTrue` | backend/nestjs/identity-billpay-admin-service/src/modules/bill-payment/payment/payment.service.ts:183-215 | a receipt for a new payment has the pair, amount, status and reference of the row just stored, and says SUCCESS exactly when the bill the request names is PAID afterwards |
| `PaymentRules.RetryIsDecided` | backend/nestjs/identity-billpay-admin-service/src/modules/bill-payment/payment/payment.service.ts:251-284 | a retry, on the row and the caller: who is refused with which error, with no table changed; otherwise the charge is sent again, the answer replaces status and reference, and SUCCESS pays the first bill of the pair |
| `PaymentRules.RetriesIff` | backend/nestjs/identity-billpay-admin-service/src/modules/bill-payment/common/bbps-access.util.ts:17-35 | a retry changes anything, and sends its charge, if and only if the payment exists, is not SUCCESS, and the caller is its owner or claims BANK_SUPER_ADMIN or BANK_ADMIN |
| `PaymentRules.EverySendingIsDue` | backend/nestjs/identity-billpay-admin-service/src/modules/bill-payment/payment/payment.service.ts:99-284 | whatever reaches the network in a serial run, with re-seedings, was at that moment an order under a new key or a permitted retry of an unsuccessful payment |
| `PaymentRules.EveryPaymentWasOrdered` | backend/nestjs/identity-billpay-admin-service/src/modules/bill-payment/payment/payment.service.ts:138-193 | every payment that a serial run adds carries the charge of an UNPAID bill that the request of its key and owner named, and no other amount than the one given |
| `PaymentRules.OnlyItsOwnerChangesAPayment` | backend/nestjs/identity-billpay-admin-service/src/modules/bill-payment/common/bbps-access.util.ts:21-35 | over any serial run a stored payment changes only if its owner or a bank administrator retried it |
| `PaymentRaces.RacesAreSafe` | backend/nestjs/identity-billpay-admin-service/src/modules/bill-payment/payment/payment.service.ts:109-203 | in every interleaving of any number of concurrent calls split at their awaits: one row per key, each row with the key, owner, charge and answer of a sending of its own, at most one sending per call, and a sending without a row got no answer, had an await rejected, or lost its key to another call |
| `PaymentRaces.RacesPayOnlyOnSuccess` | backend/nestjs/identity-billpay-admin-service/src/modules/bill-payment/payment/payment.service.ts:193-203 | in every interleaving a PAID bill has a SUCCESS payment |
| `PaymentRaces.AloneIsCreate` | backend/nestjs/identity-billpay-admin-service/src/modules/bill-payment/payment/payment.service.ts:99-215 | a call that runs through its awaits undisturbed has exactly the effect and the reply of the serial specification |
| `PaymentRules.EveryRaceSendingWasOrdered` | backend/nestjs/identity-billpay-admin-service/src/modules/bill-payment/payment/payment.service.ts:138-181 | in every interleaving, whatever reaches the network was ordered by its call at that moment: an UNPAID bill it names, and no other amount than the one it gives |
| `PaymentRules.EveryRacePaymentWasOrdered` | backend/nestjs/identity-billpay-admin-service/src/modules/bill-payment/payment/payment.service.ts:138-193 | in every interleaving each payment carries a charge that the request of its key and owner ordered |
| `PaymentRules.EveryRaceReceiptIsTrue` | backend/nestjs/identity-billpay-admin-service/src/modules/bill-payment/payment/payment.service.ts:109-215 | in every interleaving each receipt, new or replayed, has the charge, status and reference of the row stored under the request's key |
| `PaymentRaceLedger.RaceMoneyIsConserved` | backend/nestjs/identity-billpay-admin-service/src/modules/bill-payment/payment/payment.service.ts:138-203 | in every interleaving, rejected awaits included, and for every way of valuing a charge: collected is settled, plus what is owed by calls at, or rejected at, the save of their bill, plus the bills marked again |
| `PaymentRaceLedger.RaceSurplusIsStoredAgain` | backend/nestjs/identity-billpay-admin-service/src/modules/bill-payment/payment/payment.service.ts:175-203 | in every interleaving the SUCCESS payments of a pair are one for its PAID record or a call that owes it, plus the payments stored while there was one already; so the pair is charged at most once if and only if none was stored then |
| `PaymentRaceLedger.SuccessIffPaidOrOwed` | backend/nestjs/identity-billpay-admin-service/src/modules/bill-payment/payment/payment.service.ts:193-203 | in every interleaving a pair has a SUCCESS payment exactly when a record of it is PAID or a call is at, or was rejected at, the save of the bill |
| `PaymentOverlaps.NoOverlapsChargeOnce` | backend/nestjs/identity-billpay-admin-service/src/modules/bill-payment/payment/payment.service.ts:138-203 | where numbers and pairs agree, an interleaving charges a pair at most once if no call with a free key passes the UNPAID check while another call owes the bill or is about to store a payment of it under another key |
| `PaymentOverlaps.SecondChargeIsPossibleIffOverlap` | backend/nestjs/identity-billpay-admin-service/src/modules/bill-payment/payment/payment.service.ts:138-203 | and an action makes it possible that the payments under way charge the pair twice if and only if it is such a call |
| `PaymentOverlaps.RaceCanChargeTwice` | backend/nestjs/identity-billpay-admin-service/src/modules/bill-payment/payment/payment.service.ts:138-203 | in any unpaid tables, the bill that a number names can be charged twice by two concurrent calls under different keys, without a retry |
| `CatalogSeeder.BbpsCatalogSeeder.OnModuleInit` | backend/nestjs/identity-billpay-admin-service/src/modules/bill-payment/catalog/bbps-catalog.seeder.ts:23-32 | the loop over the catalog leaves both tables as the specification of the merge says |
| `CatalogSeeder.SeedKeeps` | backend/nestjs/identity-billpay-admin-service/src/modules/bill-payment/catalog/bbps-catalog.seeder.ts:55-98 | seeding keeps every row and every PAID status, pays nothing and leaves rows outside the catalog alone |
| `CatalogSeeder.SeedInstalls` | backend/nestjs/identity-billpay-admin-service/src/modules/bill-payment/catalog/bbps-catalog.seeder.ts:55-98 | after seeding every catalog pair has a row, with the catalog's number and amount |
| `OtpRuns.ComparisonsAreBounded` | backend/nestjs/identity-billpay-admin-service/src/modules/auth/otp/otp.service.ts:57-85 | with a clock that does not go back, one challenge never has more codes compared than the free tries plus one per lock period that fits into its life time, and none when the life time is negative |
| `OtpRuns.BoundIsAttained` | backend/nestjs/identity-billpay-admin-service/src/modules/auth/otp/otp.service.ts:57-85 | some run compares exactly that many, so the bound is exact |
| `OtpRuns.CapExistsIff` | backend/nestjs/identity-billpay-admin-service/src/modules/auth/otp/otp.service.ts:69-80 | some cap holds for all runs if and only if the lock setting is not negative or the life time is |
| `OtpRuns.ShortLivedChallengesAreCapped` | backend/nestjs/identity-billpay-admin-service/src/modules/auth/otp/otp.service.ts:36-85 | when the life time is no longer than the lock, as in the defaults, the configured maximum is the cap, or one when it is set below one |
| `OtpRuns.VerifiedIsDeleted` | backend/nestjs/identity-billpay-admin-service/src/modules/auth/otp/otp.service.ts:57-85 | a challenge verifies at most once in any run, and is deleted once it has |
| `OtpRuns.VerifyIsDecided` | backend/nestjs/identity-billpay-admin-service/src/modules/auth/otp/otp.service.ts:57-85 | the reply and the table on fields: which refusal a missing, locked, expired or wrongly answered challenge gets, what a wrong code counts, and that the right one deletes the challenge and returns its number |
| `OtpRuns.AcceptedNumberIsTheOneRequested` | backend/nestjs/identity-billpay-admin-service/src/modules/auth/otp/otp.service.ts:36-85 | after any run a code is accepted only if the challenge was made for just that code within its life time, and the number returned is the one it was made for |
| `OtpRuns.DeletedIsNeverAccepted` | backend/nestjs/identity-billpay-admin-service/src/modules/auth/otp/otp.service.ts:87-91 | a deleted challenge accepts no code in any later run, and deleting it changes no other |
| `OtpService.Service.Verify` | backend/nestjs/identity-billpay-admin-service/src/modules/auth/otp/otp.service.ts:57-85 | the stored challenges and the reply are those of the specification: lock, expiry, attempt count and deletion included |
| `SagaRuns.SagaIsSafe` | backend/nestjs/identity-billpay-admin-service/src/modules/auth/registration/registration.service.ts:55-156 | in every serial run, with a failure, a lost reply or a crash at any await: from KEYCLOAK_USER_CREATED on an attempt has a user named by its mobile number that holds RETAIL_CUSTOMER, no two attempts share a user or a device, and from DEVICE_REGISTERED on it has a device of that user |
| `SagaProgress.RunEvolves` | backend/nestjs/identity-billpay-admin-service/src/modules/auth/registration/registration-orchestrator.service.ts:78-97 | over any later run an attempt keeps its mobile number, its step never drops, and deleted attempts stay deleted |
| `SagaProgress.AdvanceIsOneStep` | backend/nestjs/identity-billpay-admin-service/src/modules/auth/registration/registration-orchestrator.service.ts:78-97 | an advance moves its attempt by exactly one step or by none |
| `SagaProgress.DeviceStepDevices` | backend/nestjs/identity-billpay-admin-service/src/modules/auth/registration/registration.service.ts:114-142 | the live devices after a device step, for every combination of failures: the new one if its insert took effect, without the one the compensation removed; the compensation runs only for the awaits before the advance, whose promise the `try` returns without awaiting it |
| `SagaProgress.FailedStepKeepsDevicesIff` | backend/nestjs/identity-billpay-admin-service/src/modules/auth/registration/registration.service.ts:122-141 | a device step that does not take its attempt forward leaves the live devices as they were if and only if it inserted none and undid none, or undid the one it inserted |
| `SagaProgress.RejectedAdvanceLeaksDevice` | backend/nestjs/identity-billpay-admin-service/src/modules/auth/registration/registration.service.ts:129-133 | a rejected advance is not compensated: its device stays live, and after a retry that works no attempt names it |
| `SagaProgress.DeviceStepKeepsLive` | backend/nestjs/identity-billpay-admin-service/src/modules/auth/registration/registration.service.ts:114-142 | a device step keeps every registered attempt's device live, whatever fails |
| `SagaProgress.RegisteredDevicesAreLive` | backend/nestjs/identity-billpay-admin-service/src/modules/auth/registration/registration-compensation.service.ts:24-78 | in every run, whatever fails or crashes, an attempt from DEVICE_REGISTERED on has a live device of its own user |
| `SagaFailures.CredentialsFailureIsRecorded` | backend/nestjs/identity-billpay-admin-service/src/modules/auth/registration/registration.service.ts:72-111 | a create-credentials call that gets to its `try`, for every plan: the recorded reason is the very error the `try` threw, when the find and the save of `fail` take effect, and what it was otherwise, also when only the returned advance is rejected; the caller gets that same error; which credential is taken back and which user is added |
| `SagaFailures.DeviceFailureIsRecorded` | backend/nestjs/identity-billpay-admin-service/src/modules/auth/registration/registration.service.ts:114-142 | the same of register-device, which touches no credential and no user |
| `SagaFailures.EveryReasonWasThrown` | backend/nestjs/identity-billpay-admin-service/src/modules/auth/registration/registration-orchestrator.service.ts:99-106 | after any run, with any failures, a recorded reason is the error that the `try` of one of the attempt's own calls threw |
| `SagaFailures.FailNotes` | backend/nestjs/identity-billpay-admin-service/src/modules/auth/registration/registration-orchestrator.service.ts:99-106 | `fail` records the reason when its find and save take effect, changes nothing else of any attempt, and compensates only after a save that works |
| `SagaFailures.RollbackUndoes` | backend/nestjs/identity-billpay-admin-service/src/modules/auth/registration/registration-compensation.service.ts:24-78 | row by row: CREDENTIALS_SET takes back the stored credential of the attempt's user, KEYCLOAK_USER_CREATED disables that user, DEVICE_REGISTERED deletes the attempt's device, no other row changes, and errors of the undo are swallowed |
| `SagaFailures.RollbackWithoutAttempt` | backend/nestjs/identity-billpay-admin-service/src/modules/auth/registration/registration-compensation.service.ts:24-31 | without an attempt nothing is undone |
| `SagaFailures.UnbegunKeepsReason` | backend/nestjs/identity-billpay-admin-service/src/modules/auth/registration/registration.service.ts:72-86 | a create-credentials call whose start is refused keeps the recorded reason and throws that refusal |
| `SagaFailures.OtherStepsAreTurnedAway` | backend/nestjs/identity-billpay-admin-service/src/modules/auth/registration/registration.service.ts:46-53 | each step called for a missing attempt or at any other step changes nothing, no passcode either, and is refused by name |
| `SagaFailures.VerifyStepIsDecided` | backend/nestjs/identity-billpay-admin-service/src/modules/auth/registration/registration.service.ts:55-62 | the passcode step for every plan: what happens to the challenge and when the attempt advances, and the error otherwise |
| `SagaFailures.OuterSteps` | backend/nestjs/identity-billpay-admin-service/src/modules/auth/registration/registration.service.ts:145-156 | a new attempt has nothing recorded, completing only advances, and an attempt is resumed exactly while it exists |
| `SagaCompletion.FollowAdvances` | backend/nestjs/identity-billpay-admin-service/src/modules/auth/registration/registration-orchestrator.service.ts:58-76 | following the next action of `resume` brings an unfinished attempt strictly closer to completion |
| `SagaCompletion.FollowingFinishesIffUsernameFree` | backend/nestjs/identity-billpay-admin-service/src/modules/auth/registration/registration-orchestrator.service.ts:23-76 | from any reachable state, following `resume` for four actions or more completes an attempt if and only if it has its user or nobody holds its mobile number as a username, and passcodes do not expire at once if it still needs one |
| `SagaCompletion.StuckForever` | backend/nestjs/identity-billpay-admin-service/src/modules/auth/registration/registration.service.ts:72-111 | once the mobile number of an attempt that still needs a user is taken, no later run completes the attempt |
| `SagaCompletion.RetryIsPossibleIffNoUserWasMade` | backend/nestjs/identity-billpay-admin-service/src/modules/auth/registration/registration.service.ts:72-111 | a create-credentials call, first or repeated, that leaves its attempt short of KEYCLOAK_USER_CREATED can be retried with success if and only if Keycloak did not create the user |
| `SagaPasscodes.OnePasscodePerAttempt` | backend/nestjs/identity-billpay-admin-service/src/modules/auth/registration/registration.service.ts:55-62 | attempts past INIT correspond one to one to consumed challenges, so there are no more of them than verified passcodes |
| `SagaPasscodes.OwnCodesIffNamed` | backend/nestjs/identity-billpay-admin-service/src/modules/auth/registration/registration.service.ts:55-62 | in every run the attempts past INIT are all proven by challenges sent to their own numbers if and only if every verify call that took one there named such a challenge |
| `SagaPasscodes.ForeignCodeVerifies` | backend/nestjs/identity-billpay-admin-service/src/modules/auth/registration/registration.service.ts:55-62 | for any two numbers there is a run in which a passcode sent to the one verifies an attempt of the other |
| `SagaPasscodes.VerifyIgnoresTheNumber` | backend/nestjs/identity-billpay-admin-service/src/modules/auth/registration/registration.service.ts:55-62 | whatever number a challenge was sent to, the same verify call takes the same attempt past INIT or not |
| `RegistrationService.Service.CreateCredentials` | backend/nestjs/identity-billpay-admin-service/src/modules/auth/registration/registration.service.ts:72-111 | the awaits of the `try`, their compensation and the advance returned un-awaited have the effect and exit of the specification, for every plan of failures |
| `RegistrationService.Service.RegisterDevice` | backend/nestjs/identity-billpay-admin-service/src/modules/auth/registration/registration.service.ts:114-142 | likewise |
| `RegistrationService.Service.VerifyOtp` | backend/nestjs/identity-billpay-admin-service/src/modules/auth/registration/registration.service.ts:55-62 | likewise |
| `RegistrationService.Service.Complete` | backend/nestjs/identity-billpay-admin-service/src/modules/auth/registration/registration.service.ts:145-156 | likewise |
| `RegistrationService.Orchestrator.Advance` | backend/nestjs/identity-billpay-admin-service/src/modules/auth/registration/registration-orchestrator.service.ts:78-97 | likewise, refusing a step that is not the next |
| `RegistrationService.Orchestrator.Fail` | backend/nestjs/identity-billpay-admin-service/src/modules/auth/registration/registration-orchestrator.service.ts:99-106 | likewise |
| `RegistrationService.Compensation.Rollback` | backend/nestjs/identity-billpay-admin-service/src/modules/auth/registration/registration-compensation.service.ts:24-78 | likewise: the undo of the step at which the attempt failed, swallowing its errors |
| `EmployeeRuns.HierarchyIsOutOfReach` | backend/nestjs/identity-billpay-admin-service/src/modules/rbac/services/employees.service.ts:33-167 | over any run of hires and role changes by actors who are no superadmin and at most at a level, with any delegations and failures, the assignments of roles at or above that level are the same rows, unchanged |
| `EmployeeRuns.ReassignsBelowActor` | backend/nestjs/identity-billpay-admin-service/src/modules/rbac/constants/rbac.constants.ts:160-178 | a role change that is not refused is between two roles below the actor's level |
| `EmployeeAccess.HireIsPermitted` | backend/nestjs/identity-billpay-admin-service/src/modules/rbac/services/employees.service.ts:33-46 | a hire changes nothing, whatever fails, unless the caller manages employees, the role is active and delegated to the caller (or the caller is a superadmin in `realm_access`), the caller is above the role and the username is free; and which error it gets |
| `EmployeeAccess.ChangeIsPermitted` | backend/nestjs/identity-billpay-admin-service/src/modules/rbac/services/employees.service.ts:119-143 | the same of a role change, which also needs an active employee, whose role is below the caller and another one |
| `EmployeeAccess.HireWritesInOrder` | backend/nestjs/identity-billpay-admin-service/src/modules/rbac/services/employees.service.ts:48-117 | for every plan of failures, exactly how many of a permitted hire's five writes are done, in order and with the request's fields, and how the call is left |
| `EmployeeAccess.ChangeWritesInOrder` | backend/nestjs/identity-billpay-admin-service/src/modules/rbac/services/employees.service.ts:145-206 | the same of a permitted role change's four writes |
| `EmployeeAccess.EveryAssignmentWasPermitted` | backend/nestjs/identity-billpay-admin-service/src/modules/rbac/services/roles.service.ts:165-193 | after any run, with any failures, each assignment was there before or was given by an actor who at that moment managed employees, was above the role and had it, active, delegated or was a superadmin in `realm_access` |
| `EmployeeAccess.EveryGrantWasPermitted` | backend/nestjs/identity-billpay-admin-service/src/modules/rbac/services/employees.service.ts:48-167 | the same of every role a user holds in the realm |
| `EmployeeAccess.EveryAnnouncementWasPermitted` | backend/nestjs/identity-billpay-admin-service/src/modules/rbac/services/employees.service.ts:80-95 | the same of every account event published |
| `EmployeeAccess.UndelegatedGivesNothing` | backend/nestjs/identity-billpay-admin-service/src/modules/rbac/services/roles.service.ts:174-190 | an actor who is no superadmin in `realm_access` and has no delegation during a run gives no role in it |
| `EmployeeAgreement.StoresAgree` | backend/nestjs/identity-billpay-admin-service/src/modules/rbac/services/employees.service.ts:48-167 | after every failure-free run each employee has exactly one assignment and Keycloak grants the employee's user exactly that managed role |
| `EmployeeAgreement.OneRoleAtEveryAwait` | backend/nestjs/identity-billpay-admin-service/src/modules/rbac/services/employees.service.ts:132-167 | at every await of an operation started in agreement, no user holds two managed roles |
| `EmployeeAgreement.NobodyIsMakerAndChecker` | backend/nestjs/identity-billpay-admin-service/src/modules/rbac/services/roles.service.ts:154-163 | after a failure-free run, and wherever the next operation stops, no user holds a MAKER and a CHECKER role, although the check itself only ever sees one role |
| `EmployeeAgreement.ChangeRepairsIff` | backend/nestjs/identity-billpay-admin-service/src/modules/rbac/services/employees.service.ts:132-167 | a completed role change leaves one managed role if and only if the user held none but the assigned and the new one |
| `EmployeeAgreement.InterruptedChangeLeavesTwoRoles` | backend/nestjs/identity-billpay-admin-service/src/modules/rbac/services/employees.service.ts:132-167 | a role change cut off before its row is saved, followed by another, leaves the user with both new roles |
| `EmployeesService.Service.Create` | backend/nestjs/identity-billpay-admin-service/src/modules/rbac/services/employees.service.ts:33-117 | checks, Keycloak calls, saves and the published event in order, with a failure at any await, as in the specification |
| `EmployeesService.Service.UpdateRole` | backend/nestjs/identity-billpay-admin-service/src/modules/rbac/services/employees.service.ts:119-206 | likewise |
| `RolesService.Service.Create` | backend/nestjs/identity-billpay-admin-service/src/modules/rbac/services/roles.service.ts:32-60 | likewise for a new role and its delegations |
| `RolesService.Service.Update` | backend/nestjs/identity-billpay-admin-service/src/modules/rbac/services/roles.service.ts:62-90 | likewise |
| `RolesService.DelegatesMayAssign` | backend/nestjs/identity-billpay-admin-service/src/modules/rbac/services/roles.service.ts:62-90 | a role update that names delegates goes through exactly when none is named twice, and then exactly superadmins and the named delegates may assign the role while it is active; who may assign another role is unchanged |
| `RoleDelegations.NewRoleIsWritten` | backend/nestjs/identity-billpay-admin-service/src/modules/rbac/services/roles.service.ts:32-60 | for every plan of failures, what a new role leaves in the realm, the table and the delegations, and how the call is left |
| `RoleDelegations.RoleUpdateIsWritten` | backend/nestjs/identity-billpay-admin-service/src/modules/rbac/services/roles.service.ts:62-90 | the same of a role update, of which only the activity and the delegations of that role change |
| `RoleDelegations.DelegatesOfANewRole` | backend/nestjs/identity-billpay-admin-service/src/modules/rbac/services/roles.service.ts:195-212 | a new role goes through exactly when no delegate is named twice, and then exactly superadmins of `realm_access` and the named delegates may be given it to assign; nobody's right to another role changes |
| `RoleDelegations.DelegationsAlwaysNameRoles` | backend/nestjs/identity-billpay-admin-service/src/modules/rbac/services/roles.service.ts:195-212 | over any run, with any failures, delegations are only of roles that exist |
| `ActorClaims.ChecksAreByClaims` | backend/nestjs/identity-billpay-admin-service/src/modules/rbac/constants/rbac.constants.ts:99-125 | each check is decided by the claimed roles, those of `realm_access` when it has any: superadmin, employee manager, bank reader, and above a role |
| `ActorClaims.ListedRolesAreOrdered` | backend/nestjs/identity-billpay-admin-service/src/modules/rbac/constants/rbac.constants.ts:64-76 | the strict order of the listed roles, and that every other name lies between its ends |
| `ActorClaims.WhoMayGiveWhat` | backend/nestjs/identity-billpay-admin-service/src/modules/rbac/constants/rbac.constants.ts:160-178 | what a bank administrator, a bank maker and a customer may and may not give |
| `RoleNames.SpellingHasListedLevel` | backend/nestjs/identity-billpay-admin-service/src/modules/rbac/constants/rbac.constants.ts:127-137 | a name that is listed but for letter case and white space has the level of the listed one |
| `RoleNames.UnlistedLevel` | backend/nestjs/identity-billpay-admin-service/src/modules/rbac/constants/rbac.constants.ts:139-149 | any other name has the level of the highest listed role its letters speak of, or the lowest |
| `RoleNames.GapDecidesSuperAdmin` | backend/nestjs/identity-billpay-admin-service/src/modules/rbac/constants/rbac.constants.ts:133-141 | two words that make a superadmin with one space between them make nobody with two: for such names spelling does decide the level |
| `RbacConstants.HighestLevel` | backend/nestjs/identity-billpay-admin-service/src/modules/rbac/constants/rbac.constants.ts:152-158 | the level is that of one of the names and no name has a higher one |
| `RbacConstants.ResolveRoleHierarchyLevel` | backend/nestjs/identity-billpay-admin-service/src/modules/rbac/constants/rbac.constants.ts:127-150 | every role name has a level between the default and the superadmin level |
| `AdminUserRuns.ReadModelIsLastWriteWins` | backend/nestjs/identity-billpay-admin-service/src/modules/admin/admin-user/admin-user-sync.listener.ts:33-57 | over every run, whatever fails, the table holds one row per user with an admin-portal event, the last such event, and no other row |
| `AdminUserRuns.RowIsCurrentIffPortalRole` | backend/nestjs/identity-billpay-admin-service/src/modules/rbac/services/employees.service.ts:80-95 | in failure-free runs an employee has a row equal to the present data if and only if the present role is an admin-portal role: a demotion leaves a stale row |
| `RbacTables.AdminUserSyncListener.Handle` | backend/nestjs/identity-billpay-admin-service/src/modules/admin/admin-user/admin-user-sync.listener.ts:33-57 | the upsert of one event, as in the specification the run theorem is about |
| `RuleHistory.NumberedIffNothingTorn` | backend/nestjs/identity-billpay-admin-service/src/modules/admin/authorization-rules/authorization-rules.service.ts:41-120 | after any run, with any failures, every rule's history versions are exactly 1..n, with n the live version (one more once deactivated), if and only if no operation wrote one of its two rows without the other; a later operation never repairs it |
| `RuleHistory.HistoryTellsEveryMoment` | backend/nestjs/identity-billpay-admin-service/src/modules/admin/authorization-rules/authorization-rules.service.ts:41-120 | in such a run, whatever version a rule had at any earlier moment, the history entry of that number tells its name, cif and threshold at that moment |
| `RuleHistory.RunContinues` | backend/nestjs/identity-billpay-admin-service/src/modules/admin/authorization-rules/authorization-rules.service.ts:66-120 | over any later run a rule's cif and creator are fixed, its version never drops, its history only grows, and after deactivation neither changes |
| `RuleHistory.MoveNumberedIff` | backend/nestjs/identity-billpay-admin-service/src/modules/admin/authorization-rules/authorization-rules.service.ts:66-120 | one change keeps a rule's numbering exactly when it was there before and the change is not torn |
| `RuleEdits.EditWrites` | backend/nestjs/identity-billpay-admin-service/src/modules/admin/authorization-rules/authorization-rules.service.ts:66-98 | an update starts only for a superadmin and a stored rule; name and threshold become the request's where it gives them and stay where it does not, the version grows by one, the actor is the last editor, and the entry after it tells just that rule, the request's reason and the actor; for every plan of failures |
| `RuleEdits.MakeWrites` | backend/nestjs/identity-billpay-admin-service/src/modules/admin/authorization-rules/authorization-rules.service.ts:41-64 | a creation is a superadmin's, and stores the rule as requested, at version 1, and then its entry |
| `RuleEdits.RetireWrites` | backend/nestjs/identity-billpay-admin-service/src/modules/admin/authorization-rules/authorization-rules.service.ts:100-120 | a deactivation is a superadmin's, and adds its entry, numbered past the rule, and then deletes the rule |
| `RuleEdits.LastSetWins` | backend/nestjs/identity-billpay-admin-service/src/modules/admin/authorization-rules/authorization-rules.service.ts:66-98 | after any run, with any failures, a rule's name and threshold are those of the last saved update that gave one, or else of its creation, and its last editor is the author of the last saved update |
| `RuleEdits.EveryEntryHasItsAuthor` | backend/nestjs/identity-billpay-admin-service/src/modules/admin/authorization-rules/authorization-rules.service.ts:41-120 | every history entry was written by a superadmin's event about its rule, in that actor's name and with that reason |
| `AuthorizationRules.Service.Create` | backend/nestjs/identity-billpay-admin-service/src/modules/admin/authorization-rules/authorization-rules.service.ts:41-64 | the rule row, then its first entry, with a failure at either save, as in the specification |
| `AuthorizationRules.Service.Update` | backend/nestjs/identity-billpay-admin-service/src/modules/admin/authorization-rules/authorization-rules.service.ts:66-98 | likewise for a change |
| `AuthorizationRules.Service.Deactivate` | backend/nestjs/identity-billpay-admin-service/src/modules/admin/authorization-rules/authorization-rules.service.ts:100-120 | likewise for a deactivation |
| `OutboxRuns.ReliableRunsAreExact` | backend/nestjs/identity-billpay-admin-service/src/clients/audit-outbox/audit-outbox-relay.job.ts:21-44 | with saves that work, whatever the audit service answers: attempts are the failed relays and at most five, SENT means exactly one successful relay, FAILED exactly five failures, and a row causes at most fifteen posts |
| `OutboxRuns.RowsAreSound` | backend/nestjs/identity-billpay-admin-service/src/clients/audit-outbox/audit-outbox-relay.job.ts:21-44 | with any failures: attempts stay at most five, FAILED comes with the fifth and only then, and nothing is SENT that was not delivered |
| `OutboxRuns.TerminalRowsStay` | backend/nestjs/identity-billpay-admin-service/src/clients/audit-outbox/audit-outbox-relay.job.ts:21-44 | SENT and FAILED rows are never relayed or changed again |
| `OutboxRuns.FiveTicksSettle` | backend/nestjs/identity-billpay-admin-service/src/clients/audit-outbox/audit-outbox-relay.job.ts:21-44 | whatever happened before, every row leaves PENDING within five ticks whose loops no error leaves, that is, in which whatever is not saved as SENT is saved as a failure |
| `OutboxRuns.AcknowledgedRowsAreDeliveredOnce` | backend/nestjs/identity-billpay-admin-service/src/clients/audit-outbox/audit-outbox-relay.job.ts:30-43 | with saves that work and no timeout that hides a delivery, a row is delivered exactly once if it is SENT and never otherwise |
| `OutboxDeliveries.DeliveredAgainIff` | backend/nestjs/identity-billpay-admin-service/src/clients/audit-outbox/audit-outbox-relay.job.ts:30-43 | over any run, whatever fails or crashes, a row is delivered more than once if and only if some event delivers it and leaves it pending, and a later one delivers it again |
| `OutboxDeliveries.ForgetsIffPending` | backend/nestjs/identity-billpay-admin-service/src/clients/audit-outbox/audit-outbox-relay.job.ts:31-42 | which deliveries leave a row pending: decided by the timeout, the saves of SENT and of the failure, and the attempts so far |
| `OutboxDeliveries.WaysToForget` | backend/nestjs/identity-billpay-admin-service/src/clients/audit-outbox/audit-outbox-relay.job.ts:31-42 | a timeout, a rejected SENT save, one that loses its reply, and a crash before it all do |
| `OutboxDeliveries.LostSaveDeliversAgain` | backend/nestjs/identity-billpay-admin-service/src/clients/audit-outbox/audit-outbox-relay.job.ts:31-43 | after any delivery that leaves a pending row pending, a next tick can deliver it again |
| `OutboxDeliveries.SentOnceIff` | backend/nestjs/identity-billpay-admin-service/src/clients/audit-outbox/audit-outbox-relay.job.ts:30-43 | a SENT row was delivered exactly once unless the run delivered it again |
| `OutboxRuns.TickRelaysReached` | backend/nestjs/identity-billpay-admin-service/src/clients/audit-outbox/audit-outbox-relay.job.ts:30-43 | a tick relays exactly the pending rows it reaches before an error leaves its loop |
| `OutboxRuns.WhatWasAddedIsPosted` | backend/nestjs/identity-billpay-admin-service/src/clients/audit.client.ts:24-30 | in every run, whatever fails or crashes, a row keeps the event type and the payload it was added with, and every relay of it posts just those |
| `OutboxRuns.PostsUntilAnswered` | backend/nestjs/identity-billpay-admin-service/src/common/resilience/resilient-http-client.factory.ts:26-45 | a relay that is let through posts until the first success, three times at most, and has delivered exactly if there was one |
| `AuditOutbox.AuditOutboxRelayJob.Handle` | backend/nestjs/identity-billpay-admin-service/src/clients/audit-outbox/audit-outbox-relay.job.ts:21-44 | the loop over the pending rows, with any failure of a relay or a save, as in the specification of a tick |
| `AuditOutbox.AuditClient.Relay` | backend/nestjs/identity-billpay-admin-service/src/clients/audit.client.ts:24-30 | one relay of a row: the posts of the retry loop, and success only if it is reported in time |
| `ResilientClient.WithRetries` | backend/nestjs/identity-billpay-admin-service/src/common/resilience/resilient-http-client.factory.ts:26-45 | the result is the first success or the last error after all retries; the number of calls; and sleeps that add up to 100 * (2^(calls - 1) - 1) ms |
| `ReportLaws.ReportsAgree` | backend/nestjs/identity-billpay-admin-service/src/modules/admin/reporting/reporting.service.ts:88-121 | for the same filters the branch rows, the channel rows and credit plus debit give one sum, and the rows and the three status counts one number |
| `ReportLaws.GroupsPartition` | backend/nestjs/identity-billpay-admin-service/src/modules/admin/reporting/reporting.service.ts:160-232 | grouped by any key, the rows count every transaction and every amount exactly once |
| `ReportLaws.ReorderingPermutesRows` | backend/nestjs/identity-billpay-admin-service/src/modules/admin/reporting/reporting.service.ts:160-232 | reordering the transactions permutes the rows and changes nothing in them |
| `ReportLaws.RowsInOrderOfOccurrence` | backend/nestjs/identity-billpay-admin-service/src/modules/admin/reporting/reporting.service.ts:182-187 | rows come in the order in which their keys first occur |
| `ReportLaws.StatusFilterCounts` | backend/nestjs/identity-billpay-admin-service/src/modules/admin/reporting/reporting.service.ts:48-53 | a status count of the daily summary is the length of the report filtered by that status, in any letter case |
| `ReportLaws.KindFilterTotals` | backend/nestjs/identity-billpay-admin-service/src/modules/admin/reporting/reporting.service.ts:103-109 | the credit and debit totals are the sums of the reports filtered by that transaction type |
| `ReportLaws.WindowsThatMeet` | backend/nestjs/identity-billpay-admin-service/src/modules/admin/reporting/reporting.service.ts:17-32 | two date windows that meet at an instant count exactly the transactions of that instant, and the undated ones, twice |
| `ReportLaws.HighValueIsFiltered` | backend/nestjs/identity-billpay-admin-service/src/modules/admin/reporting/reporting.service.ts:138-157 | with a minimum amount the high-value report is exactly the filtered list |
| `ReportLaws.HighValueByDefault` | backend/nestjs/identity-billpay-admin-service/src/modules/admin/reporting/reporting.service.ts:138-157 | without a minimum amount it is the report filtered by fifty thousand rupees |
| `ReportLaws.TextFilterSelects` | backend/nestjs/identity-billpay-admin-service/src/modules/admin/reporting/reporting.service.ts:34-68 | a report filtered by sender, branch or channel is exactly the transactions with that text, in any letter case, in their order |
| `ReportLaws.AmountFiltersSelect` | backend/nestjs/identity-billpay-admin-service/src/modules/admin/reporting/reporting.service.ts:70-82 | a report filtered by amounts is exactly the transactions in the range, its ends included |
| `ReportLaws.FilterKeepsExactly` | backend/nestjs/identity-billpay-admin-service/src/modules/admin/reporting/reporting.service.ts:12-86 | filtering distributes over the list, keeps or drops each transaction by itself, and loses and repeats none |
| `Reporting.ReportingService.Group` | backend/nestjs/identity-billpay-admin-service/src/modules/admin/reporting/reporting.service.ts:163-187 | the loop over an insertion-ordered map gives, for each key in first-seen order, the count and the sum of its transactions |
| `Reporting.ReportingService.BranchWise` | backend/nestjs/identity-billpay-admin-service/src/modules/admin/reporting/reporting.service.ts:160-195 | the endpoint's rows are those of the filtered transactions grouped by branch |
| `Reporting.ReportingService.ChannelWise` | backend/nestjs/identity-billpay-admin-service/src/modules/admin/reporting/reporting.service.ts:197-232 | likewise by channel |
| `ColumnLetters.GetColumnLetter` | backend/nestjs/identity-billpay-admin-service/src/modules/admin/reporting/exporters/report-export.service.ts:245-256 | the loop ends with the name of the column: letters A to Z that decode to it, none exactly for columns below 1 |
| `ColumnLetters.NamesAreOneToOne` | backend/nestjs/identity-billpay-admin-service/src/modules/admin/reporting/exporters/report-export.service.ts:245-256 | two columns have the same name only if they are the same, and numeric order is length-then-alphabet order |
| `ColumnLetters.EveryNameNamesAColumn` | backend/nestjs/identity-billpay-admin-service/src/modules/admin/reporting/exporters/report-export.service.ts:245-256 | every nonempty name is the name of exactly one column |
| `BearerLaws.TokenRoundTripIff` | backend/nestjs/identity-billpay-admin-service/src/modules/auth/keycloak/mock-users.const.ts:59-71 | a token the login issued, behind any number of `Bearer` prefixes in any case and spacing, is accepted as the same user if and only if the user name is not empty and has no line break; otherwise no user is found |
| `BearerLaws.FindsEveryUser` | backend/nestjs/identity-billpay-admin-service/src/modules/auth/keycloak/mock-users.const.ts:59-61 | with distinct user names each user is the one found by name |
| `BearerLaws.LoginIff` | backend/nestjs/identity-billpay-admin-service/src/modules/auth/keycloak/keycloak.service.ts:60-73 | with distinct user names a login gives the name's token if and only if a user has that name and that password, and is Unauthorized otherwise |
| `BearerLaws.LoginAttachesTheUser` | backend/nestjs/identity-billpay-admin-service/src/common/guards/keycloak-auth.guard.ts:27-41 | who logged in as a user is let through with exactly that user's sub, name and roles attached |
| `BearerLaws.OnlyPrintedTokensParse` | backend/nestjs/identity-billpay-admin-service/src/modules/auth/keycloak/mock-users.const.ts:63-71 | no token other than the printed one parses to a user name |
| `BearerLaws.OnePrefixIsLeft` | backend/nestjs/identity-billpay-admin-service/src/common/middleware/normalize-bearer.middleware.ts:18-25 | however many prefixes a header has, exactly one is left before the same token (header form of section 2.1 of RFC 6750) |
| `BearerLaws.NormalizingIsIdempotent` | backend/nestjs/identity-billpay-admin-service/src/common/middleware/normalize-bearer.middleware.ts:8-28 | normalising twice is normalising once, for every header |
| `BearerLaws.NormalizingKeepsAcceptance` | backend/nestjs/identity-billpay-admin-service/src/common/guards/keycloak-auth.guard.ts:27-41 | what the guard accepts without the middleware it accepts, as the same user, behind it |
| `BearerTokens.NormalizeBearer` | backend/nestjs/identity-billpay-admin-service/src/common/middleware/normalize-bearer.middleware.ts:8-28 | the loop terminates and writes the normalised header |
| `BearerTokens.CanActivate` | backend/nestjs/identity-billpay-admin-service/src/common/guards/keycloak-auth.guard.ts:20-49 | attaches exactly the user of the token, and refuses only a protected route without one |

## Left out

- PaymentService.Service.Create: amounts are whole paise and a request's amount is a number of paise or unreadable; other columns of bills and payments, and the bill number in a reply, are not modelled.
- PaymentHistory.PaidExactlyWhenSuccess: the serial payment calls have no failing save; a rejected save of the payment or of the bill is part of the concurrent model (`PaymentRaceLedger.SuccessIffPaidOrOwed`), and a save whose reply is lost is in neither.
- EmployeeAgreement.StoresAgree: `updateRole` saves an assignment loaded together with its role after changing `roleId` only; the model takes the new `roleId` as the value stored, which is for TypeORM to decide.
- RbacConstants.ResolveRoleHierarchyLevel: states the range only; the levels are stated in `ActorClaims` and `RoleNames`. That all spellings of a name get one level is false for names that are not listed (`RoleNames.GapDecidesSuperAdmin`), whose patterns read the raw name. Role names that are members of every JavaScript object are not modelled.
- OtpRuns.ComparisonsAreBounded: times are exact milliseconds; a coarser timestamp column or a setting that is not a number is not modelled.
- RegistrationService.Service.VerifyOtp: codes are compared by their stored hash; the hash itself is not modelled.
- AuditOutbox.AuditClient.Relay: when the circuit breaker opens is not modelled; each relay may find it open, closed or timing out.
- AdminUserRuns.ReadModelIsLastWriteWins: the listener handles each event before the next call, and its own lookup and save work; a failing or overtaken handler is not modelled.
- ReportLaws.ReportsAgree: amounts are whole paise, so the default high-value limit is 5000000; floating-point sums are not modelled.
- BearerLaws.TokenRoundTripIff: letters outside ASCII have no case here; no such letter folds into the word the header is matched against.
- Concurrency of registration, retry, re-seeding, rule, role and employee calls and of overlapping outbox ticks: the claims there are for calls run one at a time, since the code saves whole rows it read before.
- Which row `findOne` returns among several that match: here the first in storage order.
- The requests inside one Keycloak operation (token, lookup, change) are one await, except that a user exists before its password is set.
- Device and user administration outside the registration saga, and changes of employees other than their role.
- Billers, bill schedules, credentials, corporate hierarchy, permissions of roles, templates, notifications: single-branch operations whose properties can be read off one body.
- Employee codes, display names and descriptions; the permission mapping of roles; who may read rules, employees or payments.
- The order of a rule's history as the database returns it.
- CSV, Excel and PDF output around the column letters.
- Controllers, validation of request bodies, configuration, migrations and HTTP.
