# Gym management front end — a Dafny model

This project models the logic of a small gym management web front end. Staff
sign in with a username and password checked against a `users` table. A route
guard admits them by role. They then use these screens:

- a fee list with a search box and All / Paid / Due tabs;
- a new-fee form with a member picker;
- a member registration form that generates an admission number;
- two diet-plan editors: a three-step wizard with meals per time slot, and an
  editable meal list saved as a plan and its meals;
- a history list with its own search;
- a settings page with the user's initials, role label and owner-only entries.

Each source file has one module:

| module | source |
|---|---|
| `Auth` | `src/contexts/AuthContext.tsx` |
| `Guard` | `src/components/ProtectedRoute.tsx` |
| `LoginPage` | `src/pages/Login.tsx` |
| `FeeCard` | `src/components/fees/FeeCard.tsx` |
| `FeeUtils` | `src/utils/feeUtils.ts` |
| `FeesPage` | `src/pages/Fees.tsx` |
| `NewFeePage` | `src/pages/NewFee.tsx` |
| `MemberRegistrationPage` | `src/components/MemberRegistration.tsx` |
| `DietPlanPage` | `src/pages/DietPlan.tsx` |
| `CreateDietPlanPage` | `src/pages/CreateDietPlan.tsx` |
| `HistoryPage` | `src/pages/History.tsx` |
| `SettingsPage` | `src/pages/Settings.tsx` |

Two helper modules hold what the screens share:

- `Collections`: `Option`, order-preserving subsequences, and `filter` with its
  algebra (commutation, idempotence, partition, append).
- `Text`: ASCII case mapping, JavaScript `trim`, `includes`, `split`/`join`
  on one character, and decimal rendering with its parse.

Where the source keeps state, the model keeps it too:

- the auth provider, with its `user`, `isLoading` and the users table;
- the pages' `useState` cells.

Each of these is a `class`. Its methods change exactly the fields they name, and
their `ensures` tie the new state to the specification functions. The database,
the clock and `Math.random` become parameters:

- a failure flag for each query;
- a map for each table;
- integers for dates;
- a real in `[0, 1)` for the random number.

## Model

| member | source | states |
|---|---|---|
| Auth.UniqueIffAtMostOne | src/contexts/AuthContext.tsx:88-92 | a username is unique exactly when at most one row carries it, and no row carries it exactly when the id set is empty |
| Auth.LookupUsername | src/contexts/AuthContext.tsx:88-92 | `maybeSingle` yields an error on a failed query or several matches, no row when nobody has the username, otherwise the one matching row |
| Auth.LoginResult | src/contexts/AuthContext.tsx:83-118 | a login that succeeds stores the identity of a row whose username and password both equal the input, without the password |
| Auth.LoginSucceeds | src/contexts/AuthContext.tsx:99-108 | the only row with that username and a matching password logs in as that row's identity |
| Auth.LoginFails | src/contexts/AuthContext.tsx:94-96 | a query error, or no row with that username and password, makes login return false |
| Auth.CheckedUser | src/contexts/AuthContext.tsx:51-80 | the start-up check keeps the stored identity or clears it; with a stored id it is kept exactly when the lookup succeeds and finds the id |
| Auth.CheckWithoutIdMakesNoLookup | src/contexts/AuthContext.tsx:57 | without a stored id no lookup is made: the result is the stored value whatever the table or the failure flag |
| Auth.RegisterOutcomeOf | src/contexts/AuthContext.tsx:121-182 | the four outcomes in full: the check fails exactly on a query error or duplicate rows; the username is taken exactly when the check succeeds and one row has it; otherwise the insert fails or succeeds according to the insert's failure |
| Auth.RegisterRejectsTakenUsername | src/contexts/AuthContext.tsx:142-148 | a username already in the table is never registered again |
| Auth.RegisterKeepsUsernamesUnique | src/contexts/AuthContext.tsx:131-163 | a successful registration keeps every username unique |
| Auth.RegisterThenLogin | src/contexts/AuthContext.tsx:121-175 | after a successful registration, the new credentials log in as the new identity |
| Auth.FreeUsernameRegistersAndLogsIn | src/contexts/AuthContext.tsx:121-175 | a username no row has registers when neither query fails, and the new credentials then log in as the new identity |
| Auth.Merge | src/contexts/AuthContext.tsx:197 | `{ ...user, ...updates }`: each field is taken from the update when present, otherwise from the user |
| Auth.PersistProfile | src/contexts/AuthContext.tsx:200-220 | the profile write changes only the user's own row and never its password; a failed write leaves the table unchanged |
| Auth.FailedUpdateDiverges | src/contexts/AuthContext.tsx:195-225 | after a failed write the session shows the new name while the table keeps the old one |
| Auth.AuthProvider.constructor | src/contexts/AuthContext.tsx:45-46 | the provider starts loading, with the identity read from storage |
| Auth.AuthProvider.IsAuthenticated | src/contexts/AuthContext.tsx:231 | signed in exactly when the provider holds an identity; `Login` sets it on success and `Logout` clears it |
| Auth.AuthProvider.CheckUser | src/contexts/AuthContext.tsx:51-80 | the new identity is `CheckedUser` of the old one, loading ends, and the table is unchanged |
| Auth.AuthProvider.Login | src/contexts/AuthContext.tsx:83-118 | the result is true exactly when `LoginResult` finds an identity, which is then stored; on failure the identity is unchanged |
| Auth.AuthProvider.Register | src/contexts/AuthContext.tsx:121-182 | the outcome is `RegisterOutcomeOf`, the row is added only on success, and the signed-in identity never changes |
| Auth.AuthProvider.Logout | src/contexts/AuthContext.tsx:185-192 | the identity is cleared, so the provider is no longer authenticated, and the page navigates to `/login` |
| Auth.AuthProvider.UpdateUserProfile | src/contexts/AuthContext.tsx:195-225 | with no session nothing changes; otherwise the identity becomes the merge and the table the persisted write |
| Guard.Decide | src/components/ProtectedRoute.tsx:9-28 | the four outcomes in order (loading, login redirect, home redirect for a role outside the list, outlet); the outlet is rendered exactly when loaded, signed in, and no list or the role is in it; every redirect replaces history |
| Guard.AppRoutesAdmitEveryRole | src/App.tsx:35 | the application's protected routes give no role list, so every signed-in role reaches every page |
| Guard.EmptyRoleListRedirectsEveryone | src/components/ProtectedRoute.tsx:23-25 | an empty role list sends every signed-in user home |
| Guard.OwnerOnlyRouteRejectsTrainer | src/components/ProtectedRoute.tsx:23-25 | a trainer on an owner-only route is sent home |
| Guard.SeededOwnerReachesOwnerRoute | src/pages/Login.tsx:134 | the advertised default owner account logs in as an owner and passes an owner-only guard |
| LoginPage.PageView | src/pages/Login.tsx:22-24 | an authenticated visitor is redirected home, and only then |
| LoginPage.SubmitDecision | src/pages/Login.tsx:32-55 | a blank username or password after trimming is a validation error; otherwise success exactly when login succeeds |
| LoginPage.Message | src/pages/Login.tsx:33-55 | each outcome has its own toast text: the required-fields text for a validation error, the welcome text for a success and the invalid-credentials text for every failure |
| LoginPage.SubmitAgainst | src/pages/Login.tsx:26-55 | together with the provider: blank fields are a validation error, and the sign-in succeeds exactly when the fields are not blank, the lookup does not fail and the one row with that username has that password |
| LoginPage.Navigation | src/pages/Login.tsx:48 | only a successful login navigates, and it goes to `/` |
| LoginPage.BlankFieldsNeverReachLogin | src/pages/Login.tsx:32-40 | a whitespace-only username is refused before any lookup and causes no navigation |
| LoginPage.FailuresLookAlike | src/pages/Login.tsx:49-55 | a query error and wrong credentials give the same failure message |
| LoginPage.PaddedUsernameDoesNotMatch | src/pages/Login.tsx:32-42 | the trim is only a check: a padded username is sent as typed and does not match the stored one |
| LoginPage.LoginForm.constructor | src/pages/Login.tsx:14-16 | the form starts with empty fields and not loading |
| LoginPage.LoginForm.HandleSubmit | src/pages/Login.tsx:26-66 | the outcome and navigation follow `SubmitDecision` against the table; a validation error leaves the session untouched, and loading always ends |
| FeeCard.IsPastDue | src/components/fees/FeeCard.tsx:25 | a record is past due only when its status is 'Due', so a paid record never is |
| FeeCard.BadgeLabel | src/components/fees/FeeCard.tsx:45-60 | "Paid" exactly for a paid record, "Overdue" exactly when past due, "Due" for every other record |
| FeeCard.BadgeColour | src/components/fees/FeeCard.tsx:37-43 | the badge is always coloured: green exactly for a paid record, red exactly when past due |
| FeeCard.DueDateColour | src/components/fees/FeeCard.tsx:75 | the due date is red exactly when the record is past due |
| FeeCard.BadgeColourMatchesLabel | src/components/fees/FeeCard.tsx:37-60 | the two separate conditionals agree: Paid is green, Overdue red, Due amber |
| FeeCard.PaidIgnoresDueDate | src/components/fees/FeeCard.tsx:25 | a paid record shows "Paid" in green whatever its due date |
| FeeCard.DueOnTheDeadlineIsNotOverdue | src/components/fees/FeeCard.tsx:25 | the comparison is strict: a record due exactly now is not overdue |
| FeeCard.OverdueStaysOverdue | src/components/fees/FeeCard.tsx:25 | once overdue, a record stays overdue as time goes on |
| FeeCard.UndeclaredStatusShowsDue | src/components/fees/FeeCard.tsx:6-18 | a status other than Paid or Due falls through to the due branch and is never overdue |
| FeeUtils.GetPaidRecords | src/utils/feeUtils.ts:4-6 | the paid records in their order: a subsequence holding every Paid record as often as it occurs and nothing else |
| FeeUtils.GetDueRecords | src/utils/feeUtils.ts:8-10 | the same for Due records |
| FeeUtils.PaidAndDuePartition | src/utils/feeUtils.ts:4-10 | when every status is Paid or Due, the two lists together have as many records as the input |
| FeeUtils.FiltersAreIdempotent | src/utils/feeUtils.ts:4-10 | filtering twice is filtering once |
| FeeUtils.NoDueAmongPaid | src/utils/feeUtils.ts:4-10 | no record is both paid and due |
| FeesPage.FeeSearch | src/pages/Fees.tsx:29-41 | a blank query shows every record; otherwise exactly the records whose lower-cased name, or whose admission number, contains the lower-cased query, in order and each as often as it occurs |
| FeesPage.PaidTab | src/pages/Fees.tsx:144-156 | the Paid tab shows only paid records: exactly the paid records the search keeps |
| FeesPage.DueTab | src/pages/Fees.tsx:158-170 | the Due tab shows only due records: exactly the due records the search keeps |
| FeesPage.TabsSearchWithinStatus | src/pages/Fees.tsx:147-162 | searching then taking a tab equals taking the tab then searching |
| FeesPage.TabsShowSearchedRecords | src/pages/Fees.tsx:147-162 | a record is on a tab exactly when it is in the search result and has that tab's status |
| FeesPage.SpacesOnlyQueryShowsAll | src/pages/Fees.tsx:30-31 | a query of spaces is blank and hides nothing |
| FeesPage.ShowsNewFeeButton | src/pages/Fees.tsx:102 | the New Fee button is shown to owners only |
| FeesPage.FeesPageState.Valid | src/pages/Fees.tsx:29-41 | the invariant every handler keeps: the shown list is the search over the loaded records |
| FeesPage.FeesPageState.constructor | src/pages/Fees.tsx:17-20 | the page starts with an empty query and no records, loading, with the invariant holding |
| FeesPage.FeesPageState.FetchFeeRecords | src/pages/Fees.tsx:43-78 | a failed query keeps the old records, a missing result gives none; the search stays consistent and loading ends |
| FeesPage.FeesPageState.SetSearchQuery | src/pages/Fees.tsx:29-41 | the shown list is the search over the loaded records |
| NewFeePage.FeeSchemaErrors | src/pages/NewFee.tsx:45-51 | the form is valid exactly when the admission number and amount are non-empty, both dates are set and the status is Paid or Due |
| NewFeePage.DefaultFormNeedsMemberAndAmount | src/pages/NewFee.tsx:68-74 | the untouched form fails only on its admission number and amount |
| NewFeePage.MemberSearch | src/pages/NewFee.tsx:81-93 | a blank query lists every member; otherwise exactly those whose lower-cased name, or admission number, contains the lower-cased query, in order and each as often as it occurs |
| NewFeePage.SubmitFee | src/pages/NewFee.tsx:121-176 | checks run in order: schema, then user, then selected member; a saved row carries the selected member's id, the form's amount, dates and status, and the user as creator |
| NewFeePage.RowUsesSelectedMember | src/pages/NewFee.tsx:143-154 | the row's member is the picked member, whatever admission number the form holds |
| NewFeePage.Navigation | src/pages/NewFee.tsx:164 | only a saved fee navigates, and it goes back to `/fees` |
| NewFeePage.NewFeePageState.Valid | src/pages/NewFee.tsx:81-93 | the invariant every handler keeps: the shown members are the search over the loaded members |
| NewFeePage.NewFeePageState.constructor | src/pages/NewFee.tsx:59-75 | the page starts with no members, an empty query, the picker closed, no member selected, the default form and not loading |
| NewFeePage.NewFeePageState.FetchMembers | src/pages/NewFee.tsx:95-113 | a failed query keeps the old list; the search stays consistent |
| NewFeePage.NewFeePageState.SetSearchQuery | src/pages/NewFee.tsx:81-93 | the shown members are the search over the loaded list |
| NewFeePage.NewFeePageState.OpenMemberSearch | src/pages/NewFee.tsx:219 | the picker opens |
| NewFeePage.NewFeePageState.CloseMemberSearch | src/pages/NewFee.tsx:274 | the picker closes |
| NewFeePage.NewFeePageState.SelectMember | src/pages/NewFee.tsx:115-119 | the member is remembered, its admission number is copied into the form, and the picker closes |
| NewFeePage.NewFeePageState.Submit | src/pages/NewFee.tsx:121-176 | the outcome is `SubmitFee` of the current state; loading is touched only when an insert was attempted |
| MemberRegistrationPage.MemberSchemaErrors | src/components/MemberRegistration.tsx:30-37 | the form is valid exactly when the name has at least 2 characters, the phone 10, the address 5, and the plan is PT or Non-PT |
| MemberRegistrationPage.DefaultFormRejectsTextFieldsOnly | src/components/MemberRegistration.tsx:49-54 | the reset form fails on its three text fields but not its plan |
| MemberRegistrationPage.RandomSuffix | src/components/MemberRegistration.tsx:72 | the random number is a three-digit number, 100 to 999 |
| MemberRegistrationPage.AdmissionNumber | src/components/MemberRegistration.tsx:71-73 | the admission number is all digits; its last three characters read back as the random number and the rest as the year |
| MemberRegistrationPage.FourDigitYearGivesSevenCharacters | src/components/MemberRegistration.tsx:71-73 | a four-digit year gives a seven-character admission number |
| MemberRegistrationPage.SubmitMember | src/components/MemberRegistration.tsx:57-98 | the schema first, then the user; an insert is attempted exactly for valid values and a signed-in user, and it is saved exactly when the insert does not fail; the row copies the form's fields, the generated number and the creator |
| MemberRegistrationPage.SavedRowIsWellFormed | src/components/MemberRegistration.tsx:75-86 | a saved row satisfies the schema and ends in a number from 100 to 999 |
| MemberRegistrationPage.MemberRegistrationState.constructor | src/components/MemberRegistration.tsx:45-56 | the form starts with the default values and not loading |
| MemberRegistrationPage.MemberRegistrationState.Submit | src/components/MemberRegistration.tsx:57-121 | only a successful insert resets the form and navigates home; an insert error keeps the form |
| DietPlanPage.NextStep | src/pages/DietPlan.tsx:107-113 | one step forward, staying on review |
| DietPlanPage.PrevStep | src/pages/DietPlan.tsx:115-121 | one step back, staying on info |
| DietPlanPage.PrevUndoesNext | src/pages/DietPlan.tsx:107-121 | Prev after Next is the identity on info and meals |
| DietPlanPage.NextUndoesPrev | src/pages/DietPlan.tsx:107-121 | Next after Prev is the identity on meals and review |
| DietPlanPage.InitialSlotsAreEmpty | src/pages/DietPlan.tsx:25-32 | the wizard starts with all six slots present and empty |
| DietPlanPage.AppendMeal | src/pages/DietPlan.tsx:123-128 | the meal goes at the end of the current slot, and every other slot is unchanged |
| DietPlanPage.RemoveMealFrom | src/pages/DietPlan.tsx:130-135 | the named slot keeps, in order and with their counts, exactly the meals with another id; other slots are unchanged |
| DietPlanPage.AppendKeepsDuplicates | src/pages/DietPlan.tsx:123-128 | choosing a meal already in the slot adds another copy |
| DietPlanPage.RemoveUndoesAppend | src/pages/DietPlan.tsx:123-135 | removing a just-chosen meal, when its id was new to the slot, restores the slots |
| DietPlanPage.UpdateInfo | src/pages/DietPlan.tsx:99-105 | the named field takes the value and the other two fields stay |
| DietPlanPage.NextEnabled | src/pages/DietPlan.tsx:203 | Next is enabled exactly when no member-info field is empty |
| DietPlanPage.FillingEveryFieldEnablesNext | src/pages/DietPlan.tsx:203 | the empty form disables Next, and filling the three fields enables it |
| DietPlanPage.ClearingAFieldDisablesNext | src/pages/DietPlan.tsx:203 | clearing any field disables Next |
| DietPlanPage.DietPlanState.Valid | src/pages/DietPlan.tsx:25-32 | the invariant every handler keeps: every time slot has its list |
| DietPlanPage.DietPlanState.constructor | src/pages/DietPlan.tsx:18-34 | the wizard starts on info with empty details, empty slots and the morning slot selected |
| DietPlanPage.DietPlanState.HandleNextStep | src/pages/DietPlan.tsx:107-113 | the step becomes `NextStep` of the old one |
| DietPlanPage.DietPlanState.HandlePrevStep | src/pages/DietPlan.tsx:115-121 | the step becomes `PrevStep` of the old one |
| DietPlanPage.DietPlanState.HandleInputChange | src/pages/DietPlan.tsx:99-105 | the details become `UpdateInfo` of the old ones |
| DietPlanPage.DietPlanState.HandleMealSelect | src/pages/DietPlan.tsx:123-128 | the slots become `AppendMeal` at the current slot; every slot stays present |
| DietPlanPage.DietPlanState.HandleRemoveMeal | src/pages/DietPlan.tsx:130-135 | the slots become `RemoveMealFrom` the named slot; every slot stays present |
| DietPlanPage.DietPlanState.SetCurrentMealTime | src/pages/DietPlan.tsx:219 | the selected slot becomes the chosen one |
| CreateDietPlanPage.AddMeal | src/pages/CreateDietPlan.tsx:84-87 | exactly one blank morning Protein meal is appended with id `temp-<now>`, and the earlier meals are untouched |
| CreateDietPlanPage.RemoveMeal | src/pages/CreateDietPlan.tsx:89-91 | every meal with that id goes, and the rest keep their order and counts |
| CreateDietPlanPage.SetField | src/pages/CreateDietPlan.tsx:95 | the named field takes the value and every other field stays |
| CreateDietPlanPage.ChangeMeal | src/pages/CreateDietPlan.tsx:93-97 | same length; in meals with that id only the named field changes, and every other meal is unchanged |
| CreateDietPlanPage.ChangeKeepsIds | src/pages/CreateDietPlan.tsx:93-97 | changing any field but the id keeps every meal's id |
| CreateDietPlanPage.ChangeIsIdempotent | src/pages/CreateDietPlan.tsx:93-97 | entering the same value twice equals entering it once, for every field including the id |
| CreateDietPlanPage.RemoveUndoesAdd | src/pages/CreateDietPlan.tsx:84-91 | removing a just-added meal, when its id was new, gives back the earlier list |
| CreateDietPlanPage.SameInstantAddsShareAnId | src/pages/CreateDietPlan.tsx:85 | two meals added in the same millisecond share an id, so removing one removes both |
| CreateDietPlanPage.InvalidMealsOf | src/pages/CreateDietPlan.tsx:110 | the invalid list is empty exactly when every meal has a name and a quantity |
| CreateDietPlanPage.MealsToInsert | src/pages/CreateDietPlan.tsx:139-145 | one row per meal, in order; each carries the plan id and that meal's slot, name, category and quantity |
| CreateDietPlanPage.RowsRecoverMeals | src/pages/CreateDietPlan.tsx:139-145 | the rows lose only the temporary ids: putting those back recovers each meal |
| CreateDietPlanPage.MealsToInsertAppend | src/pages/CreateDietPlan.tsx:139-145 | the rows of a concatenation are the concatenation of the rows |
| CreateDietPlanPage.SaveDietPlan | src/pages/CreateDietPlan.tsx:99-169 | a missing member or user is reported first; any meal missing a name or quantity is refused next; then the plan is inserted and its rows are the meals' rows; the plan is saved exactly when the member and user are present, every meal is complete and neither insert fails |
| CreateDietPlanPage.InitialMealsAreRejected | src/pages/CreateDietPlan.tsx:66-118 | the list as first loaded cannot be saved |
| CreateDietPlanPage.AddedMealMustBeFilledIn | src/pages/CreateDietPlan.tsx:84-118 | a list with a freshly added meal cannot be saved |
| CreateDietPlanPage.EmptyListSavesBarePlan | src/pages/CreateDietPlan.tsx:110-118 | an empty list passes validation and saves a plan with no meals |
| CreateDietPlanPage.CreateDietPlanState.constructor | src/pages/CreateDietPlan.tsx:39-42 | the page starts with no member and no meals, loading and not saving |
| CreateDietPlanPage.CreateDietPlanState.FetchMember | src/pages/CreateDietPlan.tsx:53-82 | on success the member is set and the list starts over with the three initial meals (morning, afternoon, evening); on failure nothing changes and the page returns to `/diet-plan` |
| CreateDietPlanPage.CreateDietPlanState.Mount | src/pages/CreateDietPlan.tsx:47-51 | a member is fetched only for a non-empty route id, otherwise nothing changes; after the fetch a found member is shown with the initial meals, and a failed or empty lookup leaves the state and returns to `/diet-plan` |
| CreateDietPlanPage.CreateDietPlanState.HandleAddMeal | src/pages/CreateDietPlan.tsx:84-87 | the list becomes `AddMeal` of the old one |
| CreateDietPlanPage.CreateDietPlanState.HandleRemoveMeal | src/pages/CreateDietPlan.tsx:89-91 | the list becomes `RemoveMeal` of the old one |
| CreateDietPlanPage.CreateDietPlanState.HandleMealChange | src/pages/CreateDietPlan.tsx:93-97 | the list becomes `ChangeMeal` of the old one |
| CreateDietPlanPage.CreateDietPlanState.Save | src/pages/CreateDietPlan.tsx:99-169 | the outcome is `SaveDietPlan`; only a fully saved plan navigates to `/diet-plan`; the saving flag is touched only when an insert was attempted |
| HistoryPage.FilteredPlans | src/pages/History.tsx:48-52 | exactly the plans whose lower-cased name contains the lower-cased query or whose admission number contains the raw query, in order and with their counts |
| HistoryPage.EmptyQueryKeepsAll | src/pages/History.tsx:48-52 | the empty query keeps every plan |
| HistoryPage.NameMatchIgnoresCase | src/pages/History.tsx:50 | the name match gives the same answer for a query and its upper-cased form |
| HistoryPage.TwoSpacesHideEveryPlan | src/pages/History.tsx:48-52 | there is no trim: a two-space query hides every plan whose fields have no double space, where the fee search would show them all |
| SettingsPage.GetInitials | src/pages/Settings.tsx:34-41 | the initials have at most two characters |
| SettingsPage.FirstCharsAreWordStarts | src/pages/Settings.tsx:35-37 | the split/map/join chain yields exactly the characters that begin a word |
| SettingsPage.InitialsAreFirstTwoWordStarts | src/pages/Settings.tsx:34-41 | the initials are the first two word starts, upper-cased |
| SettingsPage.EmptyPartsContributeNothing | src/pages/Settings.tsx:36-37 | empty parts, from leading, trailing or repeated spaces, contribute nothing |
| SettingsPage.SingleWordInitial | src/pages/Settings.tsx:34-41 | a single-word name yields exactly its first character, upper-cased |
| SettingsPage.InitialsOfLongNames | src/pages/Settings.tsx:40 | only the first two words count |
| SettingsPage.Capitalize | src/pages/Settings.tsx:59 | the role label upper-cases the first character and keeps the rest |
| SettingsPage.RoleLabels | src/pages/Settings.tsx:59 | the three roles read Owner, Trainer and Member |
| SettingsPage.ProfileCardOf | src/pages/Settings.tsx:50-62 | the card appears exactly when someone is signed in; it shows their name, as initials the first two word starts of the name upper-cased, and the role with its first letter upper-cased |
| SettingsPage.Entries | src/pages/Settings.tsx:67-113 | "Register Trainer" is listed for owners only; "Register Member" and "Logout" for everyone |
| SettingsPage.Target | src/pages/Settings.tsx:30-113 | each entry has its own route: "/register-trainer", "/new-member", and "/login" for logging out |
| SettingsPage.TrainerEntries | src/pages/Settings.tsx:67 | a trainer sees every entry but "Register Trainer" |
| Text.Split | src/pages/Settings.tsx:36 | `split(' ')` yields at least one part |
| Text.SplitPartsHaveNoSeparator | src/pages/Settings.tsx:36 | no part of the split contains the separator |
| Text.JoinSplit | src/pages/Settings.tsx:36 | joining the parts with the separator gives the string back: the split model loses nothing |

## Left out

- Database and network: every Supabase query, insert and update is network I/O. Tables are maps, and each query's failure is a boolean input.
- Auth.AuthProvider: the `useLocalStorage` persistence is not modelled. The constructor is given the stored identity directly.
- Auth.AuthProvider.Login, Auth.AuthProvider.Register: a thrown exception, which the source catches and turns into `false`, is merged into the query-failure input.
- LoginPage.LoginForm.HandleSubmit: the `catch` branch is left out, because `login` catches its own errors and never throws.
- Toasts, `console` logging and JSX rendering are not modelled. A navigation is returned as an optional route.
- Concurrency and the ordering of React effects are not modelled. Each effect is applied right after the state change that triggers it.
- Dates are integers: milliseconds on the fee card, day numbers in the forms. `toLocaleDateString` (`formatDate` in src/utils/feeUtils.ts:12-15) is left out as locale formatting. `toISOString().split('T')[0]` is left out too: today's date string is an input.
- NewFeePage.SubmitFee: `parseFloat` of the amount is floating-point parsing. The row carries the amount as its text.
- MemberRegistrationPage.RandomSuffix: `Math.random()` is taken as an exact real in `[0, 1)`, without IEEE-754 rounding.
- Text.Lower, Text.Upper: only ASCII letters change case. JavaScript case mapping is Unicode-aware, and the model does not capture that.
- Strings are sequences of code points, not UTF-16 code units. `trim` uses the ECMAScript whitespace set.
- Auth.Merge: a `Partial<User>` field present with the value `undefined` is not modelled. A field is either absent or holds a value.
- The presentation components are not part of this model, and neither is `TrainerRegistration`: `Header`, `NavigationBar`, `SplashScreen`, `StatsCard`, `AchievementCard`, `ProfileSection`, `QuickActionButton`, `Index`, `Profile`.
- The diet-plan wizard's `handleGeneratePlan` only navigates to `/history`, so it is left out.
- The wizard's constant meal catalogue is left out, because no operation depends on its contents.
- CreateDietPlanPage.SaveDietPlan: the saved plan's `member_id` and `created_by` are modelled. The plan row's generated fields are not; the id the database assigns is an input.
- HistoryPage: the three sample plans (`SamplePlans`) appear only as data. Evaluating the search on them literally is too costly for the verifier, so `TwoSpacesHideEveryPlan` is stated for any list whose names and admission numbers contain no double space.
