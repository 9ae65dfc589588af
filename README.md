# Military asset management frontend: the decision logic, in Dafny

This project models the decision logic of the web client of a military asset
management system. That logic covers:

- the application shell's authentication gate and the layout's navigation frame;
- the role guards of the protected pages (Admin, base commander, logistics officer);
- the validation schemas of the login, password-change, user, asset, purchase,
  assignment and expenditure forms;
- how the new-record pages narrow the asset list to a commander's or an officer's
  own base, preselect an asset named in the URL, and keep the form's base in step
  with the chosen asset;
- the request parameters the list pages (dashboard, activity logs, expenditures)
  build from their filters, their sorting and their paging;
- the system-settings lists an administrator edits;
- the notifications dropdown.

Pure logic is written as datatypes, functions and lemmas. A page whose state
the source updates step by step is a `class`:

- its fields are the page's `useState` variables;
- its methods are the handlers and effects;
- each method's `ensures` states the page's whole new state;
- where the page keeps an invariant, it is stated as `Valid()`.

Module layout:

- One module per source file: `AppShell`, `Layout`, `Login`, `Profile`, `UserForm`,
  `Settings`, `ActivityLogs`, `ExpendituresList`, `Dashboard`, `ExpenditureForm`,
  `AssignmentForm`, `PurchaseForm`, `AssetForm`, `Notifications`.
- Shared modules hold what several pages repeat:
  - `Session`: users, roles and the home base;
  - `Guards`: the role-guard effect;
  - `ApiErrors`: error messages and create outcomes;
  - `Inventory`: asset lookup and filtering;
  - `Forms`: the person and number fields, and the base-sync effect;
  - `Text`: `trim`;
  - `Lists`: `filter` by inequality;
  - `Sorting`: column sorting;
  - `Queries`: paging.
- `Navigation` puts every guard side by side and proves that they combine with
  the login landing path and the auth gate.

JavaScript semantics are written out where they decide a branch:

- truthiness of strings and of optional values;
- `x || fallback`;
- `find` returns the first match;
- `filter(Boolean)`;
- Yup's `required` rejects only the empty string;
- an emptied number input is `None`, and `''` counts as 0 in a product.

Two places where the code does less than its names suggest; the model follows the code:

- The shell reads the store's `isInitialized` (src/pages/_app.tsx:15), but its
  redirects (src/pages/_app.tsx:31-46) wait only on the shell's own one-second
  `loading` flag (src/pages/_app.tsx:16, 23-25) and never test `isInitialized`;
  `AppShell.GateIgnoresInitialized` states this.
- The expenditure page's guard (src/pages/expenditures/new.tsx:58-63) lists all three
  known roles, so it can only refuse a role outside them; hence `Session.Role` has an
  `Unrecognized` case.

## Model

| member | source | states |
|---|---|---|
| `Session.ParseRole` | src/pages/login.tsx:39 | a role string is kept verbatim, and is unrecognised exactly when it is not one of the three known names |
| `Session.ParseRoleName` | src/pages/login.tsx:39 | printing a known role and reading it back gives the same role |
| `Session.HomeBase` | src/pages/expenditures/new.tsx:109 | the base a form starts with is non-empty exactly when the user has the given role and a truthy assigned base, and it is then that base |
| `Text.TrimStart` | src/pages/settings/index.tsx:62 | the result is a suffix of the input; what is dropped is all whitespace; the result does not start with whitespace |
| `Text.TrimEnd` | src/pages/settings/index.tsx:62 | the result is a prefix of the input; what is dropped is all whitespace; the result does not end with whitespace |
| `Text.Trim` | src/pages/settings/index.tsx:62 | `trim()` returns a trimmed slice of its input |
| `Text.BlankIffAllSpace` | src/pages/settings/index.tsx:62 | `!s.trim()` holds exactly when every character of `s` is whitespace |
| `Text.TrimOfTrimmed` | src/pages/settings/index.tsx:74 | trimming a trimmed string changes nothing |
| `Text.TrimIdempotent` | src/pages/settings/index.tsx:74 | trimming twice is trimming once |
| `Text.TrimSplits` | src/pages/settings/index.tsx:74 | leading and trailing whitespace around a trimmed core is removed, and the core is returned intact |
| `Lists.Without` | src/pages/settings/index.tsx:83 | `filter(t => t !== x)` leaves no `x`, keeps every other member, never grows, and changes nothing when `x` is absent |
| `Lists.WithoutAppend` | src/pages/settings/index.tsx:83 | filtering distributes over concatenation |
| `Lists.WithoutCounts` | src/pages/settings/index.tsx:83 | filtering removes every occurrence of `x` and keeps every other element with its multiplicity |
| `Lists.WithoutKeepsDistinct` | src/pages/settings/index.tsx:110 | filtering a duplicate-free list keeps it duplicate-free |
| `Lists.AppendFreshKeepsDistinct` | src/pages/settings/index.tsx:74 | appending an absent entry keeps a list duplicate-free |
| `Sorting.Flip` | src/pages/activity-logs/index.tsx:161 | toggling the sort order always changes it |
| `Sorting.NextSort` | src/pages/activity-logs/index.tsx:159-166 | clicking a column sorts by it; the same column flips the order; a new column starts descending |
| `Sorting.SameColumnTwice` | src/pages/activity-logs/index.tsx:159-166 | clicking the sorted column twice restores the original sort |
| `Sorting.NewColumnTwice` | src/pages/expenditures/index.tsx:79-86 | clicking a new column twice ends ascending on it |
| `ApiErrors.FirstNonEmpty` | src/pages/login.tsx:54-56 | a chain of `||` over strings yields the first non-empty candidate, or '' when all are empty |
| `ApiErrors.ErrorMessage` | src/pages/login.tsx:52-64 | the toast text: from the response body (`error`, then `message`, then the default) when there is a response; the no-response text when the request went out; else the error's message or the fallback; never empty when both defaults are non-empty |
| `ApiErrors.ErrorMessagePrecedence` | src/pages/profile.tsx:43-54 | the error message is the first non-empty string of the branch's candidates, in the source's order |
| `ApiErrors.CreateErrorMessage` | src/pages/expenditures/new.tsx:142 | a failed create shows the body's `error` whenever it is non-empty, and otherwise the fallback, so it is never empty when the fallback is not |
| `ApiErrors.CreateOutcome` | src/pages/expenditures/new.tsx:123-146 | an invalid form sends nothing; a created record navigates to `collection/<id>`; a rejection shows the toast `CreateErrorMessage` gives for its error, which is non-empty |
| `Guards.Check` | src/pages/settings/index.tsx:35-40 | a role guard denies exactly a signed-in user whose role is not allowed, sends them to the fallback, and never fires without a user |
| `Guards.Pushes` | src/pages/settings/index.tsx:36-39 | a denial pushes the fallback exactly once; an admission pushes nothing |
| `AppShell.GateFor` | src/pages/_app.tsx:31-46 | no redirect while loading; to /login exactly for a signed-out visitor off the public paths; to /dashboard exactly for a signed-in visitor on one |
| `AppShell.GateIgnoresInitialized` | src/pages/_app.tsx:31-46 | the gate's decision does not depend on `isInitialized` |
| `AppShell.NoRedirectLoop` | src/pages/_app.tsx:39-45 | the target of a redirect never redirects again |
| `AppShell.LoopFreeIff` | src/pages/_app.tsx:36-45 | for any list of public paths, the gate is loop-free exactly when /login is public and /dashboard is not |
| `AppShell.App.constructor` | src/pages/_app.tsx:16 | the shell starts loading |
| `AppShell.App.TimerElapsed` | src/pages/_app.tsx:19-28 | the timer ends loading |
| `AppShell.App.Screen` | src/pages/_app.tsx:49-51 | the loading screen shows exactly while loading |
| `AppShell.App.Redirect` | src/pages/_app.tsx:31-46 | while loading the shell stays; after loading it applies the gate |
| `Layout.FrameFor` | src/components/layout/Layout.tsx:15-21 | sidebar and navbar show exactly for a signed-in visitor off the public paths |
| `Layout.SamePublicPaths` | src/components/layout/Layout.tsx:16 | the layout and the shell list the same public paths |
| `Layout.NavigationOnlyWhereGateStays` | src/components/layout/Layout.tsx:19-21 | wherever the navigation shows, the gate does not redirect, assuming the context's and the store's `isAuthenticated` agree |
| `Layout.SettledFrame` | src/components/layout/Layout.tsx:19-21 | on a page the gate leaves alone, the navigation shows exactly for a signed-in visitor, assuming the context's and the store's `isAuthenticated` agree |
| `Login.SchemaErrors` | src/pages/login.tsx:10-13 | username and password are each rejected exactly when empty |
| `Login.LandingPath` | src/pages/login.tsx:39-43 | an Admin lands on /dashboard and every other role on /assets |
| `Login.Resolve` | src/pages/login.tsx:31-64 | a sign-in with a stored token replaces the page with the role's landing path; a sign-in without a token shows the authentication-failed text; a refusal shows the API error message; every error text is non-empty |
| `Login.LoginPage.constructor` | src/pages/login.tsx:17 | the page starts idle |
| `Login.LoginPage.StartSubmit` | src/pages/login.tsx:26-28 | the request is sent exactly when the schema passes, and sending sets `isLoading` |
| `Login.LoginPage.FinishSubmit` | src/pages/login.tsx:26-67 | the outcome is `Resolve` of the reply, and `isLoading` is cleared |
| `Profile.SchemaErrors` | src/pages/profile.tsx:11-19 | the current password is required; the new one needs 8 characters; the confirmation must be present and equal to the new one |
| `Profile.AcceptedForm` | src/pages/profile.tsx:11-19 | an accepted form has a current password and a confirmed new password of at least 8 characters |
| `Profile.EmptyFormRejected` | src/pages/profile.tsx:27-31 | the empty starting form fails on all three fields |
| `Profile.ViewFor` | src/pages/profile.tsx:61-75 | the loading screen exactly until initialised; the profile exactly for an initialised, authenticated user; else the not-authenticated notice |
| `Profile.ProfilePage.constructor` | src/pages/profile.tsx:23-31 | the page starts idle, not submitting, with the empty form |
| `Profile.ProfilePage.Edit` | src/pages/profile.tsx:26-32 | typing replaces the form values and nothing else |
| `Profile.ProfilePage.StartSubmit` | src/pages/profile.tsx:277 | a press sends the change exactly when the button is not disabled (`isLoading || !isValid || isSubmitting`) and the schema passes; sending sets `isLoading` and `isSubmitting`, so nothing is sent while a change is in flight |
| `Profile.ProfilePage.FinishSubmit` | src/pages/profile.tsx:33-58 | success resets the form and raises the server's message, or 'Password changed successfully' when it is empty; failure keeps the values and shows the API error message; loading and submitting end; the toast text is never empty |
| `UserForm.With` | src/components/users/UserForm.tsx:22-24 | a change sets the named field and leaves every other field as it was |
| `UserForm.UsernameRule` | src/components/users/UserForm.tsx:39-43 | a username message, when there is one, is non-empty |
| `UserForm.PasswordRule` | src/components/users/UserForm.tsx:45-49 | a password message, when there is one, is non-empty |
| `UserForm.EmailRule` | src/components/users/UserForm.tsx:51-55 | an e-mail message, when there is one, is non-empty |
| `UserForm.FullNameRule` | src/components/users/UserForm.tsx:57-59 | a full-name message, when there is one, is non-empty |
| `UserForm.AssignedBaseRule` | src/components/users/UserForm.tsx:61-63 | a base message, when there is one, is non-empty |
| `UserForm.Rule` | src/components/users/UserForm.tsx:36-63 | each field's rule yields a non-empty message or none |
| `UserForm.FormErrors` | src/components/users/UserForm.tsx:36-67 | the error record has a field exactly when that field's rule fails, holding that rule's non-empty message |
| `UserForm.FormErrorsInOrder` | src/components/users/UserForm.tsx:36-65 | the error record is what recording the five checks one after another, from an empty record, produces |
| `UserForm.UsernameAccepted` | src/components/users/UserForm.tsx:39-43 | the username passes exactly when it has a non-space character and at least 3 characters, counted untrimmed |
| `UserForm.PasswordAccepted` | src/components/users/UserForm.tsx:45-49 | the password passes exactly when it has a non-space character and at least 6 characters, counted untrimmed |
| `UserForm.EmailAccepted` | src/components/users/UserForm.tsx:51-55 | the e-mail passes exactly when it matches `\S+@\S+\.\S+` somewhere |
| `UserForm.AssignedBaseRequiredUnlessAdmin` | src/components/users/UserForm.tsx:61-63 | a base is demanded exactly for a role other than Admin with an empty base |
| `UserForm.UsernameMessages` | src/components/users/UserForm.tsx:39-43 | the "required" message shows exactly for a blank username, else the "too short" one |
| `UserForm.PasswordMessages` | src/components/users/UserForm.tsx:45-49 | the "required" message shows exactly for a blank password, else the "too short" one |
| `UserForm.InitialDataRejected` | src/components/users/UserForm.tsx:11-18 | the starting data fails on every field except the role |
| `UserForm.UserFormState.constructor` | src/components/users/UserForm.tsx:11-20 | the form starts with the initial data and no errors |
| `UserForm.UserFormState.HandleChange` | src/components/users/UserForm.tsx:22-34 | a change sets that field and clears that field's error, leaving the other errors |
| `UserForm.UserFormState.ValidateForm` | src/components/users/UserForm.tsx:36-67 | the errors become exactly the failing rules' messages, and the result is true exactly when there are none |
| `UserForm.UserFormState.HandleSubmit` | src/components/users/UserForm.tsx:69-75 | the data is handed to `onSubmit` exactly when it validates |
| `Settings.MockSettingsWellFormed` | src/pages/settings/index.tsx:10-23 | the built-in asset-type and base lists are duplicate-free, non-empty and trimmed |
| `Settings.MockAssetTypesWellFormed` | src/pages/settings/index.tsx:21 | the six built-in asset types are duplicate-free, non-empty and trimmed |
| `Settings.MockBasesWellFormed` | src/pages/settings/index.tsx:22 | the three built-in bases are duplicate-free, non-empty and trimmed |
| `Settings.AddEntry` | src/pages/settings/index.tsx:61-75 | a blank or already-listed input is refused; otherwise the trimmed input is appended at the end and the rest of the list is kept |
| `Settings.Add` | src/pages/settings/index.tsx:61-78 | a blank input raises the blank error and a listed one the duplicate error, leaving list and input alone; any other input is appended trimmed, the input is cleared and success is raised |
| `Settings.AddedEntryTrimmed` | src/pages/settings/index.tsx:74 | an added entry is non-empty, trimmed, and was not listed |
| `Settings.AddKeepsWellFormed` | src/pages/settings/index.tsx:67-75 | adding keeps a list duplicate-free, non-empty-entried and trimmed |
| `Settings.AddTwiceRejected` | src/pages/settings/index.tsx:67-70 | adding the same input a second time is refused as a duplicate |
| `Settings.RemoveUndoesAdd` | src/pages/settings/index.tsx:83 | removing what was just added restores the list |
| `Settings.RemoveKeepsWellFormed` | src/pages/settings/index.tsx:110 | removing keeps a list well formed |
| `Settings.Guard` | src/pages/settings/index.tsx:35-40 | a signed-in non-Admin is sent to /dashboard |
| `Settings.ViewFor` | src/pages/settings/index.tsx:123-128 | the settings show exactly after loading to a user the guard admits; nothing shows after loading to one it refuses |
| `Settings.NonAdminNeverSeesSettings` | src/pages/settings/index.tsx:126-128 | a non-Admin is pushed to /dashboard once and never sees the settings |
| `Settings.SettingsPage.constructor` | src/pages/settings/index.tsx:28-32 | the page starts loading with the built-in settings and empty inputs |
| `Settings.SettingsPage.SettingsLoaded` | src/pages/settings/index.tsx:43-50 | loading ends with the built-in settings |
| `Settings.SettingsPage.EditNewAssetType` | src/pages/settings/index.tsx:368 | typing sets the asset-type input only |
| `Settings.SettingsPage.EditNewBase` | src/pages/settings/index.tsx:418 | typing sets the base input only |
| `Settings.SettingsPage.AddAssetType` | src/pages/settings/index.tsx:61-78 | the asset-type list, its input and the toast become what `Add` gives with the asset-type texts; nothing else changes and both lists stay well formed |
| `Settings.SettingsPage.RemoveAssetType` | src/pages/settings/index.tsx:80-86 | every occurrence leaves the list, the rest stays in order, and success is raised |
| `Settings.SettingsPage.AddBase` | src/pages/settings/index.tsx:88-105 | the base list, its input and the toast become what `Add` gives with the base texts; nothing else changes and both lists stay well formed |
| `Settings.SettingsPage.RemoveBase` | src/pages/settings/index.tsx:107-113 | every occurrence of the base leaves the list, and success is raised |
| `Settings.SettingsPage.ToggleMaintenanceMode` | src/pages/settings/index.tsx:115-121 | the switch flips maintenance mode and names the new mode in the toast |
| `Settings.MaintenanceTextNamesNewMode` | src/pages/settings/index.tsx:120 | the toast says "enabled" exactly when the mode was off before the switch |
| `ActivityLogs.SetFilter` | src/pages/activity-logs/index.tsx:142-145 | a filter change sets exactly the named filter |
| `ActivityLogs.ActionBadgeClass` | src/pages/activity-logs/index.tsx:178-201 | an unlisted action is gray; red exactly for Delete and Failed Login |
| `ActivityLogs.BadgesTellActionsApart` | src/pages/activity-logs/index.tsx:178-201 | named actions other than the red pair get different badges |
| `ActivityLogs.Guard` | src/pages/activity-logs/index.tsx:66-71 | a signed-in non-Admin is sent to /dashboard |
| `ActivityLogs.ViewFor` | src/pages/activity-logs/index.tsx:204-208 | nothing for a refused user; the loading screen exactly while loading with no rows |
| `ActivityLogs.QuerySendsSetFilters` | src/pages/activity-logs/index.tsx:79-92 | limit, skip and sort always go; each text filter goes exactly when non-empty; the two selects go exactly when neither empty nor 'All'; dates go converted |
| `ActivityLogs.AllIsNoFilter` | src/pages/activity-logs/index.tsx:88-89 | choosing 'All' sends the same request as leaving the select empty |
| `ActivityLogs.ActivityLogsPage.constructor` | src/pages/activity-logs/index.tsx:41-63 | page 1, 20 rows, no filters, newest first by timestamp, loading |
| `ActivityLogs.ActivityLogsPage.RequestParams` | src/pages/activity-logs/index.tsx:74-92 | only an Admin builds a request, and it is the query of the current state |
| `ActivityLogs.ActivityLogsPage.StartFetch` | src/pages/activity-logs/index.tsx:128-132 | the fetch runs only for an Admin, starts loading, and changes nothing else |
| `ActivityLogs.ActivityLogsPage.FinishFetch` | src/pages/activity-logs/index.tsx:94-102 | a reply replaces the rows and the total; a failure keeps them; loading ends |
| `ActivityLogs.ActivityLogsPage.HandleFilterChange` | src/pages/activity-logs/index.tsx:142-145 | sets one filter and returns to page 1, so the next request skips no rows |
| `ActivityLogs.ActivityLogsPage.HandlePageChange` | src/pages/activity-logs/index.tsx:148-150 | sets the page only |
| `ActivityLogs.ActivityLogsPage.HandleLimitChange` | src/pages/activity-logs/index.tsx:153-156 | sets the limit and returns to page 1, so the next request skips no rows |
| `ActivityLogs.ActivityLogsPage.HandleSortChange` | src/pages/activity-logs/index.tsx:159-166 | the sort follows `NextSort` and nothing else changes |
| `ActivityLogs.ActivityLogsPage.ToggleSortOrder` | src/pages/activity-logs/index.tsx:439 | the order button flips the order and keeps the column |
| `ExpendituresList.InitialFilters` | src/pages/expenditures/index.tsx:29-36 | a base commander starts filtered to the assigned base, everyone else to all bases; the other filters start empty |
| `ExpendituresList.QuerySendsSetFilters` | src/pages/expenditures/index.tsx:45-58 | each filter reaches the request exactly when set, unchanged; skip and limit always go |
| `ExpendituresList.InitialQueryScope` | src/pages/expenditures/index.tsx:29-58 | the first request of a base commander with a base asks for that base only; everyone else asks for all bases |
| `ExpendituresList.CreateButtonHidden` | src/pages/expenditures/index.tsx:105-107 | the create button is hidden exactly without a user or for an unknown role |
| `ExpendituresList.ReasonBadgeClass` | src/pages/expenditures/index.tsx:110-125 | an unlisted reason is gray |
| `ExpendituresList.ReasonBadgesDistinct` | src/pages/expenditures/index.tsx:110-125 | the five named reasons get five different badges |
| `ExpendituresList.ExpendituresPage.constructor` | src/pages/expenditures/index.tsx:21-38 | page 1, 10 rows, the initial filters, newest first by expenditure date, loading |
| `ExpendituresList.ExpendituresPage.RequestParams` | src/pages/expenditures/index.tsx:42-58 | the request is the query of the current state |
| `ExpendituresList.ExpendituresPage.StartFetch` | src/pages/expenditures/index.tsx:74-76 | the fetch sends the current query and starts loading |
| `ExpendituresList.ExpendituresPage.FinishFetch` | src/pages/expenditures/index.tsx:60-70 | a reply replaces rows, total and `hasMore`; a failure keeps them; loading ends |
| `ExpendituresList.ExpendituresPage.HandleSort` | src/pages/expenditures/index.tsx:79-86 | the sort follows `NextSort` and nothing else changes |
| `ExpendituresList.ExpendituresPage.HandleFilterChange` | src/pages/expenditures/index.tsx:89-92 | replaces the filters and returns to page 1, so the next request skips no rows |
| `ExpendituresList.ExpendituresPage.HandlePageChange` | src/pages/expenditures/index.tsx:95-97 | sets the page only |
| `ExpendituresList.ExpendituresPage.HandleLimitChange` | src/pages/expenditures/index.tsx:99-102 | sets the limit and returns to page 1, so the next request skips no rows |
| `ExpendituresList.ExpendituresPage.ResetFilters` | src/pages/expenditures/index.tsx:262-271 | the filters return to the user's initial filters |
| `Dashboard.Guard` | src/pages/dashboard.tsx:36-41 | a signed-in non-Admin is sent to /assets |
| `Dashboard.FromInput` | src/pages/dashboard.tsx:108 | an emptied select or date input clears its filter; anything else sets it |
| `Dashboard.InputRoundTrip` | src/pages/dashboard.tsx:107-108 | showing a filter and reading it back is the identity, both ways; an input never yields an empty set filter |
| `Dashboard.InitialBaseFilter` | src/pages/dashboard.tsx:27-29 | a base commander starts filtered to the assigned base, everyone else unfiltered |
| `Dashboard.Query` | src/pages/dashboard.tsx:49-55 | each filter reaches the request exactly when truthy, unchanged |
| `Dashboard.InitialQueryScope` | src/pages/dashboard.tsx:27-55 | the first request of a base commander with a base is scoped to that base; everyone else's covers all bases |
| `Dashboard.CardValues` | src/pages/dashboard.tsx:166-189 | the four cards show the loaded figures in order, or zeros without data |
| `Dashboard.DashboardPage.constructor` | src/pages/dashboard.tsx:27-33 | the page starts loading, with the initial base filter and no other filter |
| `Dashboard.DashboardPage.ViewFor` | src/pages/dashboard.tsx:81 | the loading screen exactly while loading |
| `Dashboard.DashboardPage.RequestParams` | src/pages/dashboard.tsx:44-55 | only an Admin builds a request, and it is the query of the current filters |
| `Dashboard.DashboardPage.StartFetch` | src/pages/dashboard.tsx:68-72 | the fetch runs only for an Admin and starts loading |
| `Dashboard.DashboardPage.FinishFetch` | src/pages/dashboard.tsx:57-64 | a reply replaces the data; a failure keeps it; loading ends |
| `Dashboard.DashboardPage.ApplyCommanderBase` | src/pages/dashboard.tsx:75-79 | a base commander with a base is filtered to it; nothing changes otherwise |
| `Dashboard.DashboardPage.SelectBase` | src/pages/dashboard.tsx:108 | sets the base filter from the select |
| `Dashboard.DashboardPage.SelectAssetType` | src/pages/dashboard.tsx:126 | sets the asset-type filter from the select |
| `Dashboard.DashboardPage.SetStartDate` | src/pages/dashboard.tsx:146-148 | sets the start date and keeps the end date |
| `Dashboard.DashboardPage.SetEndDate` | src/pages/dashboard.tsx:155-157 | sets the end date and keeps the start date |
| `Inventory.FindById` | src/pages/expenditures/new.tsx:85 | `find` by id yields a listed asset with that id, and nothing exactly when no listed asset has it |
| `Inventory.FindByIdIsFirst` | src/pages/expenditures/new.tsx:151 | `find` yields the first asset with the id |
| `Inventory.AtBase` | src/pages/expenditures/new.tsx:78 | the filter keeps exactly the assets of the base |
| `Inventory.AtBaseAppend` | src/pages/expenditures/new.tsx:78 | the base filter distributes over concatenation |
| `Inventory.VisibleAssets` | src/pages/expenditures/new.tsx:75-79 | a user with a home base sees exactly the assets of that base; anyone else sees all of them |
| `Inventory.Preselect` | src/pages/expenditures/new.tsx:84-91 | a preselected asset is listed and has the URL's id; one is found whenever a listed asset has that id |
| `Forms.PersonErrors` | src/pages/expenditures/new.tsx:32-36 | name, rank and id of a person are each rejected exactly when empty |
| `Forms.NoPersonRejected` | src/pages/expenditures/new.tsx:112-116 | the empty person fails on all three parts |
| `Forms.PositiveWholeIsCount` | src/pages/expenditures/new.tsx:27-30 | an accepted quantity is a whole number of at least 1 |
| `Forms.SyncedBaseFromList` | src/pages/expenditures/new.tsx:150-158 | the effect's base is the old one or a listed asset's base, and stays put when no listed asset has the id |
| `Forms.SyncKeepsHomeBase` | src/pages/assignments/new.tsx:155-164 | for a user narrowed to a home base, the effect never moves the base off it |
| `ExpenditureForm.SchemaErrors` | src/pages/expenditures/new.tsx:24-45 | each field is rejected exactly when its rule fails; the operation name is required exactly for an Operation or Training reason; location and notes are never checked |
| `ExpenditureForm.AcceptedForm` | src/pages/expenditures/new.tsx:24-45 | an accepted form has every required field, a whole quantity of at least 1, and an operation name for an operation or training |
| `ExpenditureForm.FreeTextIgnored` | src/pages/expenditures/new.tsx:43-44 | for a reason other than Operation or Training, the operation name, location and notes never change the verdict |
| `ExpenditureForm.OperationNeedsName` | src/pages/expenditures/new.tsx:38-42 | switching to an Operation or Training reason with no name adds exactly the operation-name error |
| `ExpenditureForm.Guard` | src/pages/expenditures/new.tsx:58-63 | only a signed-in user with an unknown role is refused, and is sent to /expenditures |
| `ExpenditureForm.InitialValues` | src/pages/expenditures/new.tsx:107-121 | the URL's asset, the commander's base, quantity 1, today, everything else empty |
| `ExpenditureForm.InitialValuesRejected` | src/pages/expenditures/new.tsx:107-121 | the starting form fails on the reason and the person, but not on the quantity or the operation name |
| `ExpenditureForm.NewExpenditurePage.constructor` | src/pages/expenditures/new.tsx:51-55 | the page starts loading with no assets, no selection and the initial values |
| `ExpenditureForm.NewExpenditurePage.ViewFor` | src/pages/expenditures/new.tsx:161-165 | nothing exactly for a refused user; the form exactly for an admitted user after loading |
| `ExpenditureForm.NewExpenditurePage.StartFetch` | src/pages/expenditures/new.tsx:101-104 | the asset fetch runs exactly with a signed-in user |
| `ExpenditureForm.NewExpenditurePage.AssetsLoaded` | src/pages/expenditures/new.tsx:75-91 | the list is the commander's visible assets; a preselected asset puts its id and base in the form; the page invariant holds |
| `ExpenditureForm.NewExpenditurePage.AssetsFailed` | src/pages/expenditures/new.tsx:93-98 | a failed fetch ends loading and changes nothing else |
| `ExpenditureForm.NewExpenditurePage.SyncSelectedAsset` | src/pages/expenditures/new.tsx:150-158 | the selection becomes the listed asset with the form's id, and the form's base follows it; the invariant holds |
| `ExpenditureForm.NewExpenditurePage.ChooseAsset` | src/pages/expenditures/new.tsx:206 | picking an asset in the unlocked select sets it, selects it and syncs the base |
| `ExpenditureForm.NewExpenditurePage.ChooseBase` | src/pages/expenditures/new.tsx:236 | the base can only be picked while its select is unlocked, and then only the base changes |
| `ExpenditureForm.NewExpenditurePage.EditDetails` | src/pages/expenditures/new.tsx:106-122 | typing in the other fields replaces them and keeps the invariant |
| `ExpenditureForm.NewExpenditurePage.StartSubmit` | src/pages/expenditures/new.tsx:123-125 | the create request is sent exactly when the schema passes |
| `ExpenditureForm.NewExpenditurePage.FinishSubmit` | src/pages/expenditures/new.tsx:126-146 | the outcome is the create outcome for /expenditures, and submitting ends |
| `AssignmentForm.SchemaErrors` | src/pages/assignments/new.tsx:35-51 | each field is rejected exactly when its rule fails; the end date and notes are never checked |
| `AssignmentForm.AcceptedForm` | src/pages/assignments/new.tsx:35-51 | an accepted form has every required field and a whole quantity of at least 1 |
| `AssignmentForm.OptionalFields` | src/pages/assignments/new.tsx:49-50 | end date and notes never change the verdict |
| `AssignmentForm.Guard` | src/pages/assignments/new.tsx:64-69 | a signed-in user who is neither Admin nor base commander is sent to /assignments |
| `AssignmentForm.InitialValues` | src/pages/assignments/new.tsx:113-127 | the URL's asset, the commander's base, quantity 1, today, everything else empty |
| `AssignmentForm.InitialValuesRejected` | src/pages/assignments/new.tsx:113-127 | the starting form fails on the purpose and the person, but not on the quantity |
| `AssignmentForm.NewAssignmentPage.constructor` | src/pages/assignments/new.tsx:57-61 | the page starts loading with no assets, no selection and the initial values |
| `AssignmentForm.NewAssignmentPage.ViewFor` | src/pages/assignments/new.tsx:167-169 | nothing exactly for a refused user; the form exactly for an admitted user after loading |
| `AssignmentForm.NewAssignmentPage.StartFetch` | src/pages/assignments/new.tsx:108-110 | the asset fetch runs exactly with a signed-in user |
| `AssignmentForm.NewAssignmentPage.AssetsLoaded` | src/pages/assignments/new.tsx:82-98 | the list is the commander's visible assets; a preselected asset puts its id and base in the form; the page invariant holds |
| `AssignmentForm.NewAssignmentPage.AssetsFailed` | src/pages/assignments/new.tsx:100-105 | a failed fetch ends loading and changes nothing else |
| `AssignmentForm.NewAssignmentPage.SyncSelectedAsset` | src/pages/assignments/new.tsx:155-164 | the selection becomes the listed asset with the form's id, and the form's base follows it |
| `AssignmentForm.NewAssignmentPage.ChooseAsset` | src/pages/assignments/new.tsx:212 | picking an asset in the unlocked select sets it, selects it and syncs the base |
| `AssignmentForm.NewAssignmentPage.ChooseBase` | src/pages/assignments/new.tsx:242 | the base can only be picked while its select is unlocked |
| `AssignmentForm.NewAssignmentPage.EditDetails` | src/pages/assignments/new.tsx:113-128 | typing in the other fields replaces them and keeps the invariant |
| `AssignmentForm.NewAssignmentPage.StartSubmit` | src/pages/assignments/new.tsx:129-131 | the create request is sent exactly when the schema passes |
| `AssignmentForm.NewAssignmentPage.FinishSubmit` | src/pages/assignments/new.tsx:132-152 | the outcome is the create outcome for /assignments, and submitting ends |
| `PurchaseForm.SchemaErrors` | src/pages/purchases/new.tsx:30-45 | each field is rejected exactly when its rule fails; the unit cost must be positive, the quantity a positive whole number |
| `PurchaseForm.OptionalFields` | src/pages/purchases/new.tsx:43-44 | invoice number and notes never change the verdict |
| `PurchaseForm.Guard` | src/pages/purchases/new.tsx:58-63 | a signed-in user who is neither Admin nor logistics officer is sent to /purchases |
| `PurchaseForm.InitialValues` | src/pages/purchases/new.tsx:107-118 | the officer's base, quantity 1, unit cost 0, today, everything else empty |
| `PurchaseForm.InitialUnitCostRejected` | src/pages/purchases/new.tsx:114 | the starting unit cost of 0 fails the schema even with everything else filled in; the starting quantity passes |
| `PurchaseForm.TotalCostOfAccepted` | src/pages/purchases/new.tsx:147 | for an accepted form the total is quantity times unit cost, positive and at least the unit cost |
| `PurchaseForm.TotalCostZero` | src/pages/purchases/new.tsx:147 | an emptied figure makes the total 0, and the starting form shows 0 |
| `PurchaseForm.NewPurchasePage.constructor` | src/pages/purchases/new.tsx:51-55 | the page starts loading with no assets, no selection and the initial values |
| `PurchaseForm.NewPurchasePage.ViewFor` | src/pages/purchases/new.tsx:150-154 | nothing exactly for a refused user; the form exactly for an admitted user after loading |
| `PurchaseForm.NewPurchasePage.StartFetch` | src/pages/purchases/new.tsx:102-105 | the asset fetch runs exactly with a signed-in user |
| `PurchaseForm.NewPurchasePage.AssetsLoaded` | src/pages/purchases/new.tsx:75-92 | the list is the officer's visible assets; a preselected asset copies its name, type and base into the form; the officer's base is kept |
| `PurchaseForm.NewPurchasePage.AssetsFailed` | src/pages/purchases/new.tsx:94-99 | a failed fetch ends loading and changes nothing else |
| `PurchaseForm.NewPurchasePage.Edit` | src/pages/purchases/new.tsx:248 | typing replaces the values; a locked base select cannot change the base |
| `PurchaseForm.NewPurchasePage.StartSubmit` | src/pages/purchases/new.tsx:120-122 | the create request is sent exactly when the schema passes |
| `PurchaseForm.NewPurchasePage.FinishSubmit` | src/pages/purchases/new.tsx:123-143 | the outcome is the create outcome for /purchases, and submitting ends |
| `AssetForm.SchemaErrors` | src/pages/assets/new.tsx:13-20 | name, type and base are rejected exactly when empty, and the opening balance exactly when missing or negative |
| `AssetForm.Guard` | src/pages/assets/new.tsx:29-34 | a signed-in user who is neither Admin nor logistics officer is sent to /assets |
| `AssetForm.InitialValues` | src/pages/assets/new.tsx:37-43 | the officer's base, an opening balance of 0, no name and no type |
| `AssetForm.InitialErrors` | src/pages/assets/new.tsx:37-43 | the starting form fails on name and type, and on the base exactly when the select is not locked |
| `AssetForm.LockedBaseIsHome` | src/pages/assets/new.tsx:155 | a locked base select holds the officer's assigned base, which passes the schema |
| `AssetForm.Submit` | src/pages/assets/new.tsx:45-63 | nothing is sent unless the schema passes; a created asset navigates to its page; a rejection shows a non-empty toast |
| `AssetForm.RendersIffAdmitted` | src/pages/assets/new.tsx:68-71 | the page renders exactly for the users its guard admits |
| `Notifications.Kept` | src/components/notifications/NotificationsDropdown.tsx:12 | `filter(Boolean)` keeps exactly the non-empty strings and never grows |
| `Notifications.WordsOfClassNames` | src/components/notifications/NotificationsDropdown.tsx:11-13 | splitting the joined class names at spaces gives back the classes, so `classNames` loses nothing |
| `Notifications.EmptyClassesIgnored` | src/components/notifications/NotificationsDropdown.tsx:11-13 | an empty class anywhere in the arguments leaves the result unchanged |
| `Notifications.KeptAppend` | src/components/notifications/NotificationsDropdown.tsx:12 | `filter(Boolean)` distributes over concatenation |
| `Notifications.GetIcon` | src/components/notifications/NotificationsDropdown.tsx:18-30 | success gets the check icon, error and warning the exclamation icon, every other type the info icon |
| `Notifications.IconsTellTypesApart` | src/components/notifications/NotificationsDropdown.tsx:20-25 | the three named types get three different icons |
| `Notifications.Render` | src/components/notifications/NotificationsDropdown.tsx:36-49 | "Mark all as read" is offered exactly for a non-empty list, and "No notifications" shows exactly for an empty one |
| `Notifications.RowsFollowNotifications` | src/components/notifications/NotificationsDropdown.tsx:52-87 | one row per notification in order, with its texts and icon, the unread dot exactly when unread, and a click marking it read by id |
| `Notifications.RowClassWords` | src/components/notifications/NotificationsDropdown.tsx:56-60 | a row's classes are the highlight exactly when active, then the dimming exactly when read, then the fixed classes |
| `Notifications.OptionalClassesWords` | src/components/notifications/NotificationsDropdown.tsx:56-60 | `classNames(c1 ? x : '', c2 ? y : '', z)` splits into x exactly when c1, then y exactly when c2, then z's pieces |
| `Navigation.GuardsFollowTable` | src/pages/assignments/new.tsx:64-69 | cross-page, covering the seven guards (dashboard.tsx:36-41, settings/index.tsx:35-40, activity-logs/index.tsx:66-71, expenditures/new.tsx:58-63, assignments/new.tsx:64-69, purchases/new.tsx:58-63, assets/new.tsx:29-34): every page's guard agrees with one table of allowed roles and fallbacks, and no guard fires without a user |
| `Navigation.AdminEverywhereUnknownNowhere` | src/pages/dashboard.tsx:36-41 | an Admin passes every guard; an unknown role passes only the unrestricted pages |
| `Navigation.GuardRedirectsSettle` | src/pages/dashboard.tsx:36-41 | at most two guard redirects reach an admitting page; no guard sends a user back to the same page or to a public path; for non-Admins this assumes /assets, outside the model, runs no guard |
| `Navigation.LandingAdmits` | src/pages/login.tsx:39-43 | the page login lands on admits the user who signed in, and the auth gate leaves them there; for non-Admins, who land on /assets, this assumes that page (outside the model) runs no guard, and that the store the gate reads is signed in once the context's `login` returns |

## Left out

- HTTP services (asset, expenditure, purchase, assignment, dashboard, activity-log and
  auth calls) are not part of this model: their replies are method parameters
  (`Reply`, `LoginReply`, `Option<Summary>`, the loaded asset list).
- Timers, promises and React effect scheduling are left out: each effect is a method
  the caller invokes. Effect order and the batching of `setFieldValue` are not modelled.
- The assignment page's fetch effect lists `formik` among its dependencies
  (src/pages/assignments/new.tsx:111), but `formik` is a `const` declared after it
  (src/pages/assignments/new.tsx:113). Evaluating that array during render reads the
  constant before its declaration: a `ReferenceError`, or `undefined` on every render
  if the code is compiled down to `var`. The model's `AssignmentForm` page runs the
  effect as though the dependency list were `[assetId, user]`.
- Formik internals (`touched`, the `isValid` lifecycle) are left out. A form's
  validity is the set of fields its schema rejects, and only the handler Formik
  runs on a valid submit is modelled.
- Which of several Yup messages shows for one field is left out; the model states
  which fields are rejected. The user form, which builds its messages itself, is
  modelled with its messages.
- Yup date casting is left out: a date field is rejected exactly when it is the
  empty string. The assignment form's nullable end date is treated as never rejected.
- `new Date(...).toISOString()` and date-fns formatting are foreign and locale-dependent.
  The activity-log request keeps the raw date in `IsoDate(raw)`, and shown timestamps
  are not modelled.
- JavaScript numbers are modelled as `real`. The floating-point rounding of `totalCost`
  is not modelled, and an emptied number input is `None`.
- `localStorage` is a boolean parameter of `Login.Resolve` (token stored or not).
- Only some toasts are modelled, as values the methods return: the settings page's
  add, remove and maintenance toasts (`Toast`), the password-change success and error
  toasts (`Profile.ProfilePage.FinishSubmit`), the login error (`Login.Resolve`'s
  `ShowError`), and the create forms' error toasts (`ApiErrors.CreateOutcome`'s
  `ErrorToast`, `AssetForm.Submit`).
- These toasts are not modelled: the guards' permission toasts (e.g.
  src/pages/assignments/new.tsx:66; `Guards.Check` returns only the redirect),
  'Login successful' (src/pages/login.tsx:36; `Login.Resolve`'s `Replace` carries no
  text), the create forms' success toasts (e.g. src/pages/purchases/new.tsx:134;
  `Navigate` carries only the path), and the fetch-failure toasts
  (src/pages/activity-logs/index.tsx:99, src/pages/expenditures/index.tsx:67,
  src/pages/dashboard.tsx:61, and 'Failed to load assets' in the three new-record
  pages, e.g. src/pages/purchases/new.tsx:96).
- The notification store (`addNotification`, `markAsRead`, `markAllAsRead`) is not
  part of this model; the dropdown only returns which action a click asks for.
- Two authentication flags are taken to be one. The layout
  (src/components/layout/Layout.tsx:13) and login (src/pages/login.tsx:18) use the
  auth context's `useAuth()`, while the shell's gate reads the auth store's
  `useAuthStore()` (src/pages/_app.tsx:15). The auth context and the auth store are
  not part of this model, so nothing here shows that the two `isAuthenticated` flags
  agree. `Layout.NavigationOnlyWhereGateStays`, `Layout.SettledFrame` and
  `Navigation.LandingAdmits` assume they always do. Without that, the navigation
  could show while the gate redirects, and the gate could still see a signed-out
  store right after a sign-in.
- The signed-in user is fixed when a page mounts: each page class holds `user` as a
  constant. In the source the `useAuth()` user can arrive after the first render,
  while Formik reads `initialValues` only once (e.g. src/pages/expenditures/new.tsx:109).
  A commander or logistics officer whose user arrives late therefore starts with base
  '', a state the form pages' `Valid()` invariants exclude and the model does not reach.
- A response body's `error` and `message` are strings here, with a missing or
  non-string value read as ''. A truthy non-string value (a number, an object), which
  `||` would pass on to the toast, is not modelled.
- Strings are sequences of characters, not UTF-16 code units, so lengths (`length < 3`,
  `min(8)`) count characters outside the Basic Multilingual Plane once rather than twice.
- An array-valued `?asset=` query parameter is not modelled; the parameter is an
  optional string.
- The assignment page's fetch filter `status: 'Available'` and the `limit: 100` of the
  asset fetches are request details of the unmodelled services.
- The /assets, /assignments and /purchases list pages are not part of this model;
  `Navigation` treats them as running no guard.
- The settings page's general fields (`systemName`, `organizationName`,
  `defaultCurrency`, `theme`, `dateFormat`, `timeFormat`, `timezone`,
  `emailNotifications`) are held in `Settings.SystemSettings`, but their input
  handlers (src/pages/settings/index.tsx:206-331) are not modelled. Each handler
  replaces one field of the record and touches neither list, so `Valid()` is not
  affected.
- The settings page's `handleSaveSettings`, its `activeTab`, the profile page's
  `activeTab`, and the expenditure list's `showFilters` only switch what is displayed;
  they are not modelled.
- The activity-log summary fetch (`Promise.all` of four summary calls) is left out; its
  data only feeds charts.
- Pagination widgets, charts, tables, cards and all other markup are presentation;
  only the class strings the pages compute from data are modelled.
- `Queries.OrderName` (the 'asc'/'desc' text of a sort order) carries no contract of its own.
- The shell's `loading` flag and the store's `isInitialized` differ: the gate follows
  the code and waits only on `loading`; store initialisation is not part of this model.
