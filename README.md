# Smart bin stream — a Dafny model of its decision rules

The system is a dashboard for IoT waste bins. Devices post two sensor values
to a `device-update` edge function, which stores a fill reading. New accounts
get a role from an `assign-role` edge function. React screens validate forms,
classify fill levels, scope lists by role and institution, and write dustbin rows.

This project models those rules. The hosted database tables are abstract state:
- `dustbins`, `readings`, `user_roles`, `audit_logs` are `seq`s of row
  datatypes, held in classes that the handlers update.
- Each remote call (database query, auth call, function invocation) is a
  parameter. It stands for the call's success or its error message.
- The calls a page makes are logged as datatype values, so contracts can say
  which calls happen and in what order.

Modules follow the source files:

| module | source |
|---|---|
| `Common`, `Tables` | shared values: roles, toasts, the password character classes, JavaScript's string length and falsiness, the edge functions' catch rule, row types, an order-preserving filter |
| `DeviceUpdate` | `supabase/functions/device-update/index.ts` |
| `AssignRole` | `supabase/functions/assign-role/index.ts` |
| `Auth` | `src/lib/auth.tsx` (`signUp`) |
| `SignupPage` | `src/pages/Signup.tsx` |
| `ProfilePage` | `src/pages/Profile.tsx` |
| `DustbinList` | `src/components/dustbins/DustbinList.tsx` |
| `DustbinMap` | `src/components/dustbins/DustbinMap.tsx` |
| `DustbinDialog` | `src/components/dustbins/DustbinDialog.tsx` |
| `UserManagement` | `src/components/management/UserManagement.tsx` |
| `Dashboard` | `src/pages/Dashboard.tsx` |

The `device-update` handler checks the fields, clamps the average, looks up
one dustbin by its `dustbin_id` column and inserts one reading.

A note on `latestFillPercentage`: the views take the first embedded reading.
Their query orders only the dustbins (`.order('created_at')`), not the
embedded readings. So "latest" means whichever reading the store returns
first. The model keeps this as written: `LatestFill` takes the head of the
sequence as returned.

## Model

| member | source | states |
|---|---|---|
| `DeviceUpdate.FillPercentage` | supabase/functions/device-update/index.ts:29-30 | the fill percentage always lies in [0,100]; it equals the sensor average when that is in range, 0 below and 100 above |
| `DeviceUpdate.FillPercentageSymmetric` | supabase/functions/device-update/index.ts:29 | swapping the two sensor values gives the same fill percentage |
| `DeviceUpdate.Matches` | supabase/functions/device-update/index.ts:33-37 | the lookup selects exactly the dustbins whose `dustbin_id` column equals the reported id |
| `DeviceUpdate.Ingest` | supabase/functions/device-update/index.ts:8-67 | 400 iff `dustbin_id` is falsy or a sensor is absent, and then no lookup and no insert (a sensor of 0 counts as present); the lookup runs iff validation passed; 404 iff the lookup fails or does not find exactly one row, and then no insert; a failed insert gives 500 and no row, with the thrown error's message or "Unknown error" when that error is not an `Error` instance; 200 iff exactly one reading is appended, for the matched row's `id` with the raw values and the fill percentage the body reports; an unparsable body gives 500 with the parse error's message; a preflight touches nothing |
| `DeviceUpdate.TelemetryStore.HandleDeviceUpdate` | supabase/functions/device-update/index.ts:19-58 | the handler's response and its append to `readings` are those of `Ingest`; it keeps every stored reading within [0,100] and attached to an existing dustbin |
| `AssignRole.Assign` | supabase/functions/assign-role/index.ts:8-67 | 400 with no rows iff `userId` is falsy; a failed role query or role insert gives 500 (the thrown error's message, or "Unknown error" when it is not an `Error` instance) and inserts nothing; on success the role is `superuser` iff `user_roles` was empty and `user` otherwise, exactly one `(userId, role)` row is added, and the audit row (`role_assigned`, `user_role`, resource id = userId, details role = role) is added unless its insert failed |
| `AssignRole.RequestedRoleIgnored` | supabase/functions/assign-role/index.ts:19 | a role requested in the body (the admin dialog sends `admin`) changes nothing in the outcome |
| `AssignRole.AuditFailureInvisible` | supabase/functions/assign-role/index.ts:47-58 | a failed audit insert changes neither the response nor the role row |
| `AssignRole.NonEmptyAssignsUser` | supabase/functions/assign-role/index.ts:37 | once `user_roles` holds a row, every later successful call assigns `user` |
| `AssignRole.LaterCallsAssignUser` | supabase/functions/assign-role/index.ts:37-44 | in a sequential run, after one successful call every later successful call assigns `user` |
| `AssignRole.RoleStore.HandleAssignRole` | supabase/functions/assign-role/index.ts:19-58 | the handler's response and its appends to `user_roles` and `audit_logs` are those of `Assign`; it keeps "only the first role row can be a superuser" and "every audit row records a role that a role row holds" |
| `Common.JsLengthOfPlanes` | src/lib/auth.tsx:53 | a password's `length` is its number of UTF-16 code units: its character count when every character is in the Basic Multilingual Plane, twice that when none is |
| `Auth.PasswordPolicyError` | src/lib/auth.tsx:53-61 | a password shorter than 8 UTF-16 code units gets the length message; one of length 8 or more without a digit gets the number message; one with both but no `!@#$%^&*` gets the special-character message; it passes iff all three hold |
| `Auth.AstralCharactersCountTwice` | src/lib/auth.tsx:53-61 | four emoji, a digit and `!` (six characters, ten code units) pass the policy |
| `Auth.SignUp` | src/lib/auth.tsx:51-87 | a policy failure returns its message before any remote call; otherwise account creation comes first and the returned error is exactly its error; the `assign-role` call is made iff a user came back without an error, and its body carries only that user's id |
| `Auth.NoAccountForWeakPassword` | src/lib/auth.tsx:53-73 | account creation is requested iff the password meets the policy |
| `SignupPage.FormError` | src/pages/Signup.tsx:37-62 | an empty email, username, password or confirmation gives the required-fields message; then a mismatch gives "Passwords do not match"; then a password shorter than 6 UTF-16 code units is rejected; the form passes iff none applies |
| `SignupPage.Submit` | src/pages/Signup.tsx:37-65 | a validation failure makes no `signUp` call; otherwise `signUp` gets the fields, and the institution is passed through as chosen, empty included |
| `SignupPage.EffectiveMinimumIsEight` | src/pages/Signup.tsx:55-65 | a confirmed password of 6 or 7 UTF-16 code units passes the form but `signUp` rejects it with the 8-character message, and no account is requested |
| `SignupPage.AccountRequestedOnlyForStrongPassword` | src/pages/Signup.tsx:37-65 | a submission requests an account iff the fields are filled, the confirmation matches and the password meets the 8-character, digit and special-character policy |
| `SignupPage.SignupForm.HandleSubmit` | src/pages/Signup.tsx:34-81 | a validation failure only adds a toast and leaves `loading` and everything else unchanged; otherwise the `signUp` calls are made; an error shows a "Signup Failed" toast and clears `loading`; success shows "Account Created" and navigates to `/login` |
| `ProfilePage.NewPasswordError` | src/pages/Profile.tsx:62-73 | a non-empty new password is checked for its confirmation, then a length of 8 UTF-16 code units, then digit and special character together |
| `ProfilePage.UpdateProfile` | src/pages/Profile.tsx:38-104 | the username write is always attempted, and first; there is always a final toast; it takes no current password, so that field is never consulted |
| `ProfilePage.EmailWrittenOnlyWhenChanged` | src/pages/Profile.tsx:52-59 | the email is written iff the username write succeeded and the email differs from the account's |
| `ProfilePage.PasswordWrittenOnlyAfterChecks` | src/pages/Profile.tsx:61-79 | an empty new password skips every password check and write; a non-empty one is written iff the earlier writes succeeded and it passes its checks; the password counts as updated iff that write succeeded |
| `ProfilePage.RejectedPasswordLeavesPartialUpdate` | src/pages/Profile.tsx:44-73 | a rejected new password is reported after the username (and a changed email) were already written |
| `ProfilePage.SuccessIffNoStepFailed` | src/pages/Profile.tsx:44-100 | the final toast is "Profile updated successfully" iff no step failed |
| `ProfilePage.RunUpdate` | src/pages/Profile.tsx:42-100 | the steps run in order and each failure ends the update: the calls made, the toasts shown and whether the password changed are exactly those of `UpdateProfile` |
| `ProfilePage.ProfileForm.HandleUpdateProfile` | src/pages/Profile.tsx:38-104 | the page's calls and toasts are those of `UpdateProfile`; `loading` ends false; the three password fields are cleared iff the password update succeeded |
| `DustbinList.FillLevelColor` | src/components/dustbins/DustbinList.tsx:113-117 | success below 50, warning for 50 up to 75, danger from 75 |
| `DustbinList.FillLevelBadge` | src/components/dustbins/DustbinList.tsx:119-123 | Low below 50, Medium for 50 up to 75, High from 75 |
| `DustbinList.FillBarMatchesBadge` | src/components/dustbins/DustbinList.tsx:186-192 | the fill bar's inline class is always the badge's class, so it uses the same three ranges |
| `DustbinList.ClassifiersAgree` | src/components/dustbins/DustbinList.tsx:113-123 | the text colour and the badge always name the same level |
| `DustbinList.SeverityMonotone` | src/components/dustbins/DustbinList.tsx:113-117 | a higher fill is never shown at a lower severity |
| `DustbinList.LatestFill` | src/components/dustbins/DustbinList.tsx:51-56 | the first embedded reading's fill percentage, or 0 when there is none |
| `DustbinList.WithLatestFill` | src/components/dustbins/DustbinList.tsx:51-57 | each dustbin, in order, carries its `LatestFill` value |
| `DustbinList.InstitutionScope` | src/components/dustbins/DustbinList.tsx:42-44 | an admin whose profile has an institution sees exactly that institution's dustbins; anyone else sees all |
| `DustbinList.InstitutionScopeKeepsOrder` | src/components/dustbins/DustbinList.tsx:39-44 | scoping keeps the query's order |
| `DustbinList.Toggled` | src/components/dustbins/DustbinList.tsx:130-140 | toggling flips the membership of the given id and of no other |
| `DustbinList.ToggleTwiceRestores` | src/components/dustbins/DustbinList.tsx:130-140 | toggling the same id twice restores the set |
| `DustbinList.ListView.FetchDustbins` | src/components/dustbins/DustbinList.tsx:30-69 | on success the list is the scoped rows with their latest fill; on error a toast is added and the list is kept; `loading` ends false |
| `DustbinList.ListView.ToggleApiKeyVisibility` | src/components/dustbins/DustbinList.tsx:130-140 | the visible-key set becomes `Toggled` of the old one |
| `DustbinMap.IconColor` | src/components/dustbins/DustbinMap.tsx:18-22 | green below 50, yellow for 50 up to 75, red from 75 |
| `DustbinMap.MapAgreesWithList` | src/components/dustbins/DustbinMap.tsx:18-22 | the marker colours partition fill levels exactly as the list's classification does |
| `DustbinMap.CenterStaysInBox` | src/components/dustbins/DustbinMap.tsx:109-113 | with no dustbins the centre keeps its value; otherwise the mean position lies inside any box that holds every dustbin |
| `DustbinMap.MapView.FetchDustbins` | src/components/dustbins/DustbinMap.tsx:80-121 | on success the markers are the list view's scoped rows with their latest fill (first reading or 0) and the centre follows them; on error a toast is added and nothing else changes |
| `DustbinMap.MapView.HandleUpdatePosition` | src/components/dustbins/DustbinMap.tsx:142-163 | the write changes only the latitude and longitude of the rows with that id, and no other row; a store error adds an error toast and changes no row |
| `DustbinMap.NextCenter` | src/components/dustbins/DustbinMap.tsx:109-113 | with no dustbins the centre keeps its value; otherwise each coordinate is the mean of the dustbins' coordinates |
| `DustbinMap.MapView.HandleDragEnd` | src/components/dustbins/DustbinMap.tsx:39-45 | a drag writes only when the map is editable and the marker is mounted, and then only that dustbin's position, adding "Dustbin location updated" on success or an error toast with the store's message on failure; otherwise nothing changes |
| `DustbinDialog.DialogForm.ResetForm` | src/components/dustbins/DustbinDialog.tsx:47-53 | every field is emptied, except that an admin with a profile institution gets that institution |
| `DustbinDialog.DialogForm.Load` | src/components/dustbins/DustbinDialog.tsx:29-40 | an edited dustbin's values fill the form; otherwise the form is reset |
| `DustbinDialog.DialogForm.HandleSubmit` | src/components/dustbins/DustbinDialog.tsx:55-100 | an empty dustbin id, institution, latitude or longitude gives a validation toast and no store write; an empty location name is stored as null; in edit mode only the rows with the edited id are rewritten, otherwise exactly one row is appended; on success `onSuccess` runs, the dialog closes and the form resets; on a store error the form keeps its values |
| `UserManagement.RoleMap` | src/components/management/UserManagement.tsx:61 | a user id has an entry iff some role row carries it |
| `UserManagement.LastEntryWins` | src/components/management/UserManagement.tsx:61 | for duplicate user ids the last role row wins |
| `UserManagement.NoRoleRowMeansUser` | src/components/management/UserManagement.tsx:62-65 | a profile without a role row is shown as `user` |
| `UserManagement.ScopeProfiles` | src/components/management/UserManagement.tsx:44-48 | an admin's or supervisor's query keeps exactly the profiles of their institution, when they have one |
| `UserManagement.ViewerFilter` | src/components/management/UserManagement.tsx:67-76 | an admin keeps exactly the `user`s, a supervisor (not admin) exactly the `admin`s, anyone else everyone |
| `UserManagement.FetchUsers` | src/components/management/UserManagement.tsx:32-88 | a query error is reported, the profiles query's first; otherwise every listed user comes from the profiles with its joined role, within the viewer's institution, and only `user`s for an admin or `admin`s for a supervisor; with neither flag all joined profiles are kept |
| `UserManagement.ViewerFilterKeepsOrder` | src/components/management/UserManagement.tsx:67-76 | the listed users are an order-preserving subsequence of the joined profiles |
| `UserManagement.CanEdit` | src/components/management/UserManagement.tsx:153 | the controls show iff the viewer is a superuser, or a supervisor and the target an admin, or an admin and the target a user; below a superuser nobody edits a superuser or a supervisor |
| `UserManagement.ListedUsersAreEditable` | src/components/management/UserManagement.tsx:153 | every user listed to an admin or a supervisor shows the edit and delete controls |
| `Dashboard.Render` | src/pages/Dashboard.tsx:21-43 | while the session or the role loads only the spinner renders; without a user nothing renders; otherwise superuser, admin and user each get their own dashboard, a missing role gets "No Role Assigned", and at most one panel shows |
| `Dashboard.SupervisorSeesNothing` | src/pages/Dashboard.tsx:33-43 | `supervisor`, a valid database role, matches no branch and renders an empty page |
| `Dashboard.RedirectOnlyWithoutUser` | src/pages/Dashboard.tsx:15-29 | the redirect to `/login` fires whenever the session has loaded without a user, whatever the role's loading state: the page then shows the spinner while the role loads and nothing otherwise; an empty page always comes with the redirect |

## Left out

- Network, HTTP and CORS plumbing, and the Supabase client. Each query,
  insert, update, auth call and function invocation is a parameter carrying
  its success or its error. In the edge functions that error is a `Thrown`
  value: an `Error` instance with its message, or any other value, for which
  the catch block answers 500 "Unknown error". Whether the client library's
  query errors are `Error` instances depends on its version, which is not
  part of this model; the model leaves it to that parameter.
- Floating point. Sensor values, coordinates and fill percentages are `real`.
  `parseFloat` of a non-numeric string (NaN), a `null` sensor value (which
  passes the `undefined` check) and non-string `dustbin_id` values are not
  modelled. `Math.round` and `toFixed` in the display are not modelled. The
  dialog takes `parseFloat` and the coordinate-to-text conversion as function
  parameters.
- The concurrency race in `assign-role`, where two simultaneous first users can
  both become superuser. Calls are modelled one at a time.
- Signature, nonce, timestamp, rate-limit and anomaly checks, device logs,
  and `last_seen`/firmware updates. The handler does none of them. The
  `verify_device_signature` database function is not part of this model.
- `AuthProvider`'s session listeners, `signIn`, `signOut`, the `useUserRole`
  hook and the realtime subscriptions. They are session and I/O plumbing; the
  model takes the role, the profile's institution and the loading flags as inputs.
- The multi-call flow of the admin dialog (`AddAdminDialog.tsx`), beyond its
  `role: 'admin'` field, which `RequestedRoleIgnored` shows has no effect.
- Deleting dustbins, copying to the clipboard, and the refetch that follows a
  successful write. These are remote calls or browser I/O with no decision logic.
- Markup-only files: the dashboards, the layout, the index, about, map and
  dustbin pages.
- `DustbinMap.MapView.FetchDustbins`: the centre is the exact mean of the
  coordinates; rounding in the floating-point sum is not modelled.
