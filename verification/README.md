# Storage dashboards and login rules, modelled in Dafny

This project models the logic inside three pages of a file-storage web
application. The pages are the user homepage, the admin dashboard and the
login page. The model covers three things:

- **Storage aggregation.** `createStorageUsage` computes one user's used and
  available bytes. The admin dashboard computes three fleet totals: storage
  bought, storage used and number of files. The model gives them as recursive
  sums over immutable `User`/`File` records. The source's own loops are also
  modelled, as methods with loop invariants, and proved equal to the sums.
- **Page-load decisions.** Each page's load effect becomes a pure function.
  Its inputs are what localStorage holds, what the Redux store already holds,
  whether the router is ready, and the answers of the Auth and Users
  services. It returns a record of effects: the redirect, the localStorage
  keys removed, the toasts shown, whether each service was called, and the
  Redux actions dispatched. On the admin page, the role check and the fleet
  fetch are started without waiting for each other. They are modelled as two
  independent decisions, each with its own effect record.
- **Login form rules.** These are the password and email rules of the
  validation schema, plus the submit handler's empty-field guard.

Modules, one per file: `Wrappers` (Option/Result), `Sums` (generic sum and
its concatenation, permutation and pointwise lemmas), `Storage`, `Fleet`,
`PageEffects` (the shared effect vocabulary: routes, keys, toasts, JavaScript
truthiness, HTTP errors), `AdminPage`, `UserPage` and `LoginForm`.

Behaviours of the code worth noting, all kept by the model:

- On the user homepage, `fetchData` catches every error of the user-data
  fetch itself. A fetch error therefore shows two toasts: one from
  `fetchUserData`, then one from `fetchData`. It does not navigate and removes
  no key. The 401 handling in `verifyUserAccessToken` only ever sees errors
  from the token verification, so a 401 from the user-data fetch does not end
  the session.
- The admin page does not chain the fleet fetch after the role check; it
  starts both at once. So a refused role can come with a completed fleet
  fetch, or with a second toast and a second redirect from a failed fetch.
- The user homepage redirects to the login page on every verification
  error, not only a 401. Only a 401 removes the token. The id is never removed
  on that page.

## Model

| member | source | states |
|---|---|---|
| `Storage.ReduceIsSum` | frontend/src/pages/app/homepage.tsx:22-28 | the `reduce` left fold over the files, started from an accumulator, equals the accumulator plus the sum of all file sizes |
| `Storage.CreateStorageUsage` | frontend/src/pages/app/homepage.tsx:17-47 | an absent user gives no usage and no error; otherwise the used bytes are the sum of the file sizes, used plus available equals the quota with no clamping (so available may be negative), and no files means used 0 and available equal to the quota |
| `Storage.UsageIgnoresFileOrder` | frontend/src/pages/app/homepage.tsx:22-35 | reordering a user's files does not change the computed usage |
| `Storage.UsageBounds` | frontend/src/pages/app/homepage.tsx:22-35 | with no negative file size, used storage is non-negative and available storage never exceeds the quota |
| `Storage.UsageExample` | frontend/src/pages/app/homepage.tsx:17-35 | a 1000-byte quota with files of 200 and 300 bytes gives used 500 and available 500 |
| `Fleet.Aggregate` | frontend/src/pages/admin/homePage.tsx:54-82 | the fleet metrics are: bought = the sum of the quotas; used = the sum of the sizes of all files of all users, taken together; files = the number of those files; user count = the list length |
| `Fleet.GetAllStorageBought` | frontend/src/pages/admin/homePage.tsx:54-60 | the loop returns the sum of every user's quota, and 0 for an empty list |
| `Fleet.GetTotalStorageUsed` | frontend/src/pages/admin/homePage.tsx:62-73 | the nested loop returns the sum of the sizes of every file of every user, and 0 when there are no files at all |
| `Fleet.GetTotalFiles` | frontend/src/pages/admin/homePage.tsx:75-82 | the loop returns the total number of files across all users, and 0 for an empty list |
| `Fleet.AllFilesConcat` | frontend/src/pages/admin/homePage.tsx:62-82 | the files visited for a concatenated user list are the first list's files followed by the second's |
| `Fleet.UsedIsSumOverAllFiles` | frontend/src/pages/admin/homePage.tsx:62-73 | summing usage user by user equals summing over the concatenation of all files: no file is counted twice and none is missed |
| `Fleet.FileCountIsAllFiles` | frontend/src/pages/admin/homePage.tsx:75-82 | adding the per-user file counts equals the length of the concatenation of all files |
| `Fleet.EmptyFleet` | frontend/src/pages/admin/homePage.tsx:54-82 | an empty user list gives all-zero metrics |
| `Fleet.AggregateConcat` | frontend/src/pages/admin/homePage.tsx:54-82 | every fleet metric is additive: the metric of `a + b` is the metric of `a` plus the metric of `b` |
| `Fleet.AggregateIgnoresUserOrder` | frontend/src/pages/admin/homePage.tsx:54-82 | two user lists with the same multiset of users have identical fleet metrics |
| `Fleet.PerUserUsageAgreesWithFleet` | frontend/src/pages/app/homepage.tsx:17-35 | summing the per-user `usedStorage` of the homepage over a user list equals the admin page's total used storage |
| `Fleet.AggregateExample` | frontend/src/pages/admin/homePage.tsx:54-82 | quotas 1000, 2000 and 3000 with file sizes [100], [] and [50, 50] give bought 6000, used 200, 3 files and 3 users |
| `PageEffects.ContainsIffOccurs` | frontend/src/pages/admin/homePage.tsx:99 | the string-inclusion test used on error texts holds exactly when the substring starts at some position |
| `AdminPage.HandleErrors` | frontend/src/pages/admin/homePage.tsx:24-33 | always removes both `token` and `id` and redirects to `/auth/loginPage`; shows the given message as one error toast, or no toast when there is no message |
| `AdminPage.VerifyUserRole` | frontend/src/pages/admin/homePage.tsx:35-52 | an `admin` role claim has no effect. Any other or missing claim gives one error toast and a redirect to `/app/homepage`, with no key removed. A throwing verification removes both keys, gives one toast and redirects to login |
| `AdminPage.FetchAllUsers` | frontend/src/pages/admin/homePage.tsx:84-110 | a returned list (even empty) is stored, with all three totals computed from that same list, and no effect. A null result, a 401 error or any other error redirects to `/app/homepage`, removes nothing and shows exactly one error toast. Its text is the no-rights message when the error text contains "401", else the fetch-failed message |
| `AdminPage.AdminPageLoad` | frontend/src/pages/admin/homePage.tsx:112-126 | a falsy id or token removes both keys, shows one toast and redirects to login, starting neither verification nor fetch. Otherwise the role check's effects are exactly those of `verifyUserRole`, the fetch outcome is exactly that of `fetchAllUsers`, and both keep the session discipline |
| `AdminPage.AdminDecisionsIndependent` | frontend/src/pages/admin/homePage.tsx:123-124 | the role-check effects depend only on the verification answer, and the fetch outcome only on the fetch answer |
| `AdminPage.AdminSessionEndsOnlyOnAuthFailure` | frontend/src/pages/admin/homePage.tsx:24-126 | the fleet fetch never removes keys; the role check removes them exactly when verification throws; missing credentials remove both |
| `AdminPage.AdminFailuresNotifyOnce` | frontend/src/pages/admin/homePage.tsx:24-126 | each failing branch of the admin page shows exactly one toast and navigates |
| `UserPage.QueryToasts` | frontend/src/pages/app/homepage.tsx:69-75 | the account-created success toast appears exactly when the `success` query value is truthy (present and non-empty), so a bare `?success` shows none; the welcome-back toast after login is suppressed |
| `UserPage.EmptySuccessValueShowsNoToast` | frontend/src/pages/app/homepage.tsx:70-71 | an empty `success` query value (a bare `?success` or `?success=`) is falsy and shows no account-created toast |
| `UserPage.FetchData` | frontend/src/pages/app/homepage.tsx:81-115 | nothing happens before the router is ready. A falsy id redirects to login without a fetch. A fetch error is caught and shows two error toasts, first the one from `fetchUserData` and then the one from `fetchData`, with no redirect and no key removed. A returned record is dispatched with `update`, then `updateStorage` with its usage. When the service returns no record, only `update` is dispatched, once |
| `UserPage.VerifyUserAccessToken` | frontend/src/pages/app/homepage.tsx:117-151 | a falsy token redirects to login, and neither verification nor fetch is called. A 401 verification error removes only `token`, shows the session-expired toast and redirects to login. Any other verification error removes nothing, shows the generic toast and redirects to login. A verified token with a cached `firstName` fetches and dispatches nothing. Otherwise the outcome is that of `fetchData`: nothing before the router is ready; a login redirect on a falsy id; the two error toasts, with no redirect, on a fetch error; and `update`, then `updateStorage` with the computed usage, on success. The fetch happens exactly when the token is verified, no user is cached, the router is ready and the id is truthy |
| `UserPage.SuccessfulLoadDispatchesUsage` | frontend/src/pages/app/homepage.tsx:90-104 | a successful load dispatches `update` with the user, then `updateStorage` with exactly the usage `createStorageUsage` computes, and shows nothing |
| `UserPage.UserLoadIgnoresRole` | frontend/src/pages/app/homepage.tsx:127 | the homepage ignores the decoded role claim |
| `UserPage.UserLoadKeepsId` | frontend/src/pages/app/homepage.tsx:135-147 | the homepage never removes `id`, and writes to the store only after a verified token and a fetch |
| `LoginForm.PasswordViolations` | frontend/src/pages/auth/loginPage.tsx:18-29 | a password is accepted exactly when it is non-empty (required), 8 to 100 characters long, has an ASCII `A`–`Z` and has a character outside `[A-Za-z0-9]`. Each rule is reported exactly when its condition fails |
| `LoginForm.EmailViolations` | frontend/src/pages/auth/loginPage.tsx:14-17 | an email passes the explicit rules exactly when it is non-empty and contains a `.`; each failed rule is reported |
| `LoginForm.FormPasswordErrors` | frontend/src/pages/auth/loginPage.tsx:18-29 | the password rules the form's validation fails: only the required rule for an empty password, otherwise the schema's rules; none exactly when the password is valid |
| `LoginForm.FormEmailErrors` | frontend/src/pages/auth/loginPage.tsx:14-17 | the email rules the form's validation fails: only the required rule for an empty email, otherwise the schema's rules; none exactly when the email is valid |
| `LoginForm.FirstMatch` | frontend/src/pages/auth/loginPage.tsx:17-28 | a one-class regular-expression test finds the first character in the class, or reports that no character is in it |
| `LoginForm.ValidatePassword` | frontend/src/pages/auth/loginPage.tsx:18-29 | running the length and pattern tests accepts exactly the valid passwords |
| `LoginForm.ValidateEmail` | frontend/src/pages/auth/loginPage.tsx:14-17 | running the required and dot tests accepts exactly the valid emails |
| `LoginForm.OnSubmit` | frontend/src/pages/auth/loginPage.tsx:32-36 | the submit handler throws, with its error message, exactly when the email or the password is empty |
| `LoginForm.ValidFormSubmits` | frontend/src/pages/auth/loginPage.tsx:13-36 | a form whose validation fails no rule never hits the submit handler's error |
| `LoginForm.EmptyPasswordRejected` | frontend/src/pages/auth/loginPage.tsx:14-29 | the schema applied directly to `""` breaks required, minimum length and both pattern rules, and not the maximum. The form's validation fails only the required rule for an empty password, and only the required rule for an empty email |
| `LoginForm.ValidPasswordHasTwoKinds` | frontend/src/pages/auth/loginPage.tsx:21-28 | the uppercase and special-character rules are met by two different positions of a valid password |
| `LoginForm.PasswordExamples` | frontend/src/pages/auth/loginPage.tsx:18-29 | "Passw0rd!" is accepted; "password!" breaks only the uppercase rule, "Password1" only the special-character rule and "Pa!" only the minimum length |

## Left out

- Numbers: JavaScript adds sizes and quotas as double-precision floats. The model uses exact integers, which agree up to 2^53 bytes.
- String lengths: the schema counts length in UTF-16 code units. The model counts Unicode scalar values, so characters outside the Basic Multilingual Plane count once, not twice.
- PasswordViolations: states the schema's rules applied directly to a string. For an empty password the form's validation fails only the required rule; `FormPasswordErrors` gives that view. It assumes the form library passes an empty field as an absent value and that the length and pattern tests accept absent values. That library code is not part of this model.
- EmailViolations: states the schema's rules applied directly to a string. For an empty email the form's validation fails only the required rule; `FormEmailErrors` gives that view, under the same assumption.
- The page shows one message per field, picked by the form library from the failed rules; the model gives the set of failed rules, not which message is shown.
- The library's built-in email-format test (`.email()`) belongs to the validation library; only the explicit `.` rule is modelled.
- The error branch of `createStorageUsage` (toast and rethrow) cannot be reached here, because a modelled user record always has its files. A returned `null` is modelled as an absent user.
- The `!data` test of `onSubmit` is not modelled: the form library always passes an object.
- The timing of the two unawaited admin calls is not modelled. When both fail, the order of their two redirects and toasts is left open. `isLoading` and all other React state and rendering are out of scope too.
- Query values are modelled as optional strings; a repeated query key, which the router gives as an array (always truthy), is not modelled.
- Each load effect is modelled as a single run. The re-run of the homepage effect when `router.isReady` changes is not modelled.
- The Auth and Users services, the Next router, the Redux store and the toast utility are opaque collaborators. They appear only as input values and as recorded effects. Console logging is not modelled.
- The revenue figure (`totalStorageBought / 21474836480 * 20`) is floating-point display logic. `formatFileSizeFromBytes` is not part of this model.
- The Express server (`server/index.js`) is I/O wiring with no logic to model.
