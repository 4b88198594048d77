# Customs CRM front end — a verified model

This project models, in Dafny, the client-side logic of a single-page front
end for a customs-brokerage CRM. On it, a broker's company keeps its
declarations, certificates, tasks, documents, employees and partner
companies, and an administrator reviews registration, join and partnership
requests. The model covers the parts of the front end that decide
something:

- **Session store** (`AuthStore`). It holds the token, the user and the
  admin flag, mirrored to the browser's `localStorage`. It covers
  `setAuth`, `setUser`, `logout` and `loadFromStorage`, including the purge
  of a session that does not parse.
- **Notification store** (`NotificationStore`). It covers the list, the
  unread counter and the panel flags.
- **API client** (`ApiClient`). It covers the request interceptor that
  adds the bearer token and the response interceptor. On a 401 the
  response interceptor removes `access_token` and `user` from
  `localStorage` and, except on the sign-in and registration pages, sends
  the browser to `/login`; the session store keeps its in-memory state
  until the next load. For other failures it chooses the error toast. The
  sign-in, registration and settings handlers run every failed call
  through it (`ApiClient.Intercept`).
- **Route guards** (`ProtectedRoute`, `AdminRoute`).
- **Sign-in, registration and company setup screens** (`LoginPage`,
  `AdminLoginPage`, `RegisterPage`, `CompanySetupPage`). This covers client
  validation, the calls sent, where each outcome navigates, and the
  session each one leaves.
- **Layout** (`Header`, `Sidebar`). It covers the unread badge, the
  notification panel actions and the navigation items a role sees.
- **List screens** (`DeclarationsPage`, `DocumentsPage`, `EmployeesPage`,
  `PartnershipsPage`, `AdminRequestsPage`, `AdminDashboardPage`). This
  covers the query each load sends, the estimated total handed to
  `Pagination` (`PageEstimate`), the filters that return to page one, the
  folder navigation of the documents screen, the management buttons and
  data transfer of the employees screen, and the approve/reject actions of
  a pending request.
- **Creation modals** (`DeclarationModal`, `CertificateModal`, `TaskModal`)
  and the **settings screen** (`SettingsPage`). This covers the form
  validation order, the request bodies, and the two-step password and
  email changes.
- **Shared widgets and helpers** (`Pagination`, `SelectDropdown`,
  `Helpers`). This covers the page-number window with ellipses, the
  searchable dropdown, status labels, class-name joining, INN digit
  filtering and file-size text.

Four modules hold what the screens share:

- `Common` holds `Option`, JavaScript truthiness of ids and texts, and string
  helpers.
- `Api` holds the server calls as a `Call` datatype, and the response
  records.
- `Json` is a stand-in serialisation of the stored user, with a proved round
  trip.
- `Browser` is `localStorage` as a class over a `map<string, string>`.

How the model is written:

- Each screen or store whose state React changes in place is a `class`. Its
  handlers are methods whose `ensures` give the complete new state, the
  server calls issued, the navigation target and the toasts raised.
- Pure decisions are functions with named results, and the lemmas beside
  them state what the screens rely on.
- A server reply is a `Reply<T>` parameter: `Ok`, an error status with its
  detail, or no response. The model therefore covers every outcome of a
  call without performing it.

Where the text and the code disagree, the model follows the code:

- A 401 removes only `access_token` and `user` from storage, not `is_admin`
  (`src/api/client.ts`).
- `loadFromStorage` does nothing unless both the token and the user are
  stored.
- The administrator sign-in raises no page toast of its own on failure. An
  administrator who signs in on the ordinary login screen goes straight to
  `/admin/dashboard`.
- The header's unread count is taken from the list reply's `unread_count`.
- `createCompany` sends the company name untrimmed.
- The task modal loads the own company's members for any chosen company.
- Cancelling a settings dialog keeps its fields, while closing it through
  `onClose` resets them.
- The dropdown's clear button keeps the search text.
- The estimated total of a list page overstates the row count on later
  pages.
- In the partnership request dialog, editing the INN or sending the
  request keeps the found activity type.

## Model

| member | source | states |
|---|---|---|
| AuthStore.WithSession | src/store/authStore.ts:25-28 | the storage after `setAuth` holds the token, the encoded user and the encoded admin flag under their keys, every other key unchanged |
| AuthStore.WithoutSession | src/store/authStore.ts:46-49 | the storage after `logout` lacks exactly the three session keys and keeps every other key and value |
| AuthStore.WithoutSessionIdempotent | src/store/authStore.ts:46-57 | removing the session keys twice leaves the storage as removing them once (`logout` is idempotent on storage) |
| AuthStore.AdminFlag | src/store/authStore.ts:62-67 | a missing or empty `is_admin` gives `false`; a present one gives no flag exactly when it does not parse; `true` only from the text `true` |
| AuthStore.LoadOutcomeOf | src/store/authStore.ts:59-79 | the session stays untouched exactly when the token or the user text is missing or empty; it is restored only with the stored token, the user parsed back and the flag; it is purged exactly when a text cannot be read back |
| AuthStore.LoadAfterSetAuth | src/store/authStore.ts:25-73 | reloading right after `setAuth(t, u, a)` with a non-empty token restores exactly `t`, `u`, `a` (storage round trip) |
| AuthStore.LoadAfterLogout | src/store/authStore.ts:46-64 | after `logout` a reload finds nothing to restore |
| AuthStore.LoadAfterPurge | src/store/authStore.ts:74-78 | after a purge a second reload leaves everything as it is |
| AuthStore.LoadOutcomeAsWrittenOf | src/store/authStore.ts:64-73 | as written, a session is restored with no user exactly when the token is set, the user text is `null` and the flag reads back |
| AuthStore.NullUserRestoresEmptySession | src/store/authStore.ts:66 | the storage `{access_token: "t", user: "null"}` is restored without a user as written, and purged by the corrected decision |
| AuthStore.AuthState.constructor | src/store/authStore.ts:18-23 | a new store is signed out (no token, no user, not admin, not authenticated, no company status) |
| AuthStore.AuthState.SetAuth | src/store/authStore.ts:25-35 | the storage becomes `WithSession`; token, user and admin flag are the arguments and the store is authenticated; the company status is kept |
| AuthStore.AuthState.SetUser | src/store/authStore.ts:37-40 | the user is replaced in memory and under the `user` key, nothing else in storage changes |
| AuthStore.AuthState.SetCompanyStatus | src/store/authStore.ts:42-44 | only the in-memory company status changes |
| AuthStore.AuthState.Logout | src/store/authStore.ts:46-57 | the storage becomes `WithoutSession` and every field is back at its initial value |
| AuthStore.AuthState.LoadFromStorage | src/store/authStore.ts:59-79 | the store and the storage change as `LoadOutcomeOf` the old storage says: untouched, restored (authenticated with the stored token and user) or purged (keys removed, fields kept); the company status is kept and authenticated still implies a token and a user |
| AuthStore.ReloadAfterSetAuth | src/store/authStore.ts:25-73 | a fresh store over the storage written by `setAuth` comes back authenticated with the same token, user and flag |
| AuthStore.ReloadAfterLogout | src/store/authStore.ts:46-64 | a fresh store after `logout` stays unauthenticated and the storage is `WithoutSession` of what it held |
| Browser.Storage.constructor | src/store/authStore.ts:60-62 | the storage starts with the given items |
| Browser.Storage.GetItem | src/store/authStore.ts:60-62 | `getItem` yields the stored text exactly when the key is present, else `null` |
| Browser.Storage.SetItem | src/store/authStore.ts:26-28 | `setItem` maps the key to the value and changes no other key |
| Browser.Storage.RemoveItem | src/store/authStore.ts:47-49 | `removeItem` removes exactly that key |
| Json.EncodeUser | src/store/authStore.ts:27 | the stringified user is never empty (so it is truthy) and never the text `null` |
| Json.ParseUser | src/store/authStore.ts:66 | parsing gives `null` exactly for the text `null` |
| Json.ParseBool | src/store/authStore.ts:67 | parsing the admin flag yields a boolean exactly for the texts `true` and `false` |
| Json.UserRoundTrip | src/store/authStore.ts:27-66 | parsing the stringified user gives the same user back |
| Json.BoolRoundTripText | src/store/authStore.ts:28-67 | parsing the stringified flag gives the same flag back |
| Json.EncodeBool | src/store/authStore.ts:28 | the stringified flag is never empty |
| ApiClient.WithBearer | src/api/client.ts:14-21 | with a truthy stored token the `Authorization` header is `Bearer <token>`; without one the headers are unchanged; other headers are never touched |
| ApiClient.Message | src/api/client.ts:31-38 | a non-empty string `detail` is the message, a non-empty list gives its `msg` fields joined by `", "`, anything else the generic text |
| ApiClient.StatusToast | src/api/client.ts:40-64 | a 401 raises no toast and every other status raises an error toast |
| ApiClient.StatusToastShowsMessage | src/api/client.ts:50-63 | 403, 404 and 422 show their fixed prefix before the message; any other status but 401 and 500 shows the bare message |
| ApiClient.ServerErrorIgnoresDetail | src/api/client.ts:59-61 | a 500 shows the same fixed text whatever `detail` holds |
| ApiClient.OnResponseError | src/api/client.ts:25-70 | a 401 removes only `access_token` and `user`, raises no toast and redirects to `/login` exactly when not on an auth page; another status changes no storage and raises `StatusToast`; no response raises the unreachable-server toast |
| ApiClient.Intercept | src/api/client.ts:25-71 | a success leaves the storage alone; a failure goes to `OnResponseError`, so the storage loses `access_token` and `user` exactly on a 401, and the browser goes to `/login` exactly on a 401 off the auth pages |
| ApiClient.AfterUnauthorized | src/api/client.ts:16-43 | after the 401 purge a reload restores nothing and no bearer header is attached, though `is_admin` is left behind |
| ApiClient.RequestAfterUnauthorized | src/api/client.ts:14-49 | after a 401 the next request carries the headers unchanged and a fresh store is not authenticated |
| ProtectedRoute.Decide | src/components/ProtectedRoute.tsx:44-67 | the spinner exactly while loading; then login when signed out, the admin home for an admin, the company setup without an active company; the page exactly for a signed-in non-admin with an active company |
| ProtectedRoute.GuardsAgree | src/components/ProtectedRoute.tsx:59-61 | a user the user guard sends to the admin home is let in by the admin guard, and one the admin guard sends to the dashboard is let in by the user guard or sent to company setup |
| ProtectedRoute.Guard.constructor | src/components/ProtectedRoute.tsx:8-9 | the guard starts loading, with no active company |
| ProtectedRoute.Guard.Render | src/components/ProtectedRoute.tsx:44-67 | what the guard renders is `Decide` over its loading flag, the store's session and admin flag, and its company check |
| ProtectedRoute.Guard.CheckStatus | src/components/ProtectedRoute.tsx:12-42 | signed out: no call and nothing changes; signed in: `getMe` then (on success) `getCompanyStatus`; both succeed: the user and status are stored and the company is usable exactly when `active`; any failure signs out; loading ends in every case |
| ProtectedRoute.Visit | src/components/ProtectedRoute.tsx:12-67 | the spinner first and never last; calls are made exactly for a restored session; a failed check or no session ends on the login page; the page renders exactly for a restored non-admin with both calls successful and an `active` company |
| AdminRoute.Decide | src/components/AdminRoute.tsx:8-16 | signed out goes to the admin login, a non-admin to the dashboard, and the page renders exactly for a signed-in admin; never a spinner |
| NotificationStore.MarkOne | src/store/notificationStore.ts:50 | one record under `markAsRead(id)`: the same record with the read flag set exactly when its id matches or it was read already, every other field kept |
| NotificationStore.MarkedRead | src/store/notificationStore.ts:49-51 | the list keeps its length and order; records with the id become read, every other record is unchanged |
| NotificationStore.WithoutId | src/store/notificationStore.ts:58 | a record stays exactly when it was there and its id differs; a list without the id is unchanged |
| NotificationStore.WithoutIdAppend | src/store/notificationStore.ts:58 | the filter distributes over concatenation, so the remaining records keep their order |
| NotificationStore.FloorDecrement | src/store/notificationStore.ts:52-60 | `Math.max(0, c - 1)` is never negative, is `c - 1` from one upwards and zero below |
| NotificationStore.MarkedReadHasNoUnread | src/store/notificationStore.ts:49-59 | after marking an id read nothing unread is left under it, so a later delete does not decrement again |
| NotificationStore.WithoutIdAfterMarkedRead | src/store/notificationStore.ts:47-62 | marking then deleting an id leaves the same list as deleting it directly |
| NotificationStore.NotificationState.constructor | src/store/notificationStore.ts:21-25 | the store starts empty, with a zero counter, the sound on and the panel closed |
| NotificationStore.NotificationState.SetNotifications | src/store/notificationStore.ts:27-29 | the list and the counter become the given values |
| NotificationStore.NotificationState.SetUnreadCount | src/store/notificationStore.ts:31-33 | the counter becomes the given value |
| NotificationStore.NotificationState.SetSoundEnabled | src/store/notificationStore.ts:35-37 | the sound flag becomes the given value |
| NotificationStore.NotificationState.TogglePanel | src/store/notificationStore.ts:39-41 | the panel flag is negated |
| NotificationStore.NotificationState.ClosePanel | src/store/notificationStore.ts:43-45 | the panel is closed |
| NotificationStore.NotificationState.MarkAsRead | src/store/notificationStore.ts:47-54 | the list becomes `MarkedRead` and the counter drops by one, floored at zero, even when nothing was unread |
| NotificationStore.NotificationState.RemoveNotification | src/store/notificationStore.ts:56-63 | the list becomes `WithoutId`; the counter drops by one (floored) exactly when an unread record had the id, else it is kept |
| NotificationStore.NotificationState.ClearAll | src/store/notificationStore.ts:65-67 | the list is empty and the counter is zero |
| NotificationStore.NotificationState.AddNotification | src/store/notificationStore.ts:69-74 | the record is prepended and the counter grows by one whatever its read flag |
| NotificationStore.ToggleTwice | src/store/notificationStore.ts:39-41 | two toggles restore the panel flag and leave the list and the counter alone |
| NotificationStore.ClearAllTwice | src/store/notificationStore.ts:65-67 | clearing twice leaves the store as clearing once: empty with a zero counter |
| LoginPage.DetailOf | src/pages/auth/LoginPage.tsx:48 | only an error response carries a `detail`; no response reads as none |
| LoginPage.BlockedToasts | src/pages/auth/LoginPage.tsx:47-53 | the page raises its own toast, at most one, exactly when `detail` is a string mentioning a blocked account, and then it shows that string |
| LoginPage.PostLoginTarget | src/pages/auth/LoginPage.tsx:32-44 | an admin lands on the admin home without a status call; a non-admin lands on the dashboard when the status is `active`, otherwise on company setup, and nowhere when the status call failed |
| LoginPage.TargetAgreesWithGuards | src/pages/auth/LoginPage.tsx:32-44 | the landing page is one its guard lets in, or company setup exactly where the user guard would redirect too |
| LoginPage.LoginForm.constructor | src/pages/auth/LoginPage.tsx:9-10 | the form starts with empty fields |
| LoginPage.LoginForm.Submit | src/pages/auth/LoginPage.tsx:16-57 | empty fields: only the fill-in toast; `login` or `getMe` failing: no session stored, no navigation, only the blocked-account toast, and the storage loses `access_token` and `user` exactly when that call was refused with 401; both succeeding: the session is set from the token and the fetched user, the status is fetched only for a non-admin, the target is `PostLoginTarget`, the welcome toast follows a navigation, and a 401 on the status call removes the token and user just stored |
| LoginPage.LoginForm.Land | src/pages/auth/LoginPage.tsx:29-44 | after both replies arrived: the session is stored, an admin lands on the admin home with no further call, a non-admin by the fetched status, and a 401 on that status call removes the token and user again |
| LoginPage.SignIn | src/pages/auth/LoginPage.tsx:24-30 | on a fresh store, unless both the fields are filled and the first two calls succeed, the user is not signed in and nothing is stored, except that a 401 on either call removes a token and user stored before; otherwise the storage is `WithSession`, less the token and user after a 401 on the status call, and the target `PostLoginTarget` |
| LoginPage.RefusedProfileLeavesNoSession | src/pages/auth/LoginPage.tsx:26-29 | a 401 refusing `getMe` after the token arrived leaves the earlier storage without `access_token` and `user`, so a reload restores no session |
| AdminLoginPage.AdminLoginForm.constructor | src/pages/auth/AdminLoginPage.tsx:9-12 | the form starts on the credentials step with every field empty |
| AdminLoginPage.AdminLoginForm.HandleCredentials | src/pages/auth/AdminLoginPage.tsx:17-24 | the code step follows exactly when login and password are filled, with no server call; otherwise the fill-in toast and the step is unchanged |
| AdminLoginPage.AdminLoginForm.HandleSubmit | src/pages/auth/AdminLoginPage.tsx:26-45 | an empty code gives only its toast; otherwise the three credentials go out together, then `getMe`; both succeeding store an admin session for the fetched user and navigate to the admin home with the welcome toast; any failure clears only the code and stores nothing, with no toast of the page's own, and a 401 on the failed call removes the stored token and user |
| AdminLoginPage.AdminLoginForm.Back | src/pages/auth/AdminLoginPage.tsx:85 | back returns to the credentials step and clears the code, keeping login and password |
| AdminLoginPage.SignIn | src/pages/auth/AdminLoginPage.tsx:17-45 | with login or password empty the form stays on credentials and nothing is stored; with both filled the code step is reached; then success yields an authenticated admin session for the fetched user and the admin home, and any failure keeps the credentials, clears the code and stores nothing, except that a 401 removes a token and user stored before |
| RegisterPage.ValidationError | src/pages/auth/RegisterPage.tsx:29-42 | no error exactly when the four required fields are filled, the passwords match and the password has at least six characters; a missing field is reported first, then a mismatch, then a password shorter than six characters, each with its own message |
| RegisterPage.RegisterForm.constructor | src/pages/auth/RegisterPage.tsx:16-21 | the form starts empty with the `declarant` activity |
| RegisterPage.RegisterForm.Submit | src/pages/auth/RegisterPage.tsx:26-68 | a failed check gives only its toast and no call; otherwise `register`, then on success its message (or the default) as a toast and the automatic `login`, then `getMe`; only when all three succeed is the session stored and company setup opened; a failure stores nothing and leaves the store as it was, and a 401 on the failed call removes the stored token and user |
| CompanySetupPage.ViewOf | src/pages/auth/CompanySetupPage.tsx:92-107 | a pending company request shows the waiting screen whatever mode was chosen; otherwise the chosen mode |
| CompanySetupPage.FoundText | src/pages/auth/CompanySetupPage.tsx:31 | the found-company toast: the prefix and the name, or the text `null` when the server sent no name |
| CompanySetupPage.SetupForm.constructor | src/pages/auth/CompanySetupPage.tsx:9-12 | the screen starts on the choice with every field empty |
| CompanySetupPage.SetupForm.ChooseMode | src/pages/auth/CompanySetupPage.tsx:120-137 | the two buttons of the choice screen open the create or the join form |
| CompanySetupPage.SetupForm.BackFromCreate | src/pages/auth/CompanySetupPage.tsx:169 | back from the create form keeps the fields |
| CompanySetupPage.SetupForm.BackFromJoin | src/pages/auth/CompanySetupPage.tsx:227 | back from the join form clears the INN and the found company |
| CompanySetupPage.SetupForm.TypeInnCreate | src/pages/auth/CompanySetupPage.tsx:196-199 | the INN keeps the input's digits, at most nine |
| CompanySetupPage.SetupForm.TypeInnJoin | src/pages/auth/CompanySetupPage.tsx:244-248 | the same, and any edit forgets the found company |
| CompanySetupPage.SetupForm.HandleLookup | src/pages/auth/CompanySetupPage.tsx:20-40 | an INN of another length is refused with no call; a found company fills in its name, a miss clears it, a failed call changes nothing |
| CompanySetupPage.SetupForm.HandleCreate | src/pages/auth/CompanySetupPage.tsx:42-62 | a blank name, then an INN of another length, are refused with no call; otherwise the untrimmed name is sent and only a success toasts and goes to the login page |
| CompanySetupPage.SetupForm.HandleJoin | src/pages/auth/CompanySetupPage.tsx:64-84 | an INN of another length, then no found company, are refused with no call; a join is sent only for the INN whose lookup found the company, and only a success goes to the login page |
| CompanySetupPage.SetupForm.HandleLogout | src/pages/auth/CompanySetupPage.tsx:86-89 | the session keys go from storage and the store is signed out, then the login page |
| CompanySetupPage.LookupThenRetype | src/pages/auth/CompanySetupPage.tsx:20-73 | after looking up one INN and typing another, joining is refused without a server call |
| Header.BadgeText | src/components/layout/Header.tsx:152-156 | the bell shows a badge exactly for a positive counter: `9+` above nine, a single digit otherwise |
| Header.BadgeShowsCount | src/components/layout/Header.tsx:155 | the single digit shown reads as the counter |
| Header.PanelActionsFor | src/components/layout/Header.tsx:171-179 | "mark all read" exists exactly for a positive counter (exactly when the badge shows) and "clear" exactly for a non-empty list |
| Header.SoundFlag | src/components/layout/Header.tsx:59 | a missing `enabled` means on, otherwise its value |
| Header.Load | src/components/layout/Header.tsx:43-48 | asks for 50 notifications; a success replaces the list and the counter with the reply's, a failure keeps both |
| Header.LoadSound | src/components/layout/Header.tsx:57-61 | asks for the sound status; a success sets `SoundFlag` of the reply, a failure keeps the flag |
| Header.ToggleSound | src/components/layout/Header.tsx:74-79 | asks for the opposite of the current flag and flips it locally only on success |
| Header.MarkRead | src/components/layout/Header.tsx:81-86 | the store changes as `markAsRead` only after the call succeeded, otherwise not at all |
| Header.Delete | src/components/layout/Header.tsx:88-93 | the store changes as `removeNotification` only after the call succeeded; the counter stays non-negative |
| Header.ClearAll | src/components/layout/Header.tsx:95-100 | the store is emptied only after the call succeeded |
| Header.MarkAllRead | src/components/layout/Header.tsx:102-109 | on success the counter becomes zero before the refetch and stays zero whatever the refetch reports; the refetched list replaces the old one only when it arrives; a failure changes nothing |
| Header.OutsideClick | src/components/layout/Header.tsx:64-72 | a mouse press outside the open panel closes it and changes nothing else |
| Header.ClickThrough | src/components/layout/Header.tsx:81-93 | any sequence of mark-read and delete clicks, whatever the replies, keeps the counter between zero and its starting value |
| Sidebar.MenuItems | src/components/layout/Sidebar.tsx:32-64 | seven to ten entries with no path twice, dashboard first and settings last; declarations right after the dashboard exactly for a declarant company; the five common sections in order; "my employees" exactly for a director or senior and requests exactly for a director, in that order before the settings |
| Sidebar.LayoutShape | src/components/layout/Sidebar.tsx:42-64 | the menu has seven to ten entries, no path twice, the dashboard first and the settings last |
| Sidebar.LayoutDeclarations | src/components/layout/Sidebar.tsx:46-54 | the declarations entry exists exactly for a declarant company, right after the dashboard, followed by the five common sections |
| Sidebar.LayoutRoles | src/components/layout/Sidebar.tsx:56-62 | the employees and requests entries exist exactly under their conditions, in that order just before the settings |
| Sidebar.HandleLogout | src/components/layout/Sidebar.tsx:36-39 | the session keys go from storage and the store is signed out, then the login page |
| Pagination.TotalPages | src/components/ui/Pagination.tsx:11 | the page count is the ceiling of items over page size: enough pages for every item, no empty last page, zero exactly for no items |
| Pagination.Range | src/components/ui/Pagination.tsx:19-26 | the loops' run of page buttons holds every page from `a` to `b` in order and nothing else |
| Pagination.RangeSnoc | src/components/ui/Pagination.tsx:19-26 | each loop iteration extends the run by its next page |
| Pagination.PageItems | src/components/ui/Pagination.tsx:13-30 | no row at all for at most one page; otherwise the row the two branches build |
| Pagination.Window | src/components/ui/Pagination.tsx:18-30 | the row of a shown pager (every page up to seven pages; else the first page, an optional ellipsis, the neighbours of the current page, an optional ellipsis, the last page); its properties are the `Window*` lemmas |
| Pagination.AllPages | src/components/ui/Pagination.tsx:19 | the short branch's loop pushes exactly pages 1 to the page count |
| Pagination.Windowed | src/components/ui/Pagination.tsx:21-29 | the long branch pushes the first page, an ellipsis past page 3, the current page's neighbours, an ellipsis before the third from the end, the last page |
| Pagination.WindowIncreasing | src/components/ui/Pagination.tsx:18-30 | the numbered buttons strictly increase and all lie between 1 and the page count |
| Pagination.WindowSize | src/components/ui/Pagination.tsx:16-30 | the row never has more than seven entries |
| Pagination.WindowEnds | src/components/ui/Pagination.tsx:21-29 | above seven pages the row starts at page 1 and ends at the last page, and each ellipsis appears exactly under its condition |
| Pagination.SmallWindowIsAllPages | src/components/ui/Pagination.tsx:18-19 | up to seven pages the row lists every page in order |
| Pagination.WindowHasCurrent | src/components/ui/Pagination.tsx:18-56 | a current page in range always has its own (highlighted) button |
| Pagination.WindowAccountsForEveryPage | src/components/ui/Pagination.tsx:21-29 | adjacent buttons are adjacent pages and every ellipsis stands between two buttons for at least one hidden page |
| Pagination.ShownRange | src/components/ui/Pagination.tsx:35-36 | the label's first and last row number, each capped at the total; `ShownRangeOnPage` and `ShownRangesTile` state what they count |
| Pagination.ShownRangeOnPage | src/components/ui/Pagination.tsx:35-36 | on a page in range the label starts right after the previous pages, covers at most a page, and the last page ends at the total |
| Pagination.ShownRangesTile | src/components/ui/Pagination.tsx:35-36 | consecutive pages' labels meet with no gap and no overlap |
| Pagination.PrevTarget | src/components/ui/Pagination.tsx:41-42 | the left arrow is enabled exactly off page 1 and asks for the previous page |
| Pagination.NextTarget | src/components/ui/Pagination.tsx:67-68 | the right arrow is enabled exactly off the last page and asks for the next page |
| Pagination.ArrowsStayInRange | src/components/ui/Pagination.tsx:41-68 | from a page in range, an enabled arrow leads to a page in range |
| SelectDropdown.SelectedOption | src/components/ui/SelectDropdown.tsx:34 | the shown option is the first one whose value is strictly equal to the value; none when no option has it or there is no value |
| SelectDropdown.ButtonText | src/components/ui/SelectDropdown.tsx:59-61 | the button shows the selected option's caption, otherwise the placeholder |
| SelectDropdown.Matching | src/components/ui/SelectDropdown.tsx:37 | the search keeps exactly the options whose lower-cased caption contains the lower-cased search, never adding any |
| SelectDropdown.Filtered | src/components/ui/SelectDropdown.tsx:36-38 | all options unless the control is searchable and a search is typed; then the matching ones |
| SelectDropdown.MatchingAppend | src/components/ui/SelectDropdown.tsx:37 | the search keeps the options' order |
| SelectDropdown.EmptySearchMatchesAll | src/components/ui/SelectDropdown.tsx:37 | an empty search text matches every option |
| SelectDropdown.Dropdown.constructor | src/components/ui/SelectDropdown.tsx:30-31 | the control starts closed with an empty search |
| SelectDropdown.Dropdown.Toggle | src/components/ui/SelectDropdown.tsx:56 | the button toggles the list and keeps the search |
| SelectDropdown.Dropdown.OutsideClick | src/components/ui/SelectDropdown.tsx:40-49 | a mouse press outside closes the list and forgets the search |
| SelectDropdown.Dropdown.TypeSearch | src/components/ui/SelectDropdown.tsx:78-85 | the search input of an open searchable control holds what was typed |
| SelectDropdown.ClearShown | src/components/ui/SelectDropdown.tsx:63 | the clear mark is rendered exactly for a clearable control holding a value |
| SelectDropdown.Dropdown.Clear | src/components/ui/SelectDropdown.tsx:63-65 | the clear mark of a clearable control with a value emits no value and closes, keeping the search |
| SelectDropdown.Dropdown.Select | src/components/ui/SelectDropdown.tsx:75-101 | picking a listed entry emits its value, which belongs to an option, closes the list and forgets the search |
| SelectDropdown.PickAfterSearch | src/components/ui/SelectDropdown.tsx:34-101 | whatever was searched, the value picked is an option's value and the button then shows a caption of an option with it |
| PageEstimate.Skip | src/pages/main/DeclarationsPage.tsx:62-63 | a page's `skip` is a non-negative multiple of the page size that counts the pages before it |
| PageEstimate.EstimatedTotal | src/pages/main/DeclarationsPage.tsx:77-79 | the estimate is never negative, and a short first page is counted exactly |
| PageEstimate.FullPageOffersNext | src/pages/main/DeclarationsPage.tsx:77-79 | after a full page the pager offers exactly one page more than the current one |
| PageEstimate.ShortPageIsLast | src/pages/main/DeclarationsPage.tsx:77-79 | after the first page, a page that is not full is the last page offered |
| PageEstimate.ShortFirstPageHidesButtons | src/pages/main/DeclarationsPage.tsx:77-78 | a short first page offers at most one page, so no pager is drawn |
| PageEstimate.CurrentPageInRange | src/pages/main/DeclarationsPage.tsx:77-79 | the estimate always offers the current page |
| DeclarationsPage.DeclarationParams | src/pages/main/DeclarationsPage.tsx:61-64 | the query always carries the page's `skip` and the page size as `limit` |
| DeclarationsPage.SearchSentAsBothNumbers | src/pages/main/DeclarationsPage.tsx:65-68 | the search text is sent as both the declaration and the post number exactly when it is not empty |
| DeclarationsPage.DatesSentWhenSet | src/pages/main/DeclarationsPage.tsx:69-70 | each date bound is sent exactly when filled in, with its value |
| DeclarationsPage.FiltersSentWhenSet | src/pages/main/DeclarationsPage.tsx:71-73 | the regime, the employee and "only mine" are each sent exactly when set, with their values |
| DeclarationsPage.DeclarationsScreen.constructor | src/pages/main/DeclarationsPage.tsx:31-47 | the screen starts on page 1 with no filter, and knows whether the user is a director |
| DeclarationsPage.DeclarationsScreen.Load | src/pages/main/DeclarationsPage.tsx:58-84 | the query filled key by key is exactly `DeclarationParams` of the state; a success stores the rows and the estimated total, a failure keeps both |
| DeclarationsPage.DeclarationsScreen.LoadEmployees | src/pages/main/DeclarationsPage.tsx:49-56 | only a director fetches the employee filter's list, which becomes the own company's members; a failure keeps the list |
| DeclarationsPage.DeclarationsScreen.ChangePage | src/pages/main/DeclarationsPage.tsx:233 | the pager sets the page |
| DeclarationsPage.DeclarationsScreen.SetSearch | src/pages/main/DeclarationsPage.tsx:113 | a new search returns to page 1 |
| DeclarationsPage.DeclarationsScreen.SetDateFrom | src/pages/main/DeclarationsPage.tsx:121 | a new lower date returns to page 1 |
| DeclarationsPage.DeclarationsScreen.SetDateTo | src/pages/main/DeclarationsPage.tsx:122 | a new upper date returns to page 1 |
| DeclarationsPage.DeclarationsScreen.SetRegime | src/pages/main/DeclarationsPage.tsx:128 | a new regime returns to page 1 |
| DeclarationsPage.DeclarationsScreen.SelectEmployee | src/pages/main/DeclarationsPage.tsx:139 | choosing an employee returns to page 1 and unticks "only mine" |
| DeclarationsPage.DeclarationsScreen.SetMyOnly | src/pages/main/DeclarationsPage.tsx:151 | "only mine", either way, forgets the employee and returns to page 1 |
| DeclarationsPage.QueryNeverMixesOwners | src/pages/main/DeclarationsPage.tsx:72-73 | a query never asks for "only mine" and for an employee at once |
| DeclarationsPage.FilterResetsPaging | src/pages/main/DeclarationsPage.tsx:62-113 | after browsing to page 2, a new search makes the next load ask from the first row again |
| Api.MyMembers | src/pages/main/DeclarationsPage.tsx:52 | `my_company?.members \|\| []`: the own company's members, or none without an own company |
| Api.MemberChoices | src/pages/main/DeclarationsPage.tsx:53 | one dropdown entry per member, id and full name, in order |
| DocumentsPage.FolderParams | src/pages/main/DocumentsPage.tsx:60-63 | the folder request carries `parent_folder_id`, `client_id` and `user_id` each exactly when set, with its value, and nothing else |
| DocumentsPage.FileParams | src/pages/main/DocumentsPage.tsx:65-69 | the file request carries `folder_id`, `client_id`, `user_id` each exactly when set and `filename` exactly for a non-empty search, and nothing else |
| DocumentsPage.ParamsAgree | src/pages/main/DocumentsPage.tsx:60-69 | the two requests agree on the client and user filters, and one names the folder exactly when the other does |
| DocumentsPage.WithoutUser | src/pages/main/DocumentsPage.tsx:248-249 | unticking removes every occurrence of that user and keeps every other id, never growing the list |
| DocumentsPage.GrantThenRevoke | src/pages/main/DocumentsPage.tsx:248-249 | ticking a user not in the list and unticking them again restores the list |
| DocumentsPage.DocumentsScreen.constructor | src/pages/main/DocumentsPage.tsx:26-39 | the breadcrumbs start as the root alone with no current folder, no filters and an empty public dialog |
| DocumentsPage.DocumentsScreen.NavigateToFolder | src/pages/main/DocumentsPage.tsx:80-83 | one more breadcrumb, which becomes the current folder |
| DocumentsPage.DocumentsScreen.NavigateBack | src/pages/main/DocumentsPage.tsx:85-90 | with only the root left nothing changes; otherwise the last breadcrumb is dropped and the one before it is current |
| DocumentsPage.DocumentsScreen.NavigateToPathItem | src/pages/main/DocumentsPage.tsx:92-96 | the breadcrumbs up to the clicked one are kept and it becomes current; the root always stays |
| DocumentsPage.DocumentsScreen.SetSearchFile | src/pages/main/DocumentsPage.tsx:151 | the search box sets the file-name filter and nothing else |
| DocumentsPage.DocumentsScreen.SetClientFilter | src/pages/main/DocumentsPage.tsx:152 | the client dropdown sets the client filter, `None` when cleared, and nothing else |
| DocumentsPage.DocumentsScreen.SetUserFilter | src/pages/main/DocumentsPage.tsx:153 | the employee dropdown sets the employee filter and nothing else |
| DocumentsPage.DocumentsScreen.LoadContent | src/pages/main/DocumentsPage.tsx:57-74 | the two list requests are filled key by key into exactly `FolderParams` and `FileParams` of the current state |
| DocumentsPage.FilterFreshScreen | src/pages/main/DocumentsPage.tsx:55-74 | a client chosen and a file name typed on a fresh screen: the folder request carries only the client, the file request the client and, when typed, the name, and neither a folder nor an employee |
| DocumentsPage.DocumentsScreen.ToggleGrant | src/pages/main/DocumentsPage.tsx:247-249 | a tick appends the user, an untick removes them |
| DocumentsPage.DocumentsScreen.HandleCreateFolder | src/pages/main/DocumentsPage.tsx:98-111 | an empty name is refused with a toast and no call; the access list is sent only for a private folder; a success resets the dialog and reloads both lists; a failure keeps the dialog |
| DocumentsPage.DocumentsScreen.HandleUpload | src/pages/main/DocumentsPage.tsx:113-126 | no files means no call; one file goes by the single upload, several by the multi-upload, with folder and client only when set; a success reloads |
| DocumentsPage.DocumentsScreen.HandleDeleteDoc | src/pages/main/DocumentsPage.tsx:128-130 | the file is deleted and, on success, toasted and both lists reloaded |
| DocumentsPage.DocumentsScreen.HandleDeleteFolder | src/pages/main/DocumentsPage.tsx:132-134 | the folder is deleted and, on success, toasted and both lists reloaded |
| DocumentsPage.OpenAndReturn | src/pages/main/DocumentsPage.tsx:80-90 | opening folders in turn stacks their breadcrumbs in order; one back restores the previous breadcrumbs and folder; as many backs as opens return to the root |
| EmployeesPage.Buttons | src/pages/main/EmployeesPage.tsx:89-104 | only a director sees buttons, only on the own company's rows and never on the own row; unblock for a blocked member, block otherwise, and remove on every such row |
| EmployeesPage.Receiver | src/pages/main/EmployeesPage.tsx:111 | a member may receive the data exactly when it is neither the member being removed nor the viewer |
| EmployeesPage.TransferOptions | src/pages/main/EmployeesPage.tsx:110-111 | the receiver dropdown offers exactly the own company's members that are neither the member removed nor the viewer |
| EmployeesPage.TransferOptionsAppend | src/pages/main/EmployeesPage.tsx:111 | the options keep the members' order |
| EmployeesPage.NeverToSelf | src/pages/main/EmployeesPage.tsx:111 | no option is the member removed or the viewer |
| EmployeesPage.EmployeesScreen.constructor | src/pages/main/EmployeesPage.tsx:18-26 | the screen starts with no data and no dialog open |
| EmployeesPage.EmployeesScreen.LoadEmployees | src/pages/main/EmployeesPage.tsx:31-37 | a success replaces the data, a failure keeps it |
| EmployeesPage.EmployeesScreen.AskBlock | src/pages/main/EmployeesPage.tsx:96 | the lock button of an unblocked member opens the block dialog for that member |
| EmployeesPage.EmployeesScreen.CloseBlockDialog | src/pages/main/EmployeesPage.tsx:138 | closing the block dialog forgets the member |
| EmployeesPage.EmployeesScreen.HandleBlock | src/pages/main/EmployeesPage.tsx:39-48 | without a member nothing happens; otherwise the block is sent and, on success, toasted, the dialog closed and the list reloaded |
| EmployeesPage.EmployeesScreen.HandleUnblock | src/pages/main/EmployeesPage.tsx:50-92 | the unblock is sent from a blocked member's row and, on success, toasted and the list reloaded |
| EmployeesPage.EmployeesScreen.AskRemove | src/pages/main/EmployeesPage.tsx:100 | the bin button opens the remove dialog for that member with no receiver chosen |
| EmployeesPage.EmployeesScreen.ChooseReceiver | src/pages/main/EmployeesPage.tsx:155-156 | the receiver is one of the transfer options, so never the member removed or the viewer |
| EmployeesPage.EmployeesScreen.CloseRemoveDialog | src/pages/main/EmployeesPage.tsx:143-146 | closing or cancelling the remove dialog forgets both ids |
| EmployeesPage.EmployeesScreen.HandleRemove | src/pages/main/EmployeesPage.tsx:58-67 | without both ids only the error toast; otherwise the removal goes to a receiver other than the member and the viewer and, on success, is toasted, both ids forgotten and the list reloaded |
| EmployeesPage.RemoveWithoutReceiver | src/pages/main/EmployeesPage.tsx:58-59 | removing a colleague without choosing a receiver sends nothing and only toasts the error |
| AdminDashboardPage.UsersAt | src/pages/admin/AdminDashboardPage.tsx:27 | the users count at the same position, zero past the end of the users series |
| AdminDashboardPage.ChartData | src/pages/admin/AdminDashboardPage.tsx:24-28 | one point per companies entry, in order, with its date and count and the users count at the same position |
| AdminDashboardPage.ExtraUsersIgnored | src/pages/admin/AdminDashboardPage.tsx:24-28 | users points past the end of the companies series are never drawn |
| AdminDashboardPage.MissingUsersAreZero | src/pages/admin/AdminDashboardPage.tsx:27 | with an empty users series every users point is zero |
| AdminDashboardPage.Chart | src/pages/admin/AdminDashboardPage.tsx:41 | the chart is drawn exactly with more than one companies point, from the merged series |
| PartnershipsPage.FoundText | src/pages/main/PartnershipsPage.tsx:49 | the success toast starts with the found-prefix and then the company name |
| PartnershipsPage.NoteField | src/pages/main/PartnershipsPage.tsx:61 | an empty note is left out of the request, any other is sent as typed |
| PartnershipsPage.PartnershipsScreen.constructor | src/pages/main/PartnershipsPage.tsx:17-28 | the screen starts with no partners, no confirmation and an empty closed dialog |
| PartnershipsPage.PartnershipsScreen.LoadPartners | src/pages/main/PartnershipsPage.tsx:33-39 | a success replaces the list, a failure keeps it |
| PartnershipsPage.PartnershipsScreen.AskDelete | src/pages/main/PartnershipsPage.tsx:104 | the bin button of a listed partner opens the confirmation for its partnership |
| PartnershipsPage.PartnershipsScreen.CloseDeleteDialog | src/pages/main/PartnershipsPage.tsx:155 | closing the confirmation forgets the partnership |
| PartnershipsPage.PartnershipsScreen.HandleDelete | src/pages/main/PartnershipsPage.tsx:67-76 | without a partnership nothing happens; otherwise the removal is sent and, on success, toasted, the confirmation closed and the list reloaded |
| PartnershipsPage.PartnershipsScreen.Open | src/pages/main/PartnershipsPage.tsx:82 | the button opens the dialog with what it held |
| PartnershipsPage.PartnershipsScreen.Close | src/pages/main/PartnershipsPage.tsx:121-123 | closing or cancelling hides the dialog and keeps its fields |
| PartnershipsPage.PartnershipsScreen.TypeInn | src/pages/main/PartnershipsPage.tsx:133 | the INN keeps the input's digits, at most nine, and the found name is forgotten (the found activity stays) |
| PartnershipsPage.PartnershipsScreen.TypeNote | src/pages/main/PartnershipsPage.tsx:149 | the note holds what was typed |
| PartnershipsPage.PartnershipsScreen.HandleLookup | src/pages/main/PartnershipsPage.tsx:41-55 | an INN of another length is refused with no call; a found company fills in name and activity, a miss clears both, a failed call changes nothing |
| PartnershipsPage.PartnershipsScreen.HandleSend | src/pages/main/PartnershipsPage.tsx:57-65 | without a found company the request is refused with no call; otherwise it goes to the nine-digit INN that was looked up, without an empty note, and a success closes the dialog and clears INN, name and note |
| PartnershipsPage.EditAfterLookup | src/pages/main/PartnershipsPage.tsx:41-63 | editing the INN after a lookup means the request is refused until the new INN is looked up |
| AdminRequestsPage.TypeBadge | src/pages/admin/AdminRequestsPage.tsx:52-73 | a known type shows its filter label in a colour of its own; any other type shows itself in the default colour, and only then |
| AdminRequestsPage.StatusBadge | src/pages/admin/AdminRequestsPage.tsx:59-82 | a known status shows its filter label, warning colour exactly for pending; any other status shows itself in the default colour |
| AdminRequestsPage.ActionsShown | src/pages/admin/AdminRequestsPage.tsx:186 | the approve and reject buttons are rendered exactly for a pending request |
| AdminRequestsPage.Description | src/pages/admin/AdminRequestsPage.tsx:84-97 | for each known type the sentence starts with the sender (or its stand-in word) and ends with the company concerned; an unknown type is described by itself |
| AdminRequestsPage.KnownTypesAreDescribed | src/pages/admin/AdminRequestsPage.tsx:65-97 | a known type never falls back to the raw type, in the description or the badge |
| AdminRequestsPage.ActionText | src/pages/admin/AdminRequestsPage.tsx:47 | the toast says approved exactly for the approve action, rejected for any other |
| AdminRequestsPage.RequestParams | src/pages/admin/AdminRequestsPage.tsx:30-32 | the page window always; the type and the status exactly when chosen, with their values; nothing else |
| AdminRequestsPage.RequestsScreen.constructor | src/pages/admin/AdminRequestsPage.tsx:18-23 | the list starts on page 1, unfiltered and empty |
| AdminRequestsPage.RequestsScreen.Load | src/pages/admin/AdminRequestsPage.tsx:27-41 | the query filled key by key is exactly `RequestParams` of the state; a success stores the rows and the estimated total, a failure keeps both |
| AdminRequestsPage.RequestsScreen.HandleAction | src/pages/admin/AdminRequestsPage.tsx:43-50 | from a pending request's button the decision is sent; on success the toast names it and the same query is loaded again; nothing is under way afterwards |
| AdminRequestsPage.RequestsScreen.ChangePage | src/pages/admin/AdminRequestsPage.tsx:217 | the pager sets the page |
| AdminRequestsPage.RequestsScreen.SetTypeFilter | src/pages/admin/AdminRequestsPage.tsx:109 | choosing or clearing a type returns to page 1 |
| AdminRequestsPage.RequestsScreen.SetStatusFilter | src/pages/admin/AdminRequestsPage.tsx:117 | choosing or clearing a status returns to page 1 |
| AdminRequestsPage.ApproveFromFirstPage | src/pages/admin/AdminRequestsPage.tsx:25-50 | approving a listed pending request sends the decision after the first load, toasts approved and reloads the same first-page query |
| DeclarationModal.ValidVehicles | src/components/declarations/CreateDeclarationModal.tsx:64 | the rows sent are filled rows of the form, every filled row is sent, and a form of filled rows is sent whole |
| DeclarationModal.RemoveAt | src/components/declarations/CreateDeclarationModal.tsx:42 | removing an index in range drops exactly that row and keeps the others in order; any other index changes nothing |
| DeclarationModal.ValidationError | src/components/declarations/CreateDeclarationModal.tsx:52-68 | the six checks in their order: no error exactly when all pass; otherwise the message of the first failing one, stated for each of post number, date, declaration number, client, regime and filled vehicle |
| DeclarationModal.OrDash | src/components/declarations/CreateDeclarationModal.tsx:88 | an empty part of the preview shows as a dash |
| DeclarationModal.Reverse | src/components/declarations/CreateDeclarationModal.tsx:88 | `reverse()`: same length, the element at `i` is the one at `|xs| - 1 - i` |
| DeclarationModal.PreviewDate | src/components/declarations/CreateDeclarationModal.tsx:88 | the date part of the preview: its dash-separated parts reversed and joined by dots, or a dash for no date; `PreviewDateReversesIsoDate` states it for ISO dates |
| DeclarationModal.PreviewNumber | src/components/declarations/CreateDeclarationModal.tsx:88 | `previewNumber`: post, date and declaration number joined by `/`, each empty part a dash; `PreviewHasThreeParts` states that it splits back |
| DeclarationModal.PreviewDateReversesIsoDate | src/components/declarations/CreateDeclarationModal.tsx:88 | a `YYYY-MM-DD` date shows as `DD.MM.YYYY` |
| DeclarationModal.PreviewHasThreeParts | src/components/declarations/CreateDeclarationModal.tsx:88 | the preview splits at `/` back into post number, date and declaration number |
| DeclarationModal.DeclarationForm.constructor | src/components/declarations/CreateDeclarationModal.tsx:17-23 | the form starts empty with one empty vehicle row |
| DeclarationModal.DeclarationForm.SetPostNumber | src/components/declarations/CreateDeclarationModal.tsx:121 | the post number keeps the input's digits, at most five |
| DeclarationModal.DeclarationForm.SetDeclarationNumber | src/components/declarations/CreateDeclarationModal.tsx:141 | the declaration number keeps the input's digits, at most seven |
| DeclarationModal.DeclarationForm.AddVehicle | src/components/declarations/CreateDeclarationModal.tsx:36-38 | one more empty row at the end |
| DeclarationModal.DeclarationForm.RemoveVehicle | src/components/declarations/CreateDeclarationModal.tsx:40-43 | the last remaining row is never removed; otherwise the chosen row goes |
| DeclarationModal.DeclarationForm.UpdateVehicle | src/components/declarations/CreateDeclarationModal.tsx:45-49 | only the named field of the named row changes |
| DeclarationModal.DeclarationForm.Submit | src/components/declarations/CreateDeclarationModal.tsx:51-86 | a failing check toasts its message with no call; otherwise one create with the filled rows only and without an empty note, reporting creation exactly on success |
| DeclarationModal.EditVehicles | src/components/declarations/CreateDeclarationModal.tsx:36-64 | whatever rows are added, removed or edited, at least one row remains and the rows sent are the filled ones |
| CertificateModal.CertifierChoices | src/components/certificates/CreateCertificateModal.tsx:34-36 | the dropdown offers every partner whose activity is certification and nothing else, and never more entries than there are partners |
| CertificateModal.CertifierChoicesAppend | src/components/certificates/CreateCertificateModal.tsx:35-36 | filtering keeps the server's order |
| CertificateModal.ValidationError | src/components/certificates/CreateCertificateModal.tsx:50-54 | the five checks in their order: no error exactly when all pass, and the first failing check's message otherwise |
| CertificateModal.CertificateForm.constructor | src/components/certificates/CreateCertificateModal.tsx:15-23 | the form starts empty with neither box ticked |
| CertificateModal.CertificateForm.SetSelf | src/components/certificates/CreateCertificateModal.tsx:93 | the own-certifier box, either way, drops the chosen firm |
| CertificateModal.CertificateForm.SelectCertifier | src/components/certificates/CreateCertificateModal.tsx:100-102 | the firm dropdown, shown without the own certifier, sets the firm |
| CertificateModal.CertificateForm.SetCertificateType | src/components/certificates/CreateCertificateModal.tsx:112 | the type field holds what was typed |
| CertificateModal.CertificateForm.SetDeadlineDays | src/components/certificates/CreateCertificateModal.tsx:40-47 | a non-empty day count also sets the deadline to the date that many days ahead; an empty one keeps the deadline |
| CertificateModal.CertificateForm.SetDeadline | src/components/certificates/CreateCertificateModal.tsx:125 | a date picked by hand forgets the day count |
| CertificateModal.CertificateForm.SetCertificateNumber | src/components/certificates/CreateCertificateModal.tsx:135 | typing a number unticks "the certifier fills the number in" |
| CertificateModal.CertificateForm.SetNumberByCertifier | src/components/certificates/CreateCertificateModal.tsx:139 | ticking empties the number, unticking keeps it |
| CertificateModal.CertificateForm.SelectClient | src/components/certificates/CreateCertificateModal.tsx:148 | the client dropdown sets the client |
| CertificateModal.CertificateForm.SetNote | src/components/certificates/CreateCertificateModal.tsx:153 | the note holds what was typed |
| CertificateModal.CertificateForm.Submit | src/components/certificates/CreateCertificateModal.tsx:49-73 | a failing check toasts its message with no call; otherwise one create, with no firm for the own certifier and without an empty number or note; the request has no number exactly when the certifier fills it in, and no firm exactly for the own certifier |
| CertificateModal.SelfIssuedByCertifier | src/components/certificates/CreateCertificateModal.tsx:57-67 | a firm chosen and a number typed before ticking the two boxes are not sent |
| TaskModal.InitialCompany | src/components/tasks/CreateTaskModal.tsx:18 | the target company starts as the user's company when there is one, otherwise none |
| TaskModal.OwnChoice | src/components/tasks/CreateTaskModal.tsx:34-36 | the own company is offered, labelled as such, exactly when the user has both a company id and a name |
| TaskModal.PartnerChoices | src/components/tasks/CreateTaskModal.tsx:38-40 | one entry per partner, in the server's order |
| TaskModal.EmployeeChoices | src/components/tasks/CreateTaskModal.tsx:45-59 | no company empties the list; a successful fetch offers the own company's members whichever company is chosen; a failed fetch keeps the list |
| TaskModal.EmployeesIgnoreCompany | src/components/tasks/CreateTaskModal.tsx:49-56 | the own-company and partner branches load the same list |
| TaskModal.ValidationError | src/components/tasks/CreateTaskModal.tsx:71-74 | the four checks in their order: no error exactly when all pass, and the first failing check's message otherwise |
| TaskModal.TaskForm.constructor | src/components/tasks/CreateTaskModal.tsx:18-29 | the form starts on the user's company with the default priority and status, which are table values |
| TaskModal.TaskForm.LoadCompanies | src/components/tasks/CreateTaskModal.tsx:31-43 | the loop pushes the own company and then every partner in order; a failed fetch leaves the own company alone |
| TaskModal.TaskForm.LoadEmployees | src/components/tasks/CreateTaskModal.tsx:45-60 | without a company the list is emptied with no call; otherwise one fetch whose reply sets the list as `EmployeeChoices` |
| TaskModal.TaskForm.SelectCompany | src/components/tasks/CreateTaskModal.tsx:100 | choosing a company forgets the chosen employee |
| TaskModal.TaskForm.SelectUser | src/components/tasks/CreateTaskModal.tsx:104 | the employee dropdown sets the employee |
| TaskModal.TaskForm.SetTitle | src/components/tasks/CreateTaskModal.tsx:109 | the title holds what was typed |
| TaskModal.TaskForm.SetNote | src/components/tasks/CreateTaskModal.tsx:114 | the note holds what was typed |
| TaskModal.TaskForm.SetPriority | src/components/tasks/CreateTaskModal.tsx:118-119 | the priority dropdown offers and sets only table values |
| TaskModal.TaskForm.SetStatus | src/components/tasks/CreateTaskModal.tsx:120-121 | the status dropdown offers and sets only table values |
| TaskModal.TaskForm.SetDeadlineDays | src/components/tasks/CreateTaskModal.tsx:62-68 | a non-empty day count also sets the deadline to the date that many days ahead; an empty one keeps it |
| TaskModal.TaskForm.SetDeadline | src/components/tasks/CreateTaskModal.tsx:129 | a date picked by hand forgets the day count |
| TaskModal.TaskForm.Submit | src/components/tasks/CreateTaskModal.tsx:70-87 | a failing check toasts its message with no call; otherwise one create without an empty note, whose priority and status are table values, reporting creation exactly on success |
| TaskModal.PartnerChoicesSnoc | src/components/tasks/CreateTaskModal.tsx:38-40 | each loop iteration appends that partner's entry |
| TaskModal.SwitchCompany | src/components/tasks/CreateTaskModal.tsx:71-100 | an employee chosen before switching company is forgotten, so submitting asks for an employee and sends nothing |
| SettingsPage.PasswordRequestError | src/pages/main/SettingsPage.tsx:65-66 | no error exactly for a non-empty old password and a new one of at least six characters; an empty field is reported before a short password |
| SettingsPage.SettingsScreen.constructor | src/pages/main/SettingsPage.tsx:14-31 | the profile form starts from the stored user, both dialogs closed, empty and at their form step |
| SettingsPage.SettingsScreen.TypeProfile | src/pages/main/SettingsPage.tsx:146-148 | the two profile inputs hold what was typed |
| SettingsPage.RedirectAfter | src/api/client.ts:42-47 | from the settings page the interceptor redirects exactly on a 401, and then to `/login` |
| SettingsPage.SettingsScreen.Refetch | src/pages/main/SettingsPage.tsx:37-38 | the `getProfile` after an accepted change: on success the stored user and its `user` key are replaced; on failure the user is kept and the interceptor decides the storage and the redirect |
| SettingsPage.SettingsScreen.SaveProfile | src/pages/main/SettingsPage.tsx:33-41 | the update, then the refetch; the stored user and its storage copy are replaced only when both succeed; a failed call goes through the interceptor: a 401 removes `access_token` and `user` and leaves for `/login`, any other failure changes no storage and stays |
| SettingsPage.SettingsScreen.UploadAvatarFile | src/pages/main/SettingsPage.tsx:43-53 | no file, no call; otherwise the upload, then the refetch, with the stored user replaced only when both succeed; a failed call goes through the interceptor: a 401 removes `access_token` and `user` and leaves for `/login`, any other failure changes no storage and stays |
| SettingsPage.SettingsScreen.RemoveAvatar | src/pages/main/SettingsPage.tsx:55-62 | the removal, then the refetch, with the stored user replaced only when both succeed; a failed call goes through the interceptor: a 401 removes `access_token` and `user` and leaves for `/login`, any other failure changes no storage and stays |
| SettingsPage.SettingsScreen.OpenPasswordDialog | src/pages/main/SettingsPage.tsx:164 | the password dialog opens as it was left |
| SettingsPage.SettingsScreen.OpenEmailDialog | src/pages/main/SettingsPage.tsx:160 | the e-mail dialog opens as it was left |
| SettingsPage.SettingsScreen.TypePasswords | src/pages/main/SettingsPage.tsx:182-183 | the two password inputs hold what was typed |
| SettingsPage.SettingsScreen.TypePasswordCode | src/pages/main/SettingsPage.tsx:186 | the code input holds what was typed |
| SettingsPage.SettingsScreen.PasswordRequest | src/pages/main/SettingsPage.tsx:64-73 | a failing check toasts its message with no call; otherwise the request, and the code step is reached exactly on success; a failed call goes through the interceptor: a 401 removes `access_token` and `user` and leaves for `/login`, any other failure changes no storage and stays |
| SettingsPage.SettingsScreen.PasswordConfirm | src/pages/main/SettingsPage.tsx:75-83 | an empty code is refused with no call; a success closes and empties the dialog, anything else leaves it at the code step as it was; a failed call goes through the interceptor: a 401 removes `access_token` and `user` and leaves for `/login`, any other failure changes no storage and stays |
| SettingsPage.SettingsScreen.ClosePasswordDialog | src/pages/main/SettingsPage.tsx:172 | closing resets the step and empties every field |
| SettingsPage.SettingsScreen.CancelPasswordDialog | src/pages/main/SettingsPage.tsx:175 | cancelling goes back to the form step and keeps the fields |
| SettingsPage.SettingsScreen.TypeNewEmail | src/pages/main/SettingsPage.tsx:200 | the address input holds what was typed |
| SettingsPage.SettingsScreen.TypeEmailCode | src/pages/main/SettingsPage.tsx:202 | the code input holds what was typed |
| SettingsPage.SettingsScreen.EmailRequest | src/pages/main/SettingsPage.tsx:85-93 | an empty address is refused with no call; otherwise the request, and the code step is reached exactly on success; a failed call goes through the interceptor: a 401 removes `access_token` and `user` and leaves for `/login`, any other failure changes no storage and stays |
| SettingsPage.SettingsScreen.EmailConfirm | src/pages/main/SettingsPage.tsx:95-105 | an empty code is refused with no call; the confirmation, then the refetch; only when both succeed is the stored user replaced and the dialog closed and emptied; a failed call goes through the interceptor: a 401 removes `access_token` and `user` and leaves for `/login`, any other failure changes no storage and stays |
| SettingsPage.SettingsScreen.CloseEmailDialog | src/pages/main/SettingsPage.tsx:191 | closing resets the step and empties both fields |
| SettingsPage.SettingsScreen.CancelEmailDialog | src/pages/main/SettingsPage.tsx:194 | cancelling goes back to the form step and keeps the fields |
| SettingsPage.ShortPasswordNeverAsksForCode | src/pages/main/SettingsPage.tsx:64-73 | a new password under six characters never reaches the code step and sends nothing |
| Helpers.FindIndex | src/utils/helpers.ts:37-41 | `find` returns the first row carrying the value, and nothing exactly when no row carries it |
| Helpers.LookupOr | src/utils/helpers.ts:37-41 | a missing row, or a row with an empty text, gives the fallback; otherwise the first matching row's text |
| Helpers.StatusLabel | src/utils/helpers.ts:36-38 | an unlisted value is shown as itself; a listed one by the first matching row's non-empty label |
| Helpers.StatusColor | src/utils/helpers.ts:40-42 | an unlisted value gets the grey default; a listed one the first matching row's non-empty colour |
| Helpers.LookupRow | src/utils/helpers.ts:37-41 | in a table without repeated values every row is found by its own value |
| Helpers.RoleLabel | src/utils/helpers.ts:44-52 | the four known roles by name, a missing or empty role as unassigned, any other role as itself |
| Helpers.RoleLabelAgreesWithTable | src/utils/helpers.ts:44-52 | the role switch agrees with the role table on every row of it |
| Helpers.ActivityLabel | src/utils/helpers.ts:54-60 | the two activity types by name, anything else as itself |
| Helpers.ActivityLabelAgreesWithTable | src/utils/helpers.ts:54-60 | the activity switch and the generic lookup over the activity table agree on every value |
| Helpers.Truncate | src/utils/helpers.ts:62-65 | a short string is kept; a longer one keeps exactly its first `maxLen` characters followed by `...` |
| Helpers.TruncateIdempotent | src/utils/helpers.ts:62-65 | truncating a truncated string changes nothing |
| Helpers.FirstChar | src/utils/helpers.ts:70 | `charAt(0)`: the first character, or the empty string for an empty part |
| Helpers.FirstChars | src/utils/helpers.ts:69-71 | joining the parts' first characters yields at most one character per part |
| Helpers.WordStartsFrom | src/utils/helpers.ts:67-74 | the reference definition of word starts only picks non-space characters of the name |
| Helpers.Initials | src/utils/helpers.ts:67-74 | the initials have at most two characters |
| Helpers.InitialsAreWordStarts | src/utils/helpers.ts:67-74 | split, first characters and join amount to the characters that start a word (empty parts from repeated spaces contribute nothing), upper-cased and cut to two |
| Helpers.KeptClasses | src/utils/helpers.ts:77 | `filter(Boolean)` keeps at most every argument, never an empty one, and keeps none exactly when every argument is falsy |
| Helpers.ClassNames | src/utils/helpers.ts:76-78 | all-falsy arguments give the empty class string |
| Helpers.ClassNamesSplit | src/utils/helpers.ts:76-78 | for class names without spaces, splitting the result at spaces gives back exactly the truthy arguments in order |
| Helpers.FalsyArgIgnored | src/utils/helpers.ts:77 | appending a falsy argument leaves the class string unchanged |
| Helpers.KeptSnoc | src/utils/helpers.ts:77 | the filter keeps an appended argument exactly when it is truthy |
| Helpers.Decimal | src/utils/helpers.ts:22 | the numeral of a number is a non-empty run of digits without a leading zero |
| Helpers.DecimalRoundTrip | src/utils/helpers.ts:22 | reading the numeral back gives the number |
| Helpers.IntText | src/utils/helpers.ts:22 | an integer reads as its numeral, with a minus sign when negative |
| Helpers.FileSizeText | src/utils/helpers.ts:20-22 | no size or a zero size shows a dash; below a kilobyte the byte count and the byte unit |
| Helpers.FileSizeShowsBytes | src/utils/helpers.ts:22 | a positive size below a kilobyte reads back as its byte count followed by the unit |
| Common.OrElse | src/pages/admin/AdminRequestsPage.tsx:87 | `s \|\| fallback`: a non-empty string is kept, a missing or empty one gives the fallback |
| Common.KeepDigits | src/pages/auth/CompanySetupPage.tsx:197 | `replace(/\D/g, '')` keeps every digit of the input and nothing else, and leaves a run of digits as it is |
| Common.KeepDigitsAppend | src/pages/auth/CompanySetupPage.tsx:197 | the digits keep their order: filtering distributes over concatenation |
| Common.DigitsUpTo | src/pages/auth/CompanySetupPage.tsx:197 | the fixed-length inputs hold a prefix of the input's digits, at most `n` of them, and exactly `n` when the input has that many |
| Common.DigitsUpToIdempotent | src/pages/auth/CompanySetupPage.tsx:197 | filtering an already filtered value changes nothing |
| Common.Join | src/utils/helpers.ts:71-77 | `join` of no parts is empty, of one part is that part, and otherwise starts with the first part |
| Common.JoinSnoc | src/utils/helpers.ts:77 | joining one more part appends the separator and that part |
| Common.Split | src/utils/helpers.ts:69 | `split` at one character yields at least one piece and no piece holds the separator |
| Common.JoinSplit | src/components/declarations/CreateDeclarationModal.tsx:88 | joining the pieces with the separator gives the string back |
| Common.SplitJoin | src/utils/helpers.ts:77 | splitting undoes joining when no part holds the separator |
| Common.IncludesAt | src/components/ui/SelectDropdown.tsx:37 | `includes` holds exactly when the text occurs at some position |
| Common.IncludesEmpty | src/components/ui/SelectDropdown.tsx:37 | every string includes the empty string |
| Common.Trim | src/pages/auth/CompanySetupPage.tsx:44 | `trim` never lengthens and leaves no white space at either end |
| Common.TrimStart | src/pages/auth/CompanySetupPage.tsx:44 | the part removed at the front is all white space and the rest starts with none |
| Common.TrimEnd | src/pages/auth/CompanySetupPage.tsx:44 | the part removed at the back is all white space and the rest ends with none |
| Common.TrimEmptyIffBlank | src/pages/auth/CompanySetupPage.tsx:44 | a name trims to nothing exactly when it is all white space |

## Left out

- Server calls are not performed. The API wrapper modules are one-line HTTP calls, so each call is an `Api.Call` value the handler emits, and its answer is a `Reply` parameter.
- `window.location`, React re-rendering and toast rendering are not performed. Navigation is an emitted route, and a toast is an emitted message value.
- The 30-second notification polling, `debounce` and the search-input debounce are left out: they are timers.
- Races between overlapping handlers are left out. Each handler is one atomic sequence of awaited steps, and no stale-response guard is modelled.
- Loading and submitting flags that a handler sets and resets within one run are left out, because they are not observable after it. The exception is `ProtectedRoute`, where the flag decides what is rendered.
- `formatDate`, `formatDateTime` and `isOverdue` are left out: they read the clock and use a date library.
- The deadline-days computations of the certificate and task modals take the computed due date as the `due` parameter, for the same reason.
- Helpers.FileSizeText: sizes of 1024 bytes and more give no text (`None`), because the source formats them with floating-point `toFixed`.
- JSON `parse` and `stringify` are replaced by the injective `Json` stand-in encoding. Its round trip is relied on. Its parse fails on any text that is not an encoded user, `true`, `false` or `null`, whereas `JSON.parse` accepts any JSON text.
- AuthStore.LoadOutcomeAsWrittenOf: models the code as written only for the text `null`. In the source a stored `user` of any other JSON value that is not a user record (`{}`, `1`, `"x"`) also restores a session holding that value; the model purges it, as the corrected `LoadOutcomeOf` does.
- AuthStore.AdminFlag: a stored `is_admin` that is JSON but not a boolean (`1`) gives a truthy `isAdmin` in the source; the stand-in parse rejects it, so the model purges the session.
- String lengths count Dafny characters, not UTF-16 code units.
- `toLowerCase` and `toUpperCase` are function parameters, since Unicode case mapping is not modelled.
- List screens keep the row count or the records they decide on, not every rendered column.
- The avatars and initials of the employee rows and the rendering of request notes and data are left out.
- The dashboard's statistic cards are left out: they display server numbers unchanged.
- Other list screens that repeat the estimated-total expression (tasks, certificates, clients, administrator companies and users) are covered by `PageEstimate` and not modelled separately.
- The `showCreate` flags of the list screens and their `handleCreated` reloads are left out. Each modal's `Submit` reports `created`, and the reload is the screen's own `Load`.
- Handlers whose `catch` only swallows the error rely on the `ApiClient` toasts. The model records that no page toast is raised, and `ApiClient.Intercept` does not return the interceptor's toast.
- The handlers of the other screens (`Header`, `CompanySetupPage`, `DeclarationsPage`, `DocumentsPage`, `EmployeesPage`, `PartnershipsPage`, `AdminRequestsPage`, `AdminDashboardPage` and the creation modals) do not compose the response interceptor. Their contracts cover the page's own code. On a 401 the purge of `access_token` and `user` and the redirect to `/login` (`ApiClient.OnResponseError`) happen on top. `ProtectedRoute.Guard.CheckStatus` needs no composition: its failure path calls `logout`, which removes those keys too.
- LoginPage.LoginForm.Submit: the `getMe` reply is a free parameter, whatever header went out with it. In the source `getMe` runs before `setAuth`, so the request interceptor attaches the token stored before the sign-in (none on a fresh browser), not the token `login` just returned.
- AdminLoginPage.AdminLoginForm.HandleSubmit: the `getMe` reply is a free parameter, whatever header went out with it; as on the user sign-in, it runs before `setAuth` and carries the token stored before.
- RegisterPage.RegisterForm.Submit: the `getMe` reply is a free parameter, whatever header went out with it; it runs before `setAuth` and carries the token stored before, if any.
- CompanySetupPage.SetupForm.HandleLookup: requires the join mode, because the lookup button is rendered only on the join form.
- Pagination.ShownRangeOnPage: stated for a page in range only; the component is never given another page.
- Header.BadgeShowsCount: stated for the digits 1 to 9; `Header.BadgeText` covers zero and values above nine.
- Presentation-only components, layouts, detail pages, type declarations and constant tables are not part of this model. Only the table rows the modelled code reads are copied.

## Findings

| source | as written | input that shows it | evidently intended | confidence | as-written member | corrected member |
|---|---|---|---|---|---|---|
| src/store/authStore.ts:66 | `loadFromStorage` accepts any JSON value under `user`, including the text `null`, and reports an authenticated session with no user | storage `{access_token: "t", user: "null"}` | a stored user that is not a user record is treated like one that does not parse, and the session keys are purged | not executed | AuthStore.LoadOutcomeAsWrittenOf, AuthStore.NullUserRestoresEmptySession | AuthStore.LoadOutcomeOf |
