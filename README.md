# Client-side auth session and UI rules of the board app

This project models the browser side of a small bulletin-board application
(React, TypeScript, Axios, React Query). It is written in Dafny.

The centre of the model is the **auth session**, which has three parts:

- **The token store.** The access token is kept in memory. The refresh token is kept in a cookie jar, modelled as a map the store owns.
- **The Axios interceptors.** They attach the bearer token to each request. On a 401 they start one token refresh and park every other 401'd request in a queue until the refresh settles. Then they replay or reject the whole queue.
- **The two auth-state holders.** These are the React `AuthProvider` and the zustand `useAuthStore`.

Around it sit the small rules the pages rely on:

- the pagination window;
- the sign-up validators;
- the board forms' required-field checks and payloads;
- the React Query key hierarchy and what each mutation invalidates;
- the category badge style;
- the `id || slug(label)` rule of the form fields;
- the route guards and the route table;
- the theme-mode holders.

Each source file that keeps state is a Dafny `class` whose methods state the whole new state. This covers the interceptor, the token store, the auth holders, the page components and the theme holders. The state-free rules are functions with lemmas.

The asynchronous interceptor runs on one JavaScript thread, so it is modelled as a sequence of events:

- `OnRequest` runs when a request is sent.
- `OnResponseError` runs when a response fails.
- `CompleteRefresh` runs when the refresh POST settles.

The refresh POST goes through the plain `axios` instance and never re-enters the interceptor, so its result is a parameter. Navigation is not performed. It is returned as an `Effect` value: a React Router `navigate` or `<Navigate>`, or a `window.location.replace`.

How the code behaves where a reader might expect otherwise:

- Only status 401 starts a refresh. A 403 passes through untouched.
- `_retry` is set on every fresh 401 that arrives while no refresh is in progress, whether or not a refresh token is stored. Requests parked in the queue are not marked, so a parked request that fails with 401 again after its replay can start a new refresh.
- The request interceptor never refreshes ahead of time.
- `setTokens` and `clearTokens` notify nobody. `AuthProvider` writes an `onAuthChange` property onto the token-store object, but the token store never declares or calls it. That callback is therefore modelled as a separate slot, invoked from outside the model. A failed refresh therefore leaves both auth flags signed in (see Findings).
- The create and form pages bind `handleSubmit` to the form's `onSubmit` without calling `preventDefault`, so a submit by Enter reloads the page (see Findings). The edit page does call it.

## Model

| member | source | states |
|---|---|---|
| TokenStorage.HasTokensIffRefreshCookie | src/shared/api/tokenStorage.ts:51-53 | `hasTokens()` looks only at the refresh-token cookie: it holds iff that cookie exists and is non-empty |
| TokenStorage.RefreshTokenIn | src/shared/api/tokenStorage.ts:30-32 | the refresh token is present exactly when the cookie is, with the cookie's value |
| TokenStorage.TokenStore.constructor | src/shared/api/tokenStorage.ts:18 | a page load starts with no access token and keeps the cookies |
| TokenStorage.TokenStore.GetAccessToken | src/shared/api/tokenStorage.ts:25-27 | returns the in-memory token and changes nothing |
| TokenStorage.TokenStore.GetRefreshToken | src/shared/api/tokenStorage.ts:30-32 | returns the cookie's value, or none when the cookie is absent, and changes nothing |
| TokenStorage.TokenStore.SetTokens | src/shared/api/tokenStorage.ts:35-42 | overwrites both tokens whatever was stored; only the refresh-token cookie changes; the session is live iff the new refresh token is non-empty |
| TokenStorage.TokenStore.ClearTokens | src/shared/api/tokenStorage.ts:45-48 | both tokens are gone, the other cookies are untouched, and `hasTokens()` is false |
| TokenStorage.TokenStore.HasTokens | src/shared/api/tokenStorage.ts:51-53 | true iff the refresh-token cookie exists and is non-empty; changes nothing |
| TokenStorage.SetThenGet | src/shared/api/tokenStorage.ts:25-42 | after `setTokens(a, r)` the getters return `a` and `r` |
| TokenStorage.ClearTwice | src/shared/api/tokenStorage.ts:45-53 | a second `clearTokens` changes nothing, and `hasTokens()` is false afterwards |
| TokenStorage.Reload | src/shared/api/tokenStorage.ts:18-53 | after a reload with a live refresh cookie, `hasTokens()` is true while the access token is null |
| ApiClient.BearerInjective | src/shared/api/client.ts:54 | distinct tokens give distinct `Bearer <token>` header values (section 2.1 of RFC 6750) |
| ApiClient.WithBearer | src/shared/api/client.ts:52-55 | `Authorization` is set to `Bearer <token>` iff the in-memory token is non-null and non-empty; otherwise the headers are untouched; no other header changes |
| ApiClient.RefreshAuthorization | src/shared/api/client.ts:105-107 | the refresh POST's header reads `Bearer null` when no access token is held |
| ApiClient.HandledIffFresh401 | src/shared/api/client.ts:71-73 | an error is handled iff its status is exactly 401 and the request is not marked `_retry`; a 403 always passes through |
| ApiClient.StartsRefreshIff | src/shared/api/client.ts:71-96 | a refresh starts iff a fresh 401 arrives while none is in progress and a non-empty refresh token is stored |
| ApiClient.AtMostOneRefresh | src/shared/api/client.ts:77-88 | across any run of failed responses before a refresh settles, at most one refresh starts, and none if one was already in progress |
| ApiClient.ConcurrentExpiry | src/shared/api/client.ts:77-88 | N concurrent 401s with a stored refresh token: the first starts the refresh, every other one is queued |
| ApiClient.EnqueuedWhileRefreshing | src/shared/api/client.ts:77-84 | while a refresh is in progress every fresh 401 is queued |
| ApiClient.Settle | src/shared/api/client.ts:38-44 | a waiter is rejected iff an error is given, resolved iff no error and a non-empty token is given, and otherwise left unsettled |
| ApiClient.RequestConfig.constructor | src/shared/api/client.ts:66-68 | a new request config is not marked `_retry` |
| ApiClient.Interceptor.constructor | src/shared/api/client.ts:26-33 | no refresh is in progress and the queue is empty |
| ApiClient.Interceptor.OnRequest | src/shared/api/client.ts:50-59 | the request's headers become `WithBearer` of the in-memory token; `_retry` and the interceptor state are untouched |
| ApiClient.Interceptor.OnResponseError | src/shared/api/client.ts:63-109 | pass-through rejects with the original error and changes nothing; a 401 during a refresh appends the request to the queue unmarked; a first 401 with no refresh token marks `_retry`, clears the tokens, resets the flag and rejects with the original error; otherwise it marks `_retry`, sets the flag and issues the refresh POST with the refresh token; the invariant (one refresh owner, empty queue when idle, owner marked `_retry`) is kept |
| ApiClient.WaiterHeaderRecoversToken | src/shared/api/client.ts:80-82 | a queued request resolved with the refreshed token gets an `Authorization` header, and that header is `Bearer u` iff `u` is exactly the refreshed token |
| ApiClient.Interceptor.ProcessQueue | src/shared/api/client.ts:37-46 | every waiter, in order, is settled by `Settle`; resolved waiters get `Bearer <token>` and are replayed; the queue is left empty; the refresh flag and owner are untouched |
| ApiClient.Interceptor.CompleteRefresh | src/shared/api/client.ts:110-127 | on success the new pair is stored, every waiter is replayed with the new token (or hangs if the token is empty) and the owner is replayed with the new Bearer header; on failure every waiter and the owner reject with the refresh error and the tokens are cleared; either way the flag is false and the queue empty |
| ApiClient.ConcurrentExpiry401 | src/shared/api/client.ts:63-127 | N concurrent 401s then a successful refresh: one refresh POST, every request replayed carrying `Bearer <new access token>`, the new pair stored |
| AuthContext.AuthProvider.constructor | src/features/auth/context/AuthContext.tsx:22-24 | the initial `isAuthenticated` equals `hasTokens()` |
| AuthContext.AuthProvider.OnAuthChange | src/features/auth/context/AuthContext.tsx:35-40 | the flag becomes the argument; navigation to `/login` with replace happens iff the argument is false |
| AuthContext.AuthProvider.MarkAsAuthenticated | src/features/auth/context/AuthContext.tsx:46-48 | sets the flag and touches no token |
| AuthContext.AuthProvider.SignOut | src/features/auth/context/AuthContext.tsx:50-53 | clears the tokens, sets the flag false, and afterwards the flag agrees with `hasTokens()` |
| AuthContext.AuthChangeSlot.Register | src/features/auth/context/AuthContext.tsx:35-40 | the provider's callback replaces whatever was in the slot |
| AuthContext.AuthChangeSlot.Cleanup | src/features/auth/context/AuthContext.tsx:41-43 | the slot is reset to null |
| AuthContext.AuthChangeSlot.Invoke | src/features/auth/context/AuthContext.tsx:35-40 | calling the registered callback updates that provider's flag and navigates to `/login` iff the argument is false |
| AuthContext.StaleCleanup | src/features/auth/context/AuthContext.tsx:34-44 | with two providers mounted at once, the second registration owns the slot, and the first provider's cleanup then empties it although the second is still mounted |
| AuthStore.AuthStore.constructor | src/features/auth/store/useAuthStore.ts:24 | the initial `isAuthenticated` equals `hasTokens()` |
| AuthStore.AuthStore.SetAuthenticated | src/features/auth/store/useAuthStore.ts:26-28 | sets exactly the given value and nothing else |
| AuthStore.AuthStore.SignOut | src/features/auth/store/useAuthStore.ts:30-34 | clears the tokens, sets the flag false (agreeing with `hasTokens()`), and replaces the page with `/login` |
| AuthStore.AuthStore.ForceSignOut | src/features/auth/store/useAuthStore.ts:36-40 | the same three effects as `SignOut` |
| Pagination.Range | src/shared/components/Pagination.tsx:73 | `max(0, end - start)` consecutive numbers from `start` |
| Pagination.PageNumbersWindow | src/shared/components/Pagination.tsx:66-74 | exactly `min(totalPages, 5)` consecutive ascending page numbers, all in `[0, totalPages)`, starting at `max(0, min(currentPage - 2, totalPages - 5))`, containing the current page when it exists |
| Pagination.RenderSpec | src/shared/components/Pagination.tsx:62-91 | nothing is rendered iff `totalPages <= 1`; Prev is disabled iff on page 0 and Next iff on the last page or beyond, and they request the neighbouring pages; a button is active iff it is the current page and its caption is `page + 1`; exactly the current page's button is active when it exists |
| Signup.IndexOf | src/pages/SignupPage.tsx:138 | the first position of a character, or -1 when it is absent |
| Signup.EmailShapeIffPattern | src/pages/SignupPage.tsx:137-138 | the direct statement of the e-mail shape (no whitespace, exactly one `@` with something before it, a `.` strictly inside the part after it) agrees with the pattern `^[^\s@]+@[^\s@]+\.[^\s@]+$` |
| Signup.PasswordRulesPersist | src/pages/SignupPage.tsx:141-148 | each of the four password rules, and so validity, survives adding characters before or after the password: once shown as met, a rule stays met while the user keeps typing |
| Signup.AstralPasswordLength | src/pages/SignupPage.tsx:142 | the length rule counts UTF-16 code units: four emoji plus `a1!` are seven characters but eleven units, and the password is valid |
| Common.Utf16Length | src/pages/SignupPage.tsx:142 | JavaScript's `length` of a string of `n` code points lies between `n` and `2n` |
| Common.Utf16LengthConcat | src/pages/SignupPage.tsx:142 | the UTF-16 length of a concatenation is the sum of the lengths |
| Signup.UsernameAcceptedIffPattern | src/pages/SignupPage.tsx:137-154 | the trim check and `isEmailValid` together accept exactly the e-mail pattern |
| Signup.ValidFormSpec | src/pages/SignupPage.tsx:149-158 | the form is valid iff the username matches the pattern, the name has a non-blank character, the password is valid and the confirmation equals it; no warning shows on a valid form |
| Signup.BindingsSpec | src/pages/SignupPage.tsx:206-238 | the button is enabled iff the form is valid and nothing is pending; the rule checklist shows on every valid form |
| Signup.SignupPage.constructor | src/pages/SignupPage.tsx:125-131 | the form starts empty with no error |
| Signup.SignupPage.Update | src/pages/SignupPage.tsx:133-134 | exactly the edited field takes the typed value |
| Signup.SignupPage.HandleSubmit | src/pages/SignupPage.tsx:160-164 | an invalid form sends nothing and changes nothing; a valid one clears the error and sends the whole form |
| Signup.SignupPage.OnSignupError | src/pages/SignupPage.tsx:166 | sets the sign-up failure message |
| Signup.SignupPage.OnSignupSuccess | src/pages/SignupPage.tsx:165 | navigates to `/login` |
| BoardKeys.KeyHierarchy | src/features/board/hooks/useBoards.ts:23-30 | every key begins with `'boards'`; `lists()` and `details()` are proper prefixes of their members; the list, detail and category families are never prefixes of one another |
| BoardKeys.UseBoardsKey | src/features/board/hooks/useBoards.ts:35 | the list key for the given params, with `{}` when none are given |
| BoardKeys.DetailQueryDisabled | src/features/board/hooks/useBoards.ts:45 | the detail query is disabled iff the id is 0 or NaN, which is what a missing or empty route parameter gives |
| BoardKeys.InvalidationSets | src/features/board/hooks/useBoards.ts:59-94 | create and delete invalidate every list and no detail or category; update invalidates every list and the updated board's detail only |
| BoardForms.RequiredChecksNest | src/pages/BoardFormPage.tsx:210-241 | the page's own check implies the browser's `required` check on title and content, but not conversely: a title and content of one space pass the browser and fail the page |
| BoardForms.AfterSubmitEvent | src/pages/BoardEditPage.tsx:136 | a submit event reloads the page iff its default was not prevented |
| BoardForms.RequiredFilledSpec | src/pages/BoardFormPage.tsx:162 | the same check in the create page (`BoardCreatePage.tsx:124`) and the edit page (`BoardEditPage.tsx:139`): the fields are accepted iff the title and the content each have a non-whitespace character and a category is chosen |
| BoardFormPage.ButtonCaptionDistinct | src/pages/BoardFormPage.tsx:252-259 | each combination of mode and pending state has its own caption |
| BoardFormPage.BoardFormPage.constructor | src/pages/BoardFormPage.tsx:118-142 | an empty form, no file, no error, no board synced yet |
| BoardFormPage.BoardFormPage.SyncFromBoard | src/pages/BoardFormPage.tsx:142-150 | the form is copied from the board only in edit mode and only when its id differs from the last synced id |
| BoardFormPage.BoardFormPage.EditTitle | src/pages/BoardFormPage.tsx:134-138 | typing replaces the title and nothing else |
| BoardFormPage.BoardFormPage.HandleSubmit | src/pages/BoardFormPage.tsx:159-176 | the default is never prevented; the error is cleared first; a blank field sets the required-fields message and fires nothing; otherwise the untrimmed payload (file only when chosen) goes to update `Number(id)` in edit mode and to create otherwise |
| BoardFormPage.BoardFormPage.HandleSubmitIntended | src/pages/BoardFormPage.tsx:159-176 | the handler with `preventDefault`: the default is prevented, and the checks and the mutation are those of `HandleSubmit` |
| BoardFormPage.BoardFormPage.SubmitWithEnter | src/pages/BoardFormPage.tsx:210 | Enter in the title does nothing while the browser's `required` check fails; otherwise the handler runs with its usual outcome and the page is reloaded |
| BoardFormPage.BoardFormPage.SubmitWithEnterIntended | src/pages/BoardFormPage.tsx:210 | with the intended handler, Enter fires the mutation iff the page's required check passes, and the page never reloads |
| BoardFormPage.BoardFormPage.OnMutationSuccess | src/pages/BoardFormPage.tsx:178-184 | edit mode navigates to `/boards/<id>`, create mode to `/boards` |
| BoardFormPage.BoardFormPage.OnMutationError | src/pages/BoardFormPage.tsx:179-185 | the failure message names the mode and no field changes |
| BoardFormPage.EditSurvivesRefetch | src/pages/BoardFormPage.tsx:142-150 | a refetch of the same board does not overwrite what the user typed |
| BoardCreatePage.BoardCreatePage.HandleSubmit | src/pages/BoardCreatePage.tsx:121-131 | the default is never prevented; the error is cleared first; blank required fields set the message and send nothing; otherwise the untrimmed payload with the file only when chosen |
| BoardCreatePage.BoardCreatePage.HandleSubmitIntended | src/pages/BoardCreatePage.tsx:121-131 | the handler with `preventDefault`: the default is prevented, and the checks and the payload are those of `HandleSubmit` |
| BoardCreatePage.BoardCreatePage.SubmitWithEnter | src/pages/BoardCreatePage.tsx:146 | Enter in the title does nothing while the browser's `required` check fails; otherwise the handler runs with its usual outcome and the page is reloaded |
| BoardCreatePage.BoardCreatePage.SubmitWithEnterIntended | src/pages/BoardCreatePage.tsx:146 | with the intended handler, Enter sends the payload iff the page's required check passes, and the page never reloads |
| BoardCreatePage.BoardCreatePage.OnCreateSuccess | src/pages/BoardCreatePage.tsx:132 | navigates to `/boards` |
| BoardCreatePage.BoardCreatePage.OnCreateError | src/pages/BoardCreatePage.tsx:133 | sets "Failed to create post." and no field changes |
| BoardEditPage.BoardEditPage.OnBoardChanged | src/pages/BoardEditPage.tsx:122-128 | every delivered board overwrites title, category and content |
| BoardEditPage.BoardEditPage.HandleSubmit | src/pages/BoardEditPage.tsx:135-145 | the default is prevented and the error cleared; a missing id or a blank field sets the message and sends nothing; otherwise the update targets `Number(id)` with the untrimmed payload and the file only when chosen |
| BoardEditPage.BoardEditPage.OnUpdateSuccess | src/pages/BoardEditPage.tsx:147 | navigates to `/boards/<id>` |
| BoardEditPage.BoardEditPage.OnUpdateError | src/pages/BoardEditPage.tsx:148 | sets "Failed to update post." and no field changes |
| BoardListPage.QueryParams | src/pages/BoardListPage.tsx:207-211 | the current page, size 10, and the category iff a truthy one is selected |
| BoardListPage.View | src/pages/BoardListPage.tsx:218-220 | missing data gives an empty list and zero counts; otherwise the response's fields |
| BoardListPage.DatePrefix | src/pages/BoardListPage.tsx:257 | the longest prefix of `createdAt` without `T`: everything before the first `T`, or the whole string |
| BoardListPage.RowClick | src/pages/BoardListPage.tsx:252 | a row pushes `/boards/<digits>`, and the `:id` segment read back with `Number` is exactly the board's id |
| BoardListPage.BoardListPage.constructor | src/pages/BoardListPage.tsx:203-204 | page 0, no category |
| BoardListPage.BoardListPage.HandleCategoryChange | src/pages/BoardListPage.tsx:213-216 | the choice (null for "All") is stored and the page resets to 0 |
| BoardListPage.BoardListPage.SetPage | src/pages/BoardListPage.tsx:203 | only the page changes |
| CategoryBadge.StyleCaseInsensitive | src/shared/components/CategoryBadge.tsx:18 | `style(c) == style(upper(c))` |
| CategoryBadge.StyleTable | src/shared/components/CategoryBadge.tsx:17-28 | NOTICE, FREE and QNA each get their own colour pair, and every other code gets the Etc colour on the muted background |
| CategoryBadge.Render | src/shared/components/CategoryBadge.tsx:43-52 | the text is the upper-cased code, and a minimum width is applied iff `minWidth` is truthy |
| Common.TrimEmptyIffBlank | src/pages/SignupPage.tsx:153-155 | a string trims to empty iff it is all whitespace |
| Common.DecimalRoundTrip | src/pages/BoardListPage.tsx:252 | the decimal rendering of an id reads back as the id |
| FieldIds.CollapseSpaces | src/shared/components/Input.tsx:55 | the result of replacing whitespace runs has no whitespace |
| FieldIds.CollapseRun | src/shared/components/Input.tsx:55 | a maximal whitespace run between words becomes a single `-` and the words are kept |
| FieldIds.DerivedIdSpec | src/shared/components/Input.tsx:55 | a derived id has no whitespace, and a label without whitespace gives its lower-cased self |
| FieldIds.FieldId | src/shared/components/Input.tsx:55 | a non-empty explicit id wins; otherwise the id is derived from the label |
| Input.Render | src/shared/components/Input.tsx:54-60 | the label's `htmlFor` equals the input's id, and the error styling and text appear iff the error is non-empty |
| Textarea.Render | src/shared/components/Textarea.tsx:47-52 | the label's `htmlFor` equals the text area's id, which follows the shared id rule |
| RouteGuards.GuardsSpec | src/shared/components/ProtectedRoute.tsx:11-21 | for either auth state exactly one guard renders its children; the protected guard sends a signed-out visitor to `/login` and the guest guard a signed-in one to `/boards`, both with replace |
| RouteGuards.SignOutLeavesProtectedPages | src/shared/components/ProtectedRoute.tsx:11-15 | after the provider's sign-out, a protected page redirects to `/login` |
| AppRoutes.LookupFirst | src/App.tsx:20-63 | a pattern resolves to the first route declared for it |
| AppRoutes.RouteTable | src/App.tsx:21-62 | `/` redirects to `/boards`; `/login` and `/signup` are guest pages; `/boards`, `/boards/new` and `/boards/:id/edit` are protected, the last two showing the form page; `/boards/:id` is unguarded |
| AppRoutes.GuardedPagesUnreachable | src/App.tsx:38-62 | a signed-out visitor is sent from every protected pattern to `/login`, a signed-in one from every guest pattern to `/boards`, and the form page is only reached through a protected pattern |
| Session.RefreshFailureLeavesUiSignedIn | src/shared/api/client.ts:119-124 | a failed refresh rejects the owner and the queued request and clears the tokens, yet both auth flags stay true and a protected page still renders |
| Session.RefreshFailureSignsOut | src/features/auth/store/useAuthStore.ts:8 | a failed refresh followed by `forceSignOut` and the provider's callback leaves both flags false and in agreement with the cookie, replaces the page with `/login`, and a protected page redirects |
| Theme.InitialMode | src/shared/styles/useThemeStore.ts:14-20 | a stored `dark` or `light` wins; otherwise the mode is dark iff the OS prefers dark |
| Theme.Toggled | src/shared/styles/useThemeStore.ts:31 | a toggle always changes the mode |
| Theme.ToggleAndPersist | src/shared/styles/useThemeStore.ts:29-35 | toggling twice restores the mode, and the persisted mode is the one read at the next start |
| ThemeStore.ThemeStore.constructor | src/shared/styles/useThemeStore.ts:27-28 | the store starts in the initial mode and keeps the storage |
| ThemeStore.ThemeStore.ToggleTheme | src/shared/styles/useThemeStore.ts:29-35 | the mode flips and the storage holds the new mode under `theme-mode` |
| ThemeContext.SelectTheme | src/shared/styles/ThemeContext.tsx:40 | `light` selects the light theme and anything else the dark theme |
| ThemeContext.UseThemeMode | src/shared/styles/ThemeContext.tsx:49-53 | throws with the provider message iff no provider is present, and otherwise returns its value |
| ThemeContext.ThemeModeProvider.constructor | src/shared/styles/ThemeContext.tsx:23-30 | the provider starts in the initial mode |
| ThemeContext.ThemeModeProvider.ToggleTheme | src/shared/styles/ThemeContext.tsx:32-38 | the mode flips and the new value is persisted |

## Left out

- HTTP and Axios internals: the replay of a request (`apiClient(originalRequest)`) is an outcome value, and the request interceptor running again on the replay is not chained in.
- The `API_BASE_URL` prefix of the refresh URL: the refresh call carries the path `/auth/refresh` only.
- Promise timing: events run one at a time in the order the caller chooses; true concurrency is not modelled.
- Cookie attributes (`secure`, `sameSite`, the 7-day expiry) are enforced by the browser and js-cookie, and are not modelled.
- JWT decoding, the API wrapper modules, the React Query client configuration, `LoginPage`, `BoardDetailPage`, the navigation headers and every purely presentational component are not part of this model.
- React Router's route ranking (`/boards/new` against `/boards/:id`) is not modelled: `AppRoutes.Lookup` matches a pattern literally.
- `Navigate` and `window.location.replace` are recorded as emitted effects, not performed.
- Whitespace, `trim`, `toUpperCase` and `toLowerCase` are modelled over ASCII only; Unicode spaces and case mappings are not covered.
- BoardKeys.ToNumber: `Number(s)` is modelled for `undefined`, the empty string and decimal digit strings; every other string (signs, decimals, exponents, surrounding whitespace, hexadecimal) is taken as NaN.
- BoardListPage.RowClick: board ids are modelled as non-negative integers, so a negative or fractional id's rendering is not covered.
- The browser's form submission is modelled only as far as the pages need: Enter in the title submits the form, the `required` attributes are checked for emptiness, and an unprevented submit is a `DocumentReload` effect.
- Session.RefreshFailureSignsOut: the sign-out after a failed refresh is written out as the calls the comments describe; where the interceptor would make them is not modelled.
- React's render cycle: a `setState` takes effect immediately in the model instead of at the next render.
- The sign-up page's button caption (`Creating...` / `Create Account`) and the form page's Cancel button are not modelled.
- The light and dark theme objects are abstract values; their colours are not modelled.

## Findings

| source | as written | input that shows it | evidently intended | confidence | as-written member | corrected member |
|---|---|---|---|---|---|---|
| src/pages/BoardFormPage.tsx:159 | `handleSubmit` is the form's `onSubmit` and never calls `preventDefault` | Enter in the title with a title and content filled in: the handler starts the mutation, then the page reloads, dropping the app state | prevent the default, as `BoardEditPage.tsx:136` does | not executed | BoardFormPage.BoardFormPage.SubmitWithEnter | BoardFormPage.BoardFormPage.SubmitWithEnterIntended |
| src/pages/BoardCreatePage.tsx:121 | the same handler on the create page's form, without `preventDefault` | Enter in the title with a title and content filled in | prevent the default | not executed | BoardCreatePage.BoardCreatePage.SubmitWithEnter | BoardCreatePage.BoardCreatePage.SubmitWithEnterIntended |
| src/shared/api/client.ts:120-124 | a failed refresh clears the tokens and rejects, but neither `forceSignOut` nor the provider's `onAuthChange` is called | two requests fail with 401 while signed in and the refresh POST fails | the sign-out and redirect to `/login` described at `useAuthStore.ts:8` and `AuthContext.tsx:11-13` | not executed | Session.RefreshFailureLeavesUiSignedIn | Session.RefreshFailureSignsOut |
