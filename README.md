# TechBlog front end: a Dafny model of its session, authentication and admin logic

This project models the client-side logic of the TechBlog front end, a Next.js/React application. It covers:

- how a visitor is identified: a session UUID kept in `localStorage` and a cookie, with a legacy guest id as fallback;
- how the auth and profile providers maintain the logged-in state from a JWT cookie and the backend's replies;
- the admin forms for posts, categories and the user profile, including their validation rules;
- the newsletter sign-up and its confirmation modal;
- the two statistics dashboards, the post list and the admin panel's view switching;
- the licensing FAQ accordion.

Each React component or context becomes a module. Its state hooks become the fields of a class, and each handler that changes them becomes a method with `modifies this`. Each computation a handler performs becomes a pure function, and the lemmas prove what the component promises about it. Backend replies, the clock, randomness, JWT decoding and the e-mail pattern are inputs: the model never performs I/O.

| module | source |
|---|---|
| `Common`, `Seqs`, `JsString` | the JavaScript values and built-ins the code relies on: `x || default` on a missing value, `filter`, `slice`, `trim`, `toLowerCase`, `split`/`join`, `includes`, decimal numbers |
| `Web` | `localStorage`, `document.cookie`, the request configuration an axios interceptor sees, and a fetch/axios reply |
| `GuestId` | src/utils/sessionid.ts |
| `Session` | src/app/context/SessionContext.tsx |
| `Auth` | src/app/context/authContext.tsx |
| `Profile` | src/app/context/profileContext.tsx |
| `CategoryTree` | `flattenCategories`, which src/app/components/Blogform.tsx and src/app/components/Categoryform.tsx each define |
| `BlogForm` | src/app/components/Blogform.tsx |
| `CategoryForm` | src/app/components/Categoryform.tsx |
| `ProfileModal` | src/app/components/ProfileModal.tsx |
| `Validation` | src/utils/validation.ts |
| `UseNewsletter` | src/app/components/useNewsletter.tsx |
| `Newsletter` | src/app/components/Newsletter.tsx |
| `BlogList` | src/app/components/Bloglist.tsx |
| `Sorting` | the in-place `Array.prototype.sort` calls of both dashboards, with their newest-first comparators |
| `DashboardStat` | src/app/components/DashboardStat.tsx |
| `DashboardPage` | src/app/Dashboard/page.tsx |
| `Admin` | src/app/Admin/page.tsx |
| `ConfirmationLetter` | src/app/components/ConfirmationLettermodal.tsx |
| `LicensingFaq` | src/app/LicensingFAQ/page.tsx |

Conventions:

- A missing string field is `""`. The code only ever tests such a field for truthiness.
- `localStorage` keeps "absent" and "empty" apart, but both read as falsy.
- A reply is either a response with a status and an optional JSON body, or a thrown error.
- A `json()` call that throws is a response with no body. The source then lands in its `catch`.
- `response.ok` means a status from 200 to 299.

## Model

| member | source | states |
|---|---|---|
| Web.Item | src/utils/sessionid.ts:7-8 | a stored value reads as truthy exactly when the key is present with a non-empty value, and then it is that value |
| Web.CookieValue | src/app/context/authContext.tsx:47-48 | a cookie reads as truthy exactly when it exists with a non-empty value, and then it is that value |
| GuestId.NewGuestId | src/utils/sessionid.ts:16 | a legacy guest id starts with `guest_` and is longer than that prefix |
| GuestId.Resolve | src/utils/sessionid.ts:3-21 | outside a browser the id is "" and storage is untouched; otherwise the session id wins, then the legacy id, and only when both are missing a new `guest_` id is written under the legacy key; in a browser the id is never "" |
| GuestId.ResolveIdempotent | src/utils/sessionid.ts:3-21 | a second call returns the same id and writes nothing, whatever randomness and clock it sees |
| GuestId.ResolveKeepsSessionKey | src/utils/sessionid.ts:13-17 | the resolver never creates, removes or changes the session key, and touches no key except the legacy one |
| GuestId.GetOrCreateGuestId | src/utils/sessionid.ts:3-21 | the returned id and the new local storage are those of `Resolve`; cookies are unchanged |
| GuestId.HeaderValueIsResolvedId | src/utils/sessionid.ts:26 | `sessionId \|\| getOrCreateGuestId()` picks exactly the resolver's id, which is never "" |
| GuestId.SessionHeaderValue | src/utils/sessionid.ts:26 | `sessionId \|\| getOrCreateGuestId()` (no contract of its own); `GuestId.HeaderValueIsResolvedId` states that it is the resolver's id |
| GuestId.WithSessionId | src/utils/sessionid.ts:24-35 | in a browser the headers gain `x-session-id` set to the resolved id (overwriting an earlier one) and storage becomes the resolver's; outside a browser nothing changes; no other header, credential flag or cookie changes |
| Session.Hex | src/app/context/SessionContext.tsx:41-43 | each digit is lower-case hexadecimal, and a variant nibble (8 to 11) gives one of 8, 9, a, b |
| Session.Fill | src/app/context/SessionContext.tsx:40-44 | the replacement keeps the template's length |
| Session.FillShape | src/app/context/SessionContext.tsx:40-44 | the replacement keeps every fixed character, puts a hex digit on each `x` and a variant digit on each `y` |
| Session.GenerateSessionId | src/app/context/SessionContext.tsx:39-45 | a generated id has the lower-case version-4 UUID layout: 36 characters, dashes at 8, 13, 18 and 23, `4` at 14, a variant digit at 19, hex digits elsewhere |
| Session.GenerateIsTemplateReplace | src/app/context/SessionContext.tsx:40-44 | the position-wise id equals the regex replacement over the template, with the draws consumed by the placeholders left to right |
| Session.ThirtyDaysText | src/app/context/SessionContext.tsx:28 | `60 * 60 * 24 * 30` is written as `2592000` |
| Session.SessionCookieAttributes | src/app/context/SessionContext.tsx:28 | the session cookie's attributes are `; path=/; max-age=2592000; samesite=lax` |
| Session.SessionCookieText | src/app/context/SessionContext.tsx:28 | the cookie text is `sessionId=<id>; path=/; max-age=2592000; samesite=lax` |
| Session.Initialize | src/app/context/SessionContext.tsx:17-34 | a missing or empty stored id gives a new session with a UUID-shaped id written to storage and cookie; an existing id is kept with storage and cookies unchanged; either way storage holds the non-empty session id |
| Session.InitializeByCases | src/app/context/SessionContext.tsx:19-33 | the effect written out by cases: generate and store, or keep |
| Session.InitializeTwice | src/app/context/SessionContext.tsx:19-31 | a second initialisation finds the id, reports no new session and changes nothing |
| Session.ResolverPrefersSessionId | src/utils/sessionid.ts:6-10 | after initialisation the guest resolver returns the session id and writes nothing |
| Session.SessionProvider.constructor | src/app/context/SessionContext.tsx:13-14 | the first render has an empty id and no new session |
| Session.SessionProvider.InitializeSession | src/app/context/SessionContext.tsx:16-37 | the provider's fields, storage and cookies after the mount effect are exactly those of `Initialize` on the old browser state, and storage holds the provider's id |
| Auth.WithDefaultRole | src/app/context/authContext.tsx:129-136 | the stored user keeps every field and has role `user` where the backend gave none |
| Auth.Unauthenticated | src/app/context/authContext.tsx:176-182 | a failed check removes the auth cookie and clears the state, leaving every other cookie and the route alone |
| Auth.LoggedOut | src/app/context/authContext.tsx:263-270 | logout clears the state, removes the auth cookie and navigates to `/` |
| Auth.AfterError | src/app/context/authContext.tsx:199-204 | a 401 reaching the response interceptor ends in the logged-out state; any other error changes nothing |
| Auth.CheckAuthResult | src/app/context/authContext.tsx:75-193 | the check resolves true exactly when it leaves the provider authenticated, and then with a user whose role is never empty; resolving false leaves no token and no user |
| Auth.NoCookieNoCheck | src/app/context/authContext.tsx:83-89 | without an auth cookie the check fails at once, removes nothing and ignores every reply |
| Auth.ExpiryBoundary | src/app/context/authContext.tsx:95-102 | a token whose `exp * 1000` is before now is removed; at or after now the check goes on as for a null payload or a missing `exp` |
| Auth.DecodeFailureRemovesCookie | src/app/context/authContext.tsx:103-110 | a decode exception fails the check with the cookie removed |
| Auth.PrimarySuccess | src/app/context/authContext.tsx:125-138 | a primary reply carrying a user authenticates with the cookie token and the defaulted user, whatever the fallback would say |
| Auth.PrimaryWithoutUserFails | src/app/context/authContext.tsx:125-182 | a primary reply without `user` or `_id` skips the fallback and fails |
| Auth.FallbackSuccess | src/app/context/authContext.tsx:140-170 | a thrown primary call followed by a fallback reply with a user authenticates; after an error other than 401 the cookie and its token are kept |
| Auth.FailedCheckRemovesCookie | src/app/context/authContext.tsx:176-189 | every failed check that found a cookie leaves no auth cookie |
| Auth.LoginOutcome | src/app/context/authContext.tsx:212-246 | login resolves exactly when the POST succeeds, and a failed POST rethrows exactly its own error |
| Auth.LoginSuccess | src/app/context/authContext.tsx:222-240 | a reply always authenticates; a token is set in the cookie (lax, session-scoped) and in the state; the user is replaced only when the reply has a token and a user |
| Auth.LoginFailure | src/app/context/authContext.tsx:241-242 | a login error is rethrown unchanged, and the state changes only through the 401 handler |
| Auth.DecoratedHeaders | src/app/context/authContext.tsx:45-59 | the request gets `Bearer <cookie>` when the cookie is set and the session header when the id is set; a header the decorator does not set (either of those two when its value is empty, or any other) keeps its presence and value |
| Auth.DecorateIdempotent | src/app/context/authContext.tsx:45-59 | decorating twice gives the same headers as decorating once |
| Auth.DecorateCommutesWithOtherHeaders | src/app/context/authContext.tsx:45-59 | a header the decorator does not own may be set before or after decorating with the same result |
| Auth.CookieOnlyFallbackCarriesBearer | src/app/context/authContext.tsx:146-149 | the "cookie-only" fallback still carries the Bearer header whenever the auth cookie exists |
| Auth.LogoutAsWritten | src/app/context/authContext.tsx:248-271 | logout as written sends one POST for each 401 reply and one more: when it completes, its last POST is the first one not answered 401 and every earlier one was; while pending, every reply so far was 401 |
| Auth.LogoutAsWrittenCompletes | src/app/context/authContext.tsx:199-202 | logout as written finishes exactly when some logout POST is answered with a status other than 401, after one POST per reply up to the first such one |
| Auth.LogoutAsWrittenLoops | src/app/context/authContext.tsx:199-202 | when every logout POST gets a 401, logout never finishes: one more POST is pending for each reply |
| Auth.LogoutCorrected | src/app/context/authContext.tsx:248-271 | the intended logout sends exactly one POST, and it agrees with the logout as written exactly when that POST is not answered 401 |
| Auth.IsAdminIffAdminRole | src/app/context/authContext.tsx:41 | `isAdmin` holds exactly when the user's role is `admin` |
| Auth.HasAdminRole | src/app/context/authContext.tsx:41 | defined as a user present with role `admin` (no contract of its own); `Auth.IsAdminIffAdminRole` ties `isAdmin` to it
| Auth.Expired | src/app/context/authContext.tsx:95-101 | defined as a payload with an `exp` whose `exp * 1000` is before now (no contract of its own); `Auth.ExpiryBoundary` states its effect on the check |
| Auth.AuthProvider.constructor | src/app/context/authContext.tsx:34-37 | the first render is unauthenticated with no token or user, and loading |
| Auth.AuthProvider.ClearState | src/app/context/authContext.tsx:85-87 | the three state fields are cleared and loading is unchanged |
| Auth.AuthProvider.RemoveAuthCookie | src/app/context/authContext.tsx:97 | only the auth cookie is removed |
| Auth.AuthProvider.Logout | src/app/context/authContext.tsx:248-271 | after logout the state is `LoggedOut` of the old state and loading is off, whatever the POST returned |
| Auth.AuthProvider.OnResponseError | src/app/context/authContext.tsx:199-204 | the state after the handler is `AfterError` of the old state, and the same error is rejected again |
| Auth.AuthProvider.DecorateRequest | src/app/context/authContext.tsx:45-59 | the request's headers become `DecoratedHeaders` of the old ones and credentials are turned on |
| Auth.AuthProvider.Authenticate | src/app/context/authContext.tsx:127-136 | the state becomes authenticated with the reply's user, and the token is set only when one is given |
| Auth.AuthProvider.CheckAuth | src/app/context/authContext.tsx:75-193 | the result and the new state are those of `CheckAuthResult`, and loading is off afterwards |
| Auth.AuthProvider.Login | src/app/context/authContext.tsx:212-246 | the rethrown error and the new state are those of `LoginOutcome`, and loading is off afterwards |
| Profile.ProfileError | src/app/context/profileContext.tsx:71 | the shown error is the body's `error` when it is non-empty and "Failed to load profile" otherwise, never "" |
| Profile.FetchResult | src/app/context/profileContext.tsx:35-76 | loading always ends; unauthenticated clears the details; an auth user is copied; otherwise a reply gives a user with a non-empty role and no error, and a failure gives no user and the error message |
| Profile.LoadedProfile | src/app/context/profileContext.tsx:60-68 | the loaded profile is `data.user` when present and the body otherwise, with only an empty role defaulted |
| Profile.FetchIdempotent | src/app/context/profileContext.tsx:87 | `refreshProfile` run again against the same inputs changes nothing more |
| Profile.IsAdminAgreesWithAuth | src/app/context/profileContext.tsx:33 | `isAdmin` is false when unauthenticated, and agrees with the auth user's role when there is one |
| Profile.ProfileProvider.constructor | src/app/context/profileContext.tsx:28-30 | the first render has no details, is loading and has no error |
| Profile.ProfileProvider.FetchUserDetails | src/app/context/profileContext.tsx:35-76 | the provider's new state is `FetchResult` of its old state and the inputs |
| CategoryTree.Repeat | src/app/components/Blogform.tsx:240 | `s.repeat(n)` has `n` times the length of `s` |
| CategoryTree.Indented | src/app/components/Blogform.tsx:238-241 | a pushed entry's name is the repeated indent followed by the original name, and every other field is the original's |
| CategoryTree.PreorderSize | src/app/components/Blogform.tsx:234-249 | the preorder listing has one entry per node of the forest |
| CategoryTree.PreorderDepth | src/app/components/Blogform.tsx:244 | every entry lies at or below the depth the listing started at |
| CategoryTree.FlattenIsIndentedPreorder | src/app/components/Blogform.tsx:234-249 | the flattened list is the preorder listing with each name indented by its depth and every other field unchanged |
| CategoryTree.Flatten | src/app/components/Blogform.tsx:234-249 | `flattenCategories` as the recursive definition (no contract of its own); `CategoryTree.FlattenIsIndentedPreorder`, `FlattenSize` and `FlattenAppend` state its properties and `CategoryTree.FlattenCategories` is proved equal to it |
| CategoryTree.FlattenSize | src/app/components/Blogform.tsx:234-249 | there is exactly one output entry per category or subcategory |
| CategoryTree.FlattenAppend | src/app/components/Blogform.tsx:237-246 | flattening a forest in two parts is concatenating the two flattenings |
| CategoryTree.FlattenStep | src/app/components/Blogform.tsx:237-246 | one more top-level node adds its indented entry followed by its flattened subtree |
| CategoryTree.FlattenCategories | src/app/components/Blogform.tsx:234-249 | the `forEach` loop's result is the recursive flattening `Flatten` |
| BlogForm.RemoveDisallowed | src/app/components/Blogform.tsx:165 | only word characters, white space and `-` survive, and no upper-case letter is introduced |
| BlogForm.DropSeparators | src/app/components/Blogform.tsx:166 | what is left after a run of `[\s_-]` does not start with one, and is shorter when the input did |
| BlogForm.DropLeadingDashes | src/app/components/Blogform.tsx:167 | after `^-+` is removed the result does not start with `-` |
| BlogForm.DropTrailingDashes | src/app/components/Blogform.tsx:167 | after `-+$` is removed the result does not end with `-` |
| BlogForm.DropSeparatorsIsSuffix | src/app/components/Blogform.tsx:166 | dropping the leading separators leaves a suffix of the input |
| BlogForm.DropLeadingDashesIsSuffix | src/app/components/Blogform.tsx:167 | dropping leading dashes leaves a suffix of the input |
| BlogForm.DropTrailingDashesIsPrefix | src/app/components/Blogform.tsx:167 | dropping trailing dashes leaves a prefix of the input |
| BlogForm.CollapseShape | src/app/components/Blogform.tsx:166 | collapsing runs of separators leaves only slug characters with no `--`, and keeps a non-separator first character |
| BlogForm.DisallowedDroppedShape | src/app/components/Blogform.tsx:163-165 | after lower-casing, the characters that survive the first replace are slug characters or separators |
| BlogForm.SliceShape | src/app/components/Blogform.tsx:167 | any piece of a dash-clean slug string is slug characters with no `--` |
| BlogForm.StripShape | src/app/components/Blogform.tsx:167 | stripping dashes at both ends of such a string gives a clean slug |
| BlogForm.GeneratedSlugIsClean | src/app/components/Blogform.tsx:161-171 | for every title the generated slug has only `[a-z0-9-]`, no `-` at either end and no `--` |
| BlogForm.RemoveDisallowedKeepsSlug | src/app/components/Blogform.tsx:165 | slug characters pass the first replace unchanged |
| BlogForm.CollapseKeepsSlug | src/app/components/Blogform.tsx:166 | slug characters without `--` pass the collapse unchanged |
| BlogForm.CleanSlugIsFixed | src/app/components/Blogform.tsx:162-167 | a clean slug used as the title generates itself |
| BlogForm.SlugIdempotent | src/app/components/Blogform.tsx:162-167 | generating a slug from a generated slug gives it back unchanged |
| BlogForm.GenerateSlug | src/app/components/Blogform.tsx:162-167 | the slug pipeline (lower-case, trim, three replaces), with no contract of its own; `BlogForm.GeneratedSlugIsClean`, `BlogForm.CleanSlugIsFixed` and `BlogForm.SlugIdempotent` state its properties |
| BlogForm.FocusedSlugIsKept | src/app/components/Blogform.tsx:159-172 | once the slug field is focused (the `onFocus` at line 296), or while editing, no title regenerates the slug; a new post with a non-empty title does |
| BlogForm.FirstWithId | src/app/components/Blogform.tsx:143 | `find` returns the first category with the id, and none exactly when no category has it |
| BlogForm.AvailableSubcategories | src/app/components/Blogform.tsx:139-153 | no selection offers nothing; anything offered is the subcategories of a top-level category with the selected id, namely the first one found; an id absent from the top level offers nothing |
| BlogForm.NestedSelectionOffersNothing | src/app/components/Blogform.tsx:141-153 | choosing a nested category (listed in the dropdown but not top level) offers no subcategories |
| BlogForm.LengthError | src/app/components/Blogform.tsx:14-33 | there is no error exactly when the length is within the bounds; too short reports the `min` message first, too long the `max` message |
| BlogForm.WithErrorKeys | src/app/components/Blogform.tsx:284-418 | the error map stays empty exactly when it was empty and no message is added |
| BlogForm.ErrorsEmptyIffWithinSchema | src/app/components/Blogform.tsx:13-51 | the form has no field error exactly when every field is within the schema's bounds, the slug matches `^[a-z0-9-]+$` and the image is small enough and of an allowed type |
| BlogForm.Errors | src/app/components/Blogform.tsx:13-51 | the error map the schema leaves, field by field (no contract of its own); `BlogForm.ErrorsEmptyIffWithinSchema` states when it is empty |
| BlogForm.GeneratedSlugSchema | src/app/components/Blogform.tsx:17-20 | a generated slug passes the slug checks exactly when it has 3 to 100 characters |
| BlogForm.Names | src/app/components/Blogform.tsx:192-203 | the entry names of a payload, one per entry, in order |
| BlogForm.BuildFormData | src/app/components/Blogform.tsx:192-203 | the payload has title, slug, content, excerpt, category, the subcategory only when set, tags, and the image only when one is chosen, in that order, each with the form's value |
| BlogForm.ThrownError | src/app/components/Blogform.tsx:225-229 | the error shown after a throw is never empty |
| BlogForm.Submit | src/app/components/Blogform.tsx:206-230 | there is no error exactly when the reply says success; then the alert shows and `onSuccess` runs when given; a refusal shows its message or the default; a throw shows `ThrownError` |
| BlogForm.BlogFormState.constructor | src/app/components/Blogform.tsx:81-108 | the defaults come from the edited post or are "", and the slug counts as manual when the post has one |
| BlogForm.BlogFormState.FocusSlug | src/app/components/Blogform.tsx:296 | focusing the slug marks it manual and changes nothing else |
| BlogForm.BlogFormState.ChangeTitle | src/app/components/Blogform.tsx:159-172 | the slug becomes `SlugAfterTitle` of the new title, and nothing else changes |
| BlogForm.BlogFormState.RefreshSubcategories | src/app/components/Blogform.tsx:139-157 | the offered subcategories become `AvailableSubcategories` and the chosen subcategory is cleared |
| BlogForm.BlogFormState.SelectCategory | src/app/components/Blogform.tsx:110-157 | the category is recorded, the subcategories are recomputed and the subcategory is cleared |
| BlogForm.BlogFormState.LoadCategories | src/app/components/Blogform.tsx:117-134 | the categories are set, and the subcategory effect runs on them |
| CategoryForm.CleanFilters | src/app/components/Categoryform.tsx:186 | trimming and dropping empty items never adds an item |
| CategoryForm.CleanFiltersAppend | src/app/components/Categoryform.tsx:186 | the clean-up of two lists of pieces is the concatenation of their clean-ups |
| CategoryForm.CleanFiltersShape | src/app/components/Categoryform.tsx:186 | pieces without commas clean up to filters: non-empty, trimmed, comma-free |
| CategoryForm.ParsedFilters | src/app/components/Categoryform.tsx:183-188 | every parsed filter is non-empty, trimmed and comma-free, and there are at most one more than the commas |
| CategoryForm.ParseFilters | src/app/components/Categoryform.tsx:186 | split at commas, trim, drop the empty items (no contract of its own); `CategoryForm.ParsedFilters`, `ParseFiltersOrder` and `JoinParseRoundTrip` state its properties |
| CategoryForm.ParseFiltersOrder | src/app/components/Categoryform.tsx:186 | the text before a comma gives the first filters and the text after it the rest, in order |
| CategoryForm.ParseSkipsLeadingSpace | src/app/components/Categoryform.tsx:186 | white space in front of the text never changes the filters |
| CategoryForm.JoinStep | src/app/components/Categoryform.tsx:56 | `join(', ')` of two or more filters is the first, a comma, a space and the join of the rest |
| CategoryForm.ParseOne | src/app/components/Categoryform.tsx:186 | a single filter parses to itself |
| CategoryForm.JoinParseRoundTrip | src/app/components/Categoryform.tsx:186 | parsing the initial text `filters.join(', ')` of line 56 gives the category's filters back, for any list of filters |
| CategoryForm.NameError | src/app/components/Categoryform.tsx:10-15 | a name has no error exactly when it has 2 to 50 characters, all of `[a-zA-Z0-9\s\-&]` |
| CategoryForm.CategorySlugError | src/app/components/Categoryform.tsx:16-21 | a slug has no error exactly when it has 2 to 50 characters, all of `[a-z0-9\-]` |
| CategoryForm.SlugIsValidName | src/app/components/Categoryform.tsx:10-21 | every valid slug is also a valid name |
| CategoryForm.AvailableParents | src/app/components/Categoryform.tsx:98-100 | the parent candidates never include the edited id and come from the loaded categories, and are all of them when creating |
| CategoryForm.AvailableParentsKeepsOthers | src/app/components/Categoryform.tsx:98-100 | when editing, the candidates are exactly the loaded categories whose id differs from the edited one's, in their loaded order |
| CategoryForm.PreorderHasTopLevel | src/app/components/Categoryform.tsx:103-118 | every top-level category appears in the preorder listing at the starting depth |
| CategoryForm.DropdownStillOffersEditedCategory | src/app/components/Categoryform.tsx:247-248 | the dropdown is built from the full flattened list, so an edited top-level category is still offered as its own parent, although `availableParents` (lines 98-120) excludes it |
| CategoryForm.SaveRequest | src/app/components/Categoryform.tsx:127-135 | editing sends PATCH `/api/categories/<id>`, creating sends POST `/api/categories/add` |
| CategoryForm.ErrorText | src/app/components/Categoryform.tsx:141-147 | the error is never empty: the response's message or `Error: <status>`, else the no-response text when a request went out, else the error's message or the default |
| CategoryForm.CategoryFormState.constructor | src/app/components/Categoryform.tsx:54-58 | the filter text starts as the category's filters joined by `, `, or "" when creating |
| CategoryForm.CategoryFormState.FetchCategories | src/app/components/Categoryform.tsx:78-93 | a reply sets the list to `data.data` or []; a failure keeps it and shows the load error; loading ends either way |
| CategoryForm.CategoryFormState.HandleFiltersChange | src/app/components/Categoryform.tsx:183-188 | the text is kept as typed and the form's filters become `ParseFilters` of it |
| CategoryForm.CategoryFormState.HandleFormSubmit | src/app/components/Categoryform.tsx:122-151 | the request is `SaveRequest`; `onSubmit` runs exactly on success; a failure shows `ErrorText`; loading ends |
| CategoryForm.CategoryFormState.HandleDelete | src/app/components/Categoryform.tsx:153-180 | nothing happens when creating or when not confirmed; otherwise DELETE `/api/categories/<id>` is sent, `onCancel` runs exactly on success and a failure shows `ErrorText` |
| ProfileModal.PasswordCheck | src/app/components/ProfileModal.tsx:205-225 | an empty new password is never checked; the checks pass exactly when the new password is empty, or matches the confirmation, has a current password and has at least 6 characters |
| ProfileModal.FirstFailureWins | src/app/components/ProfileModal.tsx:205-225 | the reported problem is the first failing check: mismatch, then missing current password, then too short, each stated as an if-and-only-if |
| ProfileModal.NoNewPasswordNoCheck | src/app/components/ProfileModal.tsx:206-220 | with no new password typed, the current and confirmation fields never block the update |
| ProfileModal.BuildUpdateData | src/app/components/ProfileModal.tsx:231-241 | the payload always has first and last name, the avatar link only when set, and both passwords only when both current and new are non-empty, each with the form's value |
| ProfileModal.PasswordsSentIffChanged | src/app/components/ProfileModal.tsx:205-241 | after the checks pass, the passwords are sent exactly when a new one was typed, and then it matches the confirmation and has at least 6 characters |
| ProfileModal.SuccessMessage | src/app/components/ProfileModal.tsx:255 | the success message is the reply's message when non-empty, and never empty |
| ProfileModal.UpdateError | src/app/components/ProfileModal.tsx:276 | the failure message is the body's `error` when non-empty and "Failed to update profile" otherwise |
| ProfileModal.ClearPasswords | src/app/components/ProfileModal.tsx:262-267 | the three password fields are cleared and the name and e-mail fields kept |
| ProfileModal.ClearedFormSendsNoPasswords | src/app/components/ProfileModal.tsx:238-267 | after a successful update the form passes the checks and a resubmission sends no passwords |
| ProfileModal.AvatarPartition | src/app/components/ProfileModal.tsx:156-162 | the default and user lists hold exactly the avatars that do and do not name a built-in file, together every avatar once, each in the reply's order |
| ProfileModal.IsDefaultAvatar | src/app/components/ProfileModal.tsx:157 | a link containing one of the built-in file names (no contract of its own); `ProfileModal.BuiltInLink` gives an instance |
| ProfileModal.DefaultsOf | src/app/components/ProfileModal.tsx:156-158 | the default avatars (no contract of its own); `ProfileModal.AvatarPartition` states the split |
| ProfileModal.UsersOf | src/app/components/ProfileModal.tsx:160-162 | the user avatars (no contract of its own); `ProfileModal.AvatarPartition` states the split |
| ProfileModal.BuiltInLink | src/app/components/ProfileModal.tsx:157 | a link containing `avatar2.jpg` (one of the defaults of lines 30-34) anywhere counts as a built-in avatar |
| ProfileModal.SelectAvatars | src/app/components/ProfileModal.tsx:139-154 | a bare array is taken; otherwise `avatars`; otherwise `data` when `success` is set; no avatars exactly when none of the three shapes fits |
| ProfileModal.Categories | src/app/components/ProfileModal.tsx:164-167 | the picker shows two lists, "Default Avatars" and "Your Avatars", holding the two halves of the partition |
| ProfileModal.ProfileModalState.constructor | src/app/components/ProfileModal.tsx:42-66 | the first render has empty fields, the default avatar path and two empty avatar lists |
| ProfileModal.ProfileModalState.SyncUserDetails | src/app/components/ProfileModal.tsx:69-82 | a profile is copied into the name and e-mail fields with the passwords cleared, and sets the avatar; no profile changes nothing |
| ProfileModal.ProfileModalState.LoadAvatars | src/app/components/ProfileModal.tsx:123-177 | nothing is fetched unless the modal is open with a token; an accepted reply replaces the two lists; an unexpected shape or a failure keeps them and shows the matching toast |
| ProfileModal.ProfileModalState.HandleAvatarSelect | src/app/components/ProfileModal.tsx:194-198 | the chosen avatar becomes the selection and the payload's avatar, and the picker closes |
| ProfileModal.ProfileModalState.HandleSubmit | src/app/components/ProfileModal.tsx:200-282 | a failing check shows its message and sends nothing; otherwise the request carries the typed names, the avatar link when set and the two passwords when both are typed (the keys and values `BuildUpdateData` gives); a reply shows its message, refreshes the profile and clears the passwords; a failure shows `UpdateError`; loading ends |
| Validation.Issues | src/utils/validation.ts:6-8 | the address fails the pattern check exactly when the pattern rejects it, `min(1)` exactly when it is empty and `max(100)` exactly when it is longer than 100; each check is reported at most once |
| Validation.Normalize | src/utils/validation.ts:9 | lower-casing and trimming never lengthen the address |
| Validation.ParseEmail | src/utils/validation.ts:4-10 | an address is accepted exactly when the pattern accepts it and it has 1 to 100 characters, and then the output is the lower-cased, trimmed address; a rejection carries the failed checks |
| Validation.ShownError | src/utils/validation.ts:6-8 | nothing is shown for an accepted address; the pattern's message wins, then "required", then "too long" |
| Validation.NormalizedShape | src/utils/validation.ts:9 | an accepted address has no upper-case letter and no surrounding white space |
| Validation.NormalizeIdempotent | src/utils/validation.ts:9 | applying the transform to its own output changes nothing |
| Validation.LengthCheckedBeforeTrim | src/utils/validation.ts:8-9 | an address over 100 characters is refused with the length message, even when its trimmed form would fit |
| UseNewsletter.SubmitNewsletter | src/app/components/useNewsletter.tsx:15-42 | success exactly when the server answered 2xx with a JSON body, and then the data is that body; a readable failure carries its message or "Subscription failed" and its status; no connection or an unreadable body gives the connection error without a status |
| UseNewsletter.StatusOnlyForServerFailures | src/app/components/useNewsletter.tsx:30-39 | a result carries a status exactly when the server answered with a readable failure |
| Newsletter.MessageOr | src/app/components/Newsletter.tsx:62-67 | the reply's message when non-empty, the fallback otherwise |
| Newsletter.SubmitOutcome | src/app/components/Newsletter.tsx:37-77 | subscribed exactly on a 2xx reply with a JSON body; 409 and 400 give a field error with their messages; any other failure a form-level error; no connection or an unreadable body the connection message |
| Newsletter.AgreesWithHook | src/app/components/Newsletter.tsx:37-77 | the form and the hook agree on which replies subscribe, and an unreachable server is a form-level error with no status |
| Newsletter.EnabledMeansValid | src/app/components/Newsletter.tsx:123 | the submit button is enabled only when not submitting and the typed address passes the schema |
| Newsletter.SubmitDisabled | src/app/components/Newsletter.tsx:123 | the button is disabled while submitting or while the schema rejects the typed address (no contract of its own); `Newsletter.EnabledMeansValid` states what an enabled button implies |
| Newsletter.NewsletterForm.constructor | src/app/components/Newsletter.tsx:26-35 | the form starts closed, empty and without errors |
| Newsletter.NewsletterForm.OnSubmit | src/app/components/Newsletter.tsx:37-77 | errors left from an earlier submit are cleared first, as `handleSubmit` does; on success the address is remembered, the modal opens and the form is reset; a field or form error is then set as `SubmitOutcome` says, the other error stays cleared and nothing else changes |
| Newsletter.NewsletterForm.CloseModal | src/app/components/Newsletter.tsx:154 | closing the modal changes nothing else |
| BlogList.AllShowsEverything | src/app/components/Bloglist.tsx:52-55 | the `all` filter shows every post, in order |
| BlogList.FilterShowsStatus | src/app/components/Bloglist.tsx:52-55 | any other filter shows exactly the posts with that status, each as often as listed, in list order |
| BlogList.DeleteRemovesOnlyId | src/app/components/Bloglist.tsx:41 | a successful delete drops every post with that id and keeps every other post, as often as before, in order |
| BlogList.DeleteAbsentId | src/app/components/Bloglist.tsx:41 | deleting an id that is not listed leaves the list unchanged |
| BlogList.FilteredBlogs | src/app/components/Bloglist.tsx:52-55 | the status filter (no contract of its own); `BlogList.AllShowsEverything` and `BlogList.FilterShowsStatus` state what it shows |
| BlogList.WithoutId | src/app/components/Bloglist.tsx:41 | the list after a delete (no contract of its own); `BlogList.DeleteRemovesOnlyId` and `BlogList.DeleteAbsentId` state what it keeps |
| BlogList.BlogListState.constructor | src/app/components/Bloglist.tsx:12-14 | the first render has no posts, is loading and uses the `all` filter |
| BlogList.BlogListState.FetchBlogs | src/app/components/Bloglist.tsx:16-31 | a readable body sets the list to its `data` or [] whatever the status; a failed call or unreadable body keeps the list; loading ends |
| BlogList.BlogListState.SetFilter | src/app/components/Bloglist.tsx:81 | the dropdown sets the filter and nothing else |
| BlogList.BlogListState.HandleDelete | src/app/components/Bloglist.tsx:33-50 | a request goes out exactly when confirmed; an ok status removes the post; any other status or a throw alerts and keeps the list |
| Sorting.SwapStep | src/app/components/DashboardStat.tsx:96 | moving a newer element one place left past an older neighbour keeps the insertion invariant |
| Sorting.InsertDone | src/app/components/DashboardStat.tsx:96 | once the moving element's left neighbour is at least as new, the sorted prefix grows by one |
| Sorting.SwapAdjacent | src/app/components/DashboardStat.tsx:96 | two neighbours change places and nothing else changes, so the contents are a permutation |
| Sorting.SortDesc | src/app/components/DashboardStat.tsx:96-100 | the array is sorted in place newest first, and it is a permutation of what it held |
| Sorting.PrefixIsNewest | src/app/components/DashboardStat.tsx:95-97 | in a list sorted newest first, every item among the first `n` is at least as new as every later item |
| Sorting.NewestPrefixOf | src/app/components/DashboardStat.tsx:95-97 | the first `n` items of a newest-first permutation of a list are a newest prefix of it |
| Sorting.NewestPrefixDominates | src/app/components/DashboardStat.tsx:95-97 | no item left out of a newest prefix is newer than one in it |
| DashboardStat.TotalsOfPermutation | src/app/components/DashboardStat.tsx:91-96 | the view and like totals do not depend on the order of the posts, so sorting in place before or after summing agrees |
| DashboardStat.TotalViews | src/app/components/DashboardStat.tsx:91 | the view fold, a missing count adding 0 (no contract of its own); `DashboardStat.TotalsOfPermutation`, `TotalsRemove` and `TotalsNonNegative` state its properties |
| DashboardStat.TotalLikes | src/app/components/DashboardStat.tsx:92 | the like fold, a missing count adding 0 (no contract of its own); the same three lemmas state its properties |
| DashboardStat.TotalsRemove | src/app/components/DashboardStat.tsx:91-92 | removing one post takes its `views \|\| 0` and `likes \|\| 0` off the totals |
| DashboardStat.TotalsNonNegative | src/app/components/DashboardStat.tsx:91-92 | with no negative counts the totals are not negative |
| DashboardStat.StatusCounts | src/app/components/DashboardStat.tsx:89-90 | published and draft counts add up to at most the number of posts, and to exactly that when every status is one of the two |
| DashboardStat.ComputeStats | src/app/components/DashboardStat.tsx:84-113 | the counts are the list lengths and the two status filters, the totals are the folds over the posts as fetched, both arrays end sorted newest first as permutations of themselves, and the recent lists are their first five |
| DashboardStat.RecentShape | src/app/components/DashboardStat.tsx:95-97 | the recent list has at most five posts, newest first, all taken from the list |
| DashboardStat.RecentAreNewest | src/app/components/DashboardStat.tsx:95-97 | no post left out of the recent list is newer than one shown |
| DashboardStat.StatsPanel.constructor | src/app/components/DashboardStat.tsx:57-69 | the panel starts with zero statistics and loading |
| DashboardStat.StatsPanel.FetchStats | src/app/components/DashboardStat.tsx:72-122 | when all three calls succeed the counts and totals are those of `data \|\| []`, and the recent posts and users are the first five of a newest-first permutation of the fetched lists; when one fails the old statistics stay; loading ends |
| DashboardPage.GetNumericValue | src/app/Dashboard/page.tsx:89-96 | a number is taken as it is, an array counts its length, an object its keys, and anything else 0; only a number can be negative |
| DashboardPage.LikesContribution | src/app/Dashboard/page.tsx:107-117 | a post adds its likes array's length or its numeric likes, and nothing otherwise |
| DashboardPage.TotalViews | src/app/Dashboard/page.tsx:102-105 | the view fold over `getNumericValue` (no contract of its own); `DashboardPage.NormalisedTotals` relates it to the recent posts |
| DashboardPage.TotalLikes | src/app/Dashboard/page.tsx:107-117 | the like fold over `LikesContribution` (no contract of its own); `DashboardPage.NormalisedTotals` and `DashboardPage.LikesDisagreeOnObjects` state how it differs from the recent posts' counts |
| DashboardPage.NormalisedLikesIsNumericValue | src/app/Dashboard/page.tsx:125 | the array test in the recent posts' likes is redundant: it equals `getNumericValue` on every value |
| DashboardPage.LikesDisagreeOnObjects | src/app/Dashboard/page.tsx:107-125 | the like total and the recent list count likes differently exactly on non-empty objects, which the total skips and the list counts by keys |
| DashboardPage.Normalise | src/app/Dashboard/page.tsx:122-126 | a recent post has numbers for both counts and every other field unchanged |
| DashboardPage.NormalisePreservesCounts | src/app/Dashboard/page.tsx:122-126 | normalising changes neither count's value, and normalising again changes nothing |
| DashboardPage.NormaliseAll | src/app/Dashboard/page.tsx:122 | the map normalises each post in place of the list |
| DashboardPage.NormalisedTotals | src/app/Dashboard/page.tsx:102-126 | normalising keeps the view total, and keeps the like total when no post's likes is an object |
| DashboardPage.RecentShape | src/app/Dashboard/page.tsx:119-126 | the recent posts are at most five, newest first, each the normalised post at the same place of the sorted list |
| DashboardPage.ComputeStats | src/app/Dashboard/page.tsx:84-141 | the counts and totals come from the lists as fetched, both arrays end sorted newest first as permutations of themselves, and the recent posts are the first five normalised |
| DashboardPage.DashboardState.constructor | src/app/Dashboard/page.tsx:57-69 | the page starts with zero statistics and loading |
| DashboardPage.DashboardState.FetchStats | src/app/Dashboard/page.tsx:72-150 | when the calls succeed the counts and totals are those of the fetched lists, the recent posts are the normalised first five of a newest-first permutation of the fetched posts, and the recent users the first five of a newest-first permutation of the users; a failure keeps the old statistics; loading ends |
| Admin.BlogFormNeverNotifiesPanel | src/app/Admin/page.tsx:50-55 | the panel passes `onSubmit`, which the form does not read (src/app/components/Blogform.tsx:80, 213-219), so a save never calls back into the panel, yet a successful one still alerts |
| Admin.ViewTitle | src/app/Admin/page.tsx:151-156 | the heading for each view, with the create heading split on the selection (no contract of its own); `Admin.AdminPanel.HandleEditBlog` and `Admin.AdminPanel.NewBlogPost` state which one each button shows |
| Admin.AdminPanel.constructor | src/app/Admin/page.tsx:13-16 | the panel opens on the dashboard with nothing selected and the counter at 0 |
| Admin.AdminPanel.HandleRefresh | src/app/Admin/page.tsx:18-20 | the refresh counter goes up by one and nothing else changes |
| Admin.AdminPanel.HandleEditBlog | src/app/Admin/page.tsx:22-25 | the chosen post is selected and the form opens headed "Edit Blog Post", without a refresh |
| Admin.AdminPanel.HandleBlogSubmit | src/app/Admin/page.tsx:27-31 | the selection is cleared, the blog list is shown and the counter goes up by one |
| Admin.AdminPanel.HandleCategoryUpdate | src/app/Admin/page.tsx:33-35 | the counter goes up by one; view and selection stay |
| Admin.AdminPanel.ShowView | src/app/Admin/page.tsx:81-121 | a navigation button switches to its view and changes nothing else |
| Admin.AdminPanel.NewBlogPost | src/app/Admin/page.tsx:101-104 | the create buttons clear the selection and open the form headed "Create New Blog Post" |
| Admin.AdminPanel.CancelCategoryForm | src/app/Admin/page.tsx:46 | cancelling the category form returns to the dashboard |
| Admin.AdminPanel.CancelBlogForm | src/app/Admin/page.tsx:54 | cancelling the blog form returns to the blog list, keeping the selection |
| Admin.AdminPanel.CategoryFormDone | src/app/Admin/page.tsx:42-47 | the counter goes up exactly when the category form called its `onSubmit` |
| Admin.AdminPanel.BlogFormDone | src/app/Admin/page.tsx:48-56 | a save in the blog form has the outcome of a form with no `onSuccess`, which never reports to the panel |
| ConfirmationLetter.Tick | src/app/components/ConfirmationLettermodal.tsx:33-39 | a tick counts down by one, and from 1 or less lands on 0 with resending unlocked; it keeps the timer valid (0..30, unlocked exactly at 0) |
| ConfirmationLetter.TicksAfterOpen | src/app/components/ConfirmationLettermodal.tsx:29-40 | n < 30 ticks after opening, 30 - n seconds remain and resending is locked; from the 30th tick on it is unlocked at 0 |
| ConfirmationLetter.TicksStayValid | src/app/components/ConfirmationLettermodal.tsx:32-40 | any number of ticks keeps a valid timer valid |
| ConfirmationLetter.ResendTimer.constructor | src/app/components/ConfirmationLettermodal.tsx:23-24 | the timer starts at 30, locked, with no interval running |
| ConfirmationLetter.ResendTimer.Open | src/app/components/ConfirmationLettermodal.tsx:26-32 | opening resets to 30, locked, and starts the interval |
| ConfirmationLetter.ResendTimer.Close | src/app/components/ConfirmationLettermodal.tsx:27-42 | closing stops the interval and keeps the timer's value |
| ConfirmationLetter.ResendTimer.OnTick | src/app/components/ConfirmationLettermodal.tsx:32-40 | an interval callback applies one tick |
| ConfirmationLetter.ResendTimer.HandleResend | src/app/components/ConfirmationLettermodal.tsx:45-66 | nothing is sent while locked; a sent request whose body says `success` restarts the countdown, and any other outcome changes nothing |
| LicensingFaq.Toggle | src/app/LicensingFAQ/page.tsx:66 | a click leaves its own answer open, or closes everything exactly when that answer was already open |
| LicensingFaq.AtMostOneShown | src/app/LicensingFAQ/page.tsx:74 | at most one answer is shown at a time |
| LicensingFaq.ToggleTwice | src/app/LicensingFAQ/page.tsx:66 | two clicks on one button restore the previous state, unless a different answer was open; then all answers end closed |
| LicensingFaq.Accordion.constructor | src/app/LicensingFAQ/page.tsx:18 | the first question starts open |
| LicensingFaq.Accordion.Click | src/app/LicensingFAQ/page.tsx:66-74 | a click toggles its question, and afterwards no other question is shown |
| JsString.TrimStart | src/utils/validation.ts:9 | what is left after the leading white space goes is no longer than the input and does not start with white space |
| JsString.TrimEnd | src/utils/validation.ts:9 | what is left after the trailing white space goes is no longer than the input and does not end with white space |
| JsString.TrimProperties | src/utils/validation.ts:9 | a trimmed string has white space at neither end and is no longer than the input |
| JsString.TrimIdempotent | src/app/components/Categoryform.tsx:186 | trimming twice is trimming once |
| JsString.TrimSkipsLeadingSpace | src/app/components/Categoryform.tsx:186 | a leading white-space character makes no difference to the trimmed result |
| JsString.TrimKeepsChars | src/utils/validation.ts:9 | trimming only removes characters, it adds none |
| JsString.ToLower | src/utils/validation.ts:9 | lower-casing keeps the length and maps each character by itself (ASCII letters only) |
| JsString.ToLowerOfLower | src/utils/validation.ts:9 | a string with no upper-case letter is its own lower-case form |
| JsString.TrimKeepsNoUpper | src/utils/validation.ts:9 | trimming a lower-cased string leaves it lower-case |
| JsString.Split | src/app/components/Categoryform.tsx:186 | `split` gives one more part than there are separators, and no part contains the separator |
| JsString.SplitNoSeparator | src/app/components/Categoryform.tsx:186 | a string without the separator splits into itself alone |
| JsString.SplitConcat | src/app/components/Categoryform.tsx:186 | splitting `a + sep + b` gives the split of `a` followed by the split of `b`; `JsString.SplitJoin` and `CategoryForm.JoinParseRoundTrip` build the inverse of joining from it |
| JsString.SplitJoin | src/app/components/Categoryform.tsx:186 | splitting a non-empty list of pieces joined with a one-character separator that no piece contains gives the pieces back: `split` inverts `join` |
| JsString.Contains | src/app/components/ProfileModal.tsx:157 | `includes` holds exactly when the substring occurs at some position |
| JsString.NatToString | src/app/components/Categoryform.tsx:142 | the decimal form of a number is a non-empty string of digits |
| JsString.NatToStringRoundTrip | src/utils/sessionid.ts:16 | reading the decimal form back gives the number |

## Left out

- Network addresses: the backend URLs and the `NEXT_PUBLIC_*` environment variables are not modelled. A request is identified by what it sends, and its reply is a parameter.
- Side effects: console logging, `alert`, `confirm` and the toast notifications are left out. `alert` and `confirm` appear only where their outcome matters: a `confirm` answer is a parameter, and the blog form records whether it alerted.
- Timers: `setTimeout` calls, such as the delayed close after a profile update, are not modelled. The countdown's `setInterval` is modelled as the `OnTick` callback, which can only run while the dialog is open.
- Routing: `router.push` is modelled as a `route` field.
- Rendering: markup, CSS classes and icons are not modelled, nor is the `CustomImage` fallback in the profile modal. Only headings and messages that depend on state are modelled (for example `Admin.ViewTitle`).
- Category dropdowns: the `<option>` elements are not modelled. The list they are built from is (`CategoryTree.Flatten`).
- JWT: `jwt.decode` is an input. It yields a payload, no payload, or an exception.
- E-mail check: zod's address pattern is the parameter `isEmail`. The model follows zod's order of checks and keeps all the issues it reports.
- react-hook-form internals: registration, re-validation on change and the clearing of field errors are not modelled. The schema's effect on the submitted values is.
- Profile modal: `handleInputChange` is a plain field update and is not modelled, nor is the scroll reset (`scrollTop = 0`) when the modal opens.
- Blog form: the image preview (`FileReader`) is not modelled. The form data records only whether an image file was given.
- Unicode: `toLowerCase` is modelled on ASCII letters only.
- String lengths: lengths are counted in Unicode scalar values, not UTF-16 code units. These differ for characters outside the Basic Multilingual Plane.
- Numbers: JavaScript numbers are unbounded integers here. Both dashboards' `Math.round` percentages and their `toLocaleString` formatting are floating point and are not modelled.
- Dates: dates are integer timestamps, so `new Date(...)` parsing and invalid dates are not modelled.
- Sorting.SortDesc: the contract states sorted newest first and a permutation. It does not state stability, although the method only swaps neighbours that are strictly out of order.
- DashboardStat.ComputeStats: the users' `lastLogin` is always a timestamp here. The comparator's fallback for a missing date is not modelled. That fallback compares `_id` strings by subtraction, which gives `NaN`.
- Repeated definitions: each form defines its own `flattenCategories`. The two copies differ only in the indent literal, so they are modelled once, with the indent as a parameter.
- Auth headers: the Authorization header that the logout POST and the profile PATCH set by hand is not modelled. The Authorization header of the request interceptor is (`Auth.DecoratedHeaders`).
- Interceptors: registering and ejecting the interceptors on mount and unmount is not modelled. The handlers themselves are methods of the provider.
- Concurrency: interleaved asynchronous calls are not modelled. Each handler runs to completion against the replies it is given.
- Auth.AuthProvider.Logout: the method models the corrected logout described under Findings. It ignores the status of its own POST instead of re-entering through the 401 handler.
- Auth.AfterError: a 401 is taken to end in `LoggedOut`, which assumes the corrected logout. As written, the nested `logout()` that `await logout()` starts (src/app/context/authContext.tsx:201) never settles when its own POST is answered 401 too.
- Auth.AuthProvider.OnResponseError: it inherits the assumption of `Auth.AfterError` about the nested logout.
- Auth.CheckAuthResult: a failed profile call with status 401 ends in `LoggedOut` through `Auth.AfterError`, and so it assumes the corrected logout.
- Auth.AuthProvider.CheckAuth: its state rests on `Auth.CheckAuthResult` and carries the same assumption.
- Auth.LoginOutcome: a 401 on the login POST ends in `LoggedOut` through `Auth.AfterError`, and so it assumes the corrected logout.
- Auth.AuthProvider.Login: its state rests on `Auth.LoginOutcome` and carries the same assumption.

Two places where the messages and the checks disagree (not findings, since the behaviour is as coded):

- The e-mail schema's message says "less than 100 characters", but an address of exactly 100 characters is accepted (`Validation.ParseEmail`).
- The forms' maximum-length messages are worded the same way and allow the bound itself (`BlogForm.LengthError`, `CategoryForm.NameError`).

## Findings

| source | as written | input that shows it | evidently intended | confidence | as-written member | corrected member |
|---|---|---|---|---|---|---|
| src/app/context/authContext.tsx:199-202 | The response interceptor calls `logout()` on every 401, including the 401 answer to logout's own POST `/api/user/logout` (lines 248-271). That answer reaches the interceptor before logout's `finally` runs, so logout starts again and sends another POST. | a backend that answers every logout POST with 401, for example because the token has already expired | The logout request should not trigger logout again. Logout clears the state once, whatever its POST returns. | not executed | Auth.LogoutAsWrittenLoops | Auth.LogoutCorrected |
