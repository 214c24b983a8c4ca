# muzads client core, modelled in Dafny

This models the client-side logic of the muzads marketing site and dashboard. The rest of that repository is presentational React.

- **Session controller** (`contexts/AuthContext.tsx`). It holds the signed-in user in memory and an `isLoading` flag. It caches a session token and a JSON user record in browser storage under `muzads_auth_token` and `muzads_user_data`. It handles startup hydration (`initAuth`), `login`, `register`, `logout` and `refreshUser`, and it runs a route guard that sends anonymous visitors on private paths to `/login`. `AuthSession` (auth_session.dfy) gives one function per operation over a snapshot of that state, plus the lemmas. `AuthContext.AuthProvider` (auth_context.dfy) is the stateful object. Each of its methods performs the source's steps in order, and is proved to end in the state the matching function gives.
- **Backend client** (`lib/api.ts`). This covers the three HTTP calls and how each settles: the parsed body on a 2xx status, or an `APIError`. A server-reported failure carries the status. A transport or JSON failure carries no status. It also covers the registration payload defaults, the flattening of a validation `detail` array into one message, and the token helpers over the separate `auth_token` key (module `Api`, api.dfy). The backend is a value of type `Backend`: three functions from request to reply.
- **Stored user record** (`UserRecord`, `JsonText`). This is `JSON.stringify` of `{id, email, is_verified}`, together with a parser for that layout. The parser stands in for the source's `JSON.parse`. It is proved to read back what was written.
- **Creative library filter** (`app/dashboard/creative/page.tsx`, module `CreativeLibrary`). This is the tab-and-search filter and the "Clear All Filters" reset.
- **Pricing cards** (`components/pricing.tsx`, module `Pricing`). This is the monthly/yearly price shown, the annual-bill line and the billing toggle.

`BrowserStorage.LocalStorage` models `localStorage` as a `map<string, string>`. The router is modelled as the sequence of paths pushed so far.

Three behaviours of the code a reader might not expect:
- Hydration purges storage only when the cached record fails to parse. When only one of the two keys is present (or one is empty), nothing is removed.
- `/use-cases` on its own is not a public route. Only paths that start with `/use-cases/` are. `/blog` is public exactly, and so is any path that starts with `/blog/`. `/blogger` is not public.
- `register` resolves without logging in when the backend returns an id of 0 (a falsy value).

## Model

| member | source | states |
|---|---|---|
| AuthSession.PublicRouteIff | contexts/AuthContext.tsx:81-83 | A path is public exactly when it is one of `/`, `/login`, `/register`, `/blog`, `/faq`, `/about`, or starts with `/blog/` or `/use-cases/` |
| AuthSession.PublicRouteExamples | contexts/AuthContext.tsx:30 | `/blog`, `/blog/x` and `/use-cases/x` are public; `/use-cases` and `/dashboard` are not |
| AuthSession.GuardRedirectsIff | contexts/AuthContext.tsx:79-89 | The guard pushes `/login` exactly when loading is over, no user is held and the path is not public. It changes nothing else, and nothing at all while loading |
| AuthSession.GuardAnonymousVisitor | contexts/AuthContext.tsx:85-87 | An anonymous visitor is redirected from `/dashboard` but not from `/blog/anything` |
| AuthSession.HydrateSettles | contexts/AuthContext.tsx:70-72 | Hydration always ends with `isLoading` false. It leaves navigation and every unrelated storage key unchanged |
| AuthSession.HydrateKeepsCacheOnFailedRefresh | contexts/AuthContext.tsx:46-63 | With both keys filled and a parseable record, the cached user is adopted. A failed refresh keeps it and leaves storage unchanged |
| AuthSession.HydrateAdoptsRefresh | contexts/AuthContext.tsx:51-59 | A successful refresh replaces the user in memory and rewrites the user key with the fresh `{id,email,is_verified}` |
| AuthSession.HydratePurgesCorrupt | contexts/AuthContext.tsx:65-69 | When the record does not parse, both keys are removed and the user is left as it was (null at startup) |
| UserRecord.LeadingZeroIdRejected | contexts/AuthContext.tsx:47 | A record whose id has a leading zero (such as `{"id":01,...}`) is not JSON and does not parse, so hydration purges it |
| JsonText.LeadingZeroRejected | contexts/AuthContext.tsx:47 | A number of two or more digits that starts with 0 is refused, with or without a minus sign, as `JSON.parse` refuses it |
| JsonText.ParseIntText | contexts/AuthContext.tsx:47 | The decimal text of any integer (never with a leading zero) reads back as that integer and leaves what follows it |
| AuthSession.HydrateIgnoresIncomplete | contexts/AuthContext.tsx:43-46 | With either key missing or empty, hydration only ends loading, even if the other key is present |
| AuthSession.ReloadRestoresLogin | contexts/AuthContext.tsx:107-111 | After a successful login, a fresh page load restores the same user from storage even when the refresh fails |
| AuthSession.LoginSucceeds | contexts/AuthContext.tsx:95-111 | Login succeeds exactly when the backend accepts, reports success and the user fetch succeeds. It then stores a `session_` token, stores a record that parses back to the fetched user, signs that user in and leaves other keys alone |
| AuthSession.LoginFailsAtomically | contexts/AuthContext.tsx:95-117 | A failed login changes nothing. `success: false` rejects with the message, or "Login failed", and no status. An error from the login call or from the user fetch that follows it is rethrown unchanged |
| AuthSession.RegistrationIsUnverified | contexts/AuthContext.tsx:122-125 | Registration always posts `is_verified=false` with the caller's email and password, and "123456" when no code is given |
| AuthSession.RegisterChainsLogin | contexts/AuthContext.tsx:127-133 | With a truthy id, register ends exactly as a direct login with the same email and password. With id 0 it resolves without change. A rejected registration changes nothing |
| AuthSession.LogoutClears | contexts/AuthContext.tsx:139-153 | From any state, logout removes both keys, clears the user, pushes `/login` and keeps other keys and the loading flag. It is idempotent on storage and user |
| AuthSession.RefreshOnlyReplacesUser | contexts/AuthContext.tsx:155-170 | Refresh is a no-op without a user or on failure. Otherwise it replaces the user and its record. It changes no other storage key, never touches loading or navigation, and never changes `isAuthenticated` |
| AuthSession.OperationsKeepConsistent | contexts/AuthContext.tsx:107-109 | Every operation keeps the two keys paired and a signed-in user backed by a stored token. Hydration does too, starting from no user |
| AuthSession.OperationsLeaveApiTokenAlone | contexts/AuthContext.tsx:26-27 | No session operation changes the backend client's separate `auth_token` key |
| AuthContext.AuthProvider.IsAuthenticated | contexts/AuthContext.tsx:175 | `isAuthenticated` is the session's `Authenticated` predicate of the provider's state, so the guard, logout and refresh lemmas describe how it changes |
| AuthContext.AuthProvider.constructor | contexts/AuthContext.tsx:33-34 | A provider mounts with no user and loading under way |
| AuthContext.AuthProvider.InitAuth | contexts/AuthContext.tsx:41-73 | Ends in `Hydrate` of its prior state. The email it fetches is the cached user's |
| AuthContext.AuthProvider.ProtectRoute | contexts/AuthContext.tsx:79-89 | Ends in `Guard` of its prior state for the current path |
| AuthContext.AuthProvider.Login | contexts/AuthContext.tsx:91-118 | Its result and new state are those of `Login` of the prior state |
| AuthContext.AuthProvider.Register | contexts/AuthContext.tsx:120-137 | Its result and new state are those of `Register`. It calls `Login` for the chained sign-in |
| AuthContext.AuthProvider.Logout | contexts/AuthContext.tsx:139-153 | Ends in `Logout` of its prior state |
| AuthContext.AuthProvider.RefreshUser | contexts/AuthContext.tsx:155-170 | Ends in `Refresh` of its prior state. It fetches by the held user's email, and nothing when there is none |
| UserRecord.ParseStringify | contexts/AuthContext.tsx:109 | The stored `{id,email,is_verified}` text parses back to the same user |
| Api.Settle | lib/api.ts:55-67 | A call resolves exactly on a 2xx reply, with the body unchanged. A non-2xx reply rejects with its status. A transport or JSON failure rejects with the network error and no status |
| Api.LoginUser | lib/api.ts:45-68 | Resolves exactly on a 2xx reply. A non-2xx reply rejects with the body's message, or "Login failed" when it has none, and the status |
| Api.RegisterPayloadOf | lib/api.ts:75-80 | A missing or empty code becomes "123456" (logical or), and a non-empty code is kept. `is_verified` is true only when given as true (nullish default) |
| Api.RegisterUser | lib/api.ts:73-116 | Posts the defaulted payload and resolves exactly on a 2xx reply. A non-2xx reply rejects with `RegistrationErrorMessage` of its body and the status. A transport or JSON failure rejects with the network error and no status |
| Api.GetUserByEmail | lib/api.ts:121-143 | Resolves exactly on a 2xx reply. A non-2xx reply rejects with the body's message, or "Failed to fetch user" when it has none, and the status |
| Api.RegistrationErrorMessageCases | lib/api.ts:99-103 | A one-entry array gives that entry's text, and an empty array (truthy) gives the empty message. A non-empty text detail is used verbatim. With no `detail`, or an empty-string one, the message is `message` or "Registration failed" |
| Api.RegistrationMessageAppends | lib/api.ts:101 | Each further validation entry appends ", " and `loc.join('.') + ": " + msg`, in order |
| Api.ValidationMessageExample | lib/api.ts:99-102 | `detail: [{loc: ["body","email"], msg: "invalid format"}]` gives "body.email: invalid format" |
| Api.SetAuthToken | lib/api.ts:148-152 | With a window, stores the token under `auth_token`. Without one it does nothing |
| Api.GetAuthToken | lib/api.ts:157-162 | With a window, returns the stored `auth_token` or null. Without one, returns null |
| Api.RemoveAuthToken | lib/api.ts:167-171 | With a window, removes `auth_token` and nothing else |
| Api.IsAuthenticated | lib/api.ts:176-178 | True exactly when there is a window and an `auth_token` is stored |
| Api.TokenLifecycle | lib/api.ts:148-178 | With a window, get after set returns the token, and nobody is authenticated after remove. Without one, get returns null |
| CreativeLibrary.FilteredCounts | app/dashboard/creative/page.tsx:85-89 | The filtered list holds each matching creative as often as the input does, and nothing else |
| CreativeLibrary.FilteredMembership | app/dashboard/creative/page.tsx:85-89 | A creative is shown exactly when its type passes the tab and its lower-cased name contains the lower-cased query |
| CreativeLibrary.FilteredIsSubsequence | app/dashboard/creative/page.tsx:85 | The result keeps the input's order |
| CreativeLibrary.NoFilterShowsAll | app/dashboard/creative/page.tsx:82-83 | The initial "all" tab with an empty query shows the whole list |
| CreativeLibrary.ClearAllFilters | app/dashboard/creative/page.tsx:181 | "Clear All Filters" returns to the initial view |
| CreativeLibrary.ClearAllShowsEverything | app/dashboard/creative/page.tsx:181 | After "Clear All Filters", every creative is listed again |
| CreativeLibrary.QueryCaseIrrelevant | app/dashboard/creative/page.tsx:87 | Queries that differ only in letter case give the same result |
| CreativeLibrary.UpperCaseQuery | app/dashboard/creative/page.tsx:87 | Upper-casing the query does not change the result |
| CreativeLibrary.TabNarrows | app/dashboard/creative/page.tsx:86 | A type tab shows an order-preserving sub-list of what "all" shows for the same query |
| Pricing.CustomPrice | components/pricing.tsx:98-102 | A null or 0 price shows "Custom" in both cycles, with no "/month" suffix and no annual bill |
| Pricing.MonthlyShowsPrice | components/pricing.tsx:99-100 | The monthly cycle shows the monthly price itself and no annual bill |
| Pricing.YearlyIsNearest | components/pricing.tsx:101 | The yearly price is the integer nearest to 0.8·p (never a tie). For p > 0 it is between 0 and p |
| Pricing.AnnualBillIsTwelveMonths | components/pricing.tsx:143-147 | The bill appears exactly in the yearly cycle with a non-zero price, and is 12 times the yearly price shown |
| Pricing.PlanExamples | components/pricing.tsx:7-51 | Starter and Pro show $23 and $63 yearly, billed $276 and $756. Enterprise shows "Custom" |
| Pricing.ToggleInvolution | components/pricing.tsx:76 | The toggle always changes the cycle, and two presses restore it |
| Pricing.PricingSection.constructor | components/pricing.tsx:54 | The section starts in the monthly cycle |
| Pricing.PricingSection.Toggle | components/pricing.tsx:76 | The cycle becomes the toggled one, and every card then shows its price for that cycle |

## Left out

- HTTP transport, `fetch`, `response.json()` and `encodeURIComponent`. Each backend endpoint is a function from request to reply, so an operation that calls the same endpoint twice with the same request gets the same answer.
- `JSON.parse` accepts any JSON text. The model's `UserRecord.Parse` reads only JSON objects with the keys `id`, `email`, `is_verified` in that order and no whitespace, the layout `JSON.stringify` writes. Within that layout it refuses everything `JSON.parse` refuses (a leading zero in the id, a bad escape, a raw control character), and it accepts every non-surrogate escape `JSON.parse` accepts, such as `\/`, `\u0041` and upper-case hex digits.
- HydratePurgesCorrupt: a stored text that `JSON.parse` accepts but that is laid out otherwise (whitespace, other key order, extra keys, a value that is not a user object, an id written with a fraction or an exponent) is purged in the model, where the source would adopt it as `user`. Such text is never written by the source itself.
- Surrogate-pair `\uXXXX` escapes, which `JSON.parse` joins into one character, and lone surrogate escapes are rejected by the model's parser.
- `Date.now()` and `Math.random()` in the session token are the `nonce` parameter, so the token is `"session_" + nonce`.
- `toast` notifications and `console` logging are not modelled. `router.push` is modelled only as the list of pushed paths.
- React effect scheduling, the order in which effects re-run, async interleaving and unmount races. Each operation is atomic, and the guard runs when `ProtectRoute` is called.
- `useAuth`'s error when used outside a provider is not modelled. It is React context plumbing.
- Letter case: `toLowerCase` is modelled on ASCII letters only.
- The creative filter is proved for every list of creatives. The page's six mock creatives, and the fields of a creative other than name and type, are not modelled.
- A `detail` value that is neither a string nor an array (an object or a number) is not modelled. `loc` entries are strings, and numeric path elements appear already converted.
- A missing `id` or `message` in a backend body is not representable: `id` is an integer where 0 stands for every falsy id, and `LoginResponse.message` is a required string, as the TypeScript interface declares.
- `Math.round` on floating point: the model computes the exact nearest integer to 0.8·p for whole-dollar prices. Fractional prices, `NaN` and float rounding of very large prices are not modelled.
- Business-profile CRUD, the registration and add-business forms, the campaign table and all markup and styling are not part of this model.
