# Countries explorer: accounts, favorites and client state

This project models the core of a small full-stack app. Users browse the countries of a public
country-data service, sign up and sign in, and keep a list of favorite countries on the server.

On the server side, the model has two parts:

- The user table is a class `UserController.Store` over a map from user id to record.
- The handlers of the profile, favorites, registration, login and logout endpoints are methods and
  functions over that table. Their answers are a `Response` datatype: a status (200, 201, 400, 401,
  404), the `success` flag, the message, the payload and the cookie change.

On the client side, the model has these parts:

- The session cache (`AuthContext.AuthSession`) and the country state (`CountryContext.CountryState`)
  are classes. Each request they make is one method. The method's argument is what the request gave:
  the payload, or a failure with the server's message if there was one.
- The three form pages are classes. Their validators are total functions to an error map.
- The card, the detail page and the route gate are functions from state to a view value.

Proved properties:

- A favorites list never holds the same country code twice.
- Removing a favorite keeps the other entries in order, and is idempotent.
- The profile answer never carries the password hash.
- Registration keeps email and username unique. A profile update can break that uniqueness.
- Every failed login gets the same answer.
- The cookie lives exactly as long as the token.
- The email regular expression is matched by the strings described by a structural
  characterisation: no whitespace, one `@`, a non-empty local part, and a `.` inside the domain.
- Each validator's error map is empty exactly when all of its checks pass.
- Turning a favorite on and off is a toggle, and two toggles restore the list.
- Country page links round-trip through the model's reading of the `:code` path parameter.

Modules:

- One module per core source file: `UserController`, `AuthController`, `AuthContext`,
  `CountryContext`, `RegisterPage`, `LoginPage`, `ProfilePage`, `CountryDetailPage`, `CountryCard`,
  `ProtectedRoute`.
- Shared helper modules:
  - `Common`: Option, the request `Reply`, JavaScript `filter`, `join` and `||`.
  - `JsText`: the whitespace class `\s`, `trim` and UTF-16 `length`, plus a first-occurrence search used by the email pattern's model.
  - `Email`: the email regular expression.
  - `Favorites`: favorite lists.
  - `Countries`: the country records.
  - `Forms`: error maps and navigation.
  - `CountryDisplay`: what the card and the detail page share.

## Model

| member | source | states |
|---|---|---|
| UserController.UniqueAccounts | Back-End/Controllers/authController.js:11-17 | the table's account invariant: an email, and likewise a username, identifies at most one user |
| UserController.GetUserProfile | Back-End/Controllers/userController.js:7-20 | an unknown id answers 404 'User not found'; a known one answers 200 with the record minus the password hash |
| UserController.ProfileOf | Back-End/Controllers/userController.js:9 | the `.select('-password')` projection keeps id, username, email and favorites unchanged |
| UserController.ProfileIgnoresPassword | Back-End/Controllers/userController.js:9 | changing the stored hash does not change the profile answer, so the answer cannot expose it |
| UserController.Status.Code | Back-End/Controllers/userController.js:50 | the HTTP code a status is sent with: a 2xx code exactly for the success statuses (OK, Created) and a 4xx code for every failure status the handlers report (BadRequest, Unauthorized, NotFound); login's and registration's `success` flag agrees with that class |
| UserController.Store.AddFavoriteCountry | Back-End/Controllers/userController.js:32-64 | unknown id gives 404 and no change; a code already listed gives 400 'Country already in favorites' and no change; otherwise the list becomes `old + [Favorite(code, name, flag)]` and the answer carries the stored list; in every case for a known user the new list is `Favorites.WithFavorite` of the old one; the no-duplicate-codes invariant and account uniqueness are kept |
| UserController.Store.RemoveFavoriteCountry | Back-End/Controllers/userController.js:76-98 | unknown id gives 404 and no change; otherwise the list becomes the list without that code and the answer carries it; an absent code leaves the table unchanged; invariants kept |
| UserController.GetFavoriteCountries | Back-End/Controllers/userController.js:115-131 | unknown id gives 404; a known id answers 200 with the stored list verbatim (a function of the table, so the table is unchanged) |
| UserController.Renamed | Back-End/Controllers/userController.js:150-157 | the updated record has the new username and email and its id, password hash and favorites are untouched |
| UserController.Store.UpdateUserProfile | Back-End/Controllers/userController.js:148-170 | unknown id gives 404 and no change; otherwise only that record is replaced by its renamed copy, with no check against other users, and the answer is the projection of the new record |
| UserController.UpdateCanDuplicateEmail | Back-End/Controllers/userController.js:150-157 | renaming a user to another user's email always breaks account uniqueness |
| UserController.UpdateBreaksUniquenessExample | Back-End/Controllers/userController.js:150-157 | a concrete two-user table that is unique before such an update and not after |
| Favorites.HasCode | Back-End/Controllers/userController.js:45-47 | the `find` by country code succeeds exactly when some listed favorite carries the code |
| Favorites.WithFavorite | Back-End/Controllers/userController.js:45-58 | the list an add request leaves: unchanged when the code is already listed, otherwise exactly the old list with `f` appended; so the code is then listed, every earlier entry is kept, distinct codes stay distinct, and a newly added code can be removed again to restore the list |
| Favorites.WithoutCodeShrinks | Back-End/Controllers/userController.js:89-91 | filtering out a code shortens the list exactly when the code was listed |
| Favorites.WithoutCode | Back-End/Controllers/userController.js:89-91 | the filtered list holds no entry with the code, holds exactly the other entries, and is a subsequence of the original (order kept) |
| Favorites.WithoutCodeCounts | Back-End/Controllers/userController.js:89-91 | every entry with another code keeps its multiplicity; entries with the code are gone |
| Favorites.WithoutAbsentCode | Back-End/Controllers/userController.js:89-98 | removing a code that is not listed gives the list back unchanged |
| Favorites.WithoutCodeIdempotent | Back-End/Controllers/userController.js:89-91 | removing the same code twice is removing it once |
| Favorites.AppendKeepsNoDuplicates | Back-End/Controllers/userController.js:45-57 | appending an entry with a code not yet listed keeps codes distinct |
| Favorites.WithoutCodeKeepsNoDuplicates | Back-End/Controllers/userController.js:89-91 | filtering out a code keeps codes distinct (by induction on the list) |
| Favorites.AddThenRemoveRestores | Back-End/Controllers/userController.js:57 | appending a fresh code and then removing that code restores the original list |
| Favorites.CodeCountZero | Back-End/Controllers/userController.js:45-46 | a code occurs zero times exactly when `find` on it fails |
| Favorites.CodeCountAppend | Back-End/Controllers/userController.js:57 | appending an entry adds one occurrence of its code and none of any other |
| Favorites.AddedCodeOccursOnce | Back-End/Controllers/userController.js:45-57 | after a successful add the code occurs exactly once |
| AuthController.AccountTaken | Back-End/Controllers/authController.js:11 | the `$or` lookup finds a record exactly when some user has the email or some user has the username |
| AuthController.RegisterUser | Back-End/Controllers/authController.js:6-46 | an email or username already in use gives 400 and no change; otherwise exactly one record (given username and email, hashed password, no favorites) is added under a fresh id and the answer is 201 with `{id, username, email}`, the token and the cookie; account uniqueness is preserved; `success` is set exactly for a 2xx code; when the store's comparison accepts a password against its own hash, the new account can then log in with that email and password, whatever the rest of the table holds |
| AuthController.RegistrationKeepsAccountsUnique | Back-End/Controllers/authController.js:11-21 | inserting a record whose email and username are both free keeps no two users sharing either |
| AuthController.LoginUser | Back-End/Controllers/authController.js:58-102 | login reads the store's table and uses the store's password comparison; the status is 401 or 200; every 401 is the same 'Invalid email or password' answer; an unknown email gets it; a 200 is the session answer for an existing user with that email whose password matches; under unique accounts, 200 exactly when such a user exists |
| AuthController.FirstWithEmail | Back-End/Controllers/authController.js:63 | `findOne({ email })` returns the earliest record with that email, or none when no record has it |
| AuthController.AccountCanLogIn | Back-End/Controllers/authController.js:63-78 | the right password for a stored account that no other account shares its email with gives a 200 (with unique accounts, every stored account) |
| AuthController.LoginFailuresIndistinguishable | Back-End/Controllers/authController.js:63-78 | an unknown email and a wrong password for a known email produce identical responses |
| AuthController.SessionResponse | Back-End/Controllers/authController.js:93-102 | the success answer carries only the id, username and email of the user, a token for that user, and the session cookie |
| AuthController.IssueToken | Back-End/Controllers/authController.js:24-26 | the token carries the user's id and expires seven days after it is issued |
| AuthController.ExpiresInSeconds | Back-End/Controllers/authController.js:24-26 | a day-count duration stands for a whole number of days in seconds |
| AuthController.CookieMatchesTokenLifetime | Back-End/Controllers/authController.js:24-34 | `'7d'` is 604800 seconds and the cookie's `maxAge` 604800000 ms is the same span |
| AuthController.SessionCookie | Back-End/Controllers/authController.js:29-34 | the `token` cookie is HTTP-only, same-site strict, secure exactly in production, and lives as long as the token |
| AuthController.LogoutUser | Back-End/Controllers/authController.js:114-120 | logout always answers 200 'Logout successful' and only clears the `token` cookie |
| AuthContext.AuthSession.IsAuthenticated | Front-End/src/context/AuthContext.jsx:100 | `!!user`: signed in exactly when there is a user |
| AuthContext.AuthSession.CheckAuthStatus | Front-End/src/context/AuthContext.jsx:14-25 | the user becomes the fetched user, or none when the fetch fails; loading ends |
| AuthContext.AuthSession.Login | Front-End/src/context/AuthContext.jsx:30-43 | success sets the user, clears the error and answers true; failure keeps the user, sets the server message or 'Login failed', answers false; loading is false either way |
| AuthContext.AuthSession.ReceiveUser | Front-End/src/context/AuthContext.jsx:30-43 | the shared shape of login, register and profile update, with the fallback message as a parameter |
| AuthContext.AuthSession.Register | Front-End/src/context/AuthContext.jsx:45-58 | as login, with 'Registration failed' |
| AuthContext.AuthSession.UpdateProfile | Front-End/src/context/AuthContext.jsx:61-75 | as login, with 'Profile update failed' |
| AuthContext.AuthSession.Logout | Front-End/src/context/AuthContext.jsx:78-90 | success forgets the user, so the session is no longer authenticated, keeps any earlier error and answers true; failure keeps the user and sets the message or 'Logout failed' |
| CountryContext.CountryState.FetchCountries | Front-End/src/context/CountryContext.jsx:28-41 | success sets both the full and the filtered list; failure keeps them and sets 'Failed to fetch countries' |
| CountryContext.CountryState.SyncFavorites | Front-End/src/context/CountryContext.jsx:48-64 | signed out empties the favorites; signed in they become the fetched list, or stay as they were when the fetch fails |
| CountryContext.CountryState.HandleSearch | Front-End/src/context/CountryContext.jsx:119-121 | the search term becomes the given term |
| CountryContext.CountryState.HandleRegionFilter | Front-End/src/context/CountryContext.jsx:123-125 | the region filter becomes the given region |
| CountryContext.CountryState.ApplyFilters | Front-End/src/context/CountryContext.jsx:67-110 | no countries: nothing changes; no term: the region list (or the full list when there is no region or its lookup fails); a failing search: empty; a term alone: the search result; term and region: the region list restricted to the codes in the search result |
| CountryContext.RestrictToCodes | Front-End/src/context/CountryContext.jsx:90-92 | the restricted list is a subsequence of the region list (region order kept) holding exactly its countries whose code is listed, each with its full number of copies, and none other |
| CountryContext.Codes | Front-End/src/context/CountryContext.jsx:91 | the search codes are the search result's `cca3` values, position by position |
| CountryContext.RestrictToSearch | Front-End/src/context/CountryContext.jsx:90-92 | a country survives the intersection exactly when it is in the region list and some search result has its code |
| CountryContext.CountryState.IsFavorite | Front-End/src/context/CountryContext.jsx:155-157 | some favorite in the mirror carries the code, which holds exactly when removing the code would shorten the mirror |
| CountryContext.ToFavorite | Front-End/src/context/CountryContext.jsx:131-135 | the posted favorite is `cca3`, `name.common` and `flags.svg` |
| CountryContext.CountryState.AddFavorite | Front-End/src/context/CountryContext.jsx:127-142 | signed out: nothing is sent and nothing changes; signed in: the mapped favorite is sent and the favorites become the returned list, or stay when the request fails |
| CountryContext.CountryState.RemoveFavorite | Front-End/src/context/CountryContext.jsx:144-153 | signed out: nothing is sent and nothing changes; signed in: the code is sent and the favorites become the returned list, or stay when the request fails |
| Email.EmailRegexTest | Front-End/src/Pages/RegisterPage.jsx:18 | the test is true exactly when the string matches `^[^\s@]+@[^\s@]+\.[^\s@]+$` |
| Email.RegexIffConditions | Front-End/src/Pages/RegisterPage.jsx:18 | matching the regular expression is equivalent to: no whitespace, exactly one `@` with a non-empty part before it, and a `.` after it that is neither the first nor the last character of the domain |
| JsText.TrimEmptyIffBlank | Front-End/src/Pages/RegisterPage.jsx:20 | `trim()` gives the empty string exactly when every character is JavaScript whitespace |
| JsText.Utf16Length | Front-End/src/Pages/RegisterPage.jsx:24 | `length` counts UTF-16 code units: at least one and at most two per character |
| RegisterPage.ValidateForm | Front-End/src/Pages/RegisterPage.jsx:16-28 | username error exactly when blank; email: 'Email is required' when empty, else 'Invalid email' exactly when the regex fails; password: 'Password is required' when empty, else 'At least 6 characters' exactly when shorter than 6; confirm error exactly when the two passwords differ; the map is empty exactly when all checks pass |
| RegisterPage.WithField | Front-End/src/Pages/RegisterPage.jsx:32 | a change sets that field and leaves the other three as they were |
| RegisterPage.RegisterPage.HandleChange | Front-End/src/Pages/RegisterPage.jsx:30-34 | only the changed field is updated and only its error is cleared |
| RegisterPage.RegisterPage.HandleSubmit | Front-End/src/Pages/RegisterPage.jsx:36-43 | any validation error is shown and no request is made; otherwise the session registers, and only a success navigates to `/login` with 'Registered successfully!' |
| Forms.ClearFieldError | Front-End/src/Pages/RegisterPage.jsx:33 | the keys stay the same, the changed field's entry becomes empty and every other entry is kept |
| Forms.ClearFieldErrorCommutes | Front-End/src/Pages/LoginPage.jsx:28 | clearing is idempotent and clearing two fields does not depend on the order |
| LoginPage.ValidateForm | Front-End/src/Pages/LoginPage.jsx:13-23 | email: 'Email is required' when empty, else 'Invalid email' exactly when the regex fails; password error exactly when empty (no length rule); the map is empty exactly when both pass |
| LoginPage.RedirectTarget | Front-End/src/Pages/LoginPage.jsx:11 | the target is `state.from.pathname` when it is present and non-empty, otherwise `/` (never empty) |
| LoginPage.GateRedirectLandsHome | Front-End/src/components/ProtectedRoute.jsx:11-13 | the gate's redirect carries no location state, so a sign-in after it goes to `/` |
| LoginPage.WithField | Front-End/src/Pages/LoginPage.jsx:27 | a change sets that field and keeps the other |
| LoginPage.LoginPage.HandleChange | Front-End/src/Pages/LoginPage.jsx:25-29 | only the changed field is updated and only its error is cleared |
| LoginPage.LoginPage.HandleSubmit | Front-End/src/Pages/LoginPage.jsx:31-38 | any validation error is shown and no request is made; otherwise the session logs in, and only a success navigates to the target with `replace` |
| ProfilePage.ValidateForm | Front-End/src/Pages/ProfilePage.jsx:29-44 | username error exactly when blank; email: 'Email is required' when empty, else 'Enter a valid email address' exactly when the regex fails; empty exactly when both pass |
| ProfilePage.WithField | Front-End/src/Pages/ProfilePage.jsx:48 | a change sets that field and keeps the other |
| ProfilePage.ProfilePage.InitFromUser | Front-End/src/Pages/ProfilePage.jsx:20-27 | with a user, the form holds their username and email, an absent one as the empty string; without one the form is kept |
| ProfilePage.ProfilePage.StartEditing | Front-End/src/Pages/ProfilePage.jsx:189 | the Edit Profile button enters edit mode |
| ProfilePage.ProfilePage.CancelEditing | Front-End/src/Pages/ProfilePage.jsx:168 | the Cancel button leaves edit mode |
| ProfilePage.ProfilePage.HandleChange | Front-End/src/Pages/ProfilePage.jsx:46-57 | the changed field is updated, only its error is cleared, and the success notice is off |
| ProfilePage.ProfilePage.HandleSubmit | Front-End/src/Pages/ProfilePage.jsx:59-77 | any validation error is shown and no request is made; an answer with `success` sets the notice and leaves edit mode; an answer without it changes nothing; a thrown error replaces the errors with `general: 'Failed to update profile'` |
| ProfilePage.CountryNoun | Front-End/src/Pages/ProfilePage.jsx:206 | the noun is 'country' exactly when the count is 1, 'countries' otherwise |
| ProfilePage.NavigateToCountry | Front-End/src/Pages/ProfilePage.jsx:85-87 | the click goes to `/country/{code}`, from which the model's path reading (`CodeFromPath`) gives back the same code |
| CountryDisplay.CountryPath | Front-End/src/components/CountryCard.jsx:28 | the link is `/country/` followed by the code |
| CountryDisplay.CountryPathRoundTrip | Front-End/src/components/CountryCard.jsx:28 | the model's path reading (`CodeFromPath`) gives back the code a link was made from, and every path it reads a code from is that code's link |
| CountryDisplay.CapitalText | Front-End/src/components/CountryCard.jsx:74-76 | 'N/A' when there is no capital or the list is empty; otherwise exactly the capitals joined by `', '` (laid out as `Common.JoinPartAt` and `Common.JoinSepAfter` state), so every capital appears in it and a single capital is shown as it is |
| Common.JoinPartAt | Front-End/src/components/CountryCard.jsx:75 | `join`'s text part by part: part k sits, unchanged, at the sum of the earlier parts' lengths plus one separator each |
| Common.JoinSepAfter | Front-End/src/components/CountryCard.jsx:75 | one separator follows every part but the last, right where that part ends |
| Common.JoinEnd | Front-End/src/components/CountryCard.jsx:75 | the last part ends the joined text, so the layout above covers all of it |
| Common.PartOffsetStep | Front-End/src/components/CountryCard.jsx:75 | each part moves the next part's start on by its length plus one separator |
| CountryDisplay.ToggleAction | Front-End/src/components/CountryCard.jsx:20-24 | the click removes exactly when the code is a favorite and adds the country otherwise, one of the two |
| CountryDisplay.ServerFavorites | Front-End/src/components/CountryCard.jsx:20-24 | the list the server keeps after the toggle's request, built from the same list functions as the store methods' contracts: a removed code is gone, an added country's code is listed |
| CountryDisplay.ToggleFlipsFavorite | Front-End/src/components/CountryCard.jsx:20-24 | once the server has applied the toggle, the country is a favorite exactly when it was not, and codes stay distinct |
| CountryDisplay.ToggleTwiceRestores | Front-End/src/components/CountryCard.jsx:20-24 | two applied toggles on a non-favorite give back the original list |
| CountryDisplay.FavoriteButtonFor | Front-End/src/components/CountryCard.jsx:37-58 | the button exists exactly when signed in; it is filled exactly when the country is a favorite and its click is the toggle |
| CountryCard.RenderCard | Front-End/src/components/CountryCard.jsx:27-81 | the card links to the country's page and shows the capital text; it reads the session and the country state, and has a button exactly when the session is signed in, filled and removing `cca3` exactly when `isFavorite(cca3)` holds and otherwise adding this country |
| CountryDetailPage.LanguagesText | Front-End/src/Pages/CountryDetailPage.jsx:61-65 | 'N/A' when absent; otherwise exactly the languages joined by `', '` in their order, so every language appears, none gives empty text and one gives the language itself |
| CountryDetailPage.CurrenciesText | Front-End/src/Pages/CountryDetailPage.jsx:67-73 | 'N/A' when absent; otherwise exactly the currency names joined by `', '` in their order, so every name appears, none gives empty text and one gives the name itself |
| CountryDetailPage.NativeNameText | Front-End/src/Pages/CountryDetailPage.jsx:140-142 | the first native name's common form, or `name.common` when there are none; fails exactly for an empty native-name object |
| CountryDetailPage.SubregionText | Front-End/src/Pages/CountryDetailPage.jsx:153 | the subregion, or 'N/A' when it is absent or empty |
| CountryDetailPage.TldText | Front-End/src/Pages/CountryDetailPage.jsx:166 | 'N/A' when absent; otherwise exactly the domains joined by `', '`, so every domain appears (an empty list shows as empty text) |
| CountryDetailPage.BorderLinks | Front-End/src/Pages/CountryDetailPage.jsx:179-194 | one link per bordering code, in order, each to that code's page |
| CountryDetailPage.RenderDetail | Front-End/src/Pages/CountryDetailPage.jsx:41-198 | spinner while loading; the error, or 'Country not found', when there is an error or no country; otherwise every fallback above, and, reading the session and the country state, a favorite button exactly when signed in, removing `cca3` exactly when `isFavorite(cca3)` holds and otherwise adding this country |
| ProtectedRoute.Gate | Front-End/src/components/ProtectedRoute.jsx:6-16 | loading shows the loading view whatever the session; signed out redirects to `/login` with `replace`; the children render exactly when not loading and signed in |

## Left out

- Server errors: the 500 answers of every handler's `catch` block are not modelled. They come from a database or hashing failure, which the model does not have.
- Concurrency: handlers run one at a time and each is one atomic step. The lost update between two concurrent favorite requests (`read`, modify, `save`) is therefore not represented.
- Database ids: ids are handed out from a counter instead of generated object ids. The subdocument ids that the document store adds to each favorite are not modelled.
- Unique indexes: the user schema is not part of this model. Whether the database itself rejects duplicate emails or usernames on update is unknown, so uniqueness is shown only for the handlers' own checks.
- CountryDisplay.CountryPathRoundTrip: `CodeFromPath` stands in for React Router's `:code` match of `/country/:code` and is stricter than it. It rejects a trailing slash, which the router accepts. It does not split off a query or hash, and it does not percent-decode the code. The converse clause holds for this stand-in, not for the router itself.
- Request fields: a missing field in a request body (`undefined`) is not modelled. Every field is a string.
- Authenticated id: the session middleware is not part of this model. The authenticated user id is a parameter. `updateUserProfile` reads `req.userId` (Back-End/Controllers/userController.js:151) where the other handlers read `req.user.id`. The model keys the update by the same id parameter and does not decide which field the middleware sets.
- `{ username, username, ... }`: the duplicated key at Back-End/Controllers/userController.js:153 is harmless shorthand. The update writes both fields.
- Password hashing and comparison: these belong to the user model, which is not part of this model. They are uninterpreted function fields of the store. Registration hashes with one and login compares with the other. That a password matches its own hash is an assumption of the registration-then-login property, not a fact the model proves.
- Tokens: the signing secret, token verification and the signature itself are not modelled. A token is its claims: id, issue time and expiry. Clock readings and the production flag are parameters.
- AuthController.ExpiresInSeconds: only day-count durations such as `7d` are parsed. Other duration forms give no value.
- AuthController.LoginUser: when several records share an email, the earliest id is taken as `findOne`'s choice.
- Network wrappers: the HTTP client wrappers and the bearer-header interceptor are I/O. Their results are the `Reply` arguments of the client methods.
- Debounce and effect scheduling: the 500 ms timer, its cancellation and React's effect dependencies are not modelled. The filter effect is one call with the two lookups' outcomes as arguments.
- CountryContext.CountryState.ApplyFilters: the outer `catch` that sets 'Error applying filters' is not modelled. Each lookup has its own `catch`, so in this model nothing can reach it.
- `formatPopulation`: it uses locale-dependent `toLocaleString`.
- Detail page fetch: the request that loads the country by code (Front-End/src/Pages/CountryDetailPage.jsx:16-31) is I/O. Its outcome is `RenderDetail`'s input.
- CountryDetailPage.NativeNameText: for an empty native-name object the page throws while rendering. The model returns no name instead of modelling the exception.
- Object values: JSON objects read with `Object.values` (languages, currencies, native names) are kept as the sequence of their values in key order.
- Profile page: `handleLogout` (Front-End/src/Pages/ProfilePage.jsx:79-82) is never wired to a button, so the page has no logout action. The profile page calls the update endpoint directly, so the session's user is not refreshed by it, and the model shows that by not touching the session. `handleRemoveFavorite` only forwards to the context's `removeFavorite`.
- Markup and layout: all JSX markup beyond the values listed above, and the header, footer, home page and app shell, are not modelled.
- Whitespace: JavaScript `\s` is written out as its character set. There is no Unicode normalisation.
