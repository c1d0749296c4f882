# Marketplace core in Dafny

A verified model of the rules a small two-sided marketplace enforces. Consumers
search suppliers and their products, place orders, message suppliers and ask
to be linked to them. Suppliers manage items, a team, link requests and orders.

The model covers three layers of the system:

- **The client session.** The private HTTP client attaches the bearer token
  (section 2.1 of RFC 6750). On a 401 it refreshes the token at most once per
  request and then retries. It also normalises errors.
  - The auth service keeps the access token, the refresh token and the cached
    user in `localStorage`.
  - It judges a token by its `exp` claim (section 4.1.4 of RFC 7519).
  - The auth context holds `user`, `loading` and `error`.
- **The pages' state logic.**
  - Login and signup guards.
  - The checkout wizard and cart edits.
  - The supplier's item and team editors.
  - The order tabs.
  - The search and chat filters.
  - The link-request dialog.
- **The back end's decision rules.**
  - The OAuth2 password grant (section 4.3 of RFC 6749) and registration.
  - The current-user and admin dependencies.
  - Each router's 404/403/400 checks, in the order the code makes them.
  - Duplicate prevention for link requests, team members and conversations.
  - Order creation with its item rows.
  - Filters and `OFFSET`/`LIMIT` windows.
  - The dashboard counters and top-five lists.
  - The Pydantic request schemas.

Modelling choices:

- Each source file is one module under `model/`, with the same flavour as the
  source.
- Page state and client session state are classes. Their handlers are methods
  that state the whole new state.
- The database is one object, `Tables.Database`, whose write endpoints
  replace tables. Read endpoints and decisions are functions over the table
  sequences.
- Money is integer cents and times are integer seconds, or milliseconds where
  the browser reads the clock.
- Foreign code is a function parameter: JWT signing and decoding, bcrypt,
  e-mail validation, the token payload decoder, and the generic
  controller update.
- Network replies and clock readings are inputs.

## Model

| member | source | states |
|---|---|---|
| ApiClient.Attached | frontend/src/utils/axios.js:23-30 | the request headers gain `Authorization: Bearer <token>` exactly when an access token is stored and are otherwise left as they were |
| ApiClient.InterceptRequest | frontend/src/utils/axios.js:23-30 | the request interceptor sets the headers to `Attached` of the stored token and changes nothing else |
| ApiClient.Rotated | frontend/src/utils/axios.js:56-62 | after a refresh the access token is replaced, the refresh token only when a new one came back, and every other key is kept |
| ApiClient.Dispatch | frontend/src/utils/axios.js:23-78 | a successful response resolves unchanged with no refresh and no state change; an error other than a first 401 is rejected unchanged; a first 401 marks the request retried and takes the refresh path, and with no refresh token stored the original error is rejected; at most one refresh call and one login redirect per dispatch |
| ApiClient.InterceptResponseError | frontend/src/utils/axios.js:41-78 | a 401 on a request not yet retried sets `_retry`; no refresh token: the original error is rejected; refresh rejected: both tokens removed, one redirect to `/login`, the refresh error rejected; refresh resolved: tokens rotated and the re-sent request's result returned |
| ApiClient.HandleApiError | frontend/src/utils/axios.js:82-106 | a server answer keeps its status and data, with `data.message` when it is truthy and "Server error occurred" otherwise; no answer gives status 0 and the network message; anything else gives status -1 and the error's own message when it is non-empty, else "An unexpected error occurred" |
| ApiClient.ErrorKindFromStatus | frontend/src/utils/axios.js:82-106 | with real HTTP statuses, the normalised status alone tells the three failure kinds apart, in both directions |
| AuthService.WithSession | frontend/src/services/authService.js:11-13 | after a session is issued both token keys hold the reply's tokens, in the text `setItem` stores, and every other key is unchanged |
| AuthService.WithoutTokens | frontend/src/services/authService.js:48-50 | both token keys are gone and every other key is unchanged |
| AuthService.Cleared | frontend/src/services/authService.js:120-124 | the user key and both token keys are gone and every other key is unchanged |
| AuthService.AcceptSession | frontend/src/services/authService.js:8-17 | a refused call rethrows its error and leaves the store alone; an issued session stores both tokens and returns the reply's user |
| AuthService.Login | frontend/src/services/authService.js:6-19 | `login`: the session reply handled as `AcceptSession` states, with no redirect |
| AuthService.Register | frontend/src/services/authService.js:22-35 | `register`: the same rule as login for the registration reply |
| AuthService.Logout | frontend/src/services/authService.js:38-52 | with no refresh token stored no call is made; otherwise the call goes through the private client: 1 call when it is not a 401, 2 calls and a redirect to `/login` when the refresh it triggers is refused, 3 calls when the refresh succeeds and the call is re-sent; in every case both tokens are removed from the store as it was before, and every other key is kept |
| AuthService.RefreshToken | frontend/src/services/authService.js:65-91 | no refresh token: "No refresh token available" and both tokens removed; refresh refused: its error and both tokens removed; refreshed: the new access token returned and the tokens rotated |
| AuthService.SecondSegment | frontend/src/services/authService.js:100 | `token.split('.')[1]` exists exactly when the token contains a dot |
| AuthService.SecondSegmentOfCompact | frontend/src/services/authService.js:100 | the second segment of `header.payload.signature` (no dots inside the parts) is the payload |
| AuthService.ValidExp | frontend/src/services/authService.js:94-105 | an expiry is read exactly when a truthy access token is stored and `atob` + `JSON.parse` of its second segment gives an object with a numeric `exp`, and it is that `exp` |
| AuthService.ValidExpOfCompact | frontend/src/services/authService.js:100-101 | for a stored `header.payload.signature` token the expiry is the `exp` decoded from the payload segment |
| AuthService.IsAuthenticated | frontend/src/services/authService.js:94-106 | true exactly when a token is stored, its payload decodes, and its `exp` in milliseconds is strictly after now |
| AuthService.ExpiryIsStrict | frontend/src/services/authService.js:102 | a token whose `exp` is now or earlier is not authenticated |
| AuthService.ValidEarlier | frontend/src/services/authService.js:101-102 | a token valid now was valid at every earlier moment |
| AuthService.NoTokenNotAuthenticated | frontend/src/services/authService.js:95-96 | after logout or `clearUserData` the user is never authenticated |
| AuthService.GetStoredUser | frontend/src/services/authService.js:109-112 | null exactly when no user, an empty one, or the JSON text `null` is stored; the profile exactly when the stored text parses as a profile, and it is the parsed one; any other text is the `JSON.parse` error |
| AuthService.StoreUser | frontend/src/services/authService.js:115-117 | the user key holds the stringified profile and nothing else changes |
| AuthService.StoredUserRoundTrip | frontend/src/services/authService.js:109-117 | reading back a stored profile gives the same profile |
| AuthService.StoredNullIsNoUser | frontend/src/services/authService.js:110-111 | a stored `null`, with or without surrounding JSON whitespace, reads back as no user rather than an error |
| UserJson.ParsedNotNull | frontend/src/services/authService.js:111 | no text that parses as a profile is the JSON `null` |
| AuthService.ClearUserData | frontend/src/services/authService.js:120-124 | the store becomes `Cleared` of the old store, with no redirect |
| AuthService.ClearedFacts | frontend/src/services/authService.js:48-50 | clearing is idempotent, is logout's removal plus the user key, logout leaves the stored user readable, and after clearing no user is stored |
| UserJson.ProfileRoundTrip | frontend/src/services/authService.js:111-116 | `JSON.parse(JSON.stringify(user))` gives back the same profile |
| UserJson.StringifyInjective | frontend/src/services/authService.js:116 | two different profiles are never stored as the same text |
| AuthContext.UseAuth | frontend/src/contexts/AuthContext.jsx:6-12 | inside a provider its value; outside one the error "useAuth must be used within an AuthProvider" |
| AuthContext.AuthProvider.constructor | frontend/src/contexts/AuthContext.jsx:15-17 | the provider starts with no user, loading, and no error |
| AuthContext.AuthProvider.Restore | frontend/src/contexts/AuthContext.jsx:19-26 | the cached user is restored exactly when one is stored and the token is still valid; loading ends either way and nothing is stored |
| AuthContext.ErrorText | frontend/src/contexts/AuthContext.jsx:36 | the error's own message when it has one, else the fallback, so never empty |
| AuthContext.AuthProvider.Login | frontend/src/contexts/AuthContext.jsx:28-42 | success: the session's user is set, the error cleared and the tokens stored; failure: the error text is 'Login failed' or the error's message, the user is kept and the error rethrown; loading ends either way |
| AuthContext.AuthProvider.Register | frontend/src/contexts/AuthContext.jsx:44-58 | as login, with the fallback 'Registration failed' |
| AuthContext.AuthProvider.Logout | frontend/src/contexts/AuthContext.jsx:60-68 | the error is cleared, both tokens removed and the user unset; the browser goes to `/login`, with one more redirect, exactly when a refresh token was stored, the logout call got a 401 and the refresh was refused, and otherwise stays where it was |
| AuthContext.AuthProvider.IsAuthenticated | frontend/src/contexts/AuthContext.jsx:77 | true only with a user set, and then exactly when the stored token is valid |
| AuthContext.AuthProvider.UserType | frontend/src/contexts/AuthContext.jsx:78 | the user's role, defined exactly when a user is set |
| AuthPages.DashboardFor | frontend/src/components/auth/Login.jsx:60-64 | consumers go to `/consumer/dashboard`; every other type, including unknown ones, goes to `/supplier/dashboard` |
| AuthPages.LoginError | frontend/src/components/auth/Login.jsx:40-43 | 'Please fill in all fields' exactly when the email, the password or the user type is empty |
| AuthPages.SignupError | frontend/src/components/auth/Signup.jsx:42-55 | the guards in order: an empty field gives 'Please fill in all fields'; otherwise a differing confirmation gives 'Passwords do not match'; otherwise fewer than 6 UTF-16 code units gives 'Password must be at least 6 characters'; no error exactly when all three pass |
| AuthPages.LoginUser | frontend/src/components/auth/Login.jsx:50-55 | id 1, the form's email and type, and as name the email text before its first '@' (the whole email when there is none) |
| AuthPages.LoginUserName | frontend/src/components/auth/Login.jsx:52 | for `local@domain` the name is `local` when `local` has no '@'; an email without '@' is its own name |
| AuthPages.SignupUser | frontend/src/components/auth/Signup.jsx:62-67 | the mock user has the clock reading as id and the form's name, email and user type |
| AuthPages.AuthPage.constructor | frontend/src/components/auth/Login.jsx:24-25 | no error, no spinner, nobody logged in, no navigation |
| AuthPages.AuthPage.SubmitLogin | frontend/src/components/auth/Login.jsx:37-47 | a failing guard shows its message and schedules nothing; a passing form clears the error and sets loading |
| AuthPages.AuthPage.SubmitSignup | frontend/src/components/auth/Signup.jsx:39-58 | the same for the signup guards |
| AuthPages.AuthPage.Complete | frontend/src/components/auth/Login.jsx:49-67 | the timer logs the built user in, navigates to `DashboardFor` its type and ends loading |
| AuthPages.SignupStricterThanLogin | frontend/src/components/auth/Signup.jsx:42-55 | a form that passes the signup guards passes the login guard and has at least 6 UTF-16 code units of password |
| AuthPages.AstralPasswordPasses | frontend/src/components/auth/Signup.jsx:52 | a password of three characters outside the Basic Multilingual Plane is six UTF-16 code units and passes the length guard |
| UserSchemas.SignupMinimumBelowBackEnd | frontend/src/components/auth/Signup.jsx:52-55 | a password of 6 or 7 characters passes the signup page but `UserCreate`'s 8-character minimum refuses it, and every password the page accepts has at least 6 UTF-16 code units |
| Checkout.WithoutId | frontend/src/components/consumer/Checkout.jsx:103-105 | no line of that id is left, every other line is kept as often as it occurred, and nothing new appears |
| Checkout.WithoutIdKeepsOrder | frontend/src/components/consumer/Checkout.jsx:95 | the lines that remain keep their order |
| Checkout.WithQuantity | frontend/src/components/consumer/Checkout.jsx:97-99 | same length; each line of that id takes the new quantity with everything else unchanged, and every other line is untouched |
| Checkout.WithQuantityLastWins | frontend/src/components/consumer/Checkout.jsx:97-99 | setting a quantity twice equals setting the second, and ids never change |
| Checkout.QuantityUpdated | frontend/src/components/consumer/Checkout.jsx:93-101 | quantity 0 removes every line of that id; any other quantity keeps the length |
| Checkout.StepButtonsKeepQuantitiesPositive | frontend/src/components/consumer/Checkout.jsx:152-166 | the −/+ buttons keep every quantity at least 1, even with repeated ids, because a line decremented to 0 is removed |
| Checkout.Wizard.constructor | frontend/src/components/consumer/Checkout.jsx:67-76 | the wizard starts on step 0 with the given cart and no payment method |
| Checkout.Wizard.HandleNext | frontend/src/components/consumer/Checkout.jsx:81-85 | advances one step unless on the last, so the step stays within 0..3; nothing else changes |
| Checkout.Wizard.HandleBack | frontend/src/components/consumer/Checkout.jsx:87-91 | retreats one step unless on the first; nothing else changes |
| Checkout.Wizard.UpdateQuantity | frontend/src/components/consumer/Checkout.jsx:93-101 | the cart becomes `QuantityUpdated` of the old cart; step and payment method are kept |
| Checkout.Wizard.RemoveItem | frontend/src/components/consumer/Checkout.jsx:103-105 | the cart becomes `WithoutId` of the old cart; step and payment method are kept |
| Checkout.Wizard.ProceedEnabled | frontend/src/components/consumer/Checkout.jsx:230 | "Proceed to Shipping" is enabled exactly when the cart is non-empty |
| Checkout.Wizard.BackEnabled | frontend/src/components/consumer/Checkout.jsx:454 | Back is enabled exactly off step 0 |
| Checkout.Wizard.NextShown | frontend/src/components/consumer/Checkout.jsx:459 | Next is shown exactly on steps 1 and 2 |
| Checkout.Wizard.NextEnabled | frontend/src/components/consumer/Checkout.jsx:463 | Next is disabled exactly on the payment step while no method is chosen |
| ItemManagement.Merge | frontend/src/components/supplier/ItemManagement.jsx:150 | `{...item, ...formData}` keeps the item's id and image and takes every form field |
| ItemManagement.NewItem | frontend/src/components/supplier/ItemManagement.jsx:155-162 | a new item has the clock id, the form's fields, and the placeholder image named by the upper-cased first three letters of the name |
| ItemManagement.SavedEdit | frontend/src/components/supplier/ItemManagement.jsx:146-152 | same length; items with the edited id take the form's fields and keep their id and image; all other items are unchanged |
| ItemManagement.Toggled | frontend/src/components/supplier/ItemManagement.jsx:173-179 | same length; `active` flips on the items of that id and nothing else changes |
| ItemManagement.ToggleTwice | frontend/src/components/supplier/ItemManagement.jsx:173-179 | toggling the same id twice restores the list |
| ItemManagement.WithoutId | frontend/src/components/supplier/ItemManagement.jsx:169 | no item of that id remains, every other item is kept as often as it occurred, nothing new appears |
| ItemManagement.WithoutIdKeepsOrder | frontend/src/components/supplier/ItemManagement.jsx:169 | the remaining items keep their order |
| ItemManagement.FilteredItems | frontend/src/components/supplier/ItemManagement.jsx:191-197 | exactly the items whose name, description or SKU contains the term ignoring case, and whose category is the filter when one is set |
| ItemManagement.NoFilterShowsAll | frontend/src/components/supplier/ItemManagement.jsx:191-197 | with no term and no category every item is shown, in order |
| ItemManagement.CategoryColor | frontend/src/components/supplier/ItemManagement.jsx:199-209 | each of the six named categories gets its own colour, never 'default'; every other category gets 'default' |
| ItemManagement.CategoryColorsDistinct | frontend/src/components/supplier/ItemManagement.jsx:200-207 | the six named categories get six distinct colours |
| ItemManagement.ItemManager.constructor | frontend/src/components/supplier/ItemManagement.jsx:90-109 | the page starts with the given items, the dialog closed, no edited item, a blank active form and no open menu |
| ItemManagement.ItemManager.HandleAddItem | frontend/src/components/supplier/ItemManagement.jsx:111-126 | clears the edited item, resets the form to blank fields with `active` true, opens the dialog; the list is kept |
| ItemManagement.ItemManager.HandleEditItem | frontend/src/components/supplier/ItemManagement.jsx:128-143 | the item becomes the edited one, the form holds its fields, the dialog opens |
| ItemManagement.ItemManager.HandleSaveItem | frontend/src/components/supplier/ItemManagement.jsx:145-166 | while editing, the list becomes `SavedEdit`; otherwise `NewItem` is appended; the dialog closes |
| ItemManagement.ItemManager.HandleDeleteItem | frontend/src/components/supplier/ItemManagement.jsx:168-171 | the list becomes `WithoutId` and the menu closes |
| ItemManagement.ItemManager.HandleToggleActive | frontend/src/components/supplier/ItemManagement.jsx:173-179 | the list becomes `Toggled` and nothing else changes |
| ItemManagement.ItemManager.HandleMenuClick | frontend/src/components/supplier/ItemManagement.jsx:181-184 | the menu opens on the selected item |
| ItemManagement.ItemManager.HandleMenuClose | frontend/src/components/supplier/ItemManagement.jsx:186-189 | the menu closes and the selection is cleared |
| TeamManagement.Merge | frontend/src/components/supplier/TeamManagement.jsx:128 | `{...member, ...formData}` takes the five form fields and keeps id, status and join date |
| TeamManagement.NewMember | frontend/src/components/supplier/TeamManagement.jsx:133-138 | a new member has the clock id, the form's fields, status 'Active' and today's date |
| TeamManagement.SavedEdit | frontend/src/components/supplier/TeamManagement.jsx:124-130 | same length; members with the edited id take the form's five fields and keep id, status and join date; all others are unchanged |
| TeamManagement.SaveUnchangedIsIdentity | frontend/src/components/supplier/TeamManagement.jsx:124-130 | re-saving an unchanged form of a stored member changes nothing |
| TeamManagement.WithoutId | frontend/src/components/supplier/TeamManagement.jsx:145 | no member of that id remains, every other member is kept as often as it occurred, nothing new appears |
| TeamManagement.WithoutIdKeepsOrder | frontend/src/components/supplier/TeamManagement.jsx:145 | the remaining members keep their order |
| TeamManagement.RoleColor | frontend/src/components/supplier/TeamManagement.jsx:170-179 | 'primary' exactly for Manager, 'secondary' exactly for Sales Person, 'default' for every other role |
| TeamManagement.StatusColor | frontend/src/components/supplier/TeamManagement.jsx:181-183 | 'success' exactly for 'Active', 'error' otherwise |
| TeamManagement.TeamManager.constructor | frontend/src/components/supplier/TeamManagement.jsx:85-97 | the page starts with the given members, the dialog closed, no edited member, the blank form and no open menu |
| TeamManagement.TeamManager.HandleAddMember | frontend/src/components/supplier/TeamManagement.jsx:99-109 | clears the edited member, resets the form (empty name and email, 'Sales Person', 'Sales', no permissions) and opens the dialog |
| TeamManagement.TeamManager.HandleEditMember | frontend/src/components/supplier/TeamManagement.jsx:111-121 | the member becomes the edited one, the form holds its fields, the dialog opens |
| TeamManagement.TeamManager.HandleSaveMember | frontend/src/components/supplier/TeamManagement.jsx:123-142 | while editing, the list becomes `SavedEdit`; otherwise exactly one `NewMember` is appended; the dialog closes |
| TeamManagement.TeamManager.HandleDeleteMember | frontend/src/components/supplier/TeamManagement.jsx:144-147 | the list becomes `WithoutId` and the menu closes |
| OrdersPage.FilteredOrders | frontend/src/components/consumer/Orders.jsx:120-125 | exactly the orders of the tab: 0 processing or in-transit, 1 delivered, 2 cancelled, any other value all |
| OrdersPage.FilteredOrdersShape | frontend/src/components/consumer/Orders.jsx:120-125 | the list is an order-preserving subsequence, and a tab other than 0–2 shows every order |
| OrdersPage.TabsDisjoint | frontend/src/components/consumer/Orders.jsx:121-123 | tabs 0, 1 and 2 never show the same order |
| OrdersPage.KnownStatusInOneTab | frontend/src/components/consumer/Orders.jsx:121-123 | each of the four known statuses shows in one of tabs 0–2 |
| OrdersPage.StatusColor | frontend/src/components/consumer/Orders.jsx:105-118 | processing, in-transit, delivered and cancelled get warning, info, success and error; 'default' exactly for every other status |
| OrdersPage.StatusColorsDistinct | frontend/src/components/consumer/Orders.jsx:105-118 | the four known statuses get four distinct colours |
| OrdersPage.ActionsByTab | frontend/src/components/consumer/Orders.jsx:201-210 | "Cancel Order" (processing only) and "Order Again" (delivered only) never appear together, and each sits in its own tab |
| SearchPages.FilteredItems | frontend/src/components/consumer/SearchItems.jsx:67-71 | exactly the items whose lower-cased name, description or category contains the lower-cased term |
| SearchPages.FilteredItemsShape | frontend/src/components/consumer/SearchItems.jsx:67-71 | the result is an order-preserving subsequence, and an empty term keeps every item |
| SearchPages.ChipKeepsCategory | frontend/src/components/consumer/SearchItems.jsx:97-103 | after clicking a chip, every item of that category is shown |
| SearchPages.FilteredSuppliers | frontend/src/components/consumer/SearchSuppliers.jsx:62-66 | never longer than the input; exactly the suppliers whose name, description or one of whose categories contains the term, ignoring case, unaltered |
| SearchPages.FilteredSuppliersShape | frontend/src/components/consumer/SearchSuppliers.jsx:62-66 | the result is an order-preserving subsequence, and an empty term keeps every supplier |
| SearchPages.CategoryAloneKeepsSupplier | frontend/src/components/consumer/SearchSuppliers.jsx:65 | a supplier matched only through one of its categories is still kept |
| SearchPages.FilteredConversations | frontend/src/components/consumer/Chat.jsx:59-61 | exactly the conversations whose supplier name contains the term, ignoring case |
| SearchPages.FilteredConversationsShape | frontend/src/components/consumer/Chat.jsx:59-61 | the result is an order-preserving subsequence, and an empty term keeps every conversation |
| SearchPages.ChatPage.constructor | frontend/src/components/consumer/Chat.jsx:55-57 | no selection and an empty draft |
| SearchPages.ChatPage.HandleSendMessage | frontend/src/components/consumer/Chat.jsx:63-69 | a draft with non-whitespace text and a selected conversation is logged and cleared; otherwise the draft is untouched; the selection never changes |
| SearchPages.SendableIffNotBlank | frontend/src/components/consumer/Chat.jsx:64 | `trim()` leaves something exactly when the draft has a non-whitespace character |
| LinkRequests.RequestData | frontend/src/components/supplier/LinkRequests.jsx:182-193 | tabs 0, 1 and 2 give the pending, approved and rejected lists; any other tab gives an empty list |
| LinkRequests.MenuClick | frontend/src/components/supplier/LinkRequests.jsx:122-125 | the menu opens on the request; the dialog fields are kept |
| LinkRequests.MenuClose | frontend/src/components/supplier/LinkRequests.jsx:127-130 | the menu closes and the selected request is cleared; the dialog fields are kept |
| LinkRequests.OpenDialog | frontend/src/components/supplier/LinkRequests.jsx:132-145 | approve, reject and message each open the dialog with their own `dialogType`; menu, selection and texts are kept |
| LinkRequests.CardAction | frontend/src/components/supplier/LinkRequests.jsx:264-297 | a card button selects its request and opens the dialog of its kind |
| LinkRequests.MenuAction | frontend/src/components/supplier/LinkRequests.jsx:402-419 | as written, a menu item opens the dialog and then clears the selected request |
| LinkRequests.MenuActionKeepingSelection | frontend/src/components/supplier/LinkRequests.jsx:402-419 | as intended, a menu item opens the dialog and closes the menu, keeping the selected request |
| LinkRequests.CancelDialog | frontend/src/components/supplier/LinkRequests.jsx:382 | Cancel only closes the dialog |
| LinkRequests.ConfirmEnabledRule | frontend/src/components/supplier/LinkRequests.jsx:387 | approve and message can always be confirmed; a rejection exactly when its reason has a non-whitespace character |
| LinkRequests.Confirm | frontend/src/components/supplier/LinkRequests.jsx:147-154 | with no selected request it throws the null-`id` TypeError; otherwise it logs that request's id, closes the dialog, clears reason and message, and closes the menu and selection |
| LinkRequests.CardConfirmSucceeds | frontend/src/components/supplier/LinkRequests.jsx:147-154 | confirming a dialog opened from a card succeeds and logs that card's id |
| LinkRequests.MenuConfirmThrows | frontend/src/components/supplier/LinkRequests.jsx:149 | as written, confirming a dialog opened from the context menu always throws |
| LinkRequests.MenuConfirmSucceedsKeepingSelection | frontend/src/components/supplier/LinkRequests.jsx:147-154 | with the selection kept, confirming from the menu succeeds on the request the menu was opened for |
| LinkRequests.LinkRequestsPage.constructor | frontend/src/components/supplier/LinkRequests.jsx:109-115 | tab 0, no menu, no selection, dialog closed, empty type, reason and message |
| LinkRequests.LinkRequestsPage.HandleTabChange | frontend/src/components/supplier/LinkRequests.jsx:118-120 | only the tab changes |
| LinkRequests.LinkRequestsPage.HandleMenuClick | frontend/src/components/supplier/LinkRequests.jsx:122-125 | the page state becomes `MenuClick` of the old one |
| LinkRequests.LinkRequestsPage.HandleMenuClose | frontend/src/components/supplier/LinkRequests.jsx:127-130 | the page state becomes `MenuClose` of the old one |
| LinkRequests.LinkRequestsPage.HandleOpen | frontend/src/components/supplier/LinkRequests.jsx:132-145 | the page state becomes `OpenDialog` of the old one |
| LinkRequests.LinkRequestsPage.HandleCardAction | frontend/src/components/supplier/LinkRequests.jsx:264-297 | the page state becomes `CardAction` of the old one |
| LinkRequests.LinkRequestsPage.HandleMenuAction | frontend/src/components/supplier/LinkRequests.jsx:402-419 | the page state becomes `MenuActionKeepingSelection` of the old one |
| LinkRequests.LinkRequestsPage.HandleCancel | frontend/src/components/supplier/LinkRequests.jsx:382 | only the dialog closes |
| LinkRequests.LinkRequestsPage.HandleConfirmAction | frontend/src/components/supplier/LinkRequests.jsx:147-154 | a failed confirm returns the thrown error and changes nothing; a successful one returns the logged id and applies `Confirm`'s new state |
| Tables.ParseRole | backend/app/models/user.py:6-9 | a text is a role exactly when it is "consumer", "supplier" or "admin", and the role found is the one with that value |
| Tables.RoleRoundTrip | backend/app/models/user.py:6-9 | every role's value reads back as that role |
| Tables.ParseCategory | backend/app/models/product.py:6-14 | a category found for a text has that text as its value |
| Tables.CategoryRoundTrip | backend/app/models/product.py:6-14 | every category's value reads back as that category |
| Text.LikeAnything | backend/app/controllers/product_controller.py:59 | the `LIKE` pattern `%` matches every string |
| Text.LikeLiteralPrefix | backend/app/controllers/product_controller.py:59 | a literal term followed by `%` matches exactly the strings it begins |
| Text.LikeContains | backend/app/controllers/product_controller.py:59 | `LIKE '%t%'` with a literal term matches exactly the strings that contain it |
| Text.Utf16Length | frontend/src/components/auth/Signup.jsx:52 | `password.length` counts UTF-16 code units: at least the number of characters and at most twice it |
| Text.Utf16LengthBmp | frontend/src/components/auth/Signup.jsx:52 | within the Basic Multilingual Plane `length` is the number of characters |
| Tables.IlikePlainTerm | backend/app/controllers/product_controller.py:59-64 | a term without `%`, `_` or backslash makes `ilike '%term%'` a substring test ignoring case, in both directions |
| Tables.IlikeEmptyTerm | backend/app/controllers/product_controller.py:59-64 | `ilike '%%'` matches every value |
| Tables.IlikeUnderscore | backend/app/controllers/product_controller.py:59-64 | an `_` in the term matches any one character: "Acme" matches "_" without containing it |
| Tables.IlikePercent | backend/app/controllers/product_controller.py:59-64 | a `%` in the term matches any run: "Apple" matches "a%e" without containing it |
| Tables.NextId | backend/app/models/team_member.py:10 | the key a new row receives from its table's sequence is positive and differs from every key present (the model takes one more than the largest) |
| Tables.NextIdAfterInsert | backend/app/models/team_member.py:10 | after a row is inserted under the next key, the next key is one larger, as the sequence's next value is |
| Tables.UniqueIdsInsert | backend/app/models/team_member.py:10 | inserting under the next key keeps primary keys distinct |
| Tables.Database.constructor | backend/app/database/database.py:10-17 | a new database has every table empty |
| Numerals.IntToStringRoundTrip | backend/app/routers/auth.py:72 | `int(str(n)) == n`: the subject written into a token reads back as the same user id |
| Numerals.IntToStringInjective | backend/app/routers/auth.py:72 | different user ids give different subjects |
| OrderSchemas.ParseOrderItem | backend/app/schemas/order.py:7-14 | an item validates exactly when it has a product id and a positive quantity and unit price, and keeps them; the errors name `product_id`, `quantity` and `unit_price` each exactly when that field is missing or not positive |
| OrderSchemas.ItemRoundTrip | backend/app/schemas/order.py:7-14 | every valid item validates to itself |
| OrderSchemas.ParseItems | backend/app/schemas/order.py:37 | the list validates exactly when every element does, and then element k is element k's validation |
| OrderSchemas.ParseOrderCreate | backend/app/schemas/order.py:31-37 | an order validates exactly when its address is present and at most 255 characters long and its items are present and valid; it keeps the address, takes the status or PENDING, and its items are the validated items; the errors name `shipping_address` and `items` each exactly when that field is bad |
| OrderSchemas.OrderRoundTrip | backend/app/schemas/order.py:31-37 | every valid order validates to itself |
| OrderSchemas.StatusDefaultsToPending | backend/app/schemas/order.py:33 | an order without a status is PENDING |
| OrderSchemas.ParseOrderUpdate | backend/app/schemas/order.py:40-41 | an update validates exactly when it carries a valid shipping address; the status is optional |
| OrderSchemas.StatusOnlyUpdateRejected | backend/app/schemas/order.py:40-41 | a status-only update body is rejected, and an address-only body is accepted with no status |
| ProductSchemas.ParseProductCreate | backend/app/schemas/product.py:7-18 | a product validates exactly when its name is at most 100 characters, its price is positive, its unit is at most 20 characters, its category is known and its stock is not negative; defaults "kg" and 0; the errors name `name`, `price`, `unit`, `category` and `stock_quantity` each exactly when that field is bad |
| ProductSchemas.ProductRoundTrip | backend/app/schemas/product.py:7-18 | every valid product validates to itself |
| ProductSchemas.ParseProductUpdate | backend/app/schemas/product.py:21-24 | name, price and stock become optional under the same bounds; the category stays required; a valid body keeps its name, description, price and stock, takes the unit or "kg", and its category is the one named; each bad field, and only a bad one, is named |
| ProductSchemas.UpdateAcceptsWhatCreateAccepts | backend/app/schemas/product.py:21-24 | every valid creation body is a valid update body, and an update without a category is rejected |
| UserSchemas.ParseUserCreate | backend/app/schemas/user.py:7-17 | a registration validates exactly when `EmailStr` accepts the e-mail, the role is known or absent and the password has at least 8 characters; the stored e-mail is the normalised address; the errors name `email`, `role` and `password` each exactly when that field is bad |
| UserSchemas.ParseUserUpdate | backend/app/schemas/user.py:20-21 | the e-mail stays required and is kept normalised; a password, when given, still needs at least 8 characters; name and role are kept; each bad field, and only a bad one, is named |
| UserSchemas.CreateBodyIsUpdateBody | backend/app/schemas/user.py:20-21 | every registration body is an update body that carries the same password |
| UserSchemas.ParseToken | backend/app/schemas/user.py:42-45 | a token reply validates exactly when it has the token and its type; the user summary is optional |
| UserSchemas.TokenRoundTrip | backend/app/schemas/user.py:42-45 | every token reply validates to itself, with or without the user summary |
| UserController.GetByEmail | backend/app/controllers/user_controller.py:14-18 | a user is found exactly when some stored user has the e-mail, and the one found has it |
| UserController.Create | backend/app/controllers/user_controller.py:20-33 | appends a user under the next id with the password's hash, the role given or consumer, and `is_active` true; nothing else changes |
| UserController.Authenticate | backend/app/controllers/user_controller.py:35-44 | a user is returned exactly when one has the e-mail and the password checks against their hash |
| UserController.AuthenticateNewUser | backend/app/controllers/user_controller.py:20-44 | a user created under a new e-mail is found by it and authenticates with their password |
| UserController.GetByEmailOther | backend/app/controllers/user_controller.py:14-18 | adding a user under another e-mail does not change what an e-mail finds |
| OrderController.Newest | backend/app/controllers/order_controller.py:19-23 | `filter(...).order_by(created_at.desc())`: a permutation of the matching orders, as many as match, in descending `created_at` |
| OrderController.NewestFirst | backend/app/controllers/order_controller.py:19-26 | exactly the `skip`/`limit` window of the matching orders sorted newest first (a permutation of the matches, descending by `created_at`); on the first page no matching order left out is newer than the last one shown |
| OrderController.NewestFirstWhole | backend/app/controllers/order_controller.py:19-26 | with no offset and a wide enough limit, the window holds exactly the matching orders |
| OrderController.ByUser | backend/app/controllers/order_controller.py:13-26 | exactly the `skip`/`limit` window of that user's orders newest first; on the first page no order of the user left out is newer than the last one shown |
| OrderController.ByStatus | backend/app/controllers/order_controller.py:28-41 | exactly the `skip`/`limit` window of the orders with that status newest first; on the first page no such order left out is newer than the last one shown |
| OrderController.TotalPositive | backend/app/controllers/order_controller.py:49-53 | a non-empty order of valid items has a positive total |
| OrderController.CopiesTotal | backend/app/controllers/order_controller.py:67-74 | item rows that copy the input items add up to the order total |
| OrderController.NewItemsTotal | backend/app/controllers/order_controller.py:49-75 | the item rows of a new order add up to its stored total |
| OrderController.AddItemRows | backend/app/controllers/order_controller.py:66-75 | the loop adds one item row per input item, in input order, each copying its item and linked to the order, after the rows already stored |
| OrderController.NewOrderItems | backend/app/controllers/order_controller.py:55-78 | rows added for a new order under the next key leave every item row pointing at a stored order and add up to the order total |
| OrderController.CreateWithItems | backend/app/controllers/order_controller.py:43-78 | appends the order with the summed total, then one item row per input item, in order, linked to it; other tables are unchanged; item rows keep pointing at stored orders, and the new order's item rows add up to its total |
| OrderController.UpdateStatus | backend/app/controllers/order_controller.py:80-90 | only the status of the order found by id changes |
| OrderController.StatusUpdateReadBack | backend/app/controllers/order_controller.py:80-90 | reading the order back gives the old order with the new status |
| ProductController.ByOwner | backend/app/controllers/product_controller.py:13-25 | exactly the `skip`/`limit` window of that owner's products in the model's row order |
| ProductController.ByCategory | backend/app/controllers/product_controller.py:27-39 | exactly the `skip`/`limit` window of that category's products in the model's row order |
| ProductController.ByOwnerComplete | backend/app/controllers/product_controller.py:13-25 | a first page wide enough holds every product of the owner |
| ProductController.UpdateStock | backend/app/controllers/product_controller.py:41-51 | only the stock of the product found by id changes, by `quantity_change` |
| ProductController.StockChangeUndo | backend/app/controllers/product_controller.py:41-51 | the stock read back is the old stock plus the change, with no lower bound, and the opposite change restores the table |
| ProductController.Search | backend/app/controllers/product_controller.py:53-69 | exactly the `skip`/`limit` window, in the model's row order, of the products whose name or non-null description matches `ilike '%query%'`, wildcards and escapes included |
| ProductController.SearchEmptyQuery | backend/app/controllers/product_controller.py:59-69 | an empty query matches every product, so the search is the plain window |
| ProductController.SearchPlainQuery | backend/app/controllers/product_controller.py:59-64 | for a query without `%`, `_` or backslash a product is a hit exactly when its name or its description contains the query ignoring case |
| Deps.SubjectId | backend/app/routers/base.py:30 | `int(payload.get("sub"))`: nothing without a subject, the number of a numeric subject, the parse of a text one |
| Deps.UserById | backend/app/routers/base.py:36 | a user is found exactly when one has the id, and it is a stored user with that id |
| Deps.UserByIdFinds | backend/app/routers/base.py:36 | under distinct ids, looking up a stored user's id finds that user |
| Deps.CurrentUserAsWritten | backend/app/routers/base.py:15-39 | as written: 500 exactly when the token decodes but its subject is missing or not a number; a user is returned only when the subject names them |
| Deps.MissingSubjectAsWritten | backend/app/routers/base.py:30-32 | a decoded token without a subject is 500 as written and 401 as intended |
| Deps.AsWrittenAgreesOtherwise | backend/app/routers/base.py:15-39 | whenever the token does not decode or its subject reads as a number, the written and the intended dependency agree |
| Deps.GetCurrentUser | backend/app/routers/base.py:15-39 | as intended: the stored user whose id is the subject of a decodable token, and 401 "Could not validate credentials" in every other case |
| Deps.AdminOnly | backend/app/routers/base.py:42-50 | the caller unchanged exactly when they are an admin, else 403 "Insufficient permissions" |
| Deps.GetCurrentAdminUser | backend/app/routers/base.py:42-50 | success exactly for an authenticated admin; an unauthenticated caller gets the 401, an authenticated non-admin the 403 |
| Deps.CommonQueryParams | backend/app/routers/base.py:53-62 | defaults skip 0, limit 100 and no q; given values are kept |
| AuthRouter.TokenClaims | backend/app/routers/auth.py:28-40 | the signed claims are `data` plus `exp`, which is now plus the delta, or plus 15 minutes when the delta is absent or zero |
| AuthRouter.TokenClaimsKeepSubject | backend/app/routers/auth.py:28-34 | adding the expiry does not change the subject |
| AuthRouter.LoginForAccessToken | backend/app/routers/auth.py:42-86 | 401 "Incorrect email or password" exactly when authentication fails, else 400 "Inactive user" for an inactive account, else a bearer token whose subject is the user's id, plus the user's summary |
| AuthRouter.LoginThenCurrentUser | backend/app/routers/auth.py:71-74 | with distinct ids, the token a login issues makes the current-user dependency return the user who logged in |
| AuthRouter.RegisterUser | backend/app/routers/auth.py:88-136 | 400 "Email already registered" with no change for a known e-mail; otherwise appends an active user with the hashed password and the role given or consumer; keeps e-mails and ids distinct |
| AuthRouter.RegisterThenLogin | backend/app/routers/auth.py:42-136 | a user who has just registered can log in with the same e-mail and password and gets their own summary back |
| AuthRouter.NormalisedAddressRegistered | backend/app/routers/auth.py:98-106 | once a registration is stored, a second body whose address `EmailStr` normalises to the same one finds that user, so it is refused as already registered |
| UsersRouter.CreateUser | backend/app/routers/users.py:13-33 | 400 "Email already registered" with no change for a known e-mail; otherwise appends the controller's row with the role forced to consumer, whatever role was requested |
| UsersRouter.UpdateRow | backend/app/routers/users.py:53-55 | the row of that user becomes the controller's update of it; nothing else changes |
| UsersRouter.UpdateUserMe | backend/app/routers/users.py:44-55 | only the caller's own row changes, and the reply is the caller updated |
| UsersRouter.ReadUser | backend/app/routers/users.py:71-86 | 403 for a non-admin before 404 for an unknown id; otherwise the stored user with that id |
| UsersRouter.ListUsers | backend/app/routers/users.py:58-69 | admins only (403 otherwise); exactly the `skip`/`limit` window of the users table in the model's row order |
| UsersRouter.UpdateUser | backend/app/routers/users.py:88-104 | fails exactly as the read fails, changing nothing; otherwise only that user's row is updated and returned |
| UsersRouter.DeleteUser | backend/app/routers/users.py:106-122 | fails exactly as the read fails, changing nothing; otherwise that user's row is removed |
| UsersRouter.DeletedUserNotFound | backend/app/routers/users.py:106-122 | with distinct ids, reading a deleted user is 404 |
| OrdersRouter.ListOrders | backend/app/routers/orders.py:13-35 | a non-admin gets exactly the window of their own orders newest first; an admin with a status the window of the orders with that status newest first; an admin without one the window of the table in the model's row order |
| OrdersRouter.OrdersByUser | backend/app/routers/orders.py:110-128 | admins only (403 "Only admins can view orders by user"); exactly the `skip`/`limit` window of that user's orders newest first |
| OrdersRouter.OwnListingIsAdminView | backend/app/routers/orders.py:31-35 | a non-admin's listing is what an admin sees for that user, and the status filter they pass has no effect |
| OrdersRouter.GetOrder | backend/app/routers/orders.py:57-80 | 404 exactly for an unknown id, then 403 unless the caller is an admin or the owner; otherwise the stored order |
| OrdersRouter.CreateOrder | backend/app/routers/orders.py:37-55 | 403 with no change unless the caller is a consumer; otherwise a new order under the next id owned by the caller, with the body's status and address and the summed total; the old item rows are kept and one new row copies each item's product, quantity and price; item rows keep pointing at stored orders and the new ones add up to the total |
| OrdersRouter.UpdateOrderStatus | backend/app/routers/orders.py:82-108 | 404 for an unknown id before 403 for a caller who is neither admin nor supplier, with no change; otherwise only that order's status changes and the order read back has it |
| ProductsRouter.ListProducts | backend/app/routers/products.py:13-33 | a non-empty `q` gives exactly the search window, else a category exactly the window of that category's products, else exactly the window of the table |
| ProductsRouter.ListDispatch | backend/app/routers/products.py:22-33 | with a search text the category has no effect; with neither filter a wide enough first page is the whole table |
| ProductsRouter.ReadProduct | backend/app/routers/products.py:57-71 | the stored product with that id exactly when one exists, else 404 "Product not found" |
| ProductsRouter.WriteCheck | backend/app/routers/products.py:83-95 | 404 for an unknown id before 403 "Not enough permissions" for a caller who is neither owner nor admin; otherwise the product |
| ProductsRouter.CreateProduct | backend/app/routers/products.py:35-55 | 403 with no change unless the caller is a supplier or an admin; otherwise the body is stored under the next id with the caller as owner, and can be read back |
| ProductsRouter.UpdateProduct | backend/app/routers/products.py:73-99 | fails exactly as the write check fails, changing nothing; otherwise only that product's row is updated and returned |
| ProductsRouter.DeleteProduct | backend/app/routers/products.py:101-125 | fails exactly as the write check fails, changing nothing; otherwise that product's row is removed |
| ProductsRouter.DeletedProductNotFound | backend/app/routers/products.py:101-125 | with distinct ids, reading a deleted product is 404 |
| SuppliersRouter.ListSuppliers | backend/app/routers/suppliers.py:13-36 | exactly the `skip`/`limit` window, in the model's row order, of the suppliers that match `ilike '%search%'` in name or description when a search is given and `ilike '%category%'` in the category column when a category is given |
| SuppliersRouter.SearchPlainTerm | backend/app/routers/suppliers.py:26-30 | for a non-empty search term without `%`, `_` or backslash a supplier matches exactly when its name or description contains the term ignoring case |
| SuppliersRouter.ListSuppliersWindow | backend/app/routers/suppliers.py:24-35 | with neither filter the list is the plain window; a wide enough first page holds every matching supplier |
| SuppliersRouter.GetSupplier | backend/app/routers/suppliers.py:39-53 | the stored supplier with that id exactly when one exists, else 404 "Supplier not found" |
| SuppliersRouter.SendCheck | backend/app/routers/suppliers.py:64-84 | 404 exactly for an unknown supplier; 400 "Link request already exists" exactly when the user already has a pending request to it; other statuses do not block |
| SuppliersRouter.SendLinkRequest | backend/app/routers/suppliers.py:56-104 | the check's error and no change, or a pending request stored under the next id and the reply with its id; keeps at most one pending request per user and supplier |
| SuppliersRouter.SecondRequestRejected | backend/app/routers/suppliers.py:74-84 | sending the same request again while the first is pending is refused with 400 |
| SuppliersRouter.RequestsWhere | backend/app/routers/suppliers.py:125-130 | exactly the stored requests selected by the owner filter and, when a non-empty status is given, with that status |
| SuppliersRouter.UserLinkRequests | backend/app/routers/suppliers.py:116-131 | only stored requests of the user, with the status asked for when one is given, and every such request |
| SuppliersRouter.SupplierLinkRequests | backend/app/routers/suppliers.py:134-149 | only stored requests to the supplier, with the status asked for when one is given, and every such request |
| SuppliersRouter.UpdateLinkRequest | backend/app/routers/suppliers.py:152-175 | 404 and no change for an unknown id; otherwise only that request's status changes, whatever it was, and the updated request is returned |
| SuppliersRouter.AnsweredRequestNoLongerBlocks | backend/app/routers/suppliers.py:74-78 | once the one pending request of a user to a supplier is answered, no pending request blocks a new one |
| TeamRouter.ListTeamMembers | backend/app/routers/team.py:13-28 | exactly the `skip`/`limit` window of that supplier's members in the model's row order |
| TeamRouter.ListTeamMembersComplete | backend/app/routers/team.py:24-27 | a wide enough first page lists every member of the supplier's team |
| TeamRouter.DefaultMembersPage | backend/app/routers/team.py:14-27 | without a `limit` at most ten members are listed, and all of the supplier's members when there are no more than ten |
| TeamRouter.GetTeamMember | backend/app/routers/team.py:37-54 | the stored member with that id exactly when one exists, else 404 "Team member not found" |
| TeamRouter.AddCheck | backend/app/routers/team.py:74-92 | 404 exactly for an unknown supplier; 400 "User is already a team member" exactly when the user is on that team, active or not |
| TeamRouter.AddTeamMember | backend/app/routers/team.py:65-107 | the check's error and no change, or an active member stored under the next id; no user is twice on one team |
| TeamRouter.Patched | backend/app/routers/team.py:137-140 | the role changes only for a non-empty role and the flag only when one is given; id, supplier and user never change |
| TeamRouter.PatchedLaws | backend/app/routers/team.py:137-140 | an empty update changes nothing, and applying an update twice is applying it once |
| TeamRouter.UpdateTeamMember | backend/app/routers/team.py:119-147 | 404 and no change for an unknown id; otherwise only that member is updated, and returned |
| TeamRouter.DeactivatedMemberStillBlocks | backend/app/routers/team.py:83-92 | a deactivated member still blocks adding the same user to the same team |
| TeamRouter.RemoveTeamMember | backend/app/routers/team.py:159-179 | 404 and no change for an unknown id; otherwise that member's row is removed |
| TeamRouter.RemovedMemberCanRejoin | backend/app/routers/team.py:159-179 | with memberships distinct, a removed member can be added back |
| MessagesRouter.ListConversations | backend/app/routers/messages.py:14-30 | exactly the `skip`/`limit` window of the conversations the user takes part in, on either side, in the model's row order |
| MessagesRouter.ListConversationsComplete | backend/app/routers/messages.py:25-28 | a wide enough first page lists every conversation of the user |
| MessagesRouter.FindConversation | backend/app/routers/messages.py:48-56 | the stored conversation with that id exactly when one exists, else 404 "Conversation not found" |
| MessagesRouter.GetConversation | backend/app/routers/messages.py:39-58 | 404 exactly when the conversation is unknown; otherwise the conversation with only and all of its messages |
| MessagesRouter.ConversationMessages | backend/app/routers/messages.py:69-95 | 404 exactly when the conversation is unknown; otherwise exactly the `skip`/`limit` window of its messages in the model's row order |
| MessagesRouter.ExistingConversation | backend/app/routers/messages.py:116-121 | a conversation is found exactly when one joins the two users in either order, and it is a stored one |
| MessagesRouter.ExistingConversationSymmetric | backend/app/routers/messages.py:116-121 | the lookup gives the same answer whichever user is named first |
| MessagesRouter.CreateConversation | backend/app/routers/messages.py:106-137 | the pair's existing conversation with no change, or one new conversation under the next id with the users as given |
| MessagesRouter.CreateConversationIdempotent | backend/app/routers/messages.py:116-133 | once created, asking again in either order finds that same conversation |
| MessagesRouter.SendMessage | backend/app/routers/messages.py:147-180 | 404 and no change for an unknown conversation; otherwise one new message with the given conversation, sender and content, stamped now |
| MessagesRouter.SentMessageListed | backend/app/routers/messages.py:147-180 | a sent message is among its conversation's messages afterwards |
| MessagesRouter.GetMessage | backend/app/routers/messages.py:192-209 | the stored message with that id exactly when one exists, else 404 "Message not found" |
| MessagesRouter.DeleteMessage | backend/app/routers/messages.py:220-238 | 404 and no change for an unknown id; otherwise that message's row is removed |
| MessagesRouter.DeletedMessageNotFound | backend/app/routers/messages.py:220-238 | with distinct ids, reading a deleted message is 404 |
| DashboardRouter.TopN | backend/app/routers/dashboard.py:70-72 | `ORDER BY count DESC LIMIT n`: `min(n, groups)` groups, in descending count, drawn from the groups; a group left out means the list is full and it counts no more than the last one kept |
| DashboardRouter.TopNSubMultiset | backend/app/routers/dashboard.py:70-72 | no group is listed more often than the groups hold it |
| DashboardRouter.TopNKept | backend/app/routers/dashboard.py:70-72 | every group the top-N list keeps is one of the groups |
| DashboardRouter.TopNLeftOut | backend/app/routers/dashboard.py:70-72 | a group left out of the top-N list counts no more than its last entry, which is full |
| DashboardRouter.Ranking | backend/app/routers/dashboard.py:58-69 | the inner join and `GROUP BY id, name`: only groups of rows with a positive count, each carrying its row's id, name and count, and the group of every such row |
| DashboardRouter.RankingCounts | backend/app/routers/dashboard.py:58-69 | each group occurs exactly as often as there are rows with a positive count that give it: one group per such row |
| DashboardRouter.RankingUniqueIds | backend/app/routers/dashboard.py:58-69 | rows with distinct ids give groups with distinct ids |
| DashboardRouter.FavoriteSuppliers | backend/app/routers/dashboard.py:57-72 | at most five suppliers, in descending order count, each a stored supplier with the number of the user's orders placed with it, which is positive; with distinct supplier ids, no supplier is listed twice |
| DashboardRouter.FavoriteSuppliersLeftOut | backend/app/routers/dashboard.py:57-72 | every supplier the user ordered from is a favourite, unless five are listed and none of them has fewer orders |
| DashboardRouter.ConsumerDashboard | backend/app/routers/dashboard.py:15-100 | 404 "User not found" exactly for an unknown user; otherwise the user's order count, delivered count and processing/in-transit count, where completed plus pending never exceed the total; the sum of their amounts; exactly the first five of their orders newest first, none left out being newer than the last shown; and their favourite suppliers |
| DashboardRouter.TopProducts | backend/app/routers/dashboard.py:167-182 | at most five of the supplier's own products, in descending item count, each with the number of order items that name it, which is positive; with distinct product ids, no product is listed twice |
| DashboardRouter.TopProductsLeftOut | backend/app/routers/dashboard.py:167-182 | every product of the supplier named by some order item is listed, unless five are listed and none of them is named by fewer items |
| DashboardRouter.ProfileOf | backend/app/routers/dashboard.py:129 | a profile is found exactly when a supplier row belongs to the user, and it is that user's |
| DashboardRouter.SupplierFigures | backend/app/routers/dashboard.py:136-213 | for a profile: its order count and revenue, the last thirty days' revenue, its product and low-stock counts (low stock never more), exactly the first ten of its orders newest first with none left out newer than the last shown, and its top products |
| DashboardRouter.SupplierDashboard | backend/app/routers/dashboard.py:111-213 | 404 "User not found" before 404 "Supplier profile not found"; otherwise the profile's id and name, its order count and revenue, the revenue since thirty days before now, its product count and the low-stock count, which is never larger, exactly the first ten of its orders newest first, none left out being newer than the last shown, and its top products |
| DashboardRouter.RecentRevenueBounded | backend/app/routers/dashboard.py:141-150 | with non-negative amounts, the revenue of the last thirty days is between 0 and the total revenue |
| DashboardRouter.NewOrderRevenue | backend/app/routers/dashboard.py:141-150 | a new order of the supplier adds its amount to the total revenue, and to the recent revenue exactly when it falls within the last thirty days |

## Left out

- Rendering: all JSX layout and styling, the icons, the menus' anchor positions and the dialogs' markup are not modelled. The dashboards' mock data, the sidebar, the routing table and the consumer link-request page are not part of this model.
- The thin HTTP service modules (messages, suppliers, team, orders, products, dashboard) only call the client and rethrow the normalised message; they are not modelled.
- Network: every server reply is an input value, so the model says what the client does for each possible reply, not which reply arrives.
- The front end's session reply (`user`, `accessToken`, `refreshToken` in camel case) and the back end's `/token` reply (`access_token`, `token_type`, `user`) are each modelled on their own side. The model does not connect them.
- Clocks and timers: `Date.now()`, `datetime.utcnow()` and the one-second `setTimeout` of the login and signup pages are parameters or a separate completion step. Ids built from `Date.now()` are taken as given, not checked for freshness.
- Floating point: prices, totals and revenue are integer cents. The checkout page's subtotal, 8% tax and shipping, `parseFloat`/`parseInt` of form fields, and the `float(...)` conversions in the dashboards are not modelled.
- Foreign libraries are function parameters with no properties beyond those a lemma requires:
  - JWT signing and decoding (python-jose; `atob` plus `JSON.parse` in the browser);
  - bcrypt hashing and checking;
  - Pydantic's `EmailStr`: the parameter `normalizeEmail` refuses a text or gives the address to keep. The model does not define the normalisation itself (stripping spaces, dropping a display name, lower-casing the domain); it states only that the parsed body carries the normalised address, so two spellings that normalise alike are one account.
  - `Deps.GetCurrentUser` therefore does not model python-jose's own check of the subject's type. A decoder that rejects a numeric subject is one more `None` of `decode`.
- Case folding is ASCII only, for `toLowerCase`/`toUpperCase` and SQL `ilike`. Non-ASCII letters compare unfolded. The `ilike` wildcards `%` and `_` and the backslash escape are modelled (`Text.LikeMatch`).
- SQLAlchemy sessions, commit, refresh and rollback are not modelled. Neither are the `except Exception` branches that turn database failures into 500 replies (registration, link requests, team, messages, dashboards). Every write endpoint except one either completes or fails before writing. `create_with_items` (`OrderController.CreateWithItems`) commits the order and then, in a second commit, its item rows. A failure between the two commits leaves an order with no item rows, whose stored total no item rows add up to. The model does not capture that half-written state.
- The generic `BaseController` (`get`, `get_multi`, `create`, `update`, `remove`) is not part of this model.
  - `get` is the first row with the id.
  - `get_multi` is the `skip`/`limit` window.
  - `remove` deletes the first row with the id.
  - The row `update` writes is the parameter `apply`, so `UsersRouter.UpdateRow` and `ProductsRouter.UpdateProduct` state only which row changes, not its new columns.
- Columns no rule reads are dropped:
  - timestamps other than `created_at`;
  - `image_url`, `location`, `verified`, `response_time`, `rating`, `review_count`;
  - `is_read`;
  - the team member's `updated_at` on the back end.
- Deps.GetCurrentUser: a request with no `Authorization: Bearer` header is refused by `OAuth2PasswordBearer` with 401 "Not authenticated" before the dependency runs. The model has no header and folds that case into the token that does not decode, whose reply is 401 "Could not validate credentials".
- ProductController.UpdateStock: integers are unbounded. The `Integer` columns are 32-bit in PostgreSQL (`stock_quantity` at models/product.py:24), which refuses a value past 2147483647 with "integer out of range": `update_stock` then fails with 500 and no change, where the model stores the larger number. The same holds for the stock of a new product and for order-item quantities; the model accepts those values.
- ItemManagement.NewItem takes the first three characters of the name for the placeholder image. JavaScript's `substring(0, 3)` takes three UTF-16 code units, so a name starting with a character above U+FFFF gives a shorter text in the browser ("😀ab" gives "😀A", the model "😀AB"). A lone surrogate is not a Dafny character, so the model cannot cut one in half.
- Deps.CommonQueryParams: `skip` and `limit` are `nat` in the listing functions. FastAPI accepts negative integers there; PostgreSQL then rejects the query, and that error reply is not modelled.
- AuthService.GetStoredUser: besides a profile and `null`, `JSON.parse` can return other JSON values (numbers, strings, arrays, profiles with other keys or key order). The model reads only the layout `JSON.stringify` writes and groups every other text with the parse errors as `Unparsable`; `AuthContext.AuthProvider.Restore` inherits this.
- UserJson.Stringify escapes only `"` and backslash. `JSON.stringify` also escapes control characters; profiles holding them are stored in a text that differs from the browser's, though the round trip still holds.
- Numerals.ParseInt accepts an optional `-` followed by decimal digits, leading zeros included (`"007"` is 7, `"-0"` is 0), as Python's `int` does. Python's `int` also takes surrounding whitespace, a `+` sign, `_` separators and non-ASCII decimal digits; subjects written that way are read as not numeric.
- `OrderStatus` comes from `models/order.py`, which is not part of this model. Order and link-request statuses are plain strings, and any string is accepted where the enum would be validated.
- Row order of queries without `ORDER BY`: the product listings and search, `get_multi` (users, the admin's order listing), the supplier, team-member, link-request, conversation and message listings. The model returns their rows, and takes their `OFFSET`/`LIMIT` windows, in the order of the table's sequence in the model ("the model's row order"). SQL leaves that order unspecified, and PostgreSQL can return rows in another order (an `UPDATE` writes a new row version, for example). The model's result is one of the orders the database may return; no contract says which order the database uses.
- DashboardRouter.TopN breaks ties in count by table order (a stable sort). SQL leaves the order of tied groups unspecified, so the model fixes one of the orders the database may return. The same holds for `ORDER BY created_at DESC` in `OrderController.NewestFirst`.
- `read_user_me` returns the user the current-user dependency resolved, unchanged. That is `Deps.GetCurrentUser` itself, so it has no member of its own.
- Source defects modelled as the code evidently intends, with the behaviour as written not modelled:
  - models/__init__.py exports only `User`, `Product`, `Order`, `OrderItem` and their enums. As written, the routers' `models.Supplier`, `models.LinkRequest`, `models.TeamMember`, `models.Conversation` and `models.Message` do not resolve, and those endpoints fail with 500. The model gives them the tables their queries name.
  - DashboardRouter.SupplierDashboard counts low stock on the `stock_quantity` column. The code reads `Product.stock`, which the product model does not have.
  - OrdersRouter.UpdateOrderStatus raises 404 and 403 as intended. As written, the `status` parameter shadows the `status` module, so those two replies fail with 500.
  - UsersRouter.CreateUser passes the body with the role replaced. As written, a `dict` reaches a controller that reads attributes, and the call fails with 500.
  - AuthContext.AuthProvider.Login passes the credentials as the one object the auth service takes. As written, it passes two arguments.
- The signup page accepts passwords of 6 or 7 characters that the back end's `UserCreate` rejects. `UserSchemas.SignupMinimumBelowBackEnd` states this as a property of the source, not as a defect of the model.

## Findings

| source | as written | input that shows it | evidently intended | confidence | as-written member | corrected member |
|---|---|---|---|---|---|---|
| frontend/src/components/supplier/LinkRequests.jsx:149 | each context-menu item opens the dialog and then calls `handleMenuClose`, which sets `selectedRequest` to null; `handleConfirmAction` then reads `selectedRequest.id` and throws a TypeError | open the menu on a pending request, choose Approve, press the confirm button | the dialog acts on the request the menu was opened for, as it does when opened from the card's buttons | high, not executed | LinkRequests.MenuConfirmThrows | LinkRequests.MenuConfirmSucceedsKeepingSelection |
| backend/app/routers/base.py:30-32 | `int(payload.get("sub"))` raises TypeError for a token without `sub` and ValueError for a non-numeric one; neither is a `JWTError`, so the reply is 500, and the `user_id is None` check never fires | a correctly signed, unexpired token whose claims are `{"exp": ...}` only, or `{"sub": "abc", "exp": ...}` | any token that names no user is 401 "Could not validate credentials" | high, not executed | Deps.MissingSubjectAsWritten | Deps.GetCurrentUser |
