# Water Drop screens: a Dafny model of their decision rules

Water Drop is a React Native marketplace where buyers order bulk water from
suppliers. Its screens talk to a hosted backend (auth, tables, file storage)
and keep their own UI state. This project models the logic those screens
hold themselves. That logic is:

- **Order pricing and submission** (`DetailScreen`). `calculateTotal` applies
  a volume multiplier, a Construction discount and an Express surcharge, then
  floors. The Confirm button checks three required fields before the order
  row is inserted. A two-step page flow wraps the form.
- **Supplier search** (`HomeScreen`). A case-insensitive substring match
  against each supplier's locations or name, applied with `Array.filter`.
- **My listings** (`MyListingsScreen`). Listings are loaded by the owner's
  phone number. On delete, the stored image is removed only when its file
  name starts with the user's id, and then the row is deleted.
- **Authentication** (`AuthScreen`). Required fields are checked in a fixed
  order. The profile row is inserted only after a sign-up that returned a
  user. A redirect fires whenever a user is present.
- **Onboarding** (`OnboardingScreen`). A three-slide pager with a
  Next / Get Started button and active dots.
- **Profile** (`ProfileScreen`). Loading, saving and edit flags. The update
  patch has exactly three fields. The avatar initial and the account label
  are derived from the profile.

Each screen is one module. A screen whose state the source updates in place
is a class. Its fields are the screen's `useState` variables and its methods
are the handlers. Pure rules are functions, and lemmas relate them. Backend
calls are not modelled. A handler takes the backend's answers as parameters
and returns the requests it issues as values (`Request`). So "no request is
made" is stated as "the returned request list is empty". Alerts are values
(`Alert(title, message)`), and navigation is a `Navigation` value.

Shared modules: `Remote` holds the reply, alert, user and supplier-row
types. `Text` holds the JavaScript string operations the screens use:
`toLowerCase`, `includes`, `split("/").pop()` and `charAt(0).toUpperCase()`.
`Seqs` holds `Array.filter` with its order and membership lemmas.

Some helpers model source expressions directly and are described through
the lemmas about them: `DetailScreen.Multiplier` is the volume multiplier,
`DetailScreen.ReadyToSubmit` the Confirm button's required-field test and
`DetailScreen.OrderForm.TotalPrice` the displayed total;
`HomeScreen.LocationMatches` and `HomeScreen.SupplierMatches` are the search
predicate; `MyListingsScreen.HasPhone` is the test that the profile has a
phone number; `OnboardingScreen.DotActive` is the test that a dot is the
current one and `OnboardingScreen.LastIndex` the index of the last slide;
`ProfileScreen.PatchOf` is the update patch and
`ProfileScreen.ShowsSellerTools` the condition for the business tools.

The order screen's `step` decides which handlers exist: of the form's
controls, step 1 draws only "Start Order Request", and the selectors, the
text inputs, the back arrow and "Confirm Order" are drawn only in step 2.
Each `OrderForm` handler requires the step that draws its control. In the
same way, the profile screen shows only a spinner while loading, and its
inputs and "Save Changes" exist only in edit mode. So `ProfileView`'s
handlers require `!loading`, and those of the edit form also require
`isEditing`. A press on "Save Changes" while a save is in flight hits a
disabled button and is `Ignored`. The auth form's role buttons are drawn
only in sign-up mode, so `SelectRole` requires `!isLogin`.

Two rules of the code are worth stating on their own:

- The total is not clamped: with Construction water and a base price times
  multiplier below 10 it is negative (`DetailScreen.TotalCanBeNegative`).
- Deleting a listing removes its stored image only when the URL's last
  segment is non-empty and starts with the signed-in user's id. Any other
  image stays in storage (`MyListingsScreen.PlanImage`).

Some behaviours follow from the code, and the model keeps them. Each comes
from reading `user.id` on a signed-out user, which throws a TypeError:

- In `fetchListings` the throw is caught. The list is unchanged and
  `loading` ends false.
- In the delete action, when the listing has an image URL with a non-empty
  file name, the throw is caught. An "Error" alert is shown and no request
  is sent. Without such an image the check never reads `user.id`, and the
  row delete is still sent.
- In `updateProfile` the throw is not caught. `saving` stays true
  (`ProfileScreen.ProfileView.StartUpdate` returns `Threw`).

## Model

| member | source | states |
|---|---|---|
| `Text.Lower` | src/screens/HomeScreen.js:40-42 | `toLowerCase` keeps the length and lowers each character |
| `Text.LowerIdempotent` | src/screens/HomeScreen.js:40-42 | lowering an already lowered string changes nothing |
| `Text.IncludesIffOccurs` | src/screens/HomeScreen.js:40-42 | `includes` holds iff the substring occurs at some position |
| `Text.IncludesEmpty` | src/screens/HomeScreen.js:42 | every string includes the empty string |
| `Text.LastSegment` | src/screens/MyListingsScreen.js:77 | `split("/").pop()` is the separator-free suffix: the whole string, or the part after the last separator |
| `Text.LastSegmentOfPath` | src/screens/MyListingsScreen.js:77 | for `dir + "/" + name` with no "/" in name, the last segment is `name` |
| `Text.FirstUpper` | src/screens/ProfileScreen.js:125 | `charAt(0).toUpperCase()` is empty for "" and otherwise the upper-cased first character |
| `Seqs.Filter` | src/screens/HomeScreen.js:35 | `Array.filter` is no longer than its input, and keeps only input elements the predicate accepts |
| `Seqs.FilterKeeps` | src/screens/HomeScreen.js:35 | every input element the predicate accepts is kept |
| `Seqs.FilterConcat` | src/screens/HomeScreen.js:35 | filtering a concatenation is concatenating the filtered parts, so input order is kept |
| `Seqs.FilterAll` | src/screens/HomeScreen.js:35 | a predicate that accepts everything returns the input unchanged |
| `Seqs.FilterCongruent` | src/screens/HomeScreen.js:35 | predicates that agree on the elements give the same result |
| `HomeScreen.FilteredSuppliers` | src/screens/HomeScreen.js:34-43 | an unloaded list gives []; otherwise every result is a loaded supplier that matches the query |
| `HomeScreen.KeptIffMatches` | src/screens/HomeScreen.js:36-42 | a loaded supplier is kept iff the query is empty, a location contains it, or the name contains it, both sides lowered |
| `HomeScreen.EmptyQueryKeepsAll` | src/screens/HomeScreen.js:37 | the empty query keeps the whole list, in order |
| `HomeScreen.NoLocationsMatchesOnName` | src/screens/HomeScreen.js:38 | a supplier without `locations` matches a non-empty query on its name alone |
| `HomeScreen.NameHitIsKept` | src/screens/HomeScreen.js:42 | a supplier whose lowered name contains the lowered query is kept |
| `HomeScreen.QueryCaseInsensitive` | src/screens/HomeScreen.js:37-42 | the query and its lower-cased form give identical results |
| `HomeScreen.FilterPreservesOrder` | src/screens/HomeScreen.js:35 | the result keeps the input order: the filter distributes over concatenation |
| `HomeScreen.ResultCountLabel` | src/screens/HomeScreen.js:141 | "Loading..." while loading; otherwise the count equals the length of the filtered list, and 0 when nothing is loaded |
| `DetailScreen.CalculateTotal` | src/screens/DetailScreen.js:40-49 | the total is the integer t with t ≤ base × multiplier − (10 if Construction) + (20 if Express) < t + 1, with no clamping |
| `DetailScreen.MultiplierTable` | src/screens/DetailScreen.js:41-43 | the multiplier is 1.5 at 5000 L, 2.5 at 10000 L, and 1 at any other volume, 2500 L included |
| `DetailScreen.ConstructionSubtractsTen` | src/screens/DetailScreen.js:46 | Construction water totals exactly 10 less than Potable, all else equal |
| `DetailScreen.ExpressAddsTwenty` | src/screens/DetailScreen.js:47 | the Express slot totals exactly 20 more than Standard, all else equal |
| `DetailScreen.TotalCanBeNegative` | src/screens/DetailScreen.js:45-48 | base price 4, 2500 L, Construction, Standard gives −6: the total is not clamped |
| `DetailScreen.ExampleFiveThousandLitres` | src/screens/DetailScreen.js:40-48 | base price 2 at 5000 L of Potable water gives 3 |
| `DetailScreen.TotalMonotoneInVolume` | src/screens/DetailScreen.js:41-45 | with base price ≥ 0 and type and slot fixed, the total does not decrease from 2500 to 5000 to 10000 L |
| `DetailScreen.OrderForm.constructor` | src/screens/DetailScreen.js:24-30 | step 1, empty name/phone/address, 5000 L, Potable, Standard slot, nothing pending |
| `DetailScreen.OrderForm.StartOrderRequest` | src/screens/DetailScreen.js:78-172 | "Start Order Request", drawn only in step 1, sets step 2 |
| `DetailScreen.OrderForm.Back` | src/screens/DetailScreen.js:176-178 | the back arrow, drawn only in step 2, sets step 1 |
| `DetailScreen.OrderForm.SelectVolume` | src/screens/DetailScreen.js:193-200 | in step 2, the volume becomes one of 2500, 5000, 10000; the form invariant is kept |
| `DetailScreen.OrderForm.SelectWaterType` | src/screens/DetailScreen.js:217-224 | in step 2, the type becomes Potable or Construction; the slot stays Standard |
| `DetailScreen.OrderForm.EditDetails` | src/screens/DetailScreen.js:240-260 | in step 2, the three text inputs set name, phone and address |
| `DetailScreen.OrderForm.PressConfirm` | src/screens/DetailScreen.js:280-287 | in step 2: ignored while pending; "Missing Info" with nothing sent unless name, phone and address are all non-empty; otherwise the insert starts (pending) with a PENDING row whose fields are the form's and whose total is `calculateTotal()` |
| `DetailScreen.OrderForm.Settle` | src/screens/DetailScreen.js:70-75 | the insert's outcome re-enables the button and alerts "Order Placed!" or "Error" with the backend's message |
| `DetailScreen.SubmittedRowIsPriced` | src/screens/DetailScreen.js:55-65 | a submitted row has status PENDING, the Standard slot, an offered volume and type, and the total for them |
| `MyListingsScreen.IndexOfId` | src/screens/MyListingsScreen.js:73 | the position of the first listing with the id, or the length when there is none |
| `MyListingsScreen.FindById` | src/screens/MyListingsScreen.js:73 | `find` gives nothing iff no listing has the id, and otherwise the first listing with that id |
| `MyListingsScreen.FileName` | src/screens/MyListingsScreen.js:77 | the file name is the suffix of the image URL after its last "/" |
| `MyListingsScreen.PlanImage` | src/screens/MyListingsScreen.js:76-89 | the image is removed iff the listing has an image URL whose file name is non-empty and starts with the user's id; a signed-out user makes that check throw |
| `MyListingsScreen.OwnImageIsRemoved` | src/screens/MyListingsScreen.js:76-84 | an image stored as `folder/<user id>…` is removed under that file name |
| `MyListingsScreen.ListingsView.constructor` | src/screens/MyListingsScreen.js:25-26 | no listings, loading |
| `MyListingsScreen.ListingsView.FetchListings` | src/screens/MyListingsScreen.js:34-61 | `loading` ends false on every path; with no phone, listings become [] and no supplier query is sent; otherwise listings are the returned rows, [] for null data, unchanged on error |
| `MyListingsScreen.ListingsView.ConfirmDelete` | src/screens/MyListingsScreen.js:70-104 | the image removal request (when planned) precedes the row delete for exactly that id; a storage error does not change the outcome; a delete error alerts and skips the refetch; success refetches |
| `AuthScreen.MissingField` | src/screens/AuthScreen.js:43-52 | a missing email or password is reported first in both modes; sign-up then reports a missing name before a missing phone; None iff every required field is filled |
| `AuthScreen.LoginIgnoresSignUpFields` | src/screens/AuthScreen.js:43-52 | in login mode, name and phone never affect validation |
| `AuthScreen.NameReportedBeforePhone` | src/screens/AuthScreen.js:47-52 | with both missing, only the missing name is reported |
| `AuthScreen.Redirect` | src/screens/AuthScreen.js:36-40 | the screen is replaced by MainTabs iff a user is present |
| `AuthScreen.AuthForm.constructor` | src/screens/AuthScreen.js:24-32 | login mode, not loading, empty fields, role buyer |
| `AuthScreen.AuthForm.SetMode` | src/screens/AuthScreen.js:119-129 | the toggle selects login or sign-up |
| `AuthScreen.AuthForm.SelectRole` | src/screens/AuthScreen.js:150-172 | on the sign-up form, the role becomes buyer or seller, the only two values the type allows |
| `AuthScreen.AuthForm.HandleAuth` | src/screens/AuthScreen.js:42-97 | a validation failure alerts and sends nothing; login sends one sign-in; sign-up sends a profile insert (id of the new user, the entered name and phone, the selected role) only after a sign-up that returned a user; a sign-up error alerts and inserts nothing; `loading` ends false |
| `AuthScreen.RoleNames` | src/screens/AuthScreen.js:86 | the stored role is "buyer" or "seller", and "seller" exactly for the seller role |
| `OnboardingScreen.SlidesShape` | src/screens/OnboardingScreen.js:17-45 | three slides with the distinct ids "1", "2", "3" |
| `OnboardingScreen.ButtonLabel` | src/screens/OnboardingScreen.js:118 | "Get Started" iff the index is the last one, otherwise "Next" |
| `OnboardingScreen.ButtonIcon` | src/screens/OnboardingScreen.js:121 | "check" iff the index is the last one, otherwise "arrow-right" |
| `OnboardingScreen.LabelAndIconAgree` | src/screens/OnboardingScreen.js:118-121 | label and icon switch on the same condition |
| `OnboardingScreen.ActiveDots` | src/screens/OnboardingScreen.js:104-107 | only dots of existing slides at the current index are active |
| `OnboardingScreen.ExactlyOneActiveDot` | src/screens/OnboardingScreen.js:104-107 | for an index on a slide exactly that slide's dot is active; past the slides none is |
| `OnboardingScreen.Pager.constructor` | src/screens/OnboardingScreen.js:48 | the pager starts at slide 0 |
| `OnboardingScreen.Pager.UpdateIndex` | src/screens/OnboardingScreen.js:51-55 | the index becomes the one computed from the scroll offset |
| `OnboardingScreen.Pager.GoNext` | src/screens/OnboardingScreen.js:57-63 | before the last slide it scrolls to index + 1 (a valid slide); at or past the last it finishes with MainTabs and does not scroll |
| `ProfileScreen.PatchIgnoresRole` | src/screens/ProfileScreen.js:63-67 | the patch carries full name, phone and address unchanged, and profiles that differ only in role send the same patch |
| `ProfileScreen.AvatarInitial` | src/screens/ProfileScreen.js:124-126 | the upper-cased first character of the full name if non-empty, otherwise of the email, otherwise nothing |
| `ProfileScreen.RoleLabel` | src/screens/ProfileScreen.js:132 | "Supplier Account" iff the role is "seller", otherwise "Buyer Account" |
| `ProfileScreen.SellerToolsMatchBadge` | src/screens/ProfileScreen.js:214 | business tools are shown iff not editing and the badge says Supplier Account (role "seller") |
| `ProfileScreen.ProfileView.constructor` | src/screens/ProfileScreen.js:20-30 | loading, not saving, not editing, an empty buyer profile, no update in flight |
| `ProfileScreen.ProfileView.FetchProfile` | src/screens/ProfileScreen.js:37-56 | no user: nothing sent, profile kept; with a user, one fetch for that id, and the profile is replaced only by returned data (an error keeps it); `loading` ends false |
| `ProfileScreen.ProfileView.ToggleEdit` | src/screens/ProfileScreen.js:86-105 | once loading has ended, Edit / Cancel flips `isEditing` |
| `ProfileScreen.ProfileView.EditFields` | src/screens/ProfileScreen.js:146-193 | in edit mode after loading, the inputs change name, phone and address and leave the role alone |
| `ProfileScreen.ProfileView.StartUpdate` | src/screens/ProfileScreen.js:59-68 | in edit mode after loading: while saving, the disabled button ignores the press; otherwise `saving` is raised, then the three-field patch is sent for the user's id, or the missing user throws; an update is in flight exactly when the patch was sent |
| `ProfileScreen.ProfileView.FinishUpdate` | src/screens/ProfileScreen.js:68-77 | only a sent update finishes (after a throw `saving` stays true); `saving` is lowered on both outcomes; success leaves edit mode, failure keeps `isEditing` |

## Left out

- Backend calls (Supabase auth, table and storage): each call is a request value, and its answer is a parameter. What the server does with a filter (`.eq`), an insert or a removal is not modelled.
- Query caching, request coalescing and the mutation lifecycle of `@tanstack/react-query`: these are library code. Only the order mutation's pending flag is kept, because it disables the Confirm button. `isLoading` of the supplier query is an input to `ResultCountLabel`.
- Rendering, styles, maps, images, fonts, the alert dialogs' buttons and the navigation framework. The Cancel choice of the delete dialog does nothing and is not modelled. The "OK" of the order alert navigates Home, which is not modelled.
- The refetch after a successful delete is `fetchListings()` called without `await`. `ConfirmDelete` reports it as the `Refetch` outcome; it is then a separate `FetchListings` call.
- `DetailScreen.CalculateTotal`: the base price is an exact real. The source computes with IEEE doubles. 1.5 and 2.5 are exact in binary, but a decimal base price that is not a dyadic fraction could floor differently there.
- `OnboardingScreen.Pager.UpdateIndex`: the floating-point `Math.round(contentOffsetX / width)` is not modelled. The index is taken as a given natural number.
- `Text.Lower` and `Text.FirstUpper`: case mapping covers ASCII letters only. JavaScript's full Unicode case mapping is not modelled (for example `"ß".toUpperCase()` is `"SS"`). A Dafny `char` is a whole Unicode character, while `charAt(0)` returns one UTF-16 code unit, so for a name or email that starts outside the Basic Multilingual Plane (an emoji, say) the app takes half a surrogate pair where the model takes the whole character.
- Null columns of the profile row are held as "". The screen's truthiness checks treat null and "" alike. The update patch would send `null` where the model sends "".
- `MyListingsScreen.NullUserMessage`: the TypeError's exact wording depends on the JavaScript engine.
- `AuthScreen.AuthForm.HandleAuth` requires `loading` to be false. The submit button is disabled while loading, so the handler cannot run again before it finishes.
- The text-input handlers of the auth form are plain field assignments and have no methods here.
- The logout button (`handleLogout`, src/screens/ProfileScreen.js:81-84) only calls `signOut` and alerts on error. It is not modelled.
- Rating, estimated time and the other display-only supplier columns are not part of `Supplier`.
