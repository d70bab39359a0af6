# miuw-store configuration model

A Dafny model of the store-configuration core of a client-side storefront.
The store keeps one aggregate, `AppConfig`: contact links, customer reviews,
configuration requests, per-product card styles, a purchase-link override
table keyed by `product_duration`, and an admin credential. The top-level
component changes it only through `handleUpdateConfig`, which keeps a whole
new aggregate in memory and writes it to storage. The request, review and
style handlers call it after a guard, the admin panel calls it with any
configuration, and mounting sets the loaded value without writing it.

- `Wrappers.dfy`: `Option` and `Result`.
- `Types.dfy` (types.ts): the entities as datatypes, the override-table key
  `product + "_" + duration` with its decoder `SplitKey`, table lookup.
- `Constants.dfy` (constants.ts): the product catalogue, durations, payment
  categories and icons, and `DEFAULT_CONFIG`, with lemmas about them.
- `App.dfy` (App.tsx): each handler as a function of the old configuration
  (`SubmitRequest`, `SubmitReview`, `SaveStyle`, `ResetStyle`,
  `CredentialsMatch`, `StyleFor`, `ToggleCategory`) with lemmas about them,
  and the class `StoreApp` holding the component's state, whose methods are
  proved to follow those functions and to keep `Valid()`: storage agrees with
  memory once written, the admin panel is open only when logged in, the login
  dialog only when logged out, and a closed payment dialog has no expanded
  category.

Values from outside the code are parameters: `Date.now()` is `now`,
`new Date().toISOString()` is `createdAt`, `simpleHash` is `hash`, and the
configuration `loadConfig` returns is the constructor's `loaded`.
JavaScript's `!s` on a string is modelled as `s == ""` (`Truthy`); so the
style handlers also do nothing when the editor's target is the empty string,
as `if(!showStyleEditor)` does.

The model follows the code where one might expect more: the review handler
rejects only the rating 0, not ratings outside 1..5 (those come only from the
five star buttons), and ids are the clock value, which nothing makes unique.

## Model

| member | source | states |
|---|---|---|
| Types.RequestStatus.Text | types.ts:15 | a request status is exactly one of "pending" and "completed", and "pending" only for `Pending` |
| Types.PaymentMethodType.Value | types.ts:46-51 | each enum member carries one of the four strings crypto, fiat, fiat-world, fiat-region |
| Types.PaymentMethodValuesDistinct | types.ts:46-51 | two enum members have the same string value iff they are the same member |
| Types.OverrideKey | constants.ts:90-211 | the key shape every override key follows: the product, an underscore, the duration; no contract of its own, its partner is `Types.SplitKey` through `Types.SplitOverrideKey` and `Types.SplitKeySound` |
| Types.SplitKey | constants.ts:89-212 | decoding a key yields nothing exactly when it has no underscore |
| Types.SplitOverrideKey | constants.ts:89-212 | a key built from a product without an underscore decodes back to that product and duration |
| Types.SplitKeySound | constants.ts:89-212 | whatever a key decodes to rebuilds the same key, with an underscore-free product |
| Types.OverrideKeyInjective | constants.ts:89-212 | for underscore-free products, equal keys come from equal product and duration |
| Types.LookupOverride | types.ts:39 | the lookup for a pair is present iff the key `product_duration` is in the table, and then is that entry; an unknown pair yields none |
| Types.CategoryLink | types.ts:24-29 | the override's link for one payment category (the fields at types.ts:24-29, the categories at types.ts:46-51); pairing each enum member with the field of the same name (CRYPTO with `crypto`, FIAT with `fiat`, FIAT_WORLD with `fiatWorld`, FIAT_REGION with `fiatRegion`) is this model's assumption, since the dialog that makes the choice is not part of it; no contract of its own, used by `Constants.CategoryLookupMayYieldNothing` |
| Constants.DurationsCoverProducts | constants.ts:3-13 | the duration table has an entry for every product plus "default", and "default" is not a product |
| Constants.OverrideKeysAsWritten | constants.ts:89-212 | the override table has exactly the 29 keys written in the source |
| Constants.MelonityKeysListed | constants.ts:90-119 | the Melonity keys are built from Melonity and its listed durations |
| Constants.UmbrellaKeysListed | constants.ts:120-147 | the Umbrella keys are built from Umbrella and its listed durations |
| Constants.DivineKeysListed | constants.ts:148-159 | the Divine keys are built from Divine and its listed durations |
| Constants.HakeKeysListed | constants.ts:160-179 | the Hake keys are built from Hake and its listed durations |
| Constants.DeadlockAndDotaAccountKeysListed | constants.ts:180-211 | the Deadlock and DotaAccount keys are built from those products and their listed durations |
| Constants.OverrideKeysAreListed | constants.ts:89-212 | every key of the default table equals `p + "_" + d` for a product `p` and a duration `d` listed for `p` |
| Constants.ProductsHaveNoUnderscore | constants.ts:3 | no product name contains an underscore |
| Constants.KeysDecodeToListedPair | constants.ts:89-212 | every key of the default table decodes to a listed product and one of its listed durations, to no other listed product, and looking that pair up finds the key's entry |
| Constants.DeadlockLifetimeHasNoOverride | constants.ts:180-203 | "Lifetime" is a listed Deadlock duration whose key is a listed key, yet the table has no entry for it and the lookup yields none |
| Constants.EmptyLinksAreNotAbsent | constants.ts:115-151 | some overrides store an empty link, which differs from a missing one |
| Constants.CategoryLookupMayYieldNothing | constants.ts:90-123 | the four link categories are independently optional: a stored override may have some and lack others |
| Constants.DefaultReviewsAreValid | constants.ts:61-78 | the seeded reviews have distinct ids and ratings within 1..5 |
| Constants.DefaultRequestsAndStyles | constants.ts:79-88 | the default configuration has one request, pending, and an empty style map |
| Constants.CategoryIconsMatchPaymentMethods | constants.ts:15-51 | the icon table and the payment-method table have the same categories |
| Constants.DefaultAdminCredential | constants.ts:213-218 | the default admin is "admin" with stored credential "92668751" |
| App.SubmitRequest | App.tsx:49-61 | refused iff the handle or order id is empty; otherwise exactly one pending entry with the form's product, handle and order id is appended and every other field is unchanged |
| App.SubmitReview | App.tsx:67-79 | rating 0 is refused first, then an empty name or comment; accepted iff none of these; then the old reviews plus one entry with the form's fields, every other field unchanged |
| App.CredentialsMatch | App.tsx:88-89 | the login condition: the username equals the stored one and the password's hash equals the stored string; no contract of its own, stated for the default credential by `App.DefaultLogin` |
| App.SaveStyle | App.tsx:101-105 | without a target nothing changes; otherwise the target's entry becomes the form's style, every other entry and field is kept |
| App.ResetStyle | App.tsx:110-114 | without a target nothing changes; otherwise only the target's key is removed and every other entry and field is kept |
| App.Truthy | App.tsx:49 | JavaScript truthiness of a string, `!s` being `s == ""`, as in the request and review guards; no contract of its own |
| App.HasTarget | App.tsx:102 | the `if(!showStyleEditor)` guard of save and reset (also App.tsx:111): a target that is `null` or empty acts on nothing; no contract of its own |
| App.StyleFor | App.tsx:146 | the style the editor loads: the stored one, else the all-empty style; no contract of its own; `App.EditAfterSaveLoadsSaved` and `App.EditAfterResetLoadsEmpty` relate it to save and reset |
| App.ToggleCategory | App.tsx:202 | the result is none iff the clicked category was the expanded one, and otherwise that category alone |
| App.DefaultConfigWellFormed | constants.ts:61-87 | the default configuration meets what the public forms guarantee |
| App.SubmitRequestPreservesWellFormed | App.tsx:50-61 | an accepted request keeps every stored request with a handle and an order id |
| App.SubmitReviewPreservesWellFormed | App.tsx:68-79 | an accepted review keeps every stored review with a name, a comment and a nonzero rating |
| App.StyleEditsPreserveWellFormed | App.tsx:101-114 | style saves and resets keep the configuration well formed |
| App.DefaultLogin | App.tsx:88-89 | against the default credential, login succeeds iff the user is "admin" and the password hashes to "92668751" |
| App.ResetStyleIdempotent | App.tsx:110-114 | resetting twice equals resetting once |
| App.ResetAfterSave | App.tsx:101-114 | a reset after a save leaves no entry for the product and gives the same configuration as a reset without that save; when the product already had a style, that style is gone too, so the configuration from before the save does not come back |
| App.SaveStyleLastWins | App.tsx:101-105 | of two saves to one product the second wins |
| App.EditAfterSaveLoadsSaved | App.tsx:144-147 | opening the editor on a just-saved product loads the saved style |
| App.EditAfterResetLoadsEmpty | App.tsx:144-147 | opening the editor on a just-reset product loads the all-empty style |
| App.EditWithoutStoredStyle | App.tsx:146 | the editor loads the stored style, or the all-empty style when none is stored |
| App.ToggleTwice | App.tsx:202 | clicking one category twice restores a collapsed or same-category state, and collapses otherwise |
| App.StoreApp.constructor | App.tsx:16-42 | after mounting, the configuration is the loaded one, nothing is stored yet, all flags are off and all forms empty |
| App.StoreApp.UpdateConfig | App.tsx:44-47 | the new configuration is held in memory and stored, so the two agree |
| App.StoreApp.SubmitRequestForm | App.tsx:49-65 | on refusal nothing changes; on success the configuration is `SubmitRequest`'s, stored, the dialog closes and the form resets |
| App.StoreApp.SubmitReviewForm | App.tsx:67-84 | on refusal nothing changes; on success the configuration is `SubmitReview`'s, stored, the dialog closes, form and hover reset |
| App.StoreApp.Login | App.tsx:86-99 | on matching credentials the admin is logged in, the login dialog closes, the panel opens and the form resets; otherwise nothing changes; the configuration is never touched |
| App.StoreApp.SaveStyleEdit | App.tsx:101-108 | without a target nothing changes; otherwise the configuration is `SaveStyle`'s, stored, and the editor closes |
| App.StoreApp.ResetStyleEdit | App.tsx:110-117 | without a target nothing changes; otherwise the configuration is `ResetStyle`'s, stored, and the editor closes |
| App.StoreApp.EditStyle | App.tsx:144-147 | the editor targets the product and holds its stored or all-empty style |
| App.StoreApp.CloseStyleEditor | App.tsx:365 | the editor has no target |
| App.StoreApp.AdminTrigger | App.tsx:129 | a logged-in admin gets the panel, anyone else the login dialog |
| App.StoreApp.CloseLoginModal | App.tsx:270 | the login dialog is closed |
| App.StoreApp.CloseAdminPanel | App.tsx:176 | the admin panel is closed |
| App.StoreApp.Logout | App.tsx:177 | the admin flag is cleared and the panel closes |
| App.StoreApp.OpenPaymentMethods | App.tsx:130 | the payment-methods dialog is shown |
| App.StoreApp.ClosePaymentMethods | App.tsx:120-124 | the dialog is hidden and no category stays expanded |
| App.StoreApp.ToggleAccordion | App.tsx:198-202 | the expanded category becomes `ToggleCategory` of the old one |
| App.StoreApp.OpenRequestConfig | App.tsx:131 | the request dialog is shown |
| App.StoreApp.CloseRequestConfig | App.tsx:238 | the request dialog is hidden |
| App.StoreApp.CloseReviewModal | App.tsx:293-298 | the review dialog is hidden |
| App.StoreApp.OpenReviewForm | App.tsx:152-156 | the review form and hover are cleared and the dialog is shown |
| App.StoreApp.EditRequestForm | App.tsx:245-259 | the request form holds what was typed |
| App.StoreApp.EditReviewForm | App.tsx:308-348 | name, product and comment are what was entered and the rating is kept |
| App.StoreApp.RateReview | App.tsx:327 | only the rating changes, to the clicked star |
| App.StoreApp.EditLoginForm | App.tsx:277-284 | the login form holds what was typed |
| App.StoreApp.EditStyleForm | App.tsx:372-383 | the style form holds what was typed |

## Left out

- Rendering, dialog markup, styling, star hover highlighting and the refund and privacy policy text: interface only, nothing to state.
- The purchase, refund-policy and privacy-policy dialogs' show/hide flags (`purchaseProduct`, `showRefundPolicy`, `showPrivacyPolicy`): plain toggles with no logic.
- Toast notifications: output only; a rejection is modelled as "nothing changes" plus a `Rejection` reason.
- `loadConfig` and `saveConfig`: storage I/O in a file that is not part of this model; persistence is modelled as the `stored` field equal to the in-memory configuration, with no parsing or fallback.
- `simpleHash`: defined in a file that is not part of this model, so it is the parameter `hash`; nothing is proved about which password hashes to "92668751".
- Link resolution in the purchase dialog, including any fallback from the region or world link to `fiat`: that dialog is not part of this model. `CategoryLink` reads the override field named like the payment category, as a lookup without fallback.
- The admin panel, which passes whole new configurations to `UpdateConfig`: not part of this model, so `WellFormed` is proved per public handler, not as an invariant of `StoreApp`.
- Uniqueness of ids: ids are clock values passed in, and two submissions in one millisecond would share one.
- Number semantics: ids and ratings are unbounded integers, not JavaScript floating-point numbers.
- The order of `PAYMENT_METHODS_LIST` entries, which fixes the accordion's display order: a Dafny map has no order.
- `DEFAULT_LINKS` (constants.ts:54): an empty table that nothing in the model reads.
- React's batching of state updates within one handler: each method applies its updates at once, which gives the same final state.
