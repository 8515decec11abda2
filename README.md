# Scentify client-side state, modelled in Dafny

Scentify is a perfume storefront. This project models its client-side state logic:

- **Cart** (`cart.dfy`, module `Cart`). This is the shopping cart: a list of line items keyed by product id and size. Adding merges into an existing line or appends a new one. Removing filters a key out. `updateQuantity` overwrites a quantity but ignores values below 1. `itemCount` and `subtotal` are left-to-right folds. `CartStore` holds the current list, and each of its methods replaces the list with a pure transition function of the previous list. Prices are integer fils (hundredths of a dirham), so `subtotal` is exact.
- **Wishlist** (`wishlist.dfy`, module `Wishlist`). This is the saved-products list, keyed by product id. Adding is idempotent, removing filters by id, and `isInWishlist` is membership.
- **Mock authentication** (`auth.dfy`, module `Auth`). There are two pieces of state:
  - `UserDirectory` is the process-wide account directory, seeded with one demo account. Registration appends to it and profile updates overwrite records in place.
  - `AuthStore` holds the session user and the loading flag.

  Login matches the email case-insensitively (ASCII folding) and the password exactly. The session user never carries a password.
- **Scent finder** (`scent_finder.dfy`, module `ScentFinder`). This page has three parts:
  - the fixed four-perfume detection sequence;
  - the recommendation filter (drop the current perfume, map to cards, keep at most three);
  - the sensing state machine `initial → sensing → processing → results`, driven by an interval ticker.

  `SensorPage` holds the page's state variables. It also counts the timers in flight: live tickers and pending processing timeouts. With those counts, the model can say which callbacks may still fire.

`wrappers.dfy` (module `Wrappers`) holds the `Option` type. It stands for an omitted argument, an optional field, `null`, or an unreadable storage entry.

Random draws (`Math.random`) and the registration id (`user-${Date.now()}`) are parameters. Each timer callback, and each asynchronous login or register, is one atomic step.

The code and its comments disagree in one place, and the model follows the code. The recommendation score is `Math.floor(Math.random() * 15) + 80`, which lies in 80..94, while the comment beside it says "between 80-95". `ScentFinder.Score` states 80..94.

## Model

| member | source | states |
|---|---|---|
| Cart.FindLine | Desktop/Scentify_Codes/lib/cart-context.tsx:60 | findIndex on (id, size): -1 exactly when no line has the key, otherwise the first line with it |
| Cart.EffectiveQuantity | Desktop/Scentify_Codes/lib/cart-context.tsx:65-69 | `quantity \|\| 1` is never 0; it keeps a supplied non-zero quantity; a supplied 0 or an omitted quantity gives 1 |
| Cart.NewLine | Desktop/Scentify_Codes/lib/cart-context.tsx:69 | a new line has the added item's key, name, price and image, and `quantity \|\| 1` as its quantity |
| Cart.WithItemAdded | Desktop/Scentify_Codes/lib/cart-context.tsx:57-72 | afterwards the key is present. For a key already present, the length is the same, only that line's quantity rises by `quantity \|\| 1`, and every other line is unchanged. For a new key, exactly one line is appended at the end with quantity `quantity \|\| 1`, and the earlier lines are unchanged |
| Cart.FindLineAfterAdd | Desktop/Scentify_Codes/lib/cart-context.tsx:60-69 | after addItem the key is found at its old position, or at the old length when it was new |
| Cart.WithItemAddedKeepsKeysUnique | Desktop/Scentify_Codes/lib/cart-context.tsx:60-69 | addItem never creates two lines with the same (id, size) |
| Cart.WithItemAddedKeepsQuantitiesPositive | Desktop/Scentify_Codes/lib/cart-context.tsx:57-72 | if every quantity is at least 1 and the added quantity is omitted or non-negative, every quantity stays at least 1 |
| Cart.RepeatedAddsAccumulate | Desktop/Scentify_Codes/lib/cart-context.tsx:57-72 | after repeated adds of one key, its quantity is the old quantity plus the sum of the effective amounts added, and at most one line was appended |
| Cart.AddTwiceScenario | Desktop/Scentify_Codes/lib/cart-context.tsx:57-72 | adding the same 50ml product twice with quantity 1 to an empty cart gives one line of quantity 2, and itemCount 2 |
| Cart.ItemCountAfterAdd | Desktop/Scentify_Codes/lib/cart-context.tsx:57-90 | addItem raises itemCount by exactly `quantity \|\| 1` |
| Cart.SubtotalAfterAdd | Desktop/Scentify_Codes/lib/cart-context.tsx:57-92 | addItem raises subtotal by the line's price times `quantity \|\| 1`. For a merge, the price is the existing line's price |
| Cart.WithoutLine | Desktop/Scentify_Codes/lib/cart-context.tsx:74-76 | removeItem leaves no line with the key and never grows the cart |
| Cart.WithoutLineAppend | Desktop/Scentify_Codes/lib/cart-context.tsx:75 | the removeItem filter distributes over concatenation, so it keeps the relative order of the surviving lines with or without unique keys |
| Cart.WithoutLineSingle | Desktop/Scentify_Codes/lib/cart-context.tsx:75 | on a one-line cart, the filter drops the line exactly when it has the key |
| Cart.WithoutLineMembers | Desktop/Scentify_Codes/lib/cart-context.tsx:75 | a line survives removeItem exactly when it was in the cart and has a different key |
| Cart.WithoutAbsentLine | Desktop/Scentify_Codes/lib/cart-context.tsx:75 | removing a key that is not in the cart changes nothing |
| Cart.WithoutUniqueLine | Desktop/Scentify_Codes/lib/cart-context.tsx:75 | with unique keys, removeItem deletes exactly the matching line and keeps the others in their original order |
| Cart.WithoutLineKeepsKeysUnique | Desktop/Scentify_Codes/lib/cart-context.tsx:75 | removeItem keeps keys unique |
| Cart.RemoveThenAddStartsFresh | Desktop/Scentify_Codes/lib/cart-context.tsx:57-76 | after removing a key and adding it again, the key's quantity is just `quantity \|\| 1` |
| Cart.TotalsAfterRemove | Desktop/Scentify_Codes/lib/cart-context.tsx:74-92 | with unique keys, removeItem lowers itemCount and subtotal by exactly the removed line's quantity and line total |
| Cart.WithQuantity | Desktop/Scentify_Codes/lib/cart-context.tsx:78-84 | updateQuantity with a quantity below 1 changes nothing. Otherwise it keeps the length, the order and every field other than the quantity; matching lines get the new quantity and all other lines keep theirs |
| Cart.WithQuantityAbsent | Desktop/Scentify_Codes/lib/cart-context.tsx:81-83 | updateQuantity of an absent key changes nothing |
| Cart.WithQuantityKeepsKeysUnique | Desktop/Scentify_Codes/lib/cart-context.tsx:81-83 | updateQuantity keeps keys unique |
| Cart.WithQuantityUniqueLine | Desktop/Scentify_Codes/lib/cart-context.tsx:81-83 | with unique keys and a quantity of at least 1, updateQuantity changes exactly the matching line's quantity |
| Cart.ItemCountAfterUpdate | Desktop/Scentify_Codes/lib/cart-context.tsx:78-90 | with unique keys and a quantity of at least 1, itemCount moves by the new quantity minus the old one |
| Cart.SubtotalAfterUpdate | Desktop/Scentify_Codes/lib/cart-context.tsx:78-92 | with unique keys and a quantity of at least 1, subtotal moves by the line's price times the new quantity minus its price times the old one |
| Cart.ItemCount | Desktop/Scentify_Codes/lib/cart-context.tsx:90 | the sum of the quantities; when every quantity is positive, it is at least the number of lines |
| Cart.ItemCountBound | Desktop/Scentify_Codes/lib/cart-context.tsx:90 | the sum of positive quantities is at least the number of lines |
| Cart.Subtotal | Desktop/Scentify_Codes/lib/cart-context.tsx:92 | the sum of price times quantity is never negative when no price or quantity is negative |
| Cart.SubtotalBound | Desktop/Scentify_Codes/lib/cart-context.tsx:92 | the fold of line totals over lines with non-negative prices and quantities is non-negative |
| Cart.SumOverAppend | Desktop/Scentify_Codes/lib/cart-context.tsx:90-92 | the reduce folds split over concatenation |
| Cart.SumOverUpdate | Desktop/Scentify_Codes/lib/cart-context.tsx:90-92 | replacing one line changes a fold by the difference of that line's terms |
| Cart.SumOverRemoveAt | Desktop/Scentify_Codes/lib/cart-context.tsx:90-92 | deleting one line lowers a fold by that line's term |
| Cart.CartStore.constructor | Desktop/Scentify_Codes/lib/cart-context.tsx:28-44 | the cart is the saved list, or empty when there is none |
| Cart.CartStore.AddItem | Desktop/Scentify_Codes/lib/cart-context.tsx:57-72 | the new list is WithItemAdded of the old one, and unique keys are preserved |
| Cart.CartStore.RemoveItem | Desktop/Scentify_Codes/lib/cart-context.tsx:74-76 | the new list is WithoutLine of the old one, and unique keys are preserved |
| Cart.CartStore.UpdateQuantity | Desktop/Scentify_Codes/lib/cart-context.tsx:78-84 | the new list is WithQuantity of the old one; it is unchanged for a quantity below 1; unique keys are preserved |
| Cart.CartStore.ClearCart | Desktop/Scentify_Codes/lib/cart-context.tsx:86-92 | the cart is empty, and itemCount and subtotal are 0 |
| Wishlist.FindId | Desktop/Scentify_Codes/lib/wishlist-context.tsx:58 | findIndex on the id: -1 when absent, otherwise the first position holding it |
| Wishlist.IsInWishlist | Desktop/Scentify_Codes/lib/wishlist-context.tsx:78-80 | true exactly when some entry has the id |
| Wishlist.WithAdded | Desktop/Scentify_Codes/lib/wishlist-context.tsx:55-68 | afterwards the id is saved. An id already present leaves the list unchanged. A new id is appended at the end, so the length grows by one and earlier entries stay |
| Wishlist.WithAddedIdempotent | Desktop/Scentify_Codes/lib/wishlist-context.tsx:55-68 | adding the same item twice equals adding it once |
| Wishlist.WithAddedKeepsIdsUnique | Desktop/Scentify_Codes/lib/wishlist-context.tsx:55-68 | addToWishlist keeps ids unique |
| Wishlist.ItemCountAfterAdd | Desktop/Scentify_Codes/lib/wishlist-context.tsx:55-82 | itemCount grows by one exactly when the id was not yet saved |
| Wishlist.ItemCount | Desktop/Scentify_Codes/lib/wishlist-context.tsx:82 | itemCount is 0 exactly when the list is empty, and positive whenever some id is saved |
| Wishlist.WithoutId | Desktop/Scentify_Codes/lib/wishlist-context.tsx:70-72 | after removeFromWishlist no remaining entry has the id, and the list never grows |
| Wishlist.WithoutIdAppend | Desktop/Scentify_Codes/lib/wishlist-context.tsx:71 | the filter distributes over concatenation |
| Wishlist.WithoutIdMembers | Desktop/Scentify_Codes/lib/wishlist-context.tsx:71 | an entry survives exactly when it was saved and has another id |
| Wishlist.WithoutAbsentId | Desktop/Scentify_Codes/lib/wishlist-context.tsx:71 | removing an id that is not saved changes nothing |
| Wishlist.WithoutUniqueId | Desktop/Scentify_Codes/lib/wishlist-context.tsx:71 | with unique ids, exactly the one entry is deleted and the others keep their order |
| Wishlist.WithoutIdKeepsIdsUnique | Desktop/Scentify_Codes/lib/wishlist-context.tsx:71 | removeFromWishlist keeps ids unique |
| Wishlist.WishlistStore.constructor | Desktop/Scentify_Codes/lib/wishlist-context.tsx:30-42 | the wishlist is the saved list, or empty when there is none |
| Wishlist.WishlistStore.AddToWishlist | Desktop/Scentify_Codes/lib/wishlist-context.tsx:55-68 | the new list is WithAdded of the old one, and unique ids are preserved |
| Wishlist.WishlistStore.RemoveFromWishlist | Desktop/Scentify_Codes/lib/wishlist-context.tsx:70-72 | the new list is WithoutId of the old one, the id is no longer saved, and unique ids are preserved |
| Wishlist.WishlistStore.ClearWishlist | Desktop/Scentify_Codes/lib/wishlist-context.tsx:74-82 | the list is empty and itemCount is 0 |
| Auth.LowerChar | Desktop/Scentify_Codes/lib/auth-context.tsx:82 | ASCII lower-casing of one character: upper-case letters move down by 32, everything else is kept |
| Auth.ToLower | Desktop/Scentify_Codes/lib/auth-context.tsx:82 | toLowerCase keeps the length and lower-cases each character |
| Auth.ToLowerIdempotent | Desktop/Scentify_Codes/lib/auth-context.tsx:82 | lower-casing twice is lower-casing once |
| Auth.ToLowerAppend | Desktop/Scentify_Codes/lib/auth-context.tsx:82 | lower-casing distributes over concatenation |
| Auth.FindAccount | Desktop/Scentify_Codes/lib/auth-context.tsx:82 | MOCK_USERS.find: a result exactly when some record matches the email ignoring case and the password exactly; otherwise it is the first such record |
| Auth.EmailTaken | Desktop/Scentify_Codes/lib/auth-context.tsx:128 | MOCK_USERS.some: true exactly when some record's email equals the given one ignoring case |
| Auth.IndexOfId | Desktop/Scentify_Codes/lib/auth-context.tsx:194 | findIndex on the user id: -1 when absent, otherwise the first record with that id |
| Auth.PasswordRoundTrip | Desktop/Scentify_Codes/lib/auth-context.tsx:86-87 | stripping the password and adding it back restore the record; adding then stripping restores the user |
| Auth.WithoutPassword | Desktop/Scentify_Codes/lib/auth-context.tsx:86 | stripping the password keeps every other field of the record |
| Auth.WithPassword | Desktop/Scentify_Codes/lib/auth-context.tsx:147 | the stored record keeps every field of the user and carries the given password |
| Auth.NewUser | Desktop/Scentify_Codes/lib/auth-context.tsx:141-144 | the new user has the given id and exactly the registered name, email and profile fields |
| Auth.Merge | Desktop/Scentify_Codes/lib/auth-context.tsx:189 | each field of the merged user is the partial's value when the partial supplies it, and the old value otherwise |
| Auth.MergeAccount | Desktop/Scentify_Codes/lib/auth-context.tsx:196 | merging a partial into a directory record keeps its password and merges the other fields as for the session user |
| Auth.MergeLaws | Desktop/Scentify_Codes/lib/auth-context.tsx:189 | merging the same partial twice equals once; the empty partial changes nothing |
| Auth.RegisteredCanLogIn | Desktop/Scentify_Codes/lib/auth-context.tsx:82-147 | after an accepted registration, the new record is the one login finds for that email and password, and it strips to the registered user |
| Auth.SeedEmailFolds | Desktop/Scentify_Codes/lib/auth-context.tsx:36 | the seeded email lower-cases to "shafaqmandha@scentify.com" |
| Auth.SeedLoginScenario | Desktop/Scentify_Codes/lib/auth-context.tsx:33-47 | the seeded account is found with the lower-case email and "password123", and it strips to Shafaq's user |
| Auth.SeedWrongPasswordScenario | Desktop/Scentify_Codes/lib/auth-context.tsx:33-47 | no email finds the seeded directory's account with a password other than "password123" |
| Auth.SeedDuplicateScenario | Desktop/Scentify_Codes/lib/auth-context.tsx:33-47 | registering the seeded email in upper case is a duplicate |
| Auth.UserDirectory.constructor | Desktop/Scentify_Codes/lib/auth-context.tsx:33-47 | the directory starts as the single seeded account |
| Auth.AuthStore.constructor | Desktop/Scentify_Codes/lib/auth-context.tsx:50-71 | the session starts with the restored user, if any, and is not loading once restored |
| Auth.AuthStore.IsAuthenticated | Desktop/Scentify_Codes/lib/auth-context.tsx:205 | true exactly when a user is signed in |
| Auth.AuthStore.Login | Desktop/Scentify_Codes/lib/auth-context.tsx:74-117 | succeeds exactly when some record matches. On success the user is the found record without its password. On failure the user is unchanged. The directory is untouched and loading ends |
| Auth.AuthStore.Register | Desktop/Scentify_Codes/lib/auth-context.tsx:120-172 | succeeds exactly when the email is not taken, ignoring case. On failure nothing changes. On success exactly one record (new id, the profile, the password) is appended, and the user becomes that record without its password. Loading ends |
| Auth.AuthStore.Logout | Desktop/Scentify_Codes/lib/auth-context.tsx:175-183 | no user is signed in afterwards, so isAuthenticated is false; the directory is untouched |
| Auth.AuthStore.UpdateUserProfile | Desktop/Scentify_Codes/lib/auth-context.tsx:186-198 | with no user, nothing changes. Otherwise the user becomes the merge, the record with the old user id becomes its merge (password kept), and every other record is unchanged |
| Auth.RegisterThenLogIn | Desktop/Scentify_Codes/lib/auth-context.tsx:82-150 | if registration succeeds, a following login with the same email and password succeeds and signs in the registered user |
| ScentFinder.Draw | Desktop/Scentify_Codes/app/scent-finder/page.tsx:140-142 | Math.floor(random × n) lies in 0..n-1 |
| ScentFinder.Others | Desktop/Scentify_Codes/app/scent-finder/page.tsx:108-109 | the filter keeps no perfume with the current id and never grows the list |
| ScentFinder.OthersMembers | Desktop/Scentify_Codes/app/scent-finder/page.tsx:108-109 | a perfume survives the filter exactly when it is in the catalog and has another id |
| ScentFinder.OthersAppend | Desktop/Scentify_Codes/app/scent-finder/page.tsx:108-109 | the filter distributes over concatenation, so survivors keep their catalog order |
| ScentFinder.Score | Desktop/Scentify_Codes/app/scent-finder/page.tsx:117 | every match score lies in 80..94 |
| ScentFinder.ToRecommendation | Desktop/Scentify_Codes/app/scent-finder/page.tsx:110-118 | a card keeps the perfume's id, name, description, price and category; its image is never empty, and is the perfume's own image when that is not empty (otherwise the placeholder); its score lies in 80..94 |
| ScentFinder.Recommend | Desktop/Scentify_Codes/app/scent-finder/page.tsx:106-120 | at most three cards: exactly min(3, number of other perfumes). None has the current id. The k-th card is ToRecommendation of the k-th other perfume with the k-th draw, so it carries that perfume's id, name, description, price, category and image (or the placeholder), in sequence order |
| ScentFinder.OthersOfSequence | Desktop/Scentify_Codes/app/scent-finder/page.tsx:21-109 | filtering the four-perfume sequence by each of its ids leaves the other three, in sequence order |
| ScentFinder.IdsOfRecommend | Desktop/Scentify_Codes/app/scent-finder/page.tsx:106-120 | the recommended ids are the first (at most three) ids left by the filter |
| ScentFinder.RecommendationsForEachPerfume | Desktop/Scentify_Codes/app/scent-finder/page.tsx:106-120 | with the four-perfume sequence, perfume 1 gets [3, 2, 4], 3 gets [1, 2, 4], 2 gets [1, 3, 4], and 4 gets [1, 3, 2] |
| ScentFinder.GetRecommendedScents | Desktop/Scentify_Codes/app/scent-finder/page.tsx:106-120 | for any current id, exactly three cards are shown, none for the current perfume, each with a score in 80..94 |
| ScentFinder.OthersOfSequenceHasThree | Desktop/Scentify_Codes/app/scent-finder/page.tsx:21-109 | the sequence's ids are distinct, so filtering out any id leaves at least three perfumes |
| ScentFinder.NextProgress | Desktop/Scentify_Codes/app/scent-finder/page.tsx:135-156 | a tick from below 99 adds one; the tick that reaches 100 yields 100; progress never exceeds 100 |
| ScentFinder.Raise | Desktop/Scentify_Codes/app/scent-finder/page.tsx:140-142 | Math.min(100, prev + increment): the sum when it is at most 100, otherwise 100; it never lowers an in-range reading |
| ScentFinder.NextReadings | Desktop/Scentify_Codes/app/scent-finder/page.tsx:138-143 | in-range readings stay in 0..100 and none decreases |
| ScentFinder.ProgressFromZero | Desktop/Scentify_Codes/app/scent-finder/page.tsx:133-158 | after k ticks from 0 the progress is min(k, 100) |
| ScentFinder.NextIndex | Desktop/Scentify_Codes/app/scent-finder/page.tsx:193 | from an in-range index, the next index is the following one, wrapping from the last back to 0, and is always in range |
| ScentFinder.IndexAfter | Desktop/Scentify_Codes/app/scent-finder/page.tsx:193 | any number of presses of Sense Another from an in-range index stays in range |
| ScentFinder.IndexCycles | Desktop/Scentify_Codes/app/scent-finder/page.tsx:193 | k presses of Sense Another advance the index by k, modulo the sequence length |
| ScentFinder.EveryPerfumeReached | Desktop/Scentify_Codes/app/scent-finder/page.tsx:193 | from any index, every perfume is reached in fewer presses than the sequence length |
| ScentFinder.SensorPage.constructor | Desktop/Scentify_Codes/app/scent-finder/page.tsx:90-102 | the page starts in the initial state at the first perfume, with zero progress and readings and no timers |
| ScentFinder.SensorPage.DetectedScent | Desktop/Scentify_Codes/app/scent-finder/page.tsx:103 | the detected perfume is one of the sequence |
| ScentFinder.SensorPage.RecommendedScents | Desktop/Scentify_Codes/app/scent-finder/page.tsx:123 | the page shows three cards, none for the detected perfume |
| ScentFinder.SensorPage.StartSensing | Desktop/Scentify_Codes/app/scent-finder/page.tsx:126-168 | from any state: progress becomes 0. If the ticker cannot be started, the state falls back to initial. Otherwise the state is sensing and one more ticker is live. The move is allowed exactly when the ticker failed or the old state was initial or sensing. From a valid initial page the invariant holds afterwards; a start while a ticker is live breaks it |
| ScentFinder.SensorPage.Tick | Desktop/Scentify_Codes/app/scent-finder/page.tsx:133-158 | progress moves by NextProgress. Readings move by NextReadings only when the new progress is a multiple of 10, and never decrease. The tick reaching 100 clears the ticker, enters processing and schedules the results timeout; other ticks leave the state alone. Under the intended invariant, only an allowed move is made |
| ScentFinder.SensorPage.FinishProcessing | Desktop/Scentify_Codes/app/scent-finder/page.tsx:151-153 | the results timeout moves the state to results and changes nothing else |
| ScentFinder.SensorPage.ResetSensorAsWritten | Desktop/Scentify_Codes/app/scent-finder/page.tsx:171-179 | resetSensor as written resets the state to initial and zeroes progress and all three readings, but leaves the ticker and the timeout alive |
| ScentFinder.SensorPage.ResetSensor | Desktop/Scentify_Codes/app/scent-finder/page.tsx:171-179 | the corrected reset: initial state, zero progress and readings, and no live ticker or pending timeout, so the intended invariant holds |
| ScentFinder.SensorPage.SenseAnotherFragrance | Desktop/Scentify_Codes/app/scent-finder/page.tsx:182-199 | from results: initial state, zero progress and readings, and the index advances to NextIndex |
| ScentFinder.CancelledRunStillCompletes | Desktop/Scentify_Codes/app/scent-finder/page.tsx:133-179 | as written, starting and then cancelling still lets the hundredth tick move the page from initial straight to processing, a move the state machine does not allow |
| ScentFinder.RestartWhileSensing | Desktop/Scentify_Codes/app/scent-finder/page.tsx:196-198 | the delayed restart landing after a Start click leaves two tickers running, and the intended invariant fails |

## Left out

- Browser storage (`localStorage`, `JSON.parse`, `JSON.stringify`) is I/O. Loading is modelled only as an optional saved value, where a missing or unreadable entry leaves the list empty or the user signed out. The save effects are left out.
- The React plumbing is not modelled: context providers, the `use*` hooks and their "must be used within" errors. Each store is a plain object.
- `toast` notifications and `router.push("/login")` are side effects with no state in the core.
- Timing is not modelled: the 1000 ms login and register delays, the 50 ms interval, and the 2000 ms and 500 ms timeouts. Each callback is one atomic step, so `isLoading` is true only inside a login or register step, and the model shows it as false afterwards. The delayed restart in `senseAnotherFragrance` is the caller's next `StartSensing` step. That step may come in any state, so the model does include a restart landing after a Start click within those 500 ms.
- `Math.random` and `Date.now()` are inputs: the draws are reals in [0, 1), and the new user id is a string parameter.
- `formatCurrency` and `formatPrice` are floating-point `toFixed` formatting. Prices are integer fils, whereas the JavaScript numbers are floats.
- Case folding is ASCII only. JavaScript's Unicode `toLowerCase` is not modelled.
- JSX rendering is not modelled, nor the scent-finder handlers `handleAddToCart` and `handleToggleWishlist`, which only call the cart and wishlist operations modelled above.
- Cart.WithItemAdded: this is a pure value, so it does not capture line 65 exactly. There, the shallow array copy still shares the element objects, so the merge also mutates the quantity in the previous state's object.
- Auth.AuthStore.Login, Auth.AuthStore.Register: the `catch` paths cannot fire once storage is removed (they would be reached by a storage exception), so they are left out.
- Auth.UserPatch: a key that is present with the value `undefined` is not distinguished from an absent key.
- ScentFinder.SensorPage.StartSensing: `connectionFails` stands for any exception thrown while the ticker is being started. The invariant is promised only for a start from a valid initial page. The 500 ms restart of `senseAnotherFragrance` can land in two other states. If the user pressed Start meanwhile, it lands while sensing and starts a second ticker (`RestartWhileSensing`). If a stray processing timeout fired meanwhile, it lands in results, and the move from results to sensing is not allowed.

## Findings

| source | as written | input that shows it | evidently intended | confidence | as-written member | corrected member |
|---|---|---|---|---|---|---|
| Desktop/Scentify_Codes/app/scent-finder/page.tsx:171-179 | `resetSensor` (the Cancel button during sensing) resets the state variables but never calls `clearInterval`, so the interval keeps ticking. The progress updater then counts up again from 0, and at 100 it moves the page from `initial` to `processing` and then to `results` | press Start, then Cancel, and wait 100 ticks without pressing Start again | cancelling stops the ticker and any pending timeout, so the page stays in the initial view until the next start | not executed | ScentFinder.CancelledRunStillCompletes | ScentFinder.SensorPage.ResetSensor |
