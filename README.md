# Wine assistant: a verified model of the session, the chat gate and the detail screen

This project models the core of a React Native wine shopping screen with a
built-in chat assistant. The model has seven parts.

- **`Types` (types.dfy).** The records `Message`, `QuickReply`, `Product` and
  `ChatState`. Optional fields are `Option`s and the sender is a
  two-constructor datatype.
- **`Text` (text.dfy).** The JavaScript string and number built-ins the
  application uses, written over `seq<char>`: integer `toString`, `toFixed(2)`,
  `${rating}`, ASCII `toLowerCase`, `includes`, `join` and `trim`.
- **`Catalog` (catalog.dfy).** The fixtures: four products, the five-message
  seed conversation and the four quick replies, with lemmas about them.
- **`Assistant` (assistant.dfy).** The canned-response selector
  `getAIResponse` and the recommendation list.
  - The recommendations are the first two catalog products other than the
    current one, in catalog order.
  - The selector is a first-match rule list of substring tests over the
    lower-cased message.
- **`App` (app.dfy).** The session controller.
  - Each handler is a step function on a `SessionState` value. The class
    `Session` has one method per handler, and each method is proved to
    produce exactly that step.
  - The 1.5 second reply timer becomes an explicit queue of pending replies
    that `ResolveNext` drains oldest first.
  - Each pending entry is a snapshot of the text, product and recommendations
    at send time. This is what the timer callback closes over.
- **`DetailScreen` (detail_screen.dfy).** The star row, the collapsible
  sections, the per-image loading flags, the varietal label and the
  add-to-cart state.
  - The star row and the loading-flag reset are loops, proved against
    specification functions.
- **`ChatBox` (chat_box.dfy).** The input field as a small class. A message
  is forwarded only when it is non-blank after trimming, and it is forwarded
  untrimmed.

Units:
- Prices are whole cents.
- Ratings and alcohol content are whole tenths.
- Timestamps and `Date.now()` are a `now: nat` argument in milliseconds.

Two behaviours of the source are kept as they are and stated as lemmas:
- **Loading flag.** The flag is cleared by every reply, even when a later
  reply is still pending (`App.OverlappingSendsClearLoadingEarly`).
- **Stale replies.** A reply sent before a product change answers about the
  old product and lands in the new product's log (`App.StaleReplyAfterSelect`).

## Model

The fixtures of src/data/mockData.ts are constants of `Catalog`:
`Catalog.MockProduct` is `mockProduct` (lines 3-41), and `Catalog.MockProducts`
is `mockProducts` (lines 43-72), whose second entry is `Catalog.PenfoldsGrange`.
`Catalog.MockMessages(loadTime)` is `mockMessages` (lines 74-106), dated from
the load time. `Catalog.QuickReplies` is `quickReplies` (lines 108-113).
`Catalog.RecommendedProducts` is `recommendedProducts` (lines 115-154), whose
entries are `Catalog.OpusOne` and `Catalog.Sassicaia`. Image addresses,
descriptions and reviews are named constants beside them.
`Assistant.AllProducts` is `allProducts` of App.tsx:14-16.
`DetailScreen.InitialSections` is the initial `expandedSections` of
src/screens/ProductDetailScreen.tsx:37-40.

| member | source | states |
|---|---|---|
| Text.NatToString | App.tsx:53 | `Number.prototype.toString` on a non-negative integer: canonical decimal digits (at least one, no leading zero), starting with "0" exactly for zero |
| Text.ParseNatToString | App.tsx:53 | reading the digits back gives the number again |
| Text.NatToStringInjective | App.tsx:65 | different clock readings never render to the same id text |
| Text.CanonicalDigitsUnique | App.tsx:53 | a canonical digit string is the rendering of the number it reads as, so each rendering below is fixed by its value |
| Text.FormatCents | App.tsx:30 | `price.toFixed(2)` on a price in cents: canonical whole digits (no leading zero), a point, exactly two decimals; both parts read back give the amount |
| Text.FormatTenths | App.tsx:30 | `${rating}` on a rating in tenths: a leading "-" exactly for a negative rating; after it, the canonical whole part (no leading zero) alone when the rating is whole, otherwise that whole part, "." and the one decimal digit; the digits read back give the magnitude; a decimal point exactly when the rating is not whole |
| Text.ToLowerAscii | App.tsx:26 | `toLowerCase`: same length, no capital letter left, other characters kept, capitals shifted to their lower-case letters |
| Text.ToLowerAsciiIdempotent | App.tsx:26 | lower-casing twice equals lower-casing once |
| Text.Contains | App.tsx:29-42 | `includes(pattern)`: the pattern occurs at some position of the text (the predicate itself; `StartsWithContains`, `ContainsInfix` and `ContainsTransitive` are its laws) |
| Text.StartsWithContains | App.tsx:29-42 | a text contains each of its prefixes |
| Text.ContainsInfix | App.tsx:29-42 | a text contains every piece it is built around |
| Text.ContainsTransitive | App.tsx:29-42 | containment is transitive |
| Text.ContainsOnlyPresentChars | App.tsx:29-42 | a pattern holding a character the text lacks is not contained |
| Text.ConcatContainsEach | App.tsx:30-48 | a template literal contains each of its pieces |
| Text.Join | App.tsx:38-43 | `parts.join(separator)`: empty for no parts, the sole part for one, parts separated by the separator otherwise (the definition; `JoinContainsEach` is its law) |
| Text.JoinContainsEach | App.tsx:38-43 | `join(separator)` contains each joined part |
| Text.TrimStart | src/components/ChatBox.tsx:62 | drops exactly the leading white space (all of it, and nothing after it) |
| Text.TrimEnd | src/components/ChatBox.tsx:62 | drops exactly the trailing white space |
| Text.Trim | src/components/ChatBox.tsx:62 | `trim()`: the result is the window of the text that is left once the leading and trailing white space is removed: everything before and after it is white space, and it neither starts nor ends with white space |
| Text.TrimWindow | src/components/ChatBox.tsx:62 | the trimmed text starts where the leading white space ends and is followed only by white space |
| Text.TrimEmptyIff | src/components/ChatBox.tsx:62 | `trim()` is empty exactly when every character is white space or a line terminator |
| Catalog.ProductIdsDistinct | src/data/mockData.ts:3-154 | the four product ids are pairwise distinct, "1" to "4" in catalog order |
| Catalog.SeedLogShape | src/data/mockData.ts:74-106 | five seed messages with distinct ids, senders alternating from the assistant, timestamps increasing |
| Catalog.SeedReferenceResolves | src/data/mockData.ts:104 | the only product reference in the seed log is the last message's, and it resolves to the first product |
| Catalog.QuickRepliesDistinct | src/data/mockData.ts:108-113 | four quick replies with distinct ids and texts |
| Assistant.WithoutId | App.tsx:21 | `filter(p => p.id !== id)`: a product is in the result exactly when it is in the list with another id; the result keeps list order and is never longer |
| Assistant.WithoutIdCounts | App.tsx:21 | the filter keeps each product with another id exactly as many times as it occurs, duplicates included, and keeps no product with that id |
| Assistant.WithoutIdKeepsHead | App.tsx:21 | a leading product with another id stays at the head of the filtered list |
| Assistant.Recommendations | App.tsx:19-23 | at most two products, none with the current id, all from the catalog, in catalog order; exactly the first two eligible ones |
| Assistant.SubsequencePrefix | App.tsx:22 | `slice(0, 2)` of an order-preserving filter is still order-preserving |
| Assistant.Names | App.tsx:38 | `map(p => p.name)`: one name per product, in order |
| Assistant.FirstMatch | App.tsx:29-48 | the index of the first keyword found, and no earlier keyword is present; the default index when there is none |
| Assistant.RuleFor | App.tsx:26-45 | the rule chosen for a message is one of the five; a keyword rule is chosen only when the lower-cased message contains that keyword |
| Assistant.KeywordRuleIff | App.tsx:29-48 | over the lower-cased text, each rule fires exactly when its keyword is present and no earlier keyword is, in both directions |
| Assistant.RuleForIff | App.tsx:26-48 | the same first-match-wins equivalences for the user's raw message |
| Assistant.TellMeMoreReply | App.tsx:30 | the reply names the product and contains its description, "$" followed by the two-decimal price, and the rating |
| Assistant.ViewDetailsReply | App.tsx:34 | the reply names the product |
| Assistant.RecommendationPhrase | App.tsx:38 | the recommendations joined by " and ": contains every name; empty when there are none |
| Assistant.OtherOptionsReply | App.tsx:39 | the reply names the product, contains the joined phrase and every recommendation's name |
| Assistant.PairingPhrase | App.tsx:43 | the first three pairings joined by ", ": contains each of them |
| Assistant.FoodPairReply | App.tsx:44 | the reply names the product and its varietal and contains the pairing phrase |
| Assistant.DefaultReply | App.tsx:48 | the default reply names the product |
| Assistant.GetAIResponse | App.tsx:25-49 | whatever the rule, the reply names the current product |
| Assistant.TellMeMoreAnswer | App.tsx:29-31 | a message containing "tell me more" gets the description and a price with exactly two decimals |
| Assistant.ViewDetailsAnswer | App.tsx:33-35 | "view details" without "tell me more" gets the view-details reply |
| Assistant.OtherOptionsAnswer | App.tsx:37-40 | "other options" after neither earlier keyword: the reply contains the " and "-joined names and each name |
| Assistant.OtherOptionsWithNoRecommendations | App.tsx:37-40 | with no recommendations the phrase is empty and the reply is still a non-empty text |
| Assistant.FoodPairAnswer | App.tsx:42-44 | "food pair" after no earlier keyword: at most three pairings joined by ", ", and the varietal |
| Assistant.DefaultAnswer | App.tsx:47-48 | no keyword: the default reply |
| Assistant.TellMeMoreChipRule | src/data/mockData.ts:109 | the "Tell me more" chip hits the first rule |
| Assistant.ViewDetailsChipRule | src/data/mockData.ts:110 | the "View details" chip hits the second rule |
| Assistant.OtherOptionsChipRule | src/data/mockData.ts:111 | the "Other options?" chip hits the third rule |
| Assistant.FoodPairChipRule | src/data/mockData.ts:112 | the "What food pairs well?" chip hits the fourth rule |
| Assistant.FoodPairChipMisses | src/data/mockData.ts:112 | the lower-cased food chip contains none of "tell me more", "view details", "other options" |
| Assistant.FoodPairChipHits | src/data/mockData.ts:112 | the lower-cased food chip contains "food pair" |
| Assistant.QuickRepliesHitTheirRules | src/data/mockData.ts:108-113 | quick reply i fires rule i, so each chip has a rule of its own |
| Assistant.RecommendationsBesideFirstOfFour | App.tsx:19-23 | with the first of four products shown, the second and third are recommended |
| Assistant.InitialRecommendations | src/data/mockData.ts:43-72 | beside the first product the recommendations are Penfolds Grange 2018 and Opus One 2018 |
| App.CurrentRecommendations | App.tsx:14-23 | at most two, from the catalog, never the current product |
| App.InitialState | App.tsx:9-16 | the start state: the catalog of both fixture lists, the first product (a catalog member), the seed log, chat closed, not loading, nothing queued |
| App.Valid | App.tsx:60-71 | the state invariant: while loading is on, a reply is queued (the predicate; `StepPreservesValid` and `RunPreservesValid` prove it kept) |
| App.IntroText | App.tsx:115 | the product-select introduction names the product |
| App.CartText | App.tsx:94 | the cart confirmation names the product |
| App.ReplyMessage | App.tsx:64-69 | an assistant message with id `now + 1` whose text is the selector's answer to the snapshot, naming the snapshot's product |
| App.AfterSend | App.tsx:51-73 | one user message with the text is appended, the old log is a prefix, loading is on, and the snapshot is queued last |
| App.AfterResolve | App.tsx:63-72 | the oldest queued reply is appended and dequeued and loading is off; nothing changes when nothing is queued |
| App.AfterToggle | App.tsx:79-81 | flips the expanded flag and nothing else |
| App.AfterOpen | App.tsx:87-89 | sets the expanded flag and nothing else |
| App.AfterViewDetails | App.tsx:83-85 | clears the expanded flag and nothing else |
| App.AfterAddToCart | App.tsx:91-100 | one assistant message naming the product is appended and the chat opens; product, loading, queue and catalog are unchanged |
| App.FreshLog | App.tsx:106-119 | two assistant messages with ids "1" and "2": the greeting dated 30 s before `now`, then an introduction naming the product dated 10 s before `now` |
| App.AfterProductSelect | App.tsx:102-122 | the product is shown, the log is the fresh two-message context, the chat closes; loading, queue and catalog are unchanged |
| App.InitialStateValid | App.tsx:9-12 | the start state: first product, seed log, chat closed, not loading, nothing queued |
| App.StepPreservesValid | App.tsx:51-122 | every transition keeps "loading implies a reply is queued" |
| App.RunPreservesValid | App.tsx:51-122 | the invariant holds after any sequence of events |
| App.RunWithoutSelectExtendsLog | App.tsx:51-100 | until a product is selected the log only grows (the old log stays a prefix) and the product stays the same |
| App.RunKeepsCatalog | App.tsx:14-16 | no sequence of events changes the catalog |
| App.SendThenResolve | App.tsx:51-72 | a send and its reply add exactly the user message and the answer for the product at send time; loading ends off and nothing is queued |
| App.OverlappingSendsClearLoadingEarly | App.tsx:60-71 | after two sends and one reply the loading flag is off while the second reply is still queued |
| App.RepliesFollowSendOrder | App.tsx:63-72 | two queued replies arrive in the order their messages were sent |
| App.StaleReplyAfterSelect | App.tsx:63-122 | a reply queued before a product change lands in the new log (as its third message) yet answers about the old product |
| App.IdsCanCollide | App.tsx:53-93 | ids are clock readings: add-to-cart in the same millisecond as a send, or a send one millisecond after a reply, repeats an id |
| App.ToggleInvolution | App.tsx:79-81 | toggling twice restores the state |
| App.OpenAndViewDetailsIdempotent | App.tsx:83-89 | opening twice equals opening once; closing twice equals closing once |
| App.QuickReplyIsSend | App.tsx:75-77 | a quick reply is exactly a send of its text |
| App.SelectRecommendationStaysInCatalog | App.tsx:102-103 | selecting a shown recommendation switches to a catalog product with a different id |
| App.SelectsShown | src/screens/ProductDetailScreen.tsx:418-422 | along a run, every product selected is one of the recommendations on screen at that moment, the only products the detail screen offers (App.tsx:130 passes them) |
| App.SelectsFrom | App.tsx:102-103 | every product selected during a run is a catalog member |
| App.SelectsShownFromCatalog | App.tsx:19-23 | selecting only recommendations on screen is selecting from the catalog |
| App.RunKeepsCurrentInCatalog | App.tsx:102-103 | when every selected product is a catalog member, the product on screen stays a catalog member through any run |
| App.ShownProductAlwaysInCatalog | App.tsx:9-23 | from the start screen, selecting only through the recommendation cards, the product on screen is always a catalog product and the catalog is unchanged |
| App.OtherOptionsRoundTrip | App.tsx:37-72 | sending an "other options" message and resolving it yields a reply naming every recommendation shown at send time |
| App.OtherOptionsChipOnInitialScreen | src/data/mockData.ts:111 | on the start screen the "Other options?" chip's reply names Penfolds Grange 2018 and Opus One 2018 |
| App.Session.constructor | App.tsx:9-16 | the controller starts in the initial state, which satisfies `Valid` |
| App.Session.HandleSendMessage | App.tsx:51-73 | the new state is exactly `AfterSend` of the old one; the state invariant `Valid` is kept |
| App.Session.ResolveNext | App.tsx:63-72 | the new state is exactly `AfterResolve` of the old one; the state invariant `Valid` is kept |
| App.Session.HandleQuickReply | App.tsx:75-77 | the new state is exactly a send of the reply's text; the state invariant `Valid` is kept |
| App.Session.HandleToggleChat | App.tsx:79-81 | the new state is exactly `AfterToggle` of the old one; the state invariant `Valid` is kept |
| App.Session.HandleViewProductDetails | App.tsx:83-85 | the new state is exactly `AfterViewDetails` of the old one; the state invariant `Valid` is kept |
| App.Session.HandleOpenChat | App.tsx:87-89 | the new state is exactly `AfterOpen` of the old one; the state invariant `Valid` is kept |
| App.Session.HandleAddToCart | App.tsx:91-100 | the new state is exactly `AfterAddToCart` of the old one; the state invariant `Valid` is kept |
| App.Session.HandleProductSelect | App.tsx:102-122 | the new state is exactly `AfterProductSelect` of the old one; the state invariant `Valid` is kept |
| DetailScreen.StarKinds | src/screens/ProductDetailScreen.tsx:114-130 | position i is a full star exactly when i is below floor(rating), a half star exactly at that position when the rating has a fraction; empty stars pad to five |
| DetailScreen.RenderStars | src/screens/ProductDetailScreen.tsx:114-130 | the two push loops build exactly `StarKinds` |
| DetailScreen.FiveStarsInRange | src/screens/ProductDetailScreen.tsx:125-128 | a rating from 0 to 5 gives exactly five stars |
| DetailScreen.NoEmptyStarsAboveFive | src/screens/ProductDetailScreen.tsx:125-128 | above 5 no empty star is drawn |
| DetailScreen.Take | src/screens/ProductDetailScreen.tsx:430 | `slice(0, n)`: a prefix of length n, or the whole row when it is shorter |
| DetailScreen.CardStars | src/screens/ProductDetailScreen.tsx:430 | a recommendation card never shows more than five stars |
| DetailScreen.CardStarsInRange | src/screens/ProductDetailScreen.tsx:430 | for a rating from 0 to 5 the card shows the same row as the detail view |
| DetailScreen.ToggleSection | src/screens/ProductDetailScreen.tsx:80-85 | the section's reading is negated (a missing entry reads as closed); every other entry is kept |
| DetailScreen.ToggleSectionTwice | src/screens/ProductDetailScreen.tsx:80-85 | toggling twice restores every section's reading |
| DetailScreen.InitialSectionsOpen | src/screens/ProductDetailScreen.tsx:37-40 | only "tastingNotes" and "description" start open |
| DetailScreen.ImageKey | src/screens/ProductDetailScreen.tsx:168-169 | `${product.id}-${index}`: the id, a "-", then canonical digits (no leading zero) that read back as the index |
| DetailScreen.ImageKeyInjective | src/screens/ProductDetailScreen.tsx:168-169 | two images of one product never share a key |
| DetailScreen.ImageKeysCount | src/screens/ProductDetailScreen.tsx:54-56 | a product with n images has n distinct image keys |
| DetailScreen.LoadingFlagsShape | src/screens/ProductDetailScreen.tsx:53-57 | the reset map has exactly one key per image, n in all, every one set |
| DetailScreen.FreshLoadingStates | src/screens/ProductDetailScreen.tsx:53-57 | the map the product-change effect installs: exactly one key per image, as many keys as images, every flag set |
| DetailScreen.LoadingFlagsStep | src/screens/ProductDetailScreen.tsx:54-56 | one more image adds exactly its own key, set, to the flags |
| DetailScreen.BuildLoadingStates | src/screens/ProductDetailScreen.tsx:53-57 | the `forEach` loop builds exactly the fresh loading map |
| DetailScreen.MarkLoaded | src/screens/ProductDetailScreen.tsx:182-186 | the finished image's flag is cleared and every other flag is kept |
| DetailScreen.VarietalLabel | src/screens/ProductDetailScreen.tsx:265 | the label is never longer than 20 characters; it is the varietal itself when that fits, "Bordeaux Blend" otherwise |
| DetailScreen.VarietalLabelIdempotent | src/screens/ProductDetailScreen.tsx:265 | the label of a label is itself |
| DetailScreen.AddToCartEnabled | src/screens/ProductDetailScreen.tsx:450-452 | the add-to-cart button is enabled exactly when the product is in stock (the predicate) |
| DetailScreen.AddToCartLabel | src/screens/ProductDetailScreen.tsx:450-456 | "Add to Cart" exactly when the button is enabled (in stock), "Out of Stock" exactly when not |
| DetailScreen.MockProductStars | src/data/mockData.ts:10 | the first product's 4.8 rating shows four full stars and a half star |
| DetailScreen.FixtureLabels | src/screens/ProductDetailScreen.tsx:265 | the first product's long blend shows as "Bordeaux Blend", the others as they are; every fixture product can be added to the cart |
| DetailScreen.DetailScreenState.constructor | src/screens/ProductDetailScreen.tsx:36-58 | after mounting: image 0, the initial sections, the fresh loading map |
| DetailScreen.DetailScreenState.ShowProduct | src/screens/ProductDetailScreen.tsx:47-58 | a new product id resets the image index and the loading map; the same id keeps both; sections are kept either way |
| DetailScreen.DetailScreenState.Toggle | src/screens/ProductDetailScreen.tsx:80-85 | the sections become `ToggleSection` of the old ones and nothing else changes |
| DetailScreen.DetailScreenState.ImageLoadEnd | src/screens/ProductDetailScreen.tsx:182-186 | the loading map becomes `MarkLoaded` for that image's key and nothing else changes |
| ChatBox.Typed | src/components/ChatBox.tsx:204-206 | the field holds at most 500 characters, a prefix of what was typed |
| ChatBox.SendEnabled | src/components/ChatBox.tsx:208-211 | the send button is enabled exactly when the trimmed input is not empty (the predicate; `SendEnabledIff` restates it over the characters) |
| ChatBox.SendEnabledIff | src/components/ChatBox.tsx:209-211 | the send button is enabled exactly when some character is not white space |
| ChatBox.ChatInput.constructor | src/components/ChatBox.tsx:40 | the field starts empty |
| ChatBox.ChatInput.ChangeText | src/components/ChatBox.tsx:203-206 | the field holds the typed text, cut at 500 characters |
| ChatBox.ChatInput.Send | src/components/ChatBox.tsx:61-69 | forwards exactly when the send button is enabled; then the untrimmed text goes out and the field is empty; otherwise the field is unchanged |
| ChatBox.ChatInput.QuickReplyPress | src/components/ChatBox.tsx:71-76 | forwards the reply unchanged and does not touch the field |

## Left out

- Rendering, animations (spring height, skeleton pulse, header opacity), `StyleSheet`, `Dimensions` and `KeyboardAvoidingView`: presentation only.
- The 100 ms scroll-to-end timers and the scroll positions: they move the view only.
- The image index set from the gallery's scroll offset (ProductDetailScreen.tsx:163-166): it depends on the screen width and the scroll position. Only its reset to 0 is modelled.
- `Share.share` and `Alert.alert` (ProductDetailScreen.tsx:93-112): platform calls.
- The `error` text and its Retry button: the session never supplies an error, and the button has no handler.
- `Date.now()` and `new Date()`: the clock is the `now` argument of each step. Resolving a reply takes its own reading, since the source reads the clock when the timer fires.
- The 1500 ms delay itself: replaced by the pending queue, which resolves in send order. That is the order equal-delay timers fire in.
- `toLocaleTimeString` in the message bubbles: display only.
- Text.ToLowerAscii: folds only the ASCII capitals, not the full Unicode case mapping of `toLowerCase`.
- ChatBox.Typed and DetailScreen.VarietalLabel: count Unicode scalar values. JavaScript's `length` and `maxLength` count UTF-16 code units, so the two differ for characters outside the Basic Multilingual Plane.
- ChatBox.Typed: the field's own handling of over-long input is platform behaviour. It is modelled as truncation at 500 characters.
- Text.FormatCents and Text.FormatTenths: price and rating are fixed-point numbers (cents, tenths) instead of floating point. A rating with more than one decimal, or a price with more than two, is not represented.
- Text.FormatCents: does not model a negative price; prices are non-negative in every fixture.
- App.AfterResolve: resolving with nothing queued does nothing. The source never fires a callback without a scheduled reply.
- The back button of the detail screen (ProductDetailScreen.tsx:136): App.tsx:128-134 never passes `onBack`, so the button has no handler and does nothing. The other screen callbacks (`onAddToCart`, `onOpenChat`, `onProductSelect`) are wired to `App`'s handlers as modelled.
- App.Step: accepts an `AddToCart` event in any state. The source disables the button for a product out of stock (ProductDetailScreen.tsx:452), so such an event is unreachable there. Every fixture product is in stock (`DetailScreen.FixtureLabels`).
