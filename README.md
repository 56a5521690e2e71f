# Storefront client: chat widget, cart, listing and search

This project models the parts of the storefront client that hold logic:

- **Chat service client** (`ChatApi`). It covers how a request's outcome becomes a value or an `ApiError`. It also covers the health probe, the category fallback, the quick replies per intent, and the sentence shown for each error.
- **Conversation storage** (`ConversationStorage`). Transcripts live in local storage under `conversation_<id>`, next to a `current_conversation_id` entry. There is a value `Store` and a class `LocalConversationStore` whose methods update it.
- **Message formatter** (`MessageFormat`). `formatMessageText` splits a bot message into lines. Runs of bullet lines become lists; other lines become paragraphs or line breaks. The method keeps the source's loop and is proved equal to a grouping function. That function's layout properties are then proved.
- **Product recommendation text** (`ProductSummary`). This is the message written for recommended products. Prices are held in cents and printed the way JavaScript prints them. The formatter lays the message out as a heading, one list and the closing question.
- **Chat session** (`Chatbot`). `Session` is the widget's state with its store. Opening, sending, recommending, clearing and quick replies are functions on it. The class `ChatSession` updates the same fields step by step, and each of its methods is proved to match its function. It has the quick reply twice: `HandleQuickReply` as the component runs it, and `HandleQuickReplyIntended` as corrected under "## Findings".
- **Cart** (`Cart`). Quantity updates, removal, subtotal, shipping, tax, total and when checkout is disabled.
- **Product listing** (`SortableList`). An insertion sort of an array copy by rating or by price, the category toggle, the caps of 10 categories and 20 products, and the first image of a card.
- **Mock search** (`ProductSearch`). A case-insensitive substring filter over five products.

The JavaScript the code relies on is modelled explicitly in `Text`:

- the white space of `\s` and `trim`;
- `includes`;
- ASCII `toLowerCase`;
- `split` and `join` on one character;
- the decimal text of a number.

Truthiness is modelled too: an empty id counts as no id, and an empty `images` string counts as no image.

The code does not save the conversation after every change. It saves nothing on a failed turn when no id is held yet. On a turn that recommends products, it saves the pre-turn transcript plus the summary under the pre-turn id (`Chatbot.ProductSaveDropsTurn`, `Chatbot.FirstTurnSummaryNotSaved`).

## Model

| member | source | states |
|---|---|---|
| `Text.TrimShape` | src/app/components/Chatbot.tsx:73 | `trim` removes exactly the surrounding white space: the result is an infix of the line with only white space outside it, it is empty iff the line is all white space, and otherwise starts and ends with a non-space character |
| `Text.TrimEnds` | src/app/components/Chatbot.tsx:73 | a trimmed line is empty iff the line is all white space, and otherwise has a non-space character at each end |
| `Text.TrimInfix` | src/app/components/Chatbot.tsx:73 | the trimmed line is the slice between a white-space prefix and a white-space suffix of the line |
| `Text.SplitJoin` | src/app/components/Chatbot.tsx:65 | splitting the join of separator-free lines on `\n` gives the lines back |
| `Text.JoinSplit` | src/app/components/Chatbot.tsx:65 | joining the pieces of a split gives the original text back |
| `Text.SplitFirst` | src/app/components/SortableList.tsx:194 | the first piece of a split is the text before the first separator, or the whole string when there is none |
| `Text.DecimalRoundTrip` | src/app/lib/chatbot-api.ts:80 | the decimal text of a status reads back as that number |
| `ChatApi.FetchWithTimeout` | src/app/lib/chatbot-api.ts:62-91 | an abort becomes `ApiError(408, "Request timeout")`; a non-2xx reply becomes `ApiError(status, "HTTP error! status: …, message: body")`; other thrown values pass through unchanged; only a 2xx reply succeeds |
| `ChatApi.HandleResponse` | src/app/lib/chatbot-api.ts:93-105 | it succeeds iff the body is non-empty and parses; an empty body gives "Empty response from server"; an unparsable one gives "Invalid JSON response: " and at most 100 characters of the body; every failure carries the reply's status |
| `ChatApi.Request` | src/app/lib/chatbot-api.ts:107-112 | a request succeeds iff the reply is 2xx with a non-empty parsable body; a failure after a reply carries its status |
| `ChatApi.CheckApiHealth` | src/app/lib/chatbot-api.ts:221-229 | healthy iff `healthCheck` raised nothing, i.e. the root endpoint answered 2xx with a non-empty JSON body |
| `ChatApi.GetCategories` | src/app/lib/chatbot-api.ts:231-239 | the service's categories on success, the six fallback categories on any failure |
| `ChatApi.CategoriesFallbackOnError` | src/app/lib/chatbot-api.ts:235-238 | every failed request yields exactly the six fallback categories |
| `ChatApi.QuickReplies` | src/app/lib/chatbot-api.ts:199-215 | the list is never empty; it is the four defaults iff the intent is missing or not one of the five known intents |
| `ChatApi.QuickRepliesDistinguishIntents` | src/app/lib/chatbot-api.ts:200-213 | no two known intents share a reply list |
| `ChatApi.NetworkWordingBeforeProtocol` | src/app/lib/chatbot-api.ts:325-333 | an Error naming "Failed to fetch" or "NetworkError" gets the network sentence, even when it also names SSL |
| `ChatApi.TimeoutWording` | src/app/lib/chatbot-api.ts:86-88 | a request that timed out fails with `ApiError(408, "Request timeout")`, which is worded as the timeout sentence |
| `ChatApi.ThrownWording` | src/app/lib/chatbot-api.ts:84-89 | a thrown value other than an abort is worded exactly as `handleApiError` words it as thrown |
| `ChatApi.StatusWording` | src/app/lib/chatbot-api.ts:309-323 | statuses 400, 404 and 500 get their fixed sentences and 408 the timeout sentence; any status other than 400, 404, 408 and 500 shows "Error: " and the HTTP error message with status and body |
| `ChatApi.ErrorWording` | src/app/lib/chatbot-api.ts:309-337 | the sentence for each thrown value: an HTTP error by its status as above; an `Error` whose message names a failed fetch or a network error gets the network sentence, one naming SSL the protocol sentence, any other its own message; a value that is not an `Error` gets the unexpected-error sentence |
| `ChatApi.ProtocolWording` | src/app/lib/chatbot-api.ts:94-104 | an empty or unparsable 2xx body shows "Error: " and the client's message, never a status sentence |
| `ChatApi.OkResponseHandled` | src/app/lib/chatbot-api.ts:78-83 | a 2xx reply is handed as it is to `handleResponse` |
| `ChatApi.OtherStatusWording` | src/app/lib/chatbot-api.ts:320-321 | a 2xx status has no sentence of its own: the message is shown after "Error: " |
| `ConversationStorage.ConversationKeyInjective` | src/app/lib/chatbot-api.ts:343 | different ids have different transcript keys |
| `ConversationStorage.ConversationKeyIsNotCurrentIdKey` | src/app/lib/chatbot-api.ts:349-359 | no transcript key is the current-id key |
| `ConversationStorage.ReadAfterSave` | src/app/lib/chatbot-api.ts:341-350 | a saved transcript reads back as saved |
| `ConversationStorage.SaveIsolation` | src/app/lib/chatbot-api.ts:347-350 | saving under one id changes no other id's transcript and leaves the current id alone |
| `ConversationStorage.NothingBeforeFirstWrite` | src/app/lib/chatbot-api.ts:341-355 | before any write, every transcript reads as empty and the current id as null |
| `ConversationStorage.CurrentIdAfterSet` | src/app/lib/chatbot-api.ts:352-360 | the current id reads back as set, and setting it touches no transcript |
| `ConversationStorage.ClearEffect` | src/app/lib/chatbot-api.ts:362-369 | clearing empties the id's transcript; it removes the current id iff the current id named the id; other transcripts are kept |
| `ConversationStorage.OutsideBrowserInert` | src/app/lib/chatbot-api.ts:342-363 | outside a browser, reads find nothing and every write is a no-op |
| `ConversationStorage.LocalConversationStore.GetConversation` | src/app/lib/chatbot-api.ts:341-345 | returns the stored transcript of the id, or nothing |
| `ConversationStorage.LocalConversationStore.SaveConversation` | src/app/lib/chatbot-api.ts:347-350 | the store becomes `Save(id, messages)` of the old store |
| `ConversationStorage.LocalConversationStore.GetCurrentConversationId` | src/app/lib/chatbot-api.ts:352-355 | returns the current id, or null outside a browser |
| `ConversationStorage.LocalConversationStore.SetCurrentConversationId` | src/app/lib/chatbot-api.ts:357-360 | the store becomes `SetCurrentId(id)` of the old store |
| `ConversationStorage.LocalConversationStore.ClearConversation` | src/app/lib/chatbot-api.ts:362-369 | the store becomes `Clear(id)` of the old store: the removal, then the read-and-conditional current-id removal |
| `MessageFormat.ListItemIsPatternMatch` | src/app/components/Chatbot.tsx:73 | the bullet test holds iff the trimmed line matches `^[*•-]\s+.+` |
| `MessageFormat.ItemTextShape` | src/app/components/Chatbot.tsx:80 | an item's text is non-empty and is the trimmed line after the marker and all the white space after it |
| `MessageFormat.FormatMessageText` | src/app/components/Chatbot.tsx:63-122 | the loop over the lines yields `Render(text)`; its invariants keep `inList` iff `listItems` is non-empty, and keep the pending items equal to the current run |
| `MessageFormat.LineFacts` | src/app/components/Chatbot.tsx:98-108 | a non-item line is a paragraph holding the untrimmed line when it is not blank; a blank line is a break only at an index that is neither the first nor the last |
| `MessageFormat.GroupSeparated` | src/app/components/Chatbot.tsx:75-119 | no list is empty and no two lists are adjacent: each maximal run of items becomes exactly one list |
| `MessageFormat.GroupPieces` | src/app/components/Chatbot.tsx:71-119 | the layout keeps every item text and every other line's block, in line order |
| `MessageFormat.FramedGroup` | src/app/components/Chatbot.tsx:71-119 | a heading line, a run of items, an empty line and a closing line lay out as a paragraph, one list holding the items in order, a line break and a paragraph |
| `MessageFormat.RenderRaw` | src/app/components/Chatbot.tsx:121 | the raw text is returned iff the text has at most two lines and all of them are blank |
| `MessageFormat.RenderLayout` | src/app/components/Chatbot.tsx:63-121 | a formatted message is separated into lists as above, and its pieces are those of its lines in order |
| `ProductSummary.PriceTextRoundTrip` | src/app/components/Chatbot.tsx:244 | the printed price reads back as the exact price |
| `ProductSummary.FractionRoundTrip` | src/app/components/Chatbot.tsx:244 | the one or two decimals after the point read back as the hundredths of the price |
| `ProductSummary.SplitAtPoint` | src/app/components/Chatbot.tsx:244 | a printed price with a point splits into the whole part and the decimals |
| `ProductSummary.ProductLineIsItem` | src/app/components/Chatbot.tsx:243-245 | each product line is a bullet whose item text is `name - $price (In Stock/Out of Stock)` with the name's leading white space dropped, since the item text is trimmed at the start |
| `ProductSummary.SummaryLines` | src/app/components/Chatbot.tsx:243-251 | the message's lines are the heading, one line per product in order, an empty line and the closing question |
| `ProductSummary.SummaryLayout` | src/app/components/Chatbot.tsx:243-251 | the message is shown as the heading, one list of one item per product in order, a line break and the question |
| `Chatbot.RestoredResumes` | src/app/components/Chatbot.tsx:148-156 | with a saved current id whose transcript is non-empty, opening resumes that transcript and id and writes nothing |
| `Chatbot.RestoredFresh` | src/app/components/Chatbot.tsx:157-164 | otherwise opening shows the greeting alone and saves it under `temp`; it sets no current id and changes no other transcript |
| `Chatbot.ToggleEffect` | src/app/components/Chatbot.tsx:144-172 | opening leaves a non-empty transcript and the probe's verdict on the indicator; closing changes nothing else |
| `Chatbot.BlankSendIsNoOp` | src/app/components/Chatbot.tsx:175-176 | a whitespace-only message changes nothing |
| `Chatbot.SendShape` | src/app/components/Chatbot.tsx:175-236 | after a send the user's message follows the old transcript, and only bot messages come after it; the input is empty and the typing indicator is off whatever the outcome |
| `Chatbot.SendReplyMessages` | src/app/components/Chatbot.tsx:199-202 | a reply shows the old transcript, the user's message, the reply and, when products came, the summary |
| `Chatbot.SendAdoptsId` | src/app/components/Chatbot.tsx:193-196 | the held id and the saved current id change only if no id was held and the reply carries one; in that case both become the reply's id |
| `Chatbot.SendSuggestions` | src/app/components/Chatbot.tsx:208-214 | suggestions are the reply's own, or the quick replies for its intent; with products, four product questions then the first two of those |
| `Chatbot.SendReplySaved` | src/app/components/Chatbot.tsx:203-206 | without products, the whole turn is saved under the reply's id, and no other transcript changes |
| `Chatbot.SendFailureEffect` | src/app/components/Chatbot.tsx:221-233 | a failure shows exactly one error message worded by `handleApiError` after the user's message; the turn is saved under the held id, and nothing is saved without one |
| `Chatbot.ProductSaveDropsTurn` | src/app/components/Chatbot.tsx:255-258 | with products in a conversation under the reply's id, the saved transcript is the pre-turn one plus the summary, two shorter than the one shown |
| `Chatbot.FirstTurnSummaryNotSaved` | src/app/components/Chatbot.tsx:203-206 | on the turn that gets the first id, the summary is shown but the saved transcript ends with the reply |
| `Chatbot.RecommendedStore` | src/app/components/Chatbot.tsx:255-258 | with an id held when the turn started, that id's transcript becomes the starting transcript plus the summary, while the current id and every other transcript stay; without one the store is unchanged |
| `Chatbot.SendReplyUnsavedWithoutId` | src/app/components/Chatbot.tsx:203-206 | a reply without an id on a turn that held none saves nothing, with or without products |
| `Chatbot.SendProductsSavedTwice` | src/app/components/Chatbot.tsx:203-206 | on a product turn whose reply names an id other than the held one, the whole turn is saved under the reply's id and the starting transcript plus the summary under the held id |
| `Chatbot.RecommendedSuggestions` | src/app/components/Chatbot.tsx:239-267 | an empty list changes nothing; otherwise one message is appended and at most six suggestions are offered: the four product questions, then a prefix of the previous ones |
| `Chatbot.ControlsAfterSend` | src/app/components/Chatbot.tsx:343-478 | after a turn the clear button is shown and send is off until something is typed; the input is enabled and the quick-reply strip shown iff the service is online |
| `Chatbot.ClearedEffect` | src/app/components/Chatbot.tsx:285-302 | clearing leaves the greeting alone, no id, no clear button and the four default replies; the held transcript is removed, and the current id with it iff it named that id |
| `Chatbot.QuickRepliesNeverEmpty` | src/app/components/Chatbot.tsx:302 | the quick replies listed are never empty |
| `Chatbot.ValidPreserved` | src/app/components/Chatbot.tsx:144-302 | every operation keeps the held id and the saved current id non-empty, so holding an id and having one agree |
| `Chatbot.GreetingThenResume` | src/app/components/Chatbot.tsx:146-214 | on an empty store, "Hi!" answered under "c1" gives the greeting and the turn, saved under "c1" with the current id set, and the default replies; closing and reopening resumes it |
| `Chatbot.TimeoutTurn` | src/app/components/Chatbot.tsx:221-233 | a timeout with no id shows the user's message and the timeout sentence and saves nothing |
| `Chatbot.QuickReplyAsWrittenSendsNothing` | src/app/components/Chatbot.tsx:270-276 | as written, a quick reply clicked with an empty input only fills the input |
| `Chatbot.QuickReplyAsWrittenSendsDraft` | src/app/components/Chatbot.tsx:270-276 | as written, a quick reply clicked over a draft sends the draft |
| `Chatbot.QuickRepliedSends` | src/app/components/Chatbot.tsx:270-276 | as intended, a quick reply is sent as the user's message |
| `Chatbot.QuickReplyDiffers` | src/app/components/Chatbot.tsx:270-276 | on the freshly opened widget, "Best sellers" is not sent as written and is sent as intended |
| `Chatbot.ChatSession.constructor` | src/app/components/Chatbot.tsx:125-133 | the component mounts closed, empty, with no id and the indicator checking |
| `Chatbot.ChatSession.SetInput` | src/app/components/Chatbot.tsx:464 | only the input changes |
| `Chatbot.ChatSession.CheckHealth` | src/app/lib/chatbot-api.ts:248-258 | the indicator shows the probe's verdict |
| `Chatbot.ChatSession.InitializeConversation` | src/app/components/Chatbot.tsx:144-172 | the new state is `Initialized` of the old one |
| `Chatbot.ChatSession.Toggle` | src/app/components/Chatbot.tsx:504 | the new state is `Toggled` of the old one |
| `Chatbot.ChatSession.Submit` | src/app/components/Chatbot.tsx:174-237 | the step-by-step body of `handleSend`; the new state is `Sent` of the old one |
| `Chatbot.ChatSession.Answer` | src/app/components/Chatbot.tsx:192-219 | the reply branch: the new state is `Answered` of the old one, so the reply's id is adopted when none was held, the reply is shown and saved under its id, and its suggestions and products are taken |
| `Chatbot.ChatSession.FailWith` | src/app/components/Chatbot.tsx:221-233 | the error branch: the new state is `Failed` of the old one, so one worded error message is shown, and the turn is saved only when an id was held |
| `Chatbot.ChatSession.HandleSend` | src/app/components/Chatbot.tsx:174-176 | the current input is sent |
| `Chatbot.ChatSession.HandleProductRecommendations` | src/app/components/Chatbot.tsx:239-267 | the new state is `Recommended` of the old one, with the calling render's transcript and id |
| `Chatbot.ChatSession.HandleQuickReply` | src/app/components/Chatbot.tsx:269-276 | as written: the reply is put in the input, and the input from before the click is what is sent (`QuickReplyAsWritten`) |
| `Chatbot.ChatSession.HandleQuickReplyIntended` | src/app/components/Chatbot.tsx:269-276 | as intended: the reply is put in the input and sent (`QuickReplied`) |
| `Chatbot.ChatSession.ClearConversation` | src/app/components/Chatbot.tsx:285-292 | the new state is `Cleared` of the old one |
| `Cart.WithQuantity` | src/app/cart/page.tsx:60-64 | length and order are kept; every item with the id gets the quantity; nothing else changes |
| `Cart.Without` | src/app/cart/page.tsx:72 | the items that stay are those of the cart whose id differs |
| `Cart.WithoutDistributes` | src/app/cart/page.tsx:72 | removal distributes over concatenation, so the remaining items keep their order |
| `Cart.UpdateBelowOneIsNoOp` | src/app/cart/page.tsx:56 | a quantity below one changes nothing |
| `Cart.QuantitiesStayPositive` | src/app/cart/page.tsx:56-73 | if every quantity is at least one, it stays so after any sequence of updates and removals |
| `Cart.UpdateChangesSubtotal` | src/app/cart/page.tsx:60-64 | setting an item's quantity changes the subtotal by its price times the change |
| `Cart.RemoveChangesSubtotal` | src/app/cart/page.tsx:72 | removing an item lowers the subtotal by its price times its quantity |
| `Cart.TotalsIdentity` | src/app/cart/page.tsx:239-270 | an empty cart totals 0 and cannot be checked out; a non-empty one totals 1.18 × subtotal + 50 shipping |
| `Cart.TotalsBounds` | src/app/cart/page.tsx:239-270 | with non-negative prices and positive quantities the subtotal is never negative and a non-empty cart totals at least the 50 shipping |
| `Cart.SampleTotals` | src/app/cart/page.tsx:17-36 | the loaded cart's subtotal is 1766.36, with 50 shipping, 317.9448 tax and 2134.3048 in total |
| `Cart.CartPage.UpdateQuantity` | src/app/cart/page.tsx:55-66 | the items become the update of the old items; `isUpdating` is false after an update and unchanged when the quantity is below one |
| `Cart.CartPage.RemoveItem` | src/app/cart/page.tsx:68-75 | the items become the old items without the id; `isUpdating` is false after |
| `Cart.CartPage.CalculateTotal` | src/app/cart/page.tsx:77-79 | the fold returns the sum of price times quantity |
| `Cart.CartPage.Load` | src/app/cart/page.tsx:46-54 | the loaded cart is the sample cart and loading ends |
| `SortableList.SortedMeaning` | src/app/components/SortableList.tsx:95-100 | sorted by rating means ratings never increase; sorted by price means prices never decrease |
| `SortableList.SortInPlace` | src/app/components/SortableList.tsx:95-100 | the array ends sorted by the comparator and is a permutation of what it held |
| `SortableList.SortedProducts` | src/app/components/SortableList.tsx:95 | the copy is sorted and a permutation of the products, which are not reordered |
| `SortableList.CategoryClicked` | src/app/components/SortableList.tsx:103-105 | the selection becomes the category iff it was not already selected, and otherwise null |
| `SortableList.ClickTwice` | src/app/components/SortableList.tsx:103-105 | clicking a category twice ends on it only if it started selected |
| `SortableList.ShownCategories` | src/app/components/SortableList.tsx:53-68 | the first min(10, n) categories fetched, or the ten fallback names on failure |
| `SortableList.CappedProducts` | src/app/components/SortableList.tsx:82 | the first min(20, n) products fetched |
| `SortableList.FirstImage` | src/app/components/SortableList.tsx:194 | the placeholder without images; otherwise the text before the first comma, or all of it when there is no comma |
| `SortableList.ProductsFetched` | src/app/components/SortableList.tsx:74-91 | the product request's completion: on success the first twenty products and no error, on failure the error text with the previous products; loading ends either way |
| `SortableList.ProductListing.FetchCategories` | src/app/components/SortableList.tsx:53-68 | the categories become the first ten fetched (`ShownCategories`), or the ten fallback categories when the request fails; nothing else changes |
| `SortableList.ProductListing.FetchProducts` | src/app/components/SortableList.tsx:74-91 | the listing becomes `ProductsFetched` of the old listing and the outcome |
| `SortableList.ProductsFetchedEffect` | src/app/components/SortableList.tsx:74-91 | after a fetch, loading is off, and either at most 20 fetched products or the error text with the old products is shown |
| `SortableList.ProductListing.HandleCategoryClick` | src/app/components/SortableList.tsx:103-105 | the selection becomes `CategoryClicked` of the old one |
| `SortableList.ProductListing.HandleClearFilter` | src/app/components/SortableList.tsx:107-109 | the selection becomes null |
| `SortableList.ProductListing.Sorted` | src/app/components/SortableList.tsx:95-100 | the cards are sorted by the current key and are a permutation of the products |
| `ProductSearch.Filter` | src/app/lib/api.ts:12-14 | a product is returned iff it is in the list and its lower-cased name contains the lower-cased query |
| `ProductSearch.SearchProducts` | src/app/lib/api.ts:2-15 | sound and complete for the five mock products, with at most five results |
| `ProductSearch.FilterDistributes` | src/app/lib/api.ts:12-14 | the filter distributes over concatenation, so results keep the list's order |
| `ProductSearch.EmptyQueryReturnsAll` | src/app/lib/api.ts:12-14 | the empty query returns all five products in order |
| `ProductSearch.CaseInsensitive` | src/app/lib/api.ts:13 | queries that differ only in the case of ASCII letters return the same products |
| `ProductSearch.LoweredQuery` | src/app/lib/api.ts:13 | a lower-cased query returns the same products as the query |

## Left out

- Network I/O. `fetch`, the `AbortController` and the 15-second timer are not modelled. A request is given by its outcome: a thrown value, or a status with a body and its parse.
- Timers. The 30-second health poll and the probe made on mount are out; `CheckHealth` is the effect of one probe. The cart's loading and update delays are out too, and each cart operation is one step. The 100 ms quick-reply delay is out.
- Interleaving across `await`s and React's batching. Each handler is one atomic step, so `isTyping` is true only inside `handleSend`. The awaited steps see the render's own `messages` and `conversationId`, as the code's closures do.
- The other chat-service calls: `sendUserMessage`'s request body, product and intent lookups, search, `getConversations` and `createProduct`. The widget's logic uses only their outcomes.
- JSON encoding in storage. Stringify followed by parse is taken as the identity.
- Message timestamps and `toLocaleTimeString`.
- Floating point. Cart prices, ratings and listing prices are exact reals. Chat product prices are whole cents, and a negative price or one with more than two decimals is not represented. `toFixed` formatting is out.
- `ChatApi.HandleResponse`: the snippet of an unparsable body keeps 100 characters (code points), while JavaScript's `substring(0, 100)` counts UTF-16 code units, so a body with characters outside the Basic Multilingual Plane gets a longer snippet here than in the browser.
- The regular-expression engine. The bullet test is a string predicate, proved equal to the pattern in `MessageFormat.ListItemIsPatternMatch`.
- `toLowerCase` beyond ASCII letters.
- JSX rendering, scrolling, animation variants and styles.
- The key handler's Shift check. Enter without Shift calls `handleSend`, which is `InputSent`.
- Sort stability. Only sortedness and permutation are stated, not the order of equal keys.
- The listing's sort control. No control changes `sortBy`, so in the component it stays "rating"; the sort itself is modelled for both keys.
- The GraphQL requests and the variables sent. The listing's fetches are given by their outcomes.
- `Cart.UpdateChangesSubtotal`: stated for carts with distinct ids, which the page's buttons assume. With repeated ids, every matching item changes.
- `Cart.RemoveChangesSubtotal`: stated for carts with distinct ids, for the same reason.
- `ProductSummary.SummaryLayout`: stated for product names without a newline. A name with a newline would split its bullet line.
- `ProductSummary.SummaryLines`: stated for product names without a newline, for the same reason.

## Findings

| source | as written | input that shows it | evidently intended | confidence | as-written member | corrected member |
|---|---|---|---|---|---|---|
| src/app/components/Chatbot.tsx:269-276 | the timer calls the `handleSend` of the render in which the reply was clicked, and that render's `input` is the one from before the click | an open widget with an empty input; click "Best sellers": nothing is sent and the reply is left in the input. With a draft typed, the draft is sent instead of the reply | send the clicked reply as the user's message | medium, not executed | `Chatbot.QuickReplyAsWrittenSendsNothing` | `Chatbot.QuickRepliedSends` |
