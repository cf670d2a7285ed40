# Underworlds client state, modelled in Dafny

A model of the stateful logic of the Underworlds photography site, a single-page
React application. The site is mostly markup. What the model covers:

- **Assistant panel** (`assistant.dfy`, class `Assistant.AssistantState`). It holds the chat
  transcript, the input line, the thinking flag and the open flag. `handleSend` is split into
  its two phases. `BeginSend` runs the blank-input guard, appends the user message, clears the
  input and sets thinking. `CompleteSend` appends the reply and clears thinking. `HandleSend`
  runs both phases in sequence against the reply service.
- **Reply service** (`gemini_service.dfy`, module `GeminiService`). It covers the system
  instruction built from the catalogue, the mapping of history entries to the SDK's
  `{role, parts}` format, and `sendMessageToGemini`. That function turns a missing key, and
  any failure, into one of two fixed replies. The SDK round trip is an oracle
  `ChatRequest -> SdkOutcome`.
- **Cart drawer** (`cart_drawer.dfy`, module `CartDrawer`). It covers what the drawer derives
  from its ordered item list: the subtotal (a left fold of prices), the header count, the
  empty state, the rows with their keys and remove indices, and whether checkout is enabled.
- **Image URLs** (`images.dfy`, module `Images`). It covers `getImageUrl`, with the CDN base
  as a parameter, and the `IMAGE_FILES` table.
- **Newsletter form** (`footer.dfy`, class `Footer.NewsletterForm`). Its status moves
  idle → loading → success, the email is cleared on success, and the controls are disabled
  accordingly. The `setTimeout` callback is the explicit event `TimerFired`.
- **Navigation bar** (`navbar.dfy`, class `Navbar.NavbarState`). It covers the scroll
  threshold, the mobile-menu transitions, the contrast class and the cart label. Calls to the
  owner's callbacks are returned as `NavEvent`s.
- `types.dfy` mirrors the record types: `ChatMessage` with role `user | model`, `Product`
  with its closed category set, and `ViewState` with four variants. `strings.dfy` holds the
  JavaScript string operations the components rely on: `trim` with ECMAScript's whitespace
  set, `join` and decimal rendering. It also defines splitting on one character, which no
  component calls: it is the inverse used to prove that the joined product context can be
  read back line by line.

Clock readings (`Date.now`), `window.scrollY`, the environment variables and the SDK are
parameters, never read.

Points of the code's behaviour that the model keeps as written:

- The Enter key calls `handleSend` without checking `isThinking`. Only the send button is
  disabled while thinking, so `BeginSend` and `HandleKeyPress` accept a send while thinking.
- The service returns its fallback as an ordinary reply. `handleSend`'s own `catch` appends
  nothing (`CompleteSend` with `Rejected`), and that branch cannot be reached because the
  service never rejects.
- `Date.now` reads the wall clock, which can be set back, so the timestamps taken for the
  welcome, user and reply messages can decrease. The model proves that the transcript stays
  in non-decreasing time order only when the clock readings are non-decreasing.

## Model

| member | source | states |
|---|---|---|
| Strings.TrimEmptyIff | components/Assistant.tsx:27 | `!s.trim()` holds exactly when every character of `s` is ECMAScript whitespace or a line terminator, including for `""` |
| Strings.Trim | components/Assistant.tsx:27 | `s.trim()` is no longer than `s` and neither starts nor ends with ECMAScript whitespace; `TrimEmptyIff` says when it is empty |
| Strings.Join | services/geminiService.ts:26-27 | `parts.join(sep)`: the parts with `sep` between neighbours; `SplitJoin` proves it is undone by splitting |
| Strings.Split | services/geminiService.ts:27 | splitting on one character always gives at least one piece; it is the inverse used to read the joined product context back |
| Strings.SplitJoin | services/geminiService.ts:25-27 | for a non-empty list of parts, splitting a `join` at a separator that occurs in no part returns exactly the parts (an empty list joins to `""`, which splits to `[""]`) |
| Strings.NatToString | components/CartDrawer.tsx:61 | decimal rendering is a non-empty string of digits without a leading zero |
| Strings.ParseNatToString | components/CartDrawer.tsx:61 | parsing the decimal rendering of `n` gives back `n` |
| Strings.NatToStringInjective | components/CartDrawer.tsx:61 | distinct indices render as distinct strings |
| Strings.IntToString | services/geminiService.ts:26 | `${p.price}` renders a non-empty string that starts with `-` exactly when the price is negative |
| Types.RoleName | types.ts:33 | a role renders as `"user"` or `"model"`, and as `"user"` exactly when it is the user role |
| Types.CategoryName | types.ts:17 | every category renders as a non-empty name, as `${p.category}` does at services/geminiService.ts:26 |
| Types.CategoryNameInjective | types.ts:17 | distinct categories render as distinct names |
| Images.CdnBase | config/images.ts:13 | the base is empty exactly when the variable is unset or empty; otherwise it is the variable |
| Images.UrlPrefix | config/images.ts:27-32 | the text before the path is `base + "/"` with a base and `"/attachments/"` without; it is non-empty and ends with `/` |
| Images.GetImageUrl | config/images.ts:22-33 | every URL starts with the prefix for its base; `UrlShape` gives the rest |
| Images.UrlShape | config/images.ts:22-33 | every URL is `base + "/"` (or `"/attachments/"` with no base) followed by the path; one leading slash is dropped only when a base is set |
| Images.ImagePathOf | config/images.ts:27-32 | stripping the prefix for a base returns a path that the prefix extends back to the URL, or nothing when the URL lacks the prefix |
| Images.ImagePathRoundTrip | config/images.ts:22-33 | without a base every path, and with a base every path without a leading slash, is recovered from its URL |
| Images.GetImageUrlInjective | config/images.ts:22-33 | distinct paths give distinct URLs: all paths without a base, paths without a leading slash with one |
| Images.LeadingSlashCollapses | config/images.ts:26-32 | with a base, `"/x"` and `"x"` give the same URL for `x` without a leading slash; without a base, the slash stays (`/attachments//x`) for every `x` |
| Images.OnlyOneSlashStripped | config/images.ts:26 | `"//x"` with a base yields `base + "//x"` |
| Images.ImageFilesVerbatim | config/images.ts:39-46 | no `IMAGE_FILES` value starts with `/`, so each is appended verbatim after the prefix |
| CartDrawer.FoldPrices | components/CartDrawer.tsx:19 | `reduce` over the prices from an accumulator, left to right; `FoldIsSum` ties it to the sum |
| CartDrawer.Total | components/CartDrawer.tsx:19 | `total` is the fold from 0; `TotalIsSum` ties it to the sum |
| CartDrawer.FoldIsSum | components/CartDrawer.tsx:19 | the left fold of prices from `acc` equals `acc` plus the sum of the prices |
| CartDrawer.TotalIsSum | components/CartDrawer.tsx:19 | the subtotal is the sum of the prices; an empty cart totals 0 |
| CartDrawer.TotalAppend | components/CartDrawer.tsx:19 | appending an item raises the subtotal by exactly its price |
| CartDrawer.TotalConcat | components/CartDrawer.tsx:19 | the subtotal distributes over concatenation |
| CartDrawer.TotalOfFreeItems | components/CartDrawer.tsx:19 | a cart of zero-priced pieces totals 0, with or without duplicates |
| CartDrawer.TotalNonNegative | components/CartDrawer.tsx:19 | non-negative prices give a non-negative subtotal |
| CartDrawer.HeaderTitle | components/CartDrawer.tsx:39 | the header text `Your Cart (n)`; `HeaderShowsCount` proves `n` is `items.length` |
| CartDrawer.HeaderShowsCount | components/CartDrawer.tsx:39 | the header reads `Your Cart (n)` where the digits parse to `items.length` |
| CartDrawer.ShowsEmptyState | components/CartDrawer.tsx:52 | the empty message shows exactly when the list is empty |
| CartDrawer.CheckoutDisabled | components/CartDrawer.tsx:95 | checkout is disabled exactly when the list is empty |
| CartDrawer.RowKey | components/CartDrawer.tsx:61 | the key is the id, then `-`, then the decimal index |
| CartDrawer.Rows | components/CartDrawer.tsx:60-75 | one row per item, in order; row `i` shows item `i`, its Remove passes `i`, its key is `${id}-${i}` |
| CartDrawer.EmptyStateExclusive | components/CartDrawer.tsx:52-95 | the empty message shows exactly when there are no rows, and checkout is disabled exactly then |
| CartDrawer.RemoveIndexInBounds | components/CartDrawer.tsx:60-75 | every Remove index lies in `[0, items.length)` and names the item of its row |
| CartDrawer.RowKeySuffix | components/CartDrawer.tsx:61 | two keys `id-d` whose suffixes contain no `-` are equal only if the suffixes are equal |
| CartDrawer.RowKeysDistinct | components/CartDrawer.tsx:61 | row keys are pairwise distinct even when the same product appears twice |
| GeminiService.ProductLine | services/geminiService.ts:26 | a product line starts with `- "name" ($` and ends with `.` |
| GeminiService.ProductLines | services/geminiService.ts:25-26 | one line per catalogue entry, in catalogue order |
| GeminiService.ProductLineSingleLine | services/geminiService.ts:26 | a product whose fields hold no line break gives a line with no line break |
| GeminiService.ProductContext | services/geminiService.ts:25-27 | the product lines joined by `\n`; `ProductContextLines` proves it splits back into them |
| GeminiService.ProductContextLines | services/geminiService.ts:25-27 | for a non-empty catalogue whose names, descriptions and features hold no line break, splitting the product context at line breaks gives back exactly the product lines; `PRODUCTS` (constants.ts:12-97, six entries, no line break in any of those fields) meets both conditions |
| GeminiService.SystemInstruction | services/geminiService.ts:23-60 | the fixed head, the product context and the fixed tail; `SystemInstructionEmbedsContext` locates each |
| GeminiService.SystemInstructionEmbedsContext | services/geminiService.ts:23-60 | the instruction is the fixed head, then the product context, then the fixed tail |
| GeminiService.MapHistory | services/geminiService.ts:85-88 | history is mapped one-to-one: same length, order and role, with the text as the single part |
| GeminiService.UnmapHistory | services/geminiService.ts:85-88 | reading a history back from single-part contents keeps its length |
| GeminiService.MapHistoryRoundTrip | services/geminiService.ts:85-88 | the mapping loses nothing: reading it back gives the original history |
| GeminiService.ApiKeyOf | services/geminiService.ts:64-72 | a failing `process.env` read is caught and leaves the key undefined |
| GeminiService.HasApiKey | services/geminiService.ts:74 | `!apiKey` is false exactly when the read did not throw and gave a defined, non-empty key |
| GeminiService.RequestFor | services/geminiService.ts:78-91 | the chat uses `gemini-2.5-flash`, the mapped history (one content per entry) and the new message unchanged |
| GeminiService.ServiceReply | services/geminiService.ts:62-98 | no key gives the missing-key text; with a key, an SDK failure gives the archives apology and a reply gives its text unchanged |
| GeminiService.SendMessage | services/geminiService.ts:62-98 | returns the reply above and never fails; it calls the SDK only with a key, with the mapped history and the new message |
| Assistant.HistoryOf | components/Assistant.tsx:35 | the history has one `{role, text}` entry per message, in order, with timestamps dropped |
| Assistant.IsBlank | components/Assistant.tsx:27 | `!inputValue.trim()` holds exactly when the input is all whitespace |
| Assistant.SdkHistoryOfTranscript | components/Assistant.tsx:35-36 | the SDK receives one content per transcript message, in order, with that message's role and text |
| Assistant.AppendKeepsTimeOrdered | components/Assistant.tsx:29-39 | appending a message stamped no earlier than the last keeps timestamps non-decreasing |
| Assistant.AssistantState.constructor | components/Assistant.tsx:11-17 | the panel starts closed and idle, with empty input and only the model's welcome message |
| Assistant.AssistantState.TogglePanel | components/Assistant.tsx:124 | the floating button flips `isOpen`, leaves the transcript alone and keeps the welcome message first |
| Assistant.AssistantState.ClosePanel | components/Assistant.tsx:64 | the close button closes the panel, leaves the transcript alone and keeps the welcome message first |
| Assistant.AssistantState.SetInput | components/Assistant.tsx:103 | typing replaces the input value and keeps the welcome message first |
| Assistant.AssistantState.SendDisabled | components/Assistant.tsx:110 | the send button is disabled exactly when the input is all whitespace or a reply is awaited |
| Assistant.AssistantState.BeginSend | components/Assistant.tsx:26-32 | a blank input changes nothing; otherwise one user message with the untrimmed text is appended, the input is cleared, thinking is set, and the pre-send transcript is handed on as history |
| Assistant.AssistantState.CompleteSend | components/Assistant.tsx:34-44 | a resolved call appends exactly one model message with the returned text, a rejected one appends nothing, and thinking ends either way |
| Assistant.AssistantState.HandleSend | components/Assistant.tsx:26-45 | a non-blank send ends with exactly the user message and the service's reply appended, the input empty and thinking cleared |
| Assistant.AssistantState.HandleKeyPress | components/Assistant.tsx:47-52 | Enter without Shift on a blank input changes nothing; on any other input it appends the untrimmed user message, clears the input, sets thinking and returns the request, with no `isThinking` check; other keys change nothing |
| Footer.NewsletterForm.constructor | components/Footer.tsx:28-29 | the form starts idle with an empty email |
| Footer.NewsletterForm.InputDisabled | components/Footer.tsx:92 | the input is disabled exactly when the status is not idle |
| Footer.NewsletterForm.ButtonDisabled | components/Footer.tsx:97 | the button is enabled exactly when idle with a non-empty email |
| Footer.NewsletterForm.HandleSubscribe | components/Footer.tsx:32-35 | an empty email is a no-op; any other (even whitespace) sets loading and schedules the timer, whatever the status |
| Footer.NewsletterForm.TimerFired | components/Footer.tsx:36-39 | the timer sets success and clears the email; status never moves backwards |
| Footer.NewsletterForm.EditEmail | components/Footer.tsx:90-92 | edits reach the email only while the input is enabled |
| Footer.NewsletterForm.ClickSubscribe | components/Footer.tsx:95-97 | a click reaches the handler only when enabled, moving idle to loading; success is never left |
| Navbar.CartLabelShowsCount | components/Navbar.tsx:97-131 | both cart buttons read `Cart (n)` where the digits parse to `cartCount` |
| Navbar.CartLabel | components/Navbar.tsx:97-131 | the caption `Cart (n)` of both cart buttons; `CartLabelShowsCount` proves `n` is `cartCount` |
| Navbar.NavbarState.constructor | components/Navbar.tsx:31-33 | the bar starts unscrolled with the menu closed |
| Navbar.NavbarState.HandleScroll | components/Navbar.tsx:37-39 | `scrolled` holds exactly when `scrollY > 50`, strictly |
| Navbar.NavbarState.HandleLinkClick | components/Navbar.tsx:45-48 | closes the menu and forwards the target unchanged, once |
| Navbar.NavbarState.HandleCartClick | components/Navbar.tsx:51-55 | closes the menu and calls `onOpenCart` exactly once |
| Navbar.NavbarState.HandleBrandClick | components/Navbar.tsx:73-77 | forwards the empty target `''` once, leaving the menu as it is |
| Navbar.NavbarState.ToggleMenu | components/Navbar.tsx:103 | the hamburger flips `mobileMenuOpen` |
| Navbar.NavbarState.TextColorClass | components/Navbar.tsx:58 | dark text exactly when scrolled or the menu is open; white text otherwise |
| Navbar.NavbarState.SolidBackground | components/Navbar.tsx:63-66 | the solid background is chosen by `scrolled || mobileMenuOpen`; `ContrastMatchesBackground` ties it to the text colour |
| Navbar.ContrastMatchesBackground | components/Navbar.tsx:58-64 | dark text comes exactly with the solid background |

## Left out

- The GoogleGenAI SDK and its network round trip (`services/geminiService.ts:78-91`) are an oracle parameter. `result.text` is taken to be a string; the SDK's possibly undefined `text` is not modelled.
- The `console.warn` / `console.error` logging in the service is not modelled: it is output only.
- Overlapping promises are not modelled. If Enter is pressed while a reply is awaited, two calls are in flight, and the order in which they resolve is concurrency. `BeginSend` and `CompleteSend` are separate sequential steps, and the model shows only that nothing stops a second `BeginSend`.
- The `history` in `handleSend` is the transcript captured at render time. In the sequential model that is the transcript before the new message.
- The auto-scroll effect (`components/Assistant.tsx:20-24`), the scroll-listener wiring (`components/Navbar.tsx:36-42`) and the brand link's `window.scrollTo` are DOM side effects and are not modelled. The `e.preventDefault()` calls in `handleKeyPress` (`components/Assistant.tsx:49`), `handleCartClick` (`components/Navbar.tsx:52`) and the brand link (`components/Navbar.tsx:74`) are not modelled either: they only stop the browser's default action.
- Hero scrolling and URL updates (`components/Hero.tsx`) use DOM geometry and the history API and are not part of this model.
- The 1500 ms timer delay is not modelled; only the firing event is.
- `Footer.NewsletterForm.EditEmail` and `Footer.NewsletterForm.ClickSubscribe` stand for DOM events. A disabled control delivers none, so they do nothing when disabled. The button's caption text is not modelled.
- Presentation components (About, Journal, ProductCard, ProductGrid), class names, SVG and the cart drawer's open/close styling are not modelled.
- The static content of `constants.ts` (the `PRODUCTS` and journal tables) is not transcribed. The catalogue is a parameter of the service. Its prices are all 0, which `CartDrawer.TotalOfFreeItems` covers for any such cart.
- `IMAGE_PRESETS` and image transforms are not part of `config/images.ts` and are not modelled; `getImageUrl` takes one path.
- Prices are JavaScript numbers. They are integers here, so floating-point rounding in the subtotal is not modelled, and neither is `${price}` formatting of fractions.
- `window.scrollY` is a real number; its value comes from the browser.
- Adding to and removing from the cart, and switching `ViewState`, belong to the root component, which is not part of this model. `ViewState` is declared as a datatype only.
- The transcript's text is a `seq<char>` of Unicode scalar values. JavaScript's UTF-16 code units are not modelled.
