# Hone Studio site logic, modelled in Dafny

This project models the logic of the Hone Studio marketing site (a Next.js
application) and proves properties of it. The modelled parts are:

- **Contact endpoint** (`POST /api/contact`). It parses the body and checks name, email and
  message independently. It answers 400 with every failing field at once, or 200 with a
  trimmed submission record.
- **Contact form.** It applies the same rules in the browser. It also handles the hidden
  honeypot field, clears a field's error when that input changes, and tracks the submission
  status.
- **Chat relay** (`POST /api/chat`). It validates the message and builds the provider
  conversation: an instructions turn, a fixed acknowledgement, then the visitor's history.
  It forwards the provider's non-empty text chunks and always closes the stream.
- **Chat widget.** `sendMessage` appends the visitor's message and a placeholder answer,
  grows the placeholder as the reply streams in, and replaces it with a fallback on
  failure.
- **Chat bubble formatter** (`formatText`). The text is split around bold, link and
  inline-code tokens. Each part is then rendered by how it starts and ends.
- **Portfolio filter.** The active pillar selects case studies and notable mentions.
- **Theme.** Covers how the first theme is chosen, the toggle, and how the theme is synced
  into local storage and the root element's classes. Also covers the script in the page
  head that picks the theme before hydration.
- **Section divider.** Resolves the divider's two gradient colours.
- **Sitemap.** Five static pages, then one entry per case study.

Files:
- `wrappers.dfy`: `Option`.
- `lists.dfy`: `filter` and what it keeps.
- `strings.dfy`: JavaScript's `trim`, its white-space set, `startsWith`/`endsWith`,
  `indexOf`, and string joining.
- One file per part of the site: `contact_route.dfy`, `contact_form.dfy`, `chat_route.dfy`,
  `chat_widget.dfy`, `chat_message.dfy`, `work_grid.dfy`, `theme.dfy`,
  `section_divider.dfy`, `sitemap.dfy`.
- `site_data.dfy`: the portfolio constants they read.

How the source is represented:
- Stateful pieces are classes whose methods change their fields. These are the form, the
  widget and the theme provider.
- The network, the model provider and the colour-scheme media query are parameters of the
  methods that use them.
- Local storage is the `storage` field of the theme provider. Its constructor receives the
  page's current storage and classes.
- `Array.prototype.filter` is defined once, in `lists.dfy`. Both the portfolio filter and
  the chat relay's dropping of empty chunks use it.

## Model

| member | source | states |
|---|---|---|
| Strings.Trim | src/app/api/contact/route.ts:27 | `trim()`: the result is no longer than the input and neither starts nor ends with JavaScript white space |
| Strings.BlankIffAllSpace | src/app/api/contact/route.ts:27-33 | a value fails `!x?.trim()` exactly when every character is white space |
| Strings.TrimIsSlice | src/app/api/contact/route.ts:27 | the trimmed text is the middle slice of the input, and everything cut from either end is JavaScript white space |
| Strings.TrimIdempotent | src/components/chat/ChatWidget.tsx:72 | trimming an already trimmed message changes nothing |
| ContactRoute.EmailRuleMatchesPattern | src/app/api/contact/route.ts:30 | the address rule (no white space, exactly one '@' with text before it, a '.' with text on both sides after it) holds exactly when the string matches `^[^\s@]+@[^\s@]+\.[^\s@]+$` |
| ContactRoute.IsValidEmail | src/app/api/contact/route.ts:30 | an accepted address has no white space and at least five characters; `EmailRuleMatchesPattern` gives the full equivalence with the pattern |
| ContactRoute.Errors | src/app/api/contact/route.ts:25-33 | each field is reported exactly when its own rule fails, with the endpoint's message; "required" and "invalid format" are exclusive for email |
| ContactRoute.NormaliseCompany | src/app/api/contact/route.ts:43 | the company is "" exactly when absent or blank, else its trimmed value |
| ContactRoute.Post | src/app/api/contact/route.ts:10-49 | status is 200 or 400; an unparsable body gives "Invalid request body"; a 400 for a parsed body carries every field error; a record exists exactly on 200 and holds the trimmed, non-empty name and message, the valid email, and the normalised company |
| ContactRoute.AcceptedEmailIsTrimmed | src/app/api/contact/route.ts:30-42 | an email that passes the shape test is unchanged by `trim()` |
| ContactRoute.MalformedEmailsRejected | src/app/api/contact/route.ts:30 | addresses without '@', without a dotted domain, with white space, with two '@' or with nothing before '@' are rejected |
| ContactRoute.ExampleEmailIsValid | src/app/api/contact/route.ts:30 | "ada@example.com" passes the shape test |
| ContactRoute.AcceptedIffNoErrors | src/app/api/contact/route.ts:35-48 | 200 exactly when no field has an error, i.e. name and message present and email present and well-formed |
| ContactRoute.AcceptsValidSubmission | src/app/api/contact/route.ts:40-48 | a valid submission without company gives 200 and the record (trimmed name, email, "", trimmed message) |
| ContactRoute.RejectsBlankName | src/app/api/contact/route.ts:27-36 | a blank name alone yields 400 with only the name error |
| ContactForm.With | src/components/ContactForm.tsx:46 | a change sets the named input and leaves the other three as they were |
| ContactForm.Cleared | src/components/ContactForm.tsx:48 | clearing removes the named input's error and keeps the others |
| ContactForm.Validate | src/components/ContactForm.tsx:20-30 | a blank name or message is required; a blank email is required, a non-blank one of the wrong shape is invalid, and a well-formed one has no error |
| ContactForm.PayloadOf | src/components/ContactForm.tsx:70 | the posted JSON carries the four form values unchanged, every member present |
| ContactForm.ValidateAgreesWithEndpoint | src/components/ContactForm.tsx:20-30 | the client flags exactly the fields the endpoint flags; only the malformed-address wording differs |
| ContactForm.ValidFormIsAccepted | src/components/ContactForm.tsx:58-71 | a form that passes client validation is accepted by the endpoint with the trimmed record |
| ContactForm.CompanyIsNeverValidated | src/components/ContactForm.tsx:20-30 | the company value never changes the validation result |
| ContactForm.Form.constructor | src/components/ContactForm.tsx:33-41 | empty values, empty honeypot, no errors, idle |
| ContactForm.Form.HandleChange | src/components/ContactForm.tsx:43-50 | stores the value and clears that input's error only if one is shown; other errors, honeypot and status unchanged |
| ContactForm.Form.HandleHoneypotChange | src/components/ContactForm.tsx:122 | stores the honeypot value and nothing else |
| ContactForm.Form.HandleSubmit | src/components/ContactForm.tsx:52-78 | a filled honeypot does nothing; failed validation shows the errors and posts nothing; otherwise posts the form and goes submitting then success or error |
| ChatRoute.PageContext | src/app/api/chat/route.ts:19 | the page note is empty exactly when the page is absent or empty, and names the page otherwise |
| ChatRoute.ProviderHistory | src/app/api/chat/route.ts:22-36 | the conversation is the instructions turn (prefix, system prompt, page note), the acknowledgement, then each history entry in order with its role passed through |
| ChatRoute.Prepare | src/app/api/chat/route.ts:7-17 | unparsable body or blank message gives 400 and no provider call; otherwise the call carries the message unchanged and the built conversation |
| ChatRoute.Delivered | src/app/api/chat/route.ts:45-52 | the chunks read are a prefix of the provider's chunks, ending just before the read that throws, and all of them when no read inside the list throws |
| ChatRoute.NonEmpty | src/app/api/chat/route.ts:47 | the forwarded chunks are an order-kept sub-list of the chunks, holding every non-empty chunk as often as it occurs and no empty one |
| ChatRoute.NonEmptyKeepsText | src/app/api/chat/route.ts:46-48 | dropping empty chunks does not change the text |
| ChatRoute.Forward | src/app/api/chat/route.ts:43-56 | enqueues the non-empty delivered chunks in order, the same text as delivered; logs exactly when a read up to the one reporting the end throws; closes exactly once |
| ChatRoute.Post | src/app/api/chat/route.ts:4-72 | the 400 cases, a 500 with no stream when setup throws, otherwise a 200 plain-text stream of the delivered text closed once |
| ChatWidget.RemoveFirstSlash | src/components/chat/ChatWidget.tsx:81 | `replace("/", "")` removes exactly the first '/', keeping what is before and after it, and changes nothing when there is none |
| ChatWidget.PageSlug | src/components/chat/ChatWidget.tsx:81 | the slug is the path without its first '/', or "home" when that is empty; never empty |
| ChatWidget.PageSlugExamples | src/components/chat/ChatWidget.tsx:81 | "/" gives "home", "/work" gives "work", a case-study path keeps its inner '/' |
| ChatWidget.PageSlugOfPath | src/components/chat/ChatWidget.tsx:81 | for any path starting with '/', the slug is the rest of the path, "home" for the root; the slug is "home" exactly for "/" and "/home" |
| ChatWidget.BodyOf | src/components/chat/ChatWidget.tsx:82-87 | the posted body carries the message, the page and one history entry per earlier message with its role name and text |
| ChatWidget.WidgetRequestsAreRelayed | src/components/chat/ChatWidget.tsx:70-87 | every request the widget sends passes the relay's checks; the relay gets the trimmed message, opens with the instructions turn carrying the non-empty page note for the widget's slug and the acknowledgement, then the history in order |
| ChatWidget.RelayedReplyIsShownWhole | src/components/chat/ChatWidget.tsx:96-108 | a relayed stream ends with the placeholder holding exactly the text the provider delivered |
| ChatWidget.FinalText | src/components/chat/ChatWidget.tsx:96-117 | the placeholder ends as the fallback when the request fails or a read up to the one reporting the end throws, and as the whole streamed text otherwise |
| ChatWidget.PairAppended | src/components/chat/ChatWidget.tsx:73-78 | appending a visitor entry and a model entry keeps the list alternating |
| ChatWidget.Widget.constructor | src/components/chat/ChatWidget.tsx:20-22 | no messages, empty input, not streaming |
| ChatWidget.Widget.SetInput | src/components/chat/ChatWidget.tsx:231 | sets the input text only |
| ChatWidget.Widget.SendMessage | src/components/chat/ChatWidget.tsx:68-123 | blank text or a send in progress changes nothing; otherwise it posts the trimmed text, the earlier messages and the slug, and clears the input; the placeholder shows the accumulated text once per successful read (none on a failed request) and ends as the final answer (the whole reply, or the fallback on failure); no longer streaming |
| ChatWidget.Widget.ReadReply | src/components/chat/ChatWidget.tsx:96-117 | one placeholder update per chunk read before the failing read, each the text so far; the placeholder ends as the final text; input and streaming flag unchanged |
| ChatWidget.Widget.ReplaceLast | src/components/chat/ChatWidget.tsx:103-107 | replaces the last entry (the placeholder) with a model entry holding the new text, keeping the rest |
| ChatMessage.MatchAt | src/components/chat/ChatMessage.tsx:12 | a match found at a position is a whole bold, link or code token |
| ChatMessage.MatchAtFindsToken | src/components/chat/ChatMessage.tsx:12 | wherever a whole token starts, the pattern matches exactly that token |
| ChatMessage.SplitFrom | src/components/chat/ChatMessage.tsx:12 | the scan from a position yields an odd number of parts that join to the rest of the text |
| ChatMessage.Split | src/components/chat/ChatMessage.tsx:12 | an odd number of parts that join to give back the text |
| ChatMessage.SplitParts | src/components/chat/ChatMessage.tsx:12 | the parts of the split alternate: odd positions are whole tokens, and no token starts inside a plain part (leftmost-first matching) |
| ChatMessage.LeftmostMatchWins | src/components/chat/ChatMessage.tsx:12 | "**a**b**" splits at the bold token "**a**": the decomposition ["**a", "**b**", ""] joins to the same text but does not alternate |
| ChatMessage.SplitIsUnique | src/components/chat/ChatMessage.tsx:12 | any decomposition that joins to the text and alternates in that sense is the split, so the rule determines it |
| ChatMessage.Inner | src/components/chat/ChatMessage.tsx:18-39 | `slice(n, -n)` is the middle of the part, or "" when the part is shorter than 2n |
| ChatMessage.Render | src/components/chat/ChatMessage.tsx:14-44 | bold exactly for "**…**" parts with `slice(2, -2)`; a link exactly for a whole link token, its markup recovered, with `target="_blank"` and `rel="noopener noreferrer"` when its target starts with "http" and neither otherwise; code exactly for "`…`" parts with `slice(1, -1)`; anything else is its own text |
| ChatMessage.FormatText | src/components/chat/ChatMessage.tsx:14 | one node per part, in order, each node the rendering of its part |
| ChatMessage.FormattedTokens | src/components/chat/ChatMessage.tsx:12-44 | every token of the text becomes a bold, link or code node from which the token's markup is recovered |
| ChatMessage.TokenRendering | src/components/chat/ChatMessage.tsx:14-44 | each token renders as its own kind and its markup is recovered from the node; a link's target is `"_blank"` and its rel `"noopener noreferrer"` when its target starts with "http", and both are absent otherwise |
| ChatMessage.LinkTarget | src/components/chat/ChatMessage.tsx:21-33 | a link token renders as a link whose markup is the token; its target is `"_blank"` and its rel `"noopener noreferrer"` when the target starts with "http", and both are absent otherwise |
| ChatMessage.LinkRendering | src/components/chat/ChatMessage.tsx:21-33 | a link token has one label/target split (the first ']' closes the label); the node's text is that label and its target that target |
| ChatMessage.PlainMarkersRenderEmpty | src/components/chat/ChatMessage.tsx:15-39 | a plain "**", "***" or lone backtick renders as empty bold or code |
| ChatMessage.OtherPartsUnchanged | src/components/chat/ChatMessage.tsx:43 | a part that is not marked at both ends and is not a whole link is rendered as its own text |
| Lists.Keep | src/components/WorkGrid.tsx:20-25 | the filter keeps exactly the items satisfying the predicate |
| Lists.KeepIsSubsequence | src/components/WorkGrid.tsx:20-25 | the filtered list is a sub-list of the original, order kept |
| Lists.KeepCounts | src/components/WorkGrid.tsx:20-25 | every wanted item is kept as often as it occurs; other items do not appear |
| WorkGrid.Visible | src/components/WorkGrid.tsx:17-25 | "All" returns the list unchanged; otherwise an item is shown exactly when its pillars include the filter |
| WorkGrid.FilteredStudies | src/components/WorkGrid.tsx:17-20 | a case study is shown exactly when the filter is "All" or one of its pillars |
| WorkGrid.FilteredMentions | src/components/WorkGrid.tsx:22-25 | a mention is shown exactly when the filter is "All" or one of its pillars |
| WorkGrid.View | src/components/WorkGrid.tsx:27-145 | the mentions block shows exactly when a mention is kept; the empty notice exactly when both lists are empty |
| WorkGrid.VisibleIsSublist | src/components/WorkGrid.tsx:17-25 | for any filter the shown list is an order-preserving sub-list with the kept items' full counts |
| WorkGrid.InitialViewShowsEverything | src/components/WorkGrid.tsx:15-25 | the grid starts on "All", showing both lists unchanged and no notice |
| WorkGrid.EmptyNoticeIffNoItemHasPillar | src/components/WorkGrid.tsx:27-145 | for a pillar filter, the notice shows exactly when no case study and no mention carries the pillar |
| WorkGrid.EveryFilterHasResults | src/lib/data.ts:20-258 | with the shipped data no filter button gives the empty notice |
| SiteData.ShippedSlugsDistinct | src/lib/data.ts:28-100 | the three shipped slugs differ |
| Theme.Parse | src/components/ThemeProvider.tsx:25-26 | a stored value names a theme exactly when it is "light" or "dark" |
| Theme.Toggle | src/components/ThemeProvider.tsx:46 | the toggle always changes the theme |
| Theme.ToggleTwice | src/components/ThemeProvider.tsx:46 | toggling twice restores the theme |
| Theme.Resolve | src/components/ThemeProvider.tsx:24-31 | a stored "light"/"dark" wins; else a light preference gives light; else the theme stays |
| Theme.ScriptRemovesDark | src/app/layout.tsx:66 | the head script drops "dark" for a stored "light" and keeps it for a stored "dark" |
| Theme.ScriptAgreesWithProvider | src/app/layout.tsx:66 | the script and the provider agree except for a stored value other than "light", "dark" or "" under a light preference |
| Theme.ThemeProvider.constructor | src/components/ThemeProvider.tsx:22 | the theme starts dark |
| Theme.ThemeProvider.Sync | src/components/ThemeProvider.tsx:33-41 | afterwards "hone-theme" holds the theme's name and the root has "dark" exactly for the dark theme; other classes and keys unchanged |
| Theme.ThemeProvider.Mount | src/components/ThemeProvider.tsx:24-41 | after mounting, the theme is the resolution of the stored value and preference; storage changes only at "hone-theme", classes only at "dark", and both are in sync |
| Theme.ThemeProvider.ToggleTheme | src/components/ThemeProvider.tsx:43-48 | flips the theme; storage changes only at "hone-theme"; classes change only at "dark" and "theme-switching", which is added; storage and classes stay in sync |
| Theme.ThemeProvider.SwitchingTimerFires | src/components/ThemeProvider.tsx:47 | the timer removes "theme-switching" only, keeping the sync |
| Theme.StoredChoiceIsRestored | src/components/ThemeProvider.tsx:26-40 | a stored theme is chosen again on the next mount, whatever the preference |
| SectionDivider.Lookup | src/components/SectionDivider.tsx:30-31 | a palette name gives its palette value, a name inherited from `Object.prototype` (such as "toString") the inherited member, and any other name the fallback |
| SectionDivider.Colours | src/components/SectionDivider.tsx:27-31 | each of the two colours is a palette value, an inherited `Object.prototype` member, or the raw `from`/`to` prop |
| SectionDivider.DarkIgnoresLightProps | src/components/SectionDivider.tsx:27-31 | in the dark theme only `from` and `to` are looked up |
| SectionDivider.LightUsesLightProps | src/components/SectionDivider.tsx:30-31 | in the light theme `lightFrom`/`lightTo` are looked up, an absent one acting as `from`/`to` |
| SectionDivider.UnknownNameFallsBackToProp | src/components/SectionDivider.tsx:30-31 | in the light theme a light name that is neither a palette name nor an inherited one gives the raw `from`/`to` prop, never the name itself; an inherited name gives the inherited member |
| SectionDivider.PaletteValues | src/components/SectionDivider.tsx:5-12 | the six names and their hex values; "toString" finds the inherited member |
| Sitemap.StudyEntry | src/app/sitemap.ts:15-19 | a case study's URL is the base, "/work/" and its slug, with priority 0.7 |
| Sitemap.Entries | src/app/sitemap.ts:4-21 | five static entries first, in order, then one entry per case study in list order |
| Sitemap.Sitemap | src/app/sitemap.ts:4-21 | the sitemap has 5 + (number of case studies) entries |
| Sitemap.AllUrlsUnderBase | src/app/sitemap.ts:5 | every URL starts with "https://honestudio.co" |
| Sitemap.PrioritiesDescend | src/app/sitemap.ts:8-18 | priorities never increase down the list, and every case study has 0.7 |
| Sitemap.UrlsDistinct | src/app/sitemap.ts:7-21 | with distinct slugs no URL appears twice |
| Sitemap.ShippedSitemap | src/app/sitemap.ts:15-21 | the shipped sitemap has 8 entries, the three case studies in list order, with distinct URLs all on the origin |

## Left out

- The 600 ms delay of the theme-switching timer is not modelled: `SwitchingTimerFires` is its callback, run whenever the timer fires.
- The contact record's timestamp and the sitemap's `lastModified` (clock values) are not modelled.
- The console logging of the contact submission is not modelled. The chat relay's error log is reduced to a flag.
- JSON members that are not strings, and a body that parses to `null`, are not modelled. A present member is a string and an absent one is `None`.
- The model provider is a parameter. `setupFails` stands for an exception from `startChat` or `sendMessageStream`. A `ProviderStream` gives the chunk texts and the read that throws. The system prompt and the `model` client (`src/lib/gemini-client.ts`) are not part of this model.
- Text is a sequence of characters. The UTF-8 encoding of enqueued chunks, and the browser's `TextDecoder` splitting multi-byte characters across reads, are not modelled: a chunk the relay sends is the chunk the widget appends.
- ContactForm.Form.HandleSubmit: the network is one flag, `responseOk`. A thrown `fetch` and a non-ok response both count as "not ok". The status sequence is returned instead of being observed by re-renders.
- ChatWidget.Widget.SendMessage: React's batched state updates are modelled as direct field updates in program order. The reply is one `ChatReply` value. A failed request, a non-ok status and a missing body are all `RequestFailed`.
- The widget's submit and Enter-key handlers only call `sendMessage` with the current input, so they are not modelled separately. The quick-prompt buttons are left out too. So are the open/close state, focus trap, auto-scroll and focus effects, which are DOM effects.
- The chat bubble's role-dependent alignment and labels, the rendered markup's CSS classes, and every other presentational detail are not modelled. The same goes for framer-motion animation and the success panel of the contact form.
- The theme context's default value (the no-op toggle used outside the provider) is not modelled. Storage exceptions in the head script (`try`/`catch`) are not modelled.
- `src/lib/data.ts` is reduced to the fields the filter and sitemap read (client, slug, pillars, url). The static pages, the knowledge base and the other site pages are markup only and are not part of this model.
- The text React makes of an inherited `Object.prototype` member used as a divider colour is not modelled: `SectionDivider.Colour` keeps it as `Inherited(name)`.
- The "depends only on the theme and the four props" property of the divider holds by construction: `SectionDivider.Colours` is a function.
