# Karuna Dev site logic, modelled in Dafny

This project models the client-side logic of the Karuna Dev marketing site, a React application. It covers six parts of the site.

- **AI consultant chat.** The chat exists in three copies: the floating widget `AIChatbot.tsx` and the chats of the two presentation decks, `PresentationDeck.tsx` and `ElectronicsDeck.tsx`. The model covers:
  - the transcript, the greeting each copy seeds and re-localises;
  - `sendMessage`, split into its two halves. The guard, the user message and the request come before the network call. The reply, the apology or the fallback, and the WhatsApp call to action come after it;
  - the requirements summary and the deck hand-off texts handed to WhatsApp.
- **The language context** (`LanguageContext.tsx`): the `en`/`es` dictionary with all 128 entries of each locale, the lookup `t` that falls back to the key, and the shared language cell.
- **The project gallery** (`ProjectCases.tsx`): the fifteen example projects, the category filter set by the tabs or by a `filterProjects` event, the detail view, the three-tag cards and the WhatsApp inquiry.
- **The navigation bar** (`Navbar.tsx`): the scroll threshold, the mobile menu, scrolling with a filter handed on to the gallery, the language switch and the pre-filled WhatsApp text.
- **The decks' PDF export flag and delivery-flow rendering.**
- **How the bar's filters land in the gallery.**

JavaScript semantics are written out where the logic depends on them:
- `||` on strings treats the empty string as false;
- `trim` removes exactly the ECMAScript white-space and line-terminator code points;
- `length` counts UTF-16 code units;
- `includes`, `startsWith`, `join` and `split` are defined on `seq<char>`.

Components that change state are classes whose methods say what each field becomes. The texts and lookups they use are functions, with lemmas for what they promise.

The modules are:
- `Wrappers` (`Option`, `Result`) and `Text` (the string operations);
- `WhatsApp` (the `wa.me` link);
- `Translations` (the dictionary) and `LanguageContext` (`t`, the provider, `useLanguage`);
- `Chat` (the three chats, with one `ChatController` class and a `variant` for the copy);
- `Decks`, `Projects`, `Navbar` and `Site` (bar and gallery together).

In these places the site behaves in ways worth noting; the model follows the code:
- A response without content (an empty `choices` array, or empty content) gives the apology text, not the failure fallback, and it does not force the call to action. Only a thrown error gives the fallback. The fallback does satisfy the phrase test, as `Chat.FallbackMentionsHandOff` proves.
- The floating widget's greeting and system prompt are fixed English texts; they do not depend on the language.
- Closing the floating widget hides it but keeps its transcript. A reply that arrives after closing is still appended, because the component stays mounted.
- The length rule of the call to action counts the transcript as it was before the user message: 6 messages in the widget, 2 in the decks.
- The decks raise the call to action on length and on failure only; they have no phrase test.
- Two of the navigation bar's service filters, `AI Education Platform` and `Chatbot Automation`, name no category of the gallery. Choosing either one shows an empty grid, as `Site.ServiceFilterResults` proves.

## Model

| member | source | states |
|---|---|---|
| Text.Trim | src/components/ui/AIChatbot.tsx:88 | `trim()` is empty exactly when the input is blank, and otherwise neither starts nor ends with white space |
| Text.TrimIsInner | src/components/ui/AIChatbot.tsx:88 | `trim()` gives the part of the input between a white-space prefix and a white-space suffix |
| Text.TrimUnique | src/components/ui/AIChatbot.tsx:88 | any such part that neither starts nor ends with white space is the result of `trim()`, so the result is determined |
| Text.InnerUnique | src/components/ui/AIChatbot.tsx:88 | two parts between white space with non-white ends are the same part |
| Text.TrimIdempotent | src/components/ui/AIChatbot.tsx:88-93 | trimming the already trimmed input changes nothing, so the content sent is the content the guard looked at |
| Text.ContainsIff | src/components/ui/AIChatbot.tsx:136-138 | `includes` holds exactly when the phrase occurs at some position |
| Text.LowerKeepsOccurrence | src/components/ui/AIChatbot.tsx:136 | lower-casing the reply keeps every occurrence of a phrase, lower-cased |
| Text.Utf16Length | src/pages/PresentationDeck.tsx:89 | `length` counts UTF-16 code units: between one and two per character |
| Text.JoinEmptyIff | src/pages/PresentationDeck.tsx:90 | a join is empty exactly when there is no part or one empty part |
| Text.JoinContainsParts | src/components/ui/AIChatbot.tsx:72 | every part of a join occurs in it |
| Text.Split | src/pages/PresentationDeck.tsx:326 | `split` always gives at least one piece |
| Text.SplitHeadPrefix | src/pages/PresentationDeck.tsx:326 | the first piece of a split is a prefix of the string |
| Text.SplitPiecesFree | src/pages/PresentationDeck.tsx:326 | no piece of a split contains the separator |
| Text.JoinSplit | src/pages/PresentationDeck.tsx:326 | joining the pieces of a split by the separator gives back the string, for every string |
| Text.SplitJoin | src/pages/PresentationDeck.tsx:326 | splitting a join by its separator gives back the parts when no part holds the separator |
| WhatsApp.Link | src/components/ui/AIChatbot.tsx:84 | the link is the `wa.me` address of 527202533388 followed by the encoded text, which can be read back from it |
| Translations.Toggled | src/pages/ElectronicsDeck.tsx:170 | the toggle always switches to the other language |
| Translations.ToggleTwice | src/pages/PresentationDeck.tsx:218 | toggling twice gives back the language |
| Translations.EnNavbarKey | src/context/LanguageContext.tsx:14-23 | lookup bookkeeping, not a promise of the site: a key of the Navbar section of the `en` block sits at a position below 8 and starts with `n`; these facts feed `ParallelBlocks`, `NoKeyStartsWithE` and `NoElecEntry` |
| Translations.EnAboutKey | src/context/LanguageContext.tsx:24-35 | lookup bookkeeping, not a promise of the site: a key of the About section of the `en` block sits at a position below 10 and starts with `a`; these facts feed `ParallelBlocks`, `NoKeyStartsWithE` and `NoElecEntry` |
| Translations.EnProjectsKey | src/context/LanguageContext.tsx:36-50 | lookup bookkeeping, not a promise of the site: a key of the Projects section of the `en` block sits at a position below 13 and starts with `p`; these facts feed `ParallelBlocks`, `NoKeyStartsWithE` and `NoElecEntry` |
| Translations.EnNioLearningKey | src/context/LanguageContext.tsx:51-61 | lookup bookkeeping, not a promise of the site: a key of the NIO Learning section of the `en` block sits at a position below 9 and starts with `n`; these facts feed `ParallelBlocks`, `NoKeyStartsWithE` and `NoElecEntry` |
| Translations.EnCrickettKey | src/context/LanguageContext.tsx:62-72 | lookup bookkeeping, not a promise of the site: a key of the Crickett section of the `en` block sits at a position below 9 and starts with `c`; these facts feed `ParallelBlocks`, `NoKeyStartsWithE` and `NoElecEntry` |
| Translations.EnContactKey | src/context/LanguageContext.tsx:73-76 | lookup bookkeeping, not a promise of the site: a key of the Contact section of the `en` block sits at a position below 2 and starts with `c`; these facts feed `ParallelBlocks`, `NoKeyStartsWithE` and `NoElecEntry` |
| Translations.EnChatbotKey | src/context/LanguageContext.tsx:77-83 | lookup bookkeeping, not a promise of the site: a key of the Chatbot section of the `en` block sits at a position below 5 and starts with `c`; these facts feed `ParallelBlocks`, `NoKeyStartsWithE` and `NoElecEntry` |
| Translations.EnDeckKey | src/context/LanguageContext.tsx:84-90 | lookup bookkeeping, not a promise of the site: a key of the Presentation Deck section of the `en` block sits at a position below 5 and starts with `d`; these facts feed `ParallelBlocks`, `NoKeyStartsWithE` and `NoElecEntry` |
| Translations.EnSaasKey | src/context/LanguageContext.tsx:91-100 | lookup bookkeeping, not a promise of the site: a key of the SaaS section of the `en` block sits at a position below 8 and starts with `d`; these facts feed `ParallelBlocks`, `NoKeyStartsWithE` and `NoElecEntry` |
| Translations.EnLlmKey | src/context/LanguageContext.tsx:101-110 | lookup bookkeeping, not a promise of the site: a key of the LLM section of the `en` block sits at a position below 8 and starts with `d`; these facts feed `ParallelBlocks`, `NoKeyStartsWithE` and `NoElecEntry` |
| Translations.EnSupportAutomationKey | src/context/LanguageContext.tsx:111-120 | lookup bookkeeping, not a promise of the site: a key of the Support Automation section of the `en` block sits at a position below 8 and starts with `d`; these facts feed `ParallelBlocks`, `NoKeyStartsWithE` and `NoElecEntry` |
| Translations.EnSapKey | src/context/LanguageContext.tsx:121-130 | lookup bookkeeping, not a promise of the site: a key of the SAP section of the `en` block sits at a position below 8 and starts with `d`; these facts feed `ParallelBlocks`, `NoKeyStartsWithE` and `NoElecEntry` |
| Translations.EnEducationKey | src/context/LanguageContext.tsx:131-140 | lookup bookkeeping, not a promise of the site: a key of the Education section of the `en` block sits at a position below 8 and starts with `d`; these facts feed `ParallelBlocks`, `NoKeyStartsWithE` and `NoElecEntry` |
| Translations.EnApproachKey | src/context/LanguageContext.tsx:141-150 | lookup bookkeeping, not a promise of the site: a key of the Approach section of the `en` block sits at a position below 8 and starts with `d`; these facts feed `ParallelBlocks`, `NoKeyStartsWithE` and `NoElecEntry` |
| Translations.EnDeliveryKey | src/context/LanguageContext.tsx:151-155 | lookup bookkeeping, not a promise of the site: a key of the Delivery section of the `en` block sits at a position below 3 and starts with `d`; these facts feed `ParallelBlocks`, `NoKeyStartsWithE` and `NoElecEntry` |
| Translations.EnCtaKey | src/context/LanguageContext.tsx:156-167 | lookup bookkeeping, not a promise of the site: a key of the CTA section of the `en` block sits at a position below 10 and starts with `d`; these facts feed `ParallelBlocks`, `NoKeyStartsWithE` and `NoElecEntry` |
| Translations.EnAiConsultantKey | src/context/LanguageContext.tsx:168-174 | lookup bookkeeping, not a promise of the site: a key of the AI Consultant section of the `en` block sits at a position below 6 and starts with `d`; these facts feed `ParallelBlocks`, `NoKeyStartsWithE` and `NoElecEntry` |
| Translations.EsNavbarKey | src/context/LanguageContext.tsx:177-186 | lookup bookkeeping, not a promise of the site: a key of the Navbar section of the `es` block sits at a position below 8 and starts with `n`; these facts feed `ParallelBlocks`, `NoKeyStartsWithE` and `NoElecEntry` |
| Translations.EsAboutKey | src/context/LanguageContext.tsx:187-198 | lookup bookkeeping, not a promise of the site: a key of the About section of the `es` block sits at a position below 10 and starts with `a`; these facts feed `ParallelBlocks`, `NoKeyStartsWithE` and `NoElecEntry` |
| Translations.EsProjectsKey | src/context/LanguageContext.tsx:199-213 | lookup bookkeeping, not a promise of the site: a key of the Projects section of the `es` block sits at a position below 13 and starts with `p`; these facts feed `ParallelBlocks`, `NoKeyStartsWithE` and `NoElecEntry` |
| Translations.EsNioLearningKey | src/context/LanguageContext.tsx:214-224 | lookup bookkeeping, not a promise of the site: a key of the NIO Learning section of the `es` block sits at a position below 9 and starts with `n`; these facts feed `ParallelBlocks`, `NoKeyStartsWithE` and `NoElecEntry` |
| Translations.EsCrickettKey | src/context/LanguageContext.tsx:225-235 | lookup bookkeeping, not a promise of the site: a key of the Crickett section of the `es` block sits at a position below 9 and starts with `c`; these facts feed `ParallelBlocks`, `NoKeyStartsWithE` and `NoElecEntry` |
| Translations.EsContactKey | src/context/LanguageContext.tsx:236-239 | lookup bookkeeping, not a promise of the site: a key of the Contact section of the `es` block sits at a position below 2 and starts with `c`; these facts feed `ParallelBlocks`, `NoKeyStartsWithE` and `NoElecEntry` |
| Translations.EsChatbotKey | src/context/LanguageContext.tsx:240-246 | lookup bookkeeping, not a promise of the site: a key of the Chatbot section of the `es` block sits at a position below 5 and starts with `c`; these facts feed `ParallelBlocks`, `NoKeyStartsWithE` and `NoElecEntry` |
| Translations.EsDeckKey | src/context/LanguageContext.tsx:247-253 | lookup bookkeeping, not a promise of the site: a key of the Presentation Deck section of the `es` block sits at a position below 5 and starts with `d`; these facts feed `ParallelBlocks`, `NoKeyStartsWithE` and `NoElecEntry` |
| Translations.EsSaasKey | src/context/LanguageContext.tsx:254-263 | lookup bookkeeping, not a promise of the site: a key of the SaaS section of the `es` block sits at a position below 8 and starts with `d`; these facts feed `ParallelBlocks`, `NoKeyStartsWithE` and `NoElecEntry` |
| Translations.EsLlmKey | src/context/LanguageContext.tsx:264-273 | lookup bookkeeping, not a promise of the site: a key of the LLM section of the `es` block sits at a position below 8 and starts with `d`; these facts feed `ParallelBlocks`, `NoKeyStartsWithE` and `NoElecEntry` |
| Translations.EsSupportAutomationKey | src/context/LanguageContext.tsx:274-283 | lookup bookkeeping, not a promise of the site: a key of the Support Automation section of the `es` block sits at a position below 8 and starts with `d`; these facts feed `ParallelBlocks`, `NoKeyStartsWithE` and `NoElecEntry` |
| Translations.EsSapKey | src/context/LanguageContext.tsx:284-293 | lookup bookkeeping, not a promise of the site: a key of the SAP section of the `es` block sits at a position below 8 and starts with `d`; these facts feed `ParallelBlocks`, `NoKeyStartsWithE` and `NoElecEntry` |
| Translations.EsEducationKey | src/context/LanguageContext.tsx:294-303 | lookup bookkeeping, not a promise of the site: a key of the Education section of the `es` block sits at a position below 8 and starts with `d`; these facts feed `ParallelBlocks`, `NoKeyStartsWithE` and `NoElecEntry` |
| Translations.EsApproachKey | src/context/LanguageContext.tsx:304-313 | lookup bookkeeping, not a promise of the site: a key of the Approach section of the `es` block sits at a position below 8 and starts with `d`; these facts feed `ParallelBlocks`, `NoKeyStartsWithE` and `NoElecEntry` |
| Translations.EsDeliveryKey | src/context/LanguageContext.tsx:314-318 | lookup bookkeeping, not a promise of the site: a key of the Delivery section of the `es` block sits at a position below 3 and starts with `d`; these facts feed `ParallelBlocks`, `NoKeyStartsWithE` and `NoElecEntry` |
| Translations.EsCtaKey | src/context/LanguageContext.tsx:319-330 | lookup bookkeeping, not a promise of the site: a key of the CTA section of the `es` block sits at a position below 10 and starts with `d`; these facts feed `ParallelBlocks`, `NoKeyStartsWithE` and `NoElecEntry` |
| Translations.EsAiConsultantKey | src/context/LanguageContext.tsx:331-337 | lookup bookkeeping, not a promise of the site: a key of the AI Consultant section of the `es` block sits at a position below 6 and starts with `d`; these facts feed `ParallelBlocks`, `NoKeyStartsWithE` and `NoElecEntry` |
| Translations.ParallelBlocks | src/context/LanguageContext.tsx:13-338 | the two blocks list the same keys in the same sections and positions |
| Translations.SameKeys | src/context/LanguageContext.tsx:13-338 | a key has an entry in one locale exactly when it has one in the other |
| Translations.NoKeyStartsWithE | src/context/LanguageContext.tsx:13-338 | no key of either block starts with `e` |
| Translations.NoElecEntry | src/context/LanguageContext.tsx:13-338 | neither block has an entry for a key starting with `elec.` |
| Translations.DeliveryFlow | src/context/LanguageContext.tsx:153 | the flow text of each locale, the second text of its Delivery section (line 316 for Spanish), is not empty |
| Translations.DeliveryFlowPlace | src/context/LanguageContext.tsx:151-154 | `deck.delivery.flow` is the second key of the Delivery section in both blocks |
| Translations.DeliveryFlowText | src/context/LanguageContext.tsx:153 | looking up the second place of the Delivery section gives the flow, in both blocks |
| Translations.DeliveryFlowEntry | src/context/LanguageContext.tsx:153 | the dictionary maps `deck.delivery.flow` to the flow of the locale |
| LanguageContext.T | src/context/LanguageContext.tsx:346-348 | `t` gives the entry when it is present and non-empty, and the key otherwise; it is empty only for the empty key |
| LanguageContext.MissingKeyShowsKey | src/context/LanguageContext.tsx:347 | a key without an entry is shown as itself |
| LanguageContext.ElecKeyShowsKey | src/context/LanguageContext.tsx:347 | every `elec.` key is shown as itself, in either language |
| LanguageContext.DeliveryFlowLookup | src/context/LanguageContext.tsx:347 | `t('deck.delivery.flow')` is the flow of the active locale |
| LanguageContext.LanguageProvider.constructor | src/context/LanguageContext.tsx:344 | the language starts as English |
| LanguageContext.LanguageProvider.SetLanguage | src/context/LanguageContext.tsx:344 | `setLanguage` sets the language and nothing else |
| LanguageContext.LanguageProvider.ToggleLanguage | src/pages/PresentationDeck.tsx:218 | the toggle switches to the other language |
| LanguageContext.UseLanguage | src/context/LanguageContext.tsx:357-362 | `useLanguage` fails, with its fixed message, exactly when there is no provider, and otherwise gives the provider |
| Chat.ApiView | src/components/ui/AIChatbot.tsx:111 | each transcript entry is posted with its own role and content, in order |
| Chat.RequestFor | src/components/ui/AIChatbot.tsx:107-116 | the request names `grok-3-mini-fast`, 200 tokens (300 for the decks), temperature 0.7, and posts the system prompt, the transcript before the send, then the new user message |
| Chat.ElectronicsGreetingIsKey | src/pages/ElectronicsDeck.tsx:54-62 | the electronics deck greets with the text `elec.consultant.greeting`, in either language |
| Chat.ReplyText | src/components/ui/AIChatbot.tsx:124-151 | the assistant message is the reply if non-empty, the apology if the reply is missing or empty, the fallback if the request failed |
| Chat.CtaRules | src/pages/PresentationDeck.tsx:192-206 | a failure always raises the call to action; in the decks a reply raises it exactly when at least 2 messages preceded the send, whatever it says (also AIChatbot.tsx lines 134-152 for the failure case) |
| Chat.MentionsAnyCase | src/components/ui/AIChatbot.tsx:135-138 | a reply holding any case spelling of `whatsapp`, `connect you` or `our team` passes the phrase test |
| Chat.NamesWhatsApp | src/components/ui/AIChatbot.tsx:136 | a reply that names WhatsApp passes the phrase test |
| Chat.FallbackNamesWhatsApp | src/components/ui/AIChatbot.tsx:149 | every fallback text, in every copy and language, names WhatsApp |
| Chat.FallbackMentionsHandOff | src/components/ui/AIChatbot.tsx:146-152 | every fallback text would pass the phrase test by itself |
| Chat.UserContents | src/components/ui/AIChatbot.tsx:69-71 | the collected contents are exactly the contents of the user messages |
| Chat.UserContentsAppend | src/components/ui/AIChatbot.tsx:69-71 | collecting user contents distributes over concatenation |
| Chat.LastAssistantContentIsLast | src/components/ui/AIChatbot.tsx:74-76 | the summary's reply part is the content of an assistant message followed only by user messages, or empty when there is no assistant message |
| Chat.LastReplyAt | src/components/ui/AIChatbot.tsx:74-76 | an assistant message followed only by user messages is the one the summary quotes |
| Chat.SummaryOpens | src/components/ui/AIChatbot.tsx:78 | the summary starts with the fixed greeting to Karuna |
| Chat.SummaryQuotesUser | src/components/ui/AIChatbot.tsx:69-78 | the summary quotes every user message |
| Chat.SummaryEndsWithLastReply | src/components/ui/AIChatbot.tsx:74-78 | the summary holds `Karu's summary: ` followed by the last assistant message |
| Chat.LongContents | src/pages/PresentationDeck.tsx:89 | the kept messages are exactly those longer than 3 UTF-16 units |
| Chat.LongContentsAppend | src/pages/PresentationDeck.tsx:89 | keeping the long messages distributes over concatenation, so they stay in order and keep their repetitions |
| Chat.NeedsEmptyIff | src/pages/PresentationDeck.tsx:86-90 | there are no needs exactly when no user message is longer than 3 units |
| Chat.DeckHandOffQuotesNeeds | src/pages/PresentationDeck.tsx:90-95 | a deck hand-off quotes the needs, or the default need when there are none |
| Chat.DeckHandOffQuotesUser | src/pages/PresentationDeck.tsx:85-95 | a deck hand-off quotes every user message longer than 3 units |
| Chat.UserTurnKeepsShape | src/components/ui/AIChatbot.tsx:96 | appending a user message after a completed exchange keeps the user/assistant alternation with one message pending |
| Chat.ReplyKeepsShape | src/components/ui/AIChatbot.tsx:132 | appending the reply to the pending message keeps the alternation and completes the exchange |
| Chat.ChatController.constructor | src/components/ui/AIChatbot.tsx:37-41 | closed, empty, no input, not loading, no call to action |
| Chat.ChatController.ToggleOpen | src/components/ui/AIChatbot.tsx:47-56 | the toggle flips `isOpen`; opening an empty chat seeds the greeting with id `1`; closing keeps the transcript |
| Chat.ChatController.Mount | src/pages/ElectronicsDeck.tsx:36-62 | the electronics deck sets Spanish; an empty deck chat is seeded with its greeting in the first-render language (also PresentationDeck.tsx lines 55-63) |
| Chat.ChatController.RefreshGreeting | src/pages/PresentationDeck.tsx:66-74 | after a language change only a transcript that is exactly the seeded greeting is re-localised |
| Chat.ChatController.SetInput | src/components/ui/AIChatbot.tsx:286 | typing sets the input and nothing else |
| Chat.ChatController.BeginSend | src/components/ui/AIChatbot.tsx:87-117 | a blank input or a pending request changes nothing; otherwise exactly one user message with the trimmed input is appended, the input is cleared, loading is set and the request is built from the transcript before the send |
| Chat.ChatController.CompleteSend | src/components/ui/AIChatbot.tsx:119-155 | exactly one assistant message is appended, loading is cleared, the alternation is kept; the call to action is never lowered and is raised exactly when `RaisesCta` holds for the copy, the transcript length before the send, the outcome and the reply |
| Chat.ChatController.OpenWhatsApp | src/components/ui/AIChatbot.tsx:81-85 | opens the link for the encoded hand-off text of the current transcript and changes nothing else |
| Decks.PdfExport.constructor | src/pages/PresentationDeck.tsx:46 | no download in progress |
| Decks.PdfExport.BeginDownload | src/pages/PresentationDeck.tsx:103-111 | a download starts exactly when the content is there and none is in progress, with the file name of the language |
| Decks.PdfExport.FinishDownload | src/pages/PresentationDeck.tsx:143-145 | the download flag is cleared however the export ends |
| Decks.DeliverySteps | src/pages/PresentationDeck.tsx:326 | the flow has four steps |
| Decks.EnglishFlowParts | src/context/LanguageContext.tsx:153 | the English flow is its four steps between arrows |
| Decks.SpanishFlowParts | src/context/LanguageContext.tsx:316 | the Spanish flow is its four steps between arrows |
| Decks.DeliveryFlowIsJoin | src/context/LanguageContext.tsx:153 | the flow of each locale is the join of its steps with ` → ` |
| Decks.DeliveryStepsSplit | src/pages/PresentationDeck.tsx:326 | splitting the joined steps by ` → ` gives the steps back |
| Decks.PresentationFlowSteps | src/pages/PresentationDeck.tsx:326 | the presentation deck renders four steps, those of the active locale |
| Decks.ElectronicsFlowSteps | src/pages/ElectronicsDeck.tsx:263 | the electronics deck renders one step, the key `elec.delivery.flow` itself |
| Projects.EnterpriseChatbotProjects | src/components/sections/ProjectCases.tsx:40-88 | the group has three projects |
| Projects.DocumentAiProjects | src/components/sections/ProjectCases.tsx:90-138 | the group has three projects |
| Projects.LlmIntegrationProjects | src/components/sections/ProjectCases.tsx:140-188 | the group has three projects |
| Projects.ProcessAutomationProjects | src/components/sections/ProjectCases.tsx:190-238 | the group has three projects |
| Projects.CustomSolutionProjects | src/components/sections/ProjectCases.tsx:240-288 | the group has three projects |
| Projects.Block | src/components/sections/ProjectCases.tsx:39-289 | each group has three projects, all in the category of its tab, each listing four technologies |
| Projects.Projects | src/components/sections/ProjectCases.tsx:39-289 | there are fifteen projects |
| Projects.FlattenLength | src/components/sections/ProjectCases.tsx:39-289 | groups of `n` projects each give `n` times as many projects |
| Projects.FlattenMember | src/components/sections/ProjectCases.tsx:39-289 | every project of the list comes from one of its groups |
| Projects.Categories | src/components/sections/ProjectCases.tsx:291 | six tab values, `all` first |
| Projects.Matching | src/components/sections/ProjectCases.tsx:295 | the filter never gives more projects than it is given |
| Projects.MatchingMembers | src/components/sections/ProjectCases.tsx:295 | a project is kept exactly when it is in the list and has the category |
| Projects.Positions | src/components/sections/ProjectCases.tsx:293-295 | every position listed is a position of the list at or after the start |
| Projects.PositionsExact | src/components/sections/ProjectCases.tsx:293-295 | the positions listed are increasing and are exactly those whose project has the category |
| Projects.MatchingAtPositions | src/components/sections/ProjectCases.tsx:293-295 | the filter keeps exactly the projects at those positions, in that order |
| Projects.FilterProjects | src/components/sections/ProjectCases.tsx:293-295 | `all` gives the whole list, and no value gives more projects than the list holds |
| Projects.FilterProjectsKeeps | src/components/sections/ProjectCases.tsx:293-295 | any value other than `all` keeps exactly the projects of that category, in their original order: those at the increasing, complete positions |
| Projects.MatchingAppend | src/components/sections/ProjectCases.tsx:295 | filtering distributes over concatenation |
| Projects.MatchingAll | src/components/sections/ProjectCases.tsx:295 | a list all in the category is kept whole |
| Projects.MatchingNone | src/components/sections/ProjectCases.tsx:295 | a list with nothing in the category is filtered to nothing |
| Projects.FilteredIsSubsequence | src/components/sections/ProjectCases.tsx:293-295 | whatever the filter value, the filtered list is a subsequence of the list |
| Projects.NoMatchIsEmpty | src/components/sections/ProjectCases.tsx:293-295 | a value that no project has as its category shows nothing |
| Projects.CategoriesDistinct | src/components/sections/ProjectCases.tsx:291 | the six tab values are pairwise different |
| Projects.CategoriesListed | src/components/sections/ProjectCases.tsx:39-291 | every project's category is one of the five tabs after `all` |
| Projects.IdListDistinct | src/components/sections/ProjectCases.tsx:42-274 | the fifteen ids written in the source are pairwise different |
| Projects.BlockIds | src/components/sections/ProjectCases.tsx:42-274 | each group carries the ids written for it |
| Projects.IdsFlatten | src/components/sections/ProjectCases.tsx:42-274 | the ids of the groups one after the other are their ids one after the other |
| Projects.FlattenFive | src/components/sections/ProjectCases.tsx:39-289 | five groups one after the other are their concatenation |
| Projects.ProjectIds | src/components/sections/ProjectCases.tsx:42-274 | the ids of the gallery, in order |
| Projects.DistinctIdsOf | src/components/sections/ProjectCases.tsx:42-274 | a list carrying those ids has pairwise different ids |
| Projects.DistinctIds | src/components/sections/ProjectCases.tsx:42-274 | project ids are pairwise different |
| Projects.MatchingNoneOfGroups | src/components/sections/ProjectCases.tsx:295 | groups with nothing in the category are filtered to nothing |
| Projects.FilterSelectsGroup | src/components/sections/ProjectCases.tsx:293-295 | with groups carrying pairwise different categories, the category of group `k` keeps exactly group `k` |
| Projects.GroupsCategorized | src/components/sections/ProjectCases.tsx:39-291 | the projects of group `b` are all in the tab category after `all` at position `b` |
| Projects.TabCategoriesDistinct | src/components/sections/ProjectCases.tsx:291 | the five tab categories after `all` are pairwise different |
| Projects.FilterSelectsBlock | src/components/sections/ProjectCases.tsx:39-295 | the tab `categories[k]` shows exactly the k-th group of the source |
| Projects.ThreePerCategory | src/components/sections/ProjectCases.tsx:39-295 | each category tab shows exactly three projects, so the five tabs partition the fifteen |
| Projects.UnknownFilterIsEmpty | src/components/sections/ProjectCases.tsx:293-295 | a filter value outside `categories` shows no project |
| Projects.CardTechnologies | src/components/sections/ProjectCases.tsx:423 | a card shows tags exactly when the project lists technologies, and then the first three (all, when fewer) |
| Projects.EveryCardShowsThree | src/components/sections/ProjectCases.tsx:423 | every card of the gallery shows exactly three tags |
| Projects.InquiryText | src/components/sections/ProjectCases.tsx:297-302 | with a non-empty title, the inquiry lead then the quoted title; otherwise the generic text |
| Projects.InquiryQuotesTitle | src/components/sections/ProjectCases.tsx:299 | a titled inquiry contains the title in double quotes |
| Projects.InquiryTextInjective | src/components/sections/ProjectCases.tsx:298-300 | a titled inquiry text determines its title and is never the generic text |
| Projects.ProjectCases.constructor | src/components/sections/ProjectCases.tsx:19-20 | filter `all`, no project selected, so every project is shown |
| Projects.ProjectCases.HandleFilterEvent | src/components/sections/ProjectCases.tsx:26-30 | the event detail becomes the filter as it is; a detail outside `categories` empties the grid |
| Projects.ProjectCases.SelectTab | src/components/sections/ProjectCases.tsx:338 | the tab sets its value as the filter; the grid then shows 15 projects for `all` and 3 for a category |
| Projects.ProjectCases.OpenDetails | src/components/sections/ProjectCases.tsx:354 | clicking a card selects that project, leaving the filter and the last link as they were |
| Projects.ProjectCases.CloseDetails | src/components/sections/ProjectCases.tsx:366 | closing the detail view clears the selection |
| Projects.ProjectCases.OpenWhatsApp | src/components/sections/ProjectCases.tsx:297-303 | opens the link for the encoded inquiry text and changes nothing else |
| Navbar.ServiceFilters | src/components/ui/Navbar.tsx:36-40 | three dropdown entries |
| Navbar.ServiceFilterValues | src/components/ui/Navbar.tsx:36-40 | all three entries scroll to `work` and carry the filters `all`, `AI Education Platform` and `Chatbot Automation` |
| Navbar.InvitationText | src/components/ui/Navbar.tsx:44 | the English sentence exactly when the language is English, the Spanish one exactly when it is Spanish |
| Navbar.NavigationBar.constructor | src/components/ui/Navbar.tsx:8-9 | not scrolled, menu closed |
| Navbar.NavigationBar.HandleScroll | src/components/ui/Navbar.tsx:13-15 | the bar is scrolled exactly when `scrollY` exceeds 20 |
| Navbar.NavigationBar.ScrollToSection | src/components/ui/Navbar.tsx:21-34 | the menu is always closed; a filter event is scheduled exactly when the section exists and a non-empty filter is given, and it carries that filter |
| Navbar.NavigationBar.ChooseService | src/components/ui/Navbar.tsx:87-90 | a dropdown entry closes the menu and, when the section exists, hands its filter on |
| Navbar.NavigationBar.ToggleMobileMenu | src/components/ui/Navbar.tsx:136 | the hamburger button flips the menu |
| Navbar.NavigationBar.CloseMobileMenu | src/components/ui/Navbar.tsx:150 | the overlay closes the menu |
| Navbar.NavigationBar.ToggleLanguage | src/components/ui/Navbar.tsx:48-50 | the shared language switches to the other one |
| Navbar.NavigationBar.OpenWhatsApp | src/components/ui/Navbar.tsx:42-46 | opens the link for the encoded invitation of the language and changes nothing else |
| Site.ServiceFilterResults | src/components/ui/Navbar.tsx:36-40 | of the three dropdown filters only `all` shows projects; the other two show none |
| Site.DeliverFilterEvents | src/components/sections/ProjectCases.tsx:26-30 | after the scheduled events are delivered in order, the gallery filter is the last event's detail |

## Left out

- The HTTP call to the completion service, its headers, the API key and `response.json()` are left out. A send's result is the `Outcome` datatype: a reply with or without content, or a failure.
- The system prompts are posted as a `SystemTurn` marker. Their text is the `ChatbotPrompt`, `DeckPrompt` and `ElectronicsPrompt` constants, selected by `Chat.SystemPrompt`.
- Message ids come from `Date.now()`, so they are parameters (`userId`, `replyId`). No uniqueness is claimed for them.
- `encodeURIComponent` is a parameter `encode`. `window.open` is modelled as the `lastOpenedUrl` field; the `_blank` target is not modelled.
- `t` is passed to the deck methods as a parameter. The model's own lookup is `LanguageContext.T`.
- The language a deck send completes in is the one its closure captured when the send started (`sentLanguage`). React's scheduling of state updates and effects is not modelled beyond that. Neither is the possibility of two sends interleaving through the UI: the source's `isLoading` guard is modelled, the buttons' `disabled` attribute is not.
- Scrolling, focus, animation, `setTimeout` delays and the DOM are not modelled. The navigation bar records each scheduled filter event in `dispatched`. It records the section scrolled to in `scrolledTo`, and whether an element exists is a parameter.
- `html2pdf` is not modelled. The PDF export models only its busy flag, its guard and the file name it chooses.
- `Text.Lower` lower-cases ASCII letters only. That is exact for the three trigger phrases, which are pure ASCII, but not for every reply containing other letters.
- A key such as `constructor` or `toString` would find an inherited property of the dictionary object, and `t` would then give that instead of the key. The model treats such a key as missing.
- The project records' display-only fields (`client`, `description`, `challenge`, `solution`, `results`) are left out; no logic reads them.
- `Chat.ReplyText`: non-emptiness of the assistant message is not stated. The apology and fallback texts are non-empty, but proving that about the long literals is too expensive.
- `Chat.DeckHandOffQuotesNeeds`: this states that the deck hand-off quotes the needs or the default need. It does not state which language's template opens the text.
- The presentational components (`EnsoPhilosophy.tsx` and the other sections and pages) and the CSS modules are not part of this model.
