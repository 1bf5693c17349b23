# KisanSetu front end, modelled in Dafny

KisanSetu is a React web application that links farmers and buyers. The
farmers list their produce, the buyers browse a marketplace, and both sides
track orders and read a community feed. This project models the logic of its
pages and widgets:

- **Keyword routing.** The chat assistant picks a canned reply by keyword.
  The voice assistant picks a navigation, a language change or an apology by
  keyword. Both lower-case the text and take the first rule whose words occur
  in it. A generic first-match router (`Router`) captures this, and each
  widget has its own ordered rule table (`Chatbot`, `VoiceAssistant`).
- **The role context.** The role is farmer or buyer. It is restored from
  browser storage, falls back to buyer, and is written back on every change
  (`UserRole`).
- **The pages.**
  - `Marketplace`: the category filter and the cart requests.
  - `Community`: the filter, likes and new posts.
  - `FarmerDashboard`: add, edit, delete and save of products.
  - `Orders`: the status progress bar.
  - `Login`: the mode, form validation, the redirect by role and the feature lists.
  - `RoleSelection`: passing the mode on to the login page.
- **The navigation widgets.** `Navbar` covers the role's links, the active
  link, the cart badge and the mobile menu. `LanguageSwitcher` covers the
  language table, the button label, the highlighted entry and the open or
  closed menu.
- **Sample data.** The sample catalogue, posts and orders the pages start
  from are in `MockData`.

State that a component keeps and changes in its event handlers is modelled as
a `class`. The class's fields are the component's state, and its methods are
the handlers. Each method's `ensures` gives the whole new state, in terms of
pure functions. The properties the application relies on are proved as
lemmas about those functions. Examples: the rule order, the role round trip
through storage, a like undone by a second like, the mode carried from the
navigation bar to the login form.

Several things are passed in as parameters instead of being modelled:

- the translation function `t`;
- the clock-derived ids of new messages, posts and products;
- whether the browser offers speech recognition;
- whether a mouse press fell inside the language menu.

Side effects appear as values: toasts, speech, navigation targets and
requests to the cart store.

## Model

| member | source | states |
|---|---|---|
| Router.FirstMatch | src/components/Chatbot.tsx:32-38 | the rule chosen is the first whose keywords occur in the lower-cased text: it fires, and no earlier rule fires |
| Router.Resolve | src/components/Chatbot.tsx:30-38 | when no rule fires on the lower-cased text the fallback is the answer; when some rule fires, the answer is the outcome of a firing rule with no firing rule before it |
| Router.FirstMatchIs | src/components/VoiceAssistant.tsx:44-70 | any index that fires with no earlier rule firing is the one the ladder takes |
| Text.ToLower | src/components/Chatbot.tsx:31 | lower-casing keeps the length, turns every ASCII capital into its own lower-case letter and changes no other character |
| Text.ToLowerFacts | src/components/Chatbot.tsx:31 | lower-casing changes nothing in an already lower-case text, so applying it twice is applying it once |
| Text.ToLowerSlice | src/components/VoiceAssistant.tsx:43 | lower-casing a slice is slicing the lower-cased text |
| Text.LowerKeepsLowerWords | src/components/Chatbot.tsx:31-37 | a keyword is found in the lower-cased text wherever the text holds any spelling of it that lower-cases to the keyword, so capitals never hide a keyword |
| Text.CapitalsStillFound | src/components/Chatbot.tsx:31-32 | example: "Best PRICE" is found to contain the keyword price |
| Text.ContainsChars | src/components/Chatbot.tsx:32 | every character of a keyword that occurs in the text occurs in the text |
| Text.MissingCharExcludes | src/components/Chatbot.tsx:32 | a keyword with a character the text lacks does not occur in it |
| Text.NoneOccur | src/components/VoiceAssistant.tsx:68 | when each keyword has a character the text lacks, no keyword of the rule matches |
| Text.EmptyContainsNothing | src/components/Chatbot.tsx:38 | the empty text matches no non-empty keyword |
| Text.PrefixContains | src/components/Chatbot.tsx:32 | a keyword at the start of the text occurs in it |
| Text.LowerChar | src/components/Chatbot.tsx:31 | a capital letter maps to its lower-case letter, anything else to itself, and the result is never a capital |
| Text.Trim | src/components/Chatbot.tsx:42 | `trim()` gives the empty string exactly when the text is all JavaScript whitespace; otherwise what it leaves neither starts nor ends with whitespace |
| Seqs.Filter | src/pages/Community.tsx:17 | the filter keeps only the elements that pass, and keeps every one that does |
| Seqs.FilterConcat | src/pages/Marketplace.tsx:18 | filtering a concatenation filters each part in turn, so the kept elements stay in order |
| Seqs.FilterLength | src/pages/FarmerDashboard.tsx:24 | the filter keeps exactly as many elements as pass |
| Chatbot.ReplyKey | src/components/Chatbot.tsx:32-38 | each reply is sent as the translation of a key under chatbot. |
| Chatbot.ReplyKeyInjective | src/components/Chatbot.tsx:32-38 | no two replies share a key |
| Chatbot.GetResponse | src/components/Chatbot.tsx:30-38 | the fallback answers exactly when no rule fires on the lower-cased text; any other answer is that of the first rule that fires |
| Chatbot.GetResponseOrder | src/components/Chatbot.tsx:30-39 | pricing wins whenever a pricing word occurs, and each later reply wins exactly when its words occur and no earlier rule's do; the fallback when none occurs |
| Chatbot.EmptyGetsFallback | src/components/Chatbot.tsx:38 | example: the empty text gets the fallback reply |
| Chatbot.PaymentExample | src/components/Chatbot.tsx:34 | example: the word payment gets the payment reply through its keyword pay |
| Chatbot.PaymentWordsIn | src/components/Chatbot.tsx:32-34 | example: "payment" holds no pricing or delivery keyword and holds the payment keyword pay |
| Chatbot.PricingBeatsDelivery | src/components/Chatbot.tsx:32-33 | example: "Delivery PRICE" gets the pricing reply, since pricing is tried first and the capitals are lowered |
| Chatbot.Greeting | src/components/Chatbot.tsx:15-17 | the greeting is a bot message with id 0 |
| Chatbot.ChatWindow.constructor | src/components/Chatbot.tsx:14-18 | the window starts closed with only the greeting and an empty input |
| Chatbot.ChatWindow.ToggleOpen | src/components/Chatbot.tsx:58 | the floating button flips the window |
| Chatbot.ChatWindow.SetInput | src/components/Chatbot.tsx:109 | typing replaces the input |
| Chatbot.ChatWindow.LanguageChanged | src/components/Chatbot.tsx:26-28 | a language change resets the conversation to the greeting in the new language |
| Chatbot.ChatWindow.Send | src/components/Chatbot.tsx:41-50 | blank input changes nothing; otherwise the user's message is appended, the input cleared, and the pending reply is the translation of the reply chosen for the text sent |
| Chatbot.ChatWindow.ReplyArrives | src/components/Chatbot.tsx:47-49 | the delayed reply is appended as a bot message |
| Chatbot.ChatWindow.SendAndAnswer | src/components/Chatbot.tsx:41-50 | a non-blank message is followed by exactly the user's message and the chosen reply |
| VoiceAssistant.Route | src/components/VoiceAssistant.tsx:42-70 | the apology exactly when no rule fires on the lower-cased sentence; otherwise the intent of the first rule that fires |
| VoiceAssistant.RouteOrder | src/components/VoiceAssistant.tsx:42-72 | orders win whenever an order word occurs; each later command wins exactly when its words occur and no earlier command's do; the apology when none occurs |
| VoiceAssistant.RouteTargetsDeclared | src/components/VoiceAssistant.tsx:45-66 | every voice navigation goes to a path the router declares |
| VoiceAssistant.OrderBeatsLanguage | src/components/VoiceAssistant.tsx:44-58 | example: "Hindi for my ORDER" opens the orders and does not change the language |
| VoiceAssistant.NothingFiresOnGibberish | src/components/VoiceAssistant.tsx:44-67 | example: no keyword of a navigation rule occurs in "xyzzy plugh" |
| VoiceAssistant.NoLanguageInGibberish | src/components/VoiceAssistant.tsx:56-64 | example: no keyword of a language rule occurs in "xyzzy plugh" |
| VoiceAssistant.UnknownSentence | src/components/VoiceAssistant.tsx:68-70 | example: "xyzzy plugh" gets the apology |
| VoiceAssistant.Locale | src/components/VoiceAssistant.tsx:38 | hi maps to hi-IN, mr to mr-IN, and every other language to en-US |
| VoiceAssistant.Echo | src/components/VoiceAssistant.tsx:71 | the echo notice is the microphone sign, a space and the sentence in double quotes |
| VoiceAssistant.EchoInjective | src/components/VoiceAssistant.tsx:71 | different sentences give different echo notices |
| VoiceAssistant.ProcessCommand | src/components/VoiceAssistant.tsx:36-72 | at most one navigation or language change comes first, and only when a rule fired; then exactly one answer, spoken in the locale of the display language at that moment (the new language's after a language command, the current one's otherwise); then the echo notice |
| VoiceAssistant.LanguageCommandIgnoresCurrent | src/components/VoiceAssistant.tsx:56-64 | a language command has the same effects whatever language was on, and is confirmed in the locale it switches to |
| VoiceAssistant.HindiConfirmedInHindi | src/components/VoiceAssistant.tsx:56-58 | example: "hindi" heard while the page is in English switches to Hindi and is confirmed in hi-IN |
| VoiceAssistant.UnmatchedSentenceEffects | src/components/VoiceAssistant.tsx:68-71 | any sentence in which no rule's keyword occurs only speaks the apology, in the current language's locale, and echoes the sentence |
| VoiceAssistant.UnknownSentenceEffects | src/components/VoiceAssistant.tsx:68-71 | example: "xyzzy plugh" only speaks the apology and is echoed |
| VoiceAssistant.VoiceButton.constructor | src/components/VoiceAssistant.tsx:34 | the button starts idle |
| VoiceAssistant.VoiceButton.StartListening | src/components/VoiceAssistant.tsx:74-95 | without recognition support, an error toast and no change; otherwise a recogniser started in the current language's locale, which it keeps |
| VoiceAssistant.VoiceButton.LanguageChanged | src/components/LanguageSwitcher.tsx:38 | the display language changes under a running recogniser without changing the recogniser's locale |
| VoiceAssistant.VoiceButton.OnStart | src/components/VoiceAssistant.tsx:87 | the start event sets listening |
| VoiceAssistant.VoiceButton.OnEnd | src/components/VoiceAssistant.tsx:88 | the end event clears listening |
| VoiceAssistant.VoiceButton.OnError | src/components/VoiceAssistant.tsx:89 | an error clears listening and shows the error toast |
| VoiceAssistant.VoiceButton.OnResult | src/components/VoiceAssistant.tsx:90-93 | the first transcript is processed against the display language of that moment; a language command changes the display language, and the answer is spoken in the locale of the display language it leaves |
| UserRole.RoleName | src/context/UserRoleContext.tsx:22 | a role is stored as farmer or buyer, farmer exactly for the farmer role |
| UserRole.Lookup | src/context/UserRoleContext.tsx:16 | reading storage gives the stored text exactly when the key is present, and nothing otherwise |
| UserRole.InitialRole | src/context/UserRoleContext.tsx:15-18 | the stored value farmer gives farmer, and anything else, missing included, gives buyer |
| UserRole.RestoreStoredRole | src/context/UserRoleContext.tsx:16-17 | a role's stored name restores that role |
| UserRole.CorruptFallsBackToBuyer | src/context/UserRoleContext.tsx:17 | an unknown, wrongly cased or missing value falls back to buyer |
| UserRole.ExactlyOneFlag | src/context/UserRoleContext.tsx:30 | exactly one of isFarmer and isBuyer holds |
| UserRole.ValueOf | src/context/UserRoleContext.tsx:30 | the context value carries the role and flags that agree with it |
| UserRole.UseUserRole | src/context/UserRoleContext.tsx:36-40 | outside the provider the hook fails with its message, inside it returns the provider's value |
| UserRole.SaveThenRestore | src/context/UserRoleContext.tsx:20-27 | whatever else storage holds, a saved role is the role restored next time |
| UserRole.RoleProvider.constructor | src/context/UserRoleContext.tsx:15-27 | the provider starts with the restored role and writes it back to storage |
| UserRole.RoleProvider.SetRole | src/context/UserRoleContext.tsx:20-23 | setRole changes the role and its storage entry and nothing else in storage |
| UserRole.RoleProvider.Value | src/context/UserRoleContext.tsx:30 | consumers see the current role with agreeing flags |
| Community.PostCategories | src/pages/Community.tsx:8 | a new post can take every category except all |
| Community.Filtered | src/pages/Community.tsx:17 | under all every post is shown; otherwise exactly the posts of that category |
| Community.FilteredPreservesOrder | src/pages/Community.tsx:17 | the filtered feed keeps the feed's order |
| Community.ToggleLike | src/pages/Community.tsx:21 | a like flips liked and moves the count by one in the matching direction, changing nothing else |
| Community.LikeInList | src/pages/Community.tsx:19-23 | only posts with the id are toggled; the feed keeps its length and other posts |
| Community.LikeTwiceRestores | src/pages/Community.tsx:19-23 | liking the same post twice restores the feed |
| Community.NewPost | src/pages/Community.tsx:27-37 | a new post is by You with no likes or comments, carrying the draft and its category |
| Community.NewPostShown | src/pages/Community.tsx:17-38 | a new post shows at the top of the feed under the all filter and under its own category, and leaves the feed shown under any other filter unchanged |
| Community.CommunityPage.constructor | src/pages/Community.tsx:12-15 | the page starts from the sample posts, the all filter, an empty draft and the crop category |
| Community.CommunityPage.SetFilter | src/pages/Community.tsx:13 | a filter button sets the filter |
| Community.CommunityPage.SetDraft | src/pages/Community.tsx:53 | typing replaces the draft |
| Community.CommunityPage.SetDraftCategory | src/pages/Community.tsx:60 | the select sets the draft's category |
| Community.CommunityPage.HandleLike | src/pages/Community.tsx:19-23 | the feed becomes the feed with that post's like toggled |
| Community.CommunityPage.HandlePost | src/pages/Community.tsx:25-41 | a blank draft changes nothing and shows no notice; otherwise the new post goes first, the draft is cleared and the success notice is shown |
| FarmerDashboard.FormCategoriesAreFilters | src/pages/FarmerDashboard.tsx:184 | the form's categories are the marketplace filters other than all, in order, and the blank form starts on one of them |
| FarmerDashboard.CompleteIffThreeFilled | src/pages/FarmerDashboard.tsx:35 | a save needs only a name, a price and a quantity, whatever the numbers (zero included), the category and the unit; emptying any of the three fails it, so the blank form fails |
| FarmerDashboard.FormOf | src/pages/FarmerDashboard.tsx:28-32 | the edit form written back onto the product gives the product again, so it holds the product's fields; it can be saved exactly when the product has a name |
| FarmerDashboard.Apply | src/pages/FarmerDashboard.tsx:40 | an edit replaces the form's fields and keeps id, image and farmer |
| FarmerDashboard.EditInList | src/pages/FarmerDashboard.tsx:40 | only products with the edited id change, and the list keeps its length |
| FarmerDashboard.NewProduct | src/pages/FarmerDashboard.tsx:43-52 | a new product carries the form's fields, the wheat image and farmer You |
| FarmerDashboard.RemoveId | src/pages/FarmerDashboard.tsx:23-26 | delete keeps exactly the products with other ids |
| FarmerDashboard.RemoveIdCount | src/pages/FarmerDashboard.tsx:24 | delete removes as many products as have the id |
| FarmerDashboard.CountSplit | src/pages/FarmerDashboard.tsx:24 | every product either has the id or not, so the two counts add up to the list |
| FarmerDashboard.EditUntouchedKeepsList | src/pages/FarmerDashboard.tsx:28-40 | saving an edit without changing the form leaves the list as it was |
| FarmerDashboard.Dashboard.constructor | src/pages/FarmerDashboard.tsx:11-14 | the dashboard starts with the first four sample products, the modal closed and an empty form |
| FarmerDashboard.Dashboard.OpenAdd | src/pages/FarmerDashboard.tsx:93 | the add button opens an empty form for a new product |
| FarmerDashboard.Dashboard.CloseModal | src/pages/FarmerDashboard.tsx:171-175 | closing hides the modal |
| FarmerDashboard.Dashboard.SetForm | src/pages/FarmerDashboard.tsx:178 | typing replaces the form |
| FarmerDashboard.Dashboard.HandleDelete | src/pages/FarmerDashboard.tsx:23-26 | the list loses exactly the products with the id, its length (the my-products figure) drops by their number, and the deletion notice is shown |
| FarmerDashboard.Dashboard.HandleEdit | src/pages/FarmerDashboard.tsx:28-32 | editing opens the modal on the product's own fields |
| FarmerDashboard.Dashboard.HandleSave | src/pages/FarmerDashboard.tsx:34-59 | an incomplete form changes nothing and shows the fill-all error; an edit rewrites the product, keeps the length and shows the updated notice; an add puts the new product first, one more product, and shows the added notice; a save closes the modal and resets the form |
| FarmerDashboard.EditThenSave | src/pages/FarmerDashboard.tsx:28-59 | opening a product for editing and saving at once leaves the list unchanged and the modal closed |
| Marketplace.Filtered | src/pages/Marketplace.tsx:18 | under all the whole catalogue; otherwise exactly its products of that category |
| Marketplace.CatalogueCategoriesKnown | src/pages/Marketplace.tsx:9 | every sample product has one of the filter categories |
| Marketplace.ToCandidate | src/pages/Marketplace.tsx:20-21 | the cart receives the product's id, name, price, image and farmer |
| Marketplace.MinusRequest | src/pages/Marketplace.tsx:199 | the minus button asks for one less of that line |
| Marketplace.PlusRequest | src/pages/Marketplace.tsx:203 | the plus button asks for one more of that line |
| Marketplace.RemoveRequest | src/pages/Marketplace.tsx:208 | the remove button asks for that line to go |
| Marketplace.LineTotal | src/pages/Marketplace.tsx:197 | a single unit shows its price, an emptied line shows zero, and non-negative price and quantity never show a negative amount |
| Marketplace.LineTotalSteps | src/pages/Marketplace.tsx:197-203 | one more unit adds one unit price to the line total, one less removes one |
| Marketplace.BadgeShown | src/pages/Marketplace.tsx:38 | the cart button's badge appears exactly for a non-empty cart, agreeing with the navigation bar's badge on this page |
| Marketplace.Drawer | src/pages/Marketplace.tsx:186-212 | the drawer shows the empty-cart message exactly when there are no lines; otherwise every line in order with its line total |
| Marketplace.MarketplacePage.constructor | src/pages/Marketplace.tsx:14-16 | the page starts on all, with no product open and the cart closed |
| Marketplace.MarketplacePage.SetFilter | src/pages/Marketplace.tsx:51 | a filter button sets the filter |
| Marketplace.MarketplacePage.OpenDetails | src/pages/Marketplace.tsx:83 | the eye button opens the product's details |
| Marketplace.MarketplacePage.CloseDetails | src/pages/Marketplace.tsx:120 | closing clears the selected product |
| Marketplace.MarketplacePage.SetCartOpen | src/pages/Marketplace.tsx:34 | the cart button opens the drawer and its close button closes it |
| Marketplace.MarketplacePage.AddToCart | src/pages/Marketplace.tsx:20-23 | adding sends one add request for the product and shows a notice naming it |
| Marketplace.MarketplacePage.AddFromDetails | src/pages/Marketplace.tsx:149 | adding from the details adds the product shown, with its notice, and closes the details |
| Marketplace.MarketplacePage.Checkout | src/pages/Marketplace.tsx:222 | checkout only shows the coming-soon success notice |
| Orders.StatusConfig | src/pages/Orders.tsx:6-11 | the statuses with a style are exactly the four steps, each one's step is its position on the bar, and any other text has no style |
| Orders.Segments | src/pages/Orders.tsx:49-53 | the bar has one segment per step |
| Orders.FilledCountsPrefix | src/pages/Orders.tsx:52 | a bar filled on a prefix has as many filled segments as the prefix is long |
| Orders.SegmentsForStatus | src/pages/Orders.tsx:49-53 | a status fills a prefix of the bar, one segment more than its step |
| Orders.PendingAndDelivered | src/pages/Orders.tsx:7-10 | pending fills one segment and delivered all four |
| Orders.SampleStatusesKnown | src/data/mockData.ts:43-48 | every sample order has a styled status |
| AppRoutes.ValuePrefix | src/pages/Login.tsx:13 | a query value runs up to the first ampersand or hash |
| AppRoutes.ModeParam | src/pages/RoleSelection.tsx:12 | a mode is read exactly from URLs of the form path?mode= |
| AppRoutes.ModeRoundTrip | src/pages/RoleSelection.tsx:16 | a plain mode written into a URL reads back unchanged |
| Navbar.Links | src/components/Navbar.tsx:17-32 | a farmer gets five links and a buyer three, home first, each a declared route |
| Navbar.SubsequenceMembers | src/components/Navbar.tsx:25-29 | every entry of a subsequence is an entry of the full list |
| Navbar.BuyerLinksAreSubsequence | src/components/Navbar.tsx:17-29 | the buyer's links are the farmer's with some removed, order and labels kept |
| Navbar.FarmerOnlyLinks | src/components/Navbar.tsx:17-29 | dashboard and community are linked exactly for a farmer; marketplace and orders for both |
| Navbar.AtMostOneActive | src/components/Navbar.tsx:33 | no two links share a path, so at most one is active |
| Navbar.CartLinkShown | src/components/Navbar.tsx:49 | the cart link is shown exactly where the home link is not active, that is everywhere but the landing page |
| Navbar.CartBadgeShown | src/components/Navbar.tsx:49-52 | the badge is never shown without the cart link; with it, exactly for a non-empty cart |
| Navbar.BadgeVisibility | src/components/Navbar.tsx:31-52 | no cart badge on the landing page; elsewhere a badge exactly when the cart has items |
| Navbar.NavbarState.constructor | src/components/Navbar.tsx:15 | the mobile menu starts closed |
| Navbar.NavbarState.ToggleMobile | src/components/Navbar.tsx:71 | the menu button flips the mobile menu |
| Login.ModeOf | src/pages/Login.tsx:13 | a missing or empty mode means login, and any other value is kept |
| Login.DefaultIsLogin | src/pages/Login.tsx:13-14 | the register form opens exactly when the mode parameter is signup |
| Login.Submit | src/pages/Login.tsx:23-31 | rejected exactly when email or password is empty; otherwise the notice matches the mode and a farmer goes to the dashboard, anyone else to the marketplace |
| Login.AcceptanceIgnoresModeAndRole | src/pages/Login.tsx:25 | acceptance depends only on the two fields being filled |
| Login.Features | src/pages/Login.tsx:33-47 | four features, the farmer's exactly when the role is farmer |
| Login.LoginPage.constructor | src/pages/Login.tsx:13-19 | the page opens in login mode unless the mode is signup, with empty fields |
| Login.LoginPage.SetEmail | src/pages/Login.tsx:130 | typing replaces the email |
| Login.LoginPage.SetPassword | src/pages/Login.tsx:140 | typing replaces the password |
| Login.LoginPage.SetName | src/pages/Login.tsx:119 | typing replaces the name |
| Login.LoginPage.ToggleMode | src/pages/Login.tsx:157 | the switch link flips between login and register |
| Login.LoginPage.HandleSubmit | src/pages/Login.tsx:23-31 | submitting decides on the current fields, mode and role, and leaves them unchanged |
| RoleSelection.LoginUrl | src/pages/RoleSelection.tsx:16 | the login URL always carries a mode |
| RoleSelection.HandleSelect | src/pages/RoleSelection.tsx:14-17 | the role is set and stored, then the page goes to the login page with its own mode |
| RoleSelection.ModeCarriedThrough | src/pages/RoleSelection.tsx:12-16 | the login page reads the same mode the role selection page was given |
| RoleSelection.RegisterButtonOpensRegister | src/components/Navbar.tsx:67 | the register button leads, through role selection, to the register form |
| RoleSelection.LoginButtonOpensLogin | src/components/Navbar.tsx:63 | the login button leads, through role selection, to the login form |
| LanguageSwitcher.FindIn | src/components/LanguageSwitcher.tsx:31 | the lookup finds an entry exactly when one has the code, and returns the first such entry |
| LanguageSwitcher.CodesDistinct | src/components/LanguageSwitcher.tsx:5-9 | the codes are en, hi and mr, all distinct |
| LanguageSwitcher.ButtonLabel | src/components/LanguageSwitcher.tsx:31 | the button shows the current language's label, or nothing for an unknown code |
| LanguageSwitcher.Highlighted | src/components/LanguageSwitcher.tsx:40 | an entry is highlighted exactly when its code is the current language |
| LanguageSwitcher.ExactlyOneHighlighted | src/components/LanguageSwitcher.tsx:31-40 | at most one entry is highlighted, one exactly when the button has a label, and it carries that label |
| LanguageSwitcher.Switcher.constructor | src/components/LanguageSwitcher.tsx:13 | the menu starts closed |
| LanguageSwitcher.Switcher.ToggleMenu | src/components/LanguageSwitcher.tsx:27 | the globe button flips the menu |
| LanguageSwitcher.Switcher.Choose | src/components/LanguageSwitcher.tsx:38 | choosing an entry sets its language, closes the menu, and the button then shows its label |
| LanguageSwitcher.Switcher.MouseDown | src/components/LanguageSwitcher.tsx:16-19 | a press outside closes the menu, one inside leaves it as it is |

## Left out

- The cart store is not part of this model. It is imported by the marketplace page and the navigation bar, but its source is not available, so adding, updating, removing and the totals are not modelled. The pages' calls to it are modelled as request values, and its `items` and `totalItems` are taken as inputs.
- Lower-casing is modelled for ASCII letters only. `toLowerCase` also maps other scripts' capitals. The Devanagari keywords have no case, so rule selection differs only for non-ASCII Latin capitals.
- The regular expressions are modelled as "one of these literal words occurs". Every pattern the widgets use is a plain alternation of literal words, so this is exact for them. No regular-expression engine is modelled.
- FarmerDashboard.Form: the price and quantity fields are whole numbers or empty. The text fields and `Number()` conversion are not modelled, so an entry such as "abc" (saved as NaN) or "1.5" is not represented.
- The half-second delay before a chat reply is not modelled. The reply is delivered by a separate call, and any number of events may come in between.
- Toasts, speech synthesis, page navigation and `scrollIntoView` are not modelled as behaviour. Every notice a modelled handler raises is returned as a value (`Toasts.Toast`, or an effect of the voice assistant), and so are speech and navigation; scrolling is left out.
- The translation tables and the i18n configuration (`src/i18n/index.ts`) are not part of this model. The translation function is a parameter, and the current language is a plain code.
- VoiceAssistant.VoiceButton: each start of listening gets a new recogniser. Several recognisers running at once are not modelled; the button tracks the locale of the last one started.
- VoiceAssistant.ProcessCommand: a language switch is taken to be complete before the confirmation is spoken, as it is when the translations are bundled with the application (src/i18n/index.ts:9-18). A switch that waited for translations to load would be confirmed in the old locale; that case is not modelled.
- VoiceAssistant.VoiceButton.OnResult: a result event is taken to carry at least one result with at least one alternative, as the browser delivers it. An empty list, on which the source's `event.results[0][0]` would throw, is not modelled.
- AppRoutes.ModeParam: only URLs whose query begins with `mode=` are read, and percent and plus decoding is not modelled. RoleSelection.ModeCarriedThrough therefore requires a mode without `&`, `#`, `%` or `+`.
- The navigation bar computes its `links` but does not render them. The model proves the properties of `links` as computed.
- Orders.StatusConfig: an order with a status outside the four steps would make the page fail when it reads the status's style. The model says only that such a status has no style.
- LanguageSwitcher.Switcher.MouseDown: the case where the component is not mounted, so the press changes nothing, is not modelled.
- The landing page, the analytics page, the hero section and the not-found page are not part of this model. They only render static content or charts.
- The dashboard's statistics cards are not modelled, except that the product count is the list's length, whose changes HandleDelete and HandleSave state. The other figures are constants.
- Login.Submit: the email box is an email input, so the browser itself refuses to submit a non-empty text that is not an email address, before the handler runs. That check is not modelled; Submit accepts any non-empty email.
