# LawFort front end — a Dafny model

LawFort is a React front end for cyber-law help in India. It has a law library,
a chat assistant, sign-up by one-time code, a lawyer's case notebook, a profile
page, and a cyber response portal with an awareness page. This project models
the logic behind those pages in Dafny and proves what that logic promises:

- **Law library.** The catalog filter is an order-preserving selection of the
  law records. A law is kept when the search term occurs in its title,
  description, simplified text or one of its tags, ignoring letter case, and its
  category equals the selected one exactly. The filter is modelled over the nine
  records of `src/data/laws.js`. The page state and its view rules are around it:
  the category grid, the results list, "Back to Categories" and "Clear all filters".
- **Chat store and widget.** The store holds an append-only message list that
  starts with a greeting, an open flag, and a count of bot replies that are
  scheduled but not delivered. The widget's send guard refuses whitespace-only
  input. A microphone click without speech recognition only raises an alert.
- **Sign-up / sign-in.** The page is a state machine over its mode, the form
  record, the "code sent" flag and the typed code. The fixed code "1234" is the
  only one that verifies, and it builds the user from the form. The mock login
  builds the demo user. Neither form submits while one of its required fields
  is empty.
- **Case notebook.** The create form has a non-empty guard, a loading flag while
  a create is in flight, clear-on-success and keep-on-failure. A list request
  replaces the notes on success.
- **Profile.** The role badge theme lower-cases the role; the "Verified" badges
  compare with exact case. The page chooses the active user, switches the role,
  and shows missing counters as 0.
- **Cyber portal and awareness.** The portal derives the visitor's role and name
  from the stored user record, maps actions to routes, and chooses the
  role-specific section. The awareness page looks up section titles with a
  fallback, keeps only array-valued keys as sections, shows only the non-empty
  ones, and falls back to fixed data when the request fails.

Browser and backend effects are modelled as recorded values:

- alerts, navigations, backend requests, and calls into the authentication
  context (`login`, `logout`, `updateUser`) are sequences or counters that
  methods extend;
- backend outcomes, the clock reading (`Date.now()`), local storage contents and
  browser support for speech recognition are parameters;
- the one-second reply timer is an explicit `DeliverReply` step.

Two fixed behaviours of the code:

- The one-time code is the fixed string "1234", and the code input keeps at most
  four characters.
- The chat answers every message with one canned reply, appended after a timer.

Two observations from the proofs:

- Sign-up offers the role "Legal". If the authentication context stores the
  logged-in user under the local-storage key `user`, which the portal reads, the
  portal lower-cases that role to "legal". The portal shows role sections only
  for "citizen", "lawyer" and "police", so such a user sees only the universal
  section (`CyberPortal.LegalRoleSeesNoTools`). The lemma itself is about the
  stored value; the storing step belongs to the authentication context, which
  is not part of this model.
- Clearing the auth user does not reset the profile's active user. The effect
  only copies a present user (`Profile.ProfilePage.OnAuthUserChanged`).

## Model

| member | source | states |
|---|---|---|
| `JsText.ToLowerCase` | src/pages/LawLibrary.jsx:28-31 | `toLowerCase` keeps the length and lower-cases each character on its own |
| `JsText.TrimStart` | src/components/features/Chatbot.jsx:53 | drops leading whitespace only: the result is a suffix, what was dropped is all whitespace, and the result does not start with whitespace |
| `JsText.TrimEnd` | src/components/features/Chatbot.jsx:53 | drops trailing whitespace only: the result is a prefix, what was dropped is all whitespace, and the result does not end with whitespace |
| `JsText.Trim` | src/components/features/Chatbot.jsx:53 | `trim` is the two cuts in turn; what it returns is stated by `JsText.TrimIsSlice` |
| `JsText.ReplaceUnderscores` | src/pages/cyber-portal/CyberAwareness.jsx:30 | `replace(/_/g, ' ')` keeps the length, turns each '_' into a space and keeps every other character |
| `JsText.IncludesEmpty` | src/pages/LawLibrary.jsx:29-32 | the empty string occurs in every string, so an empty term passes `includes` on any field |
| `JsText.IncludesLowerIff` | src/pages/LawLibrary.jsx:29-32 | lower-casing both sides and then testing `includes` holds exactly when the term occurs in the field with letter case disregarded, defined independently position by position |
| `JsText.SameIgnoringCaseLowersEqual` | src/pages/LawLibrary.jsx:29-32 | two terms that differ only in letter case lower-case to the same string |
| `JsText.LowersToIffSameIgnoringCase` | src/pages/Profile.jsx:33 | for a lower-case target, `s.toLowerCase()` equals it exactly when `s` spells it in any mix of case |
| `JsText.TwoCutsMakeTrimmedSlice` | src/components/features/Chatbot.jsx:53 | cutting leading and then trailing whitespace leaves a slice with whitespace only outside it |
| `JsText.TrimIsSlice` | src/components/features/Chatbot.jsx:53 | `trim` returns a slice of the input that neither starts nor ends with whitespace, and removes only whitespace on both sides |
| `JsText.BlankIffAllWhitespace` | src/components/features/Chatbot.jsx:53 | `!s.trim()` holds exactly when every character of `s` is JavaScript whitespace, including the empty string |
| `JsArray.Filter` | src/pages/LawLibrary.jsx:27 | `filter` returns at most as many elements as it is given, each taken from the input and satisfying the predicate |
| `JsArray.FilterMembership` | src/pages/LawLibrary.jsx:27 | an element is in the result exactly when it is in the input and satisfies the predicate |
| `JsArray.FilterAppend` | src/pages/LawLibrary.jsx:27 | filtering a concatenation is the concatenation of the filtered parts |
| `JsArray.FilterSnoc` | src/pages/LawLibrary.jsx:27 | filtering a list is filtering all but its last element, then keeping that element if it passes |
| `JsArray.SelectedIndicesLength` | src/pages/LawLibrary.jsx:27 | there are as many selected positions as kept elements |
| `JsArray.SelectedIndicesExact` | src/pages/LawLibrary.jsx:27 | the selected positions increase, and a position is selected exactly when its element passes |
| `JsArray.FilterAtSelected` | src/pages/LawLibrary.jsx:27 | the k-th kept element is the element at the k-th selected position |
| `JsArray.FilterIsOrderedSelection` | src/pages/LawLibrary.jsx:27 | the result is the input's elements at strictly increasing positions, and those positions are exactly the ones whose element satisfies the predicate |
| `JsArray.FilterAllPass` | src/pages/LawLibrary.jsx:27 | when every element satisfies the predicate, the result is the input |
| `JsArray.FilterNonePass` | src/pages/LawLibrary.jsx:27 | when no element satisfies the predicate, the result is empty |
| `JsArray.FilterCongruent` | src/pages/LawLibrary.jsx:27 | predicates that agree on every element give the same result |
| `JsArray.FilterIdempotent` | src/pages/LawLibrary.jsx:27 | filtering the result again with the same predicate changes nothing |
| `LawLibrary.MatchesSearch` | src/pages/LawLibrary.jsx:27-31 | the text test: the lower-cased term occurs in the lower-cased title, description or simplified text, or in some lower-cased tag; stated case-blind by `LawLibrary.MatchesSearchIff` |
| `LawLibrary.MatchesCategory` | src/pages/LawLibrary.jsx:33 | a truthy selected category must equal the law's category exactly; no category, or an empty one, passes every law |
| `LawLibrary.Keep` | src/pages/LawLibrary.jsx:35 | the filter callback keeps a law when it passes both the text test and the category test |
| `LawLibrary.FilterLaws` | src/pages/LawLibrary.jsx:27-37 | every returned law is a catalog law that passes the text test and the category test |
| `LawLibrary.FilterLawsIsOrderedSelection` | src/pages/LawLibrary.jsx:27-37 | the result is the order-preserving subsequence of the input made of exactly the laws that pass both tests; the input is a value and is never changed |
| `LawLibrary.FilterLawsMembership` | src/pages/LawLibrary.jsx:28-36 | a law is returned exactly when it is in the input and passes the text test AND the category test |
| `LawLibrary.MatchesSearchIff` | src/pages/LawLibrary.jsx:28-32 | the text test holds exactly when the term occurs, ignoring case, in the title OR the description OR the simplified text OR some tag |
| `LawLibrary.FilterUnfilteredIsIdentity` | src/pages/LawLibrary.jsx:28-34 | with an empty term and no category (null or empty) every law is returned, in order |
| `LawLibrary.FilterCategoryExact` | src/pages/LawLibrary.jsx:34 | with a category selected, every returned law has exactly that category string |
| `LawLibrary.FilterIgnoresTermCase` | src/pages/LawLibrary.jsx:29-32 | changing only the letter case of the term does not change the result |
| `LawLibrary.FilterLawsIdempotent` | src/pages/LawLibrary.jsx:27-37 | re-filtering the result with the same term and category returns the same list |
| `LawLibrary.EmptyTermMatchesEveryLaw` | src/pages/LawLibrary.jsx:29 | an empty term passes the text test of every law |
| `LawLibrary.EmptyTermKeepsCategory` | src/pages/LawLibrary.jsx:34-36 | with an empty term and a non-empty category, a law is kept exactly when its category equals it |
| `LawLibrary.FilterLawsAppend` | src/pages/LawLibrary.jsx:27-37 | filtering two catalogs joined is joining their filtered lists |
| `LawLibrary.NoLawOfCategory` | src/pages/LawLibrary.jsx:34-36 | with an empty term, a category that no law has yields an empty list |
| `LawLibrary.OnlyLastOfCategory` | src/pages/LawLibrary.jsx:34-36 | with an empty term, a list whose last law alone has the category filters to that law |
| `LawLibrary.TwoOfNineCategory` | src/pages/LawLibrary.jsx:27-37 | with an empty term, a nine-law list whose fifth and ninth laws alone have the category filters to exactly those two, in order |
| `LawLibrary.FraudCategoryScenario` | src/pages/LawLibrary.jsx:27-37 | on the catalog, an empty term and the category "Online Fraud & Financial Crimes" yield the laws with ids 5 and 9, in that order |
| `LawLibrary.CategoryIsCaseSensitiveScenario` | src/pages/LawLibrary.jsx:34 | the same category typed in lower case selects no law: the comparison is case-sensitive |
| `LawLibrary.IdentityMatchesSection66C` | src/pages/LawLibrary.jsx:28-32 | the law with id 4 passes the text test for "identity" through its tag "Identity Theft" |
| `LawLibrary.IdentitySearchScenario` | src/pages/LawLibrary.jsx:28-32 | the term "identity" keeps the law with id 4 (through its tag "Identity Theft") |
| `LawLibrary.ShowsCategoryGrid` | src/pages/LawLibrary.jsx:100 | the category grid is rendered when the term is empty and no category is set |
| `LawLibrary.ShowsResults` | src/pages/LawLibrary.jsx:128-148 | the results header and list are rendered when a term or a category is set |
| `LawLibrary.ShowsBackToCategories` | src/pages/LawLibrary.jsx:134 | "Back to Categories" is rendered when a category is set and the term is empty |
| `LawLibrary.ShowsClearAll` | src/pages/LawLibrary.jsx:148-151 | "Clear all filters" is rendered in the results view when no law is listed |
| `LawLibrary.ResultsHeading` | src/pages/LawLibrary.jsx:132-136 | in results mode the heading quotes the term when there is one; otherwise it is the category, and only then is "Back to Categories" offered |
| `LawLibrary.GridAndResultsExclusive` | src/pages/LawLibrary.jsx:100-148 | the category grid is shown exactly when the results view is not: the grid needs an empty term and no category |
| `LawLibrary.ClearAllMeansSomeLawRejected` | src/pages/LawLibrary.jsx:192-199 | "Clear all filters" is offered only when the results view lists nothing, so on a non-empty law list some law fails the active filter |
| `LawLibrary.LibraryView.constructor` | src/pages/LawLibrary.jsx:11-13 | the page, given the imported law list, starts with an empty term, no category and the whole list, which is what the filter effect computes for that state |
| `LawLibrary.LibraryView.Recompute` | src/pages/LawLibrary.jsx:26-39 | the effect sets the list to the filter of the catalog under the current term and category, changing neither |
| `LawLibrary.LibraryView.ApplyUrlQuery` | src/pages/LawLibrary.jsx:18-24 | a non-empty `search` query parameter becomes the term; an absent or empty one changes nothing |
| `LawLibrary.LibraryView.EditSearch` | src/pages/LawLibrary.jsx:83 | typing replaces the term and keeps the category; the list follows |
| `LawLibrary.LibraryView.ClearSearch` | src/pages/LawLibrary.jsx:85-86 | the X button, present only while there is a term, empties the term and keeps the category |
| `LawLibrary.LibraryView.PickCategory` | src/pages/LawLibrary.jsx:109 | a category card sets the category to its title; every listed law then has that category |
| `LawLibrary.LibraryView.BackToCategories` | src/pages/LawLibrary.jsx:134-136 | "Back to Categories" drops the category; the grid shows and the list is the whole law list again |
| `LawLibrary.LibraryView.ClearAllFilters` | src/pages/LawLibrary.jsx:195 | "Clear all filters" resets both term and category; the grid shows and the list is the whole law list again |
| `ChatContext.CountFrom` | src/context/ChatContext.jsx:8-27 | the count of a sender's messages is at most the list length, and is zero exactly when that sender has no message |
| `ChatContext.CountFromAppend` | src/context/ChatContext.jsx:17 | appending one message adds one to its sender's count only |
| `ChatContext.CountsPartition` | src/context/ChatContext.jsx:16-26 | every message is the user's or the bot's: the two counts add up to the length |
| `ChatContext.ChatStore.AppendKeepsOrder` | src/context/ChatContext.jsx:17-26 | an append that keeps replies within sends keeps every prefix in that bound |
| `ChatContext.AllAnswered` | src/context/ChatContext.jsx:15-27 | with no reply pending, the list is the greeting plus one reply per user message |
| `ChatContext.ChatStore.constructor` | src/context/ChatContext.jsx:8-11 | the list holds exactly the bot greeting with id 1, the chat is closed and no reply is pending |
| `ChatContext.ChatStore.ToggleChat` | src/context/ChatContext.jsx:13 | `toggleChat` flips `isOpen` and changes nothing else |
| `ChatContext.ChatStore.SendMessage` | src/context/ChatContext.jsx:15-17 | `sendMessage` appends exactly one user message with the given text, empty or not, keeps the earlier messages and schedules one reply |
| `ChatContext.ChatStore.DeliverReply` | src/context/ChatContext.jsx:20-27 | a firing timer appends exactly one bot message with the canned text; a reply never precedes its send, and the invariant (greeting first, bot texts canned, user count + 1 = bot count + pending) is kept |
| `Chatbot.MicClick` | src/components/features/Chatbot.jsx:39-49 | without speech recognition the click only alerts; otherwise it stops while listening and starts while idle |
| `Chatbot.SendEnabled` | src/components/features/Chatbot.jsx:127 | the send button is enabled when `inputText.trim()` is non-empty; stated on characters by `Chatbot.SendEnabledIff` |
| `Chatbot.SendEnabledIff` | src/components/features/Chatbot.jsx:127 | the send button is enabled exactly when the input holds a character that is not whitespace |
| `Chatbot.ChatWidget.constructor` | src/components/features/Chatbot.jsx:8-9 | the input starts empty and the widget is not listening |
| `Chatbot.ChatWidget.EditInput` | src/components/features/Chatbot.jsx:121 | typing replaces the input and nothing else |
| `Chatbot.ChatWidget.HandleSend` | src/components/features/Chatbot.jsx:51-56 | blank input sends nothing and stays; other input goes to the store untrimmed, then the input is cleared; sending happens exactly when the button is enabled |
| `Chatbot.ChatWidget.HandleMicClick` | src/components/features/Chatbot.jsx:39-49 | without speech recognition a click only adds the alert; the input and `isListening` never change |
| `Auth.RoleName` | src/pages/Auth.jsx:181-185 | each role button sets its own string: Citizen "Citizen", Police "Police", Legal "Legal", and no other button gives that string |
| `Auth.WithField` | src/pages/Auth.jsx:24-26 | `{ ...formData, [name]: value }` changes only the named field and never the role |
| `Auth.SignupUser` | src/pages/Auth.jsx:42-48 | the signed-up user has the form's name, email = contact, the form's role, no avatar and stats 0/0/0 |
| `Auth.DemoUser` | src/pages/Auth.jsx:56-62 | the demo user is "Demo User", email = contact, role Citizen, no avatar, stats 5/2/1 |
| `Auth.LoginRequiredFilled` | src/pages/Auth.jsx:101-123 | the login form submits only when contact and password are both non-empty |
| `Auth.SignupRequiredFilled` | src/pages/Auth.jsx:146-231 | after the code is sent nothing is required; before it, name and contact are required, and for every role but Citizen the verification id too |
| `Auth.VerificationIdRequiredIff` | src/pages/Auth.jsx:159-212 | with name and contact filled in, "Get OTP" submits exactly when the role is Citizen or a verification id was typed |
| `Auth.SignupUserIgnoresSecrets` | src/pages/Auth.jsx:42-48 | neither the password nor the verification id reaches the signed-up user |
| `Auth.AuthPage.constructor` | src/pages/Auth.jsx:8-22 | login mode, empty Citizen form, code not sent, empty code |
| `Auth.AuthPage.ShowLogin` | src/pages/Auth.jsx:73 | the Login tab sets login mode only |
| `Auth.AuthPage.ShowSignup` | src/pages/Auth.jsx:79 | the Sign Up tab sets signup mode only |
| `Auth.AuthPage.EditField` | src/pages/Auth.jsx:24-26 | a field edit updates only the named form field |
| `Auth.AuthPage.SelectRole` | src/pages/Auth.jsx:181-185 | a role button sets only `role` |
| `Auth.AuthPage.EditOtp` | src/pages/Auth.jsx:223-229 | the code input sets the code, at most four characters |
| `Auth.AuthPage.SendOtp` | src/pages/Auth.jsx:28-33 | "Get OTP" sets `otpSent` and shows the mock code alert; nothing else changes |
| `Auth.AuthPage.VerifyAndSignup` | src/pages/Auth.jsx:35-51 | a code other than "1234" only alerts "Invalid OTP"; "1234" logs in the user built from the form and goes to /profile |
| `Auth.AuthPage.SubmitSignup` | src/pages/Auth.jsx:138-246 | with an empty name, contact, or (for Police and Legal) verification id before the code is sent, nothing changes. Otherwise "Get OTP" sets `otpSent` and shows the mock code; after it, a wrong code only alerts "Invalid OTP" and "1234" logs in the form's user and goes to /profile. The mode, the form and the code never change |
| `Auth.AuthPage.Login` | src/pages/Auth.jsx:53-136 | with an empty contact or password nothing changes; otherwise the demo user under the typed contact is logged in and the page goes to /profile, with nothing else changed |
| `Auth.AuthPage.ChangeContactInfo` | src/pages/Auth.jsx:244 | "Change Contact Info" clears `otpSent` and keeps the typed code and every form field |
| `CaseNotebook.AcceptsDraft` | src/pages/lawyer/CaseNotebook.jsx:22 | the create guard passes when both the title and the content are non-empty strings |
| `CaseNotebook.WhitespaceTitlePasses` | src/pages/lawyer/CaseNotebook.jsx:22 | the guard refuses only empty strings: a title of spaces passes although it is blank |
| `CaseNotebook.NotebookPage.constructor` | src/pages/lawyer/CaseNotebook.jsx:5-8 | empty notes and form, not loading; mounting issues the first list request |
| `CaseNotebook.NotebookPage.EditTitle` | src/pages/lawyer/CaseNotebook.jsx:54 | typing replaces the title only |
| `CaseNotebook.NotebookPage.EditContent` | src/pages/lawyer/CaseNotebook.jsx:61 | typing replaces the content only |
| `CaseNotebook.NotebookPage.ClickAdd` | src/pages/lawyer/CaseNotebook.jsx:21-26 | with an empty field the click only alerts "Fill all fields"; otherwise one create request with exactly `{title, content}` is sent and loading starts; the button is disabled while loading |
| `CaseNotebook.NotebookPage.CreateSettled` | src/pages/lawyer/CaseNotebook.jsx:26-34 | success clears both fields and reloads the notes; failure keeps the fields and alerts the error message; loading is false after either |
| `CaseNotebook.NotebookPage.FetchSettled` | src/pages/lawyer/CaseNotebook.jsx:11-18 | a successful list request replaces the notes wholesale; a failed one leaves them unchanged |
| `Profile.RoleTheme` | src/pages/Profile.jsx:32-47 | any casing of "police" gives the blue badge, any casing of "legal" the purple one, and every other role, or none, the orange default |
| `Profile.VerifiedBadge` | src/pages/Profile.jsx:105-114 | the verified lines appear only for the exact-case roles "Legal" and "Police" |
| `Profile.RoleCasingContrast` | src/pages/Profile.jsx:33-47 | "legal" gets the purple theme but no verified line, and "POLICE" the blue theme but none either; "Citizen" and a missing role get the default |
| `Profile.StatShown` | src/pages/Profile.jsx:137-151 | a missing stats record shows 0 for each counter; a present one shows its value |
| `Profile.ProfilePage.constructor` | src/pages/Profile.jsx:12-24 | the active user is the logged-in user if there is one, otherwise the mock user |
| `Profile.ProfilePage.OnAuthUserChanged` | src/pages/Profile.jsx:26-30 | a present context user becomes the active user; an absent one leaves it as it was |
| `Profile.ProfilePage.Theme` | src/pages/Profile.jsx:49 | the badge shown is the theme of the active user's role, as `Profile.RoleTheme` gives it: one of the three themes |
| `Profile.ProfilePage.HandleRoleSwitch` | src/pages/Profile.jsx:51-58 | only the role of the active user changes; `updateUser` is called only when a user is logged in |
| `Profile.ProfilePage.HandleLogout` | src/pages/Profile.jsx:60-63 | logout is called once and the page goes to /login |
| `CyberPortal.Identify` | src/pages/CyberPortal.jsx:11-24 | the role is always a non-empty lower-case string. No stored user leaves ('guest', ''). Bad JSON, or a role that is not a string, gives role 'guest' and keeps the name ''. Otherwise the role is lower-cased, 'guest' when missing, and a missing name becomes 'Guest' |
| `CyberPortal.NameOrGuest` | src/pages/CyberPortal.jsx:18 | the displayed name is the stored name when present and non-empty, otherwise 'Guest' |
| `CyberPortal.RoleSection` | src/pages/CyberPortal.jsx:94-99 | at most one role section, only for exactly 'citizen', 'lawyer' or 'police' |
| `CyberPortal.StoredPoliceSeesPoliceTools` | src/pages/CyberPortal.jsx:17 | a stored role in any casing of "police" unlocks the police tools |
| `CyberPortal.LegalRoleSeesNoTools` | src/pages/CyberPortal.jsx:97-99 | a stored role "Legal", like no stored user, gets no role section |
| `CyberPortal.ActionRoute` | src/pages/CyberPortal.jsx:43-62 | exactly three endpoints navigate: "emergency-helpline" to /cyber-portal/emergency-support, "recovery-steps" to /cyber-portal/recovery-guide, "cyber-awareness" to /cyber-portal/cyber-awareness |
| `CyberPortal.PortalPage.constructor` | src/pages/CyberPortal.jsx:8-9 | role 'guest' and an empty name before the mount effect |
| `CyberPortal.PortalPage.Mount` | src/pages/CyberPortal.jsx:11-24 | the mount effect leaves role and name as `Identify` gives them |
| `CyberPortal.PortalPage.HandleAction` | src/pages/CyberPortal.jsx:43-62 | a known endpoint adds its route to the navigations; any other endpoint changes nothing |
| `CyberAwareness.ConfigFor` | src/pages/cyber-portal/CyberAwareness.jsx:7-30 | a configured key uses its table entry; an unknown key gets the Shield icon, the grey colour, and a title of the same length as the key in which each '_' becomes a space and every other character is kept |
| `CyberAwareness.ConfigScenarios` | src/pages/cyber-portal/CyberAwareness.jsx:8-30 | "trending_scams" is "Trending Scams" in red with the alert icon; the unknown "deepfake_alerts" is titled "deepfake alerts" |
| `CyberAwareness.SectionKeys` | src/pages/cyber-portal/CyberAwareness.jsx:146-149 | there are no more sections than data members |
| `CyberAwareness.SectionKeysIff` | src/pages/cyber-portal/CyberAwareness.jsx:146-149 | a key becomes a section exactly when its member holds an array; `title` and other non-array members are skipped |
| `CyberAwareness.FilteredKeysIff` | src/pages/cyber-portal/CyberAwareness.jsx:146-149 | a key is among the kept members' keys exactly when a member with that key passes the test |
| `CyberAwareness.KeysInOrder` | src/pages/cyber-portal/CyberAwareness.jsx:146-149 | the keys kept by a member test follow the members' order, and every member passing the test is kept |
| `CyberAwareness.SectionKeysInOrder` | src/pages/cyber-portal/CyberAwareness.jsx:146-149 | sections follow the members' key order: the k-th section is the k-th array member, and every array member has one |
| `CyberAwareness.ShownSections` | src/pages/cyber-portal/CyberAwareness.jsx:33 | no more sections show than there are section components |
| `CyberAwareness.ShownAmongSections` | src/pages/cyber-portal/CyberAwareness.jsx:33 | every member whose section shows is an array member |
| `CyberAwareness.ShownSectionsIff` | src/pages/cyber-portal/CyberAwareness.jsx:33 | a section shows exactly when a member with its key holds a non-empty array |
| `CyberAwareness.ShownSectionsInOrder` | src/pages/cyber-portal/CyberAwareness.jsx:33-149 | the shown sections follow the members' order: the k-th shown section is the k-th non-empty array member, and every such member shows |
| `CyberAwareness.EmptyListShowsNothing` | src/pages/cyber-portal/CyberAwareness.jsx:33 | an empty list becomes a section component but shows nothing |
| `CyberAwareness.Lookup` | src/pages/cyber-portal/CyberAwareness.jsx:136 | a member lookup succeeds exactly when a member has that key, and returns that member's value |
| `CyberAwareness.Heading` | src/pages/cyber-portal/CyberAwareness.jsx:136 | the heading is never empty: it is the data's title or "Cyber Awareness", and a non-empty string title is always shown |
| `CyberAwareness.FallbackArrayMembers` | src/pages/cyber-portal/CyberAwareness.jsx:105-110 | the array members of the fallback data are its last three members, and all of them have items |
| `CyberAwareness.FallbackSectionKeys` | src/pages/cyber-portal/CyberAwareness.jsx:146-149 | the fallback data yields the sections trending_scams, red_flags, safe_banking_practices, in that order, and all of them show |
| `CyberAwareness.FallbackHeading` | src/pages/cyber-portal/CyberAwareness.jsx:105-110 | the fallback's heading is its title "Cyber Safety Awareness" |
| `CyberAwareness.FallbackScenario` | src/pages/cyber-portal/CyberAwareness.jsx:105-110 | on the fallback data the heading is "Cyber Safety Awareness" and the three lists become three configured sections in order, all of them shown |
| `CyberAwareness.CollapsibleSection.constructor` | src/pages/cyber-portal/CyberAwareness.jsx:29 | a section starts closed |
| `CyberAwareness.CollapsibleSection.Toggle` | src/pages/cyber-portal/CyberAwareness.jsx:38 | the header click flips `isOpen` |
| `CyberAwareness.AwarenessPage.constructor` | src/pages/cyber-portal/CyberAwareness.jsx:94-95 | no data and loading at first |
| `CyberAwareness.AwarenessPage.FetchSettled` | src/pages/cyber-portal/CyberAwareness.jsx:97-116 | the data becomes the response, or the fixed fallback on failure; loading is false after either |
| `CyberAwareness.AwarenessPage.Sections` | src/pages/cyber-portal/CyberAwareness.jsx:140-151 | no section component while loading; afterwards, one per array member, in order |
| `CyberAwareness.AwarenessPage.Shown` | src/pages/cyber-portal/CyberAwareness.jsx:33-151 | nothing shows while loading; afterwards, the non-empty lists in order, never more than the section components |

## Left out

- `LawLibrary.IdentitySearchScenario` proves only that the term "identity" keeps law id 4. It does not prove that no other law is kept. That would need the term's absence from every long description to be established, which the solver cannot do on literals of that length.
- `JsText.ToLowerCase` lowers ASCII letters only. JavaScript's `toLowerCase` uses full Unicode case mapping. The catalog and the role names are ASCII.
- `CyberAwareness.Heading`: a `title` member that is neither a string nor empty (an array, a number) falls back to the default heading in the model. The page would render its value.
- `CyberAwareness.ConfigFor`: keys that name inherited object properties, such as "constructor", are looked up in the prototype by the source. The model treats them as unknown keys.
- `CyberPortal.Identify`: only string names are modelled. A non-string name is shown as the page renders it, which is not modelled.
- `CyberAwareness.AwarenessPage.FetchSettled`: a response that is not a JSON object (for example `null`) is not modelled. The response is taken to be an object given as its members in key order.
- `LawLibrary.LibraryView.PickCategory` takes any non-empty title. The 26 category titles of `src/data/categories.js` are not part of this model; all of them are non-empty.
- `Profile.ProfilePage.HandleRoleSwitch` is modelled, but no element of the page calls it.
- The contents of a `learning_resources` section (`item.url || "#"`, `item.title || item`) and the rendering of section items are presentation.
- The browser's report of an empty required field (its "fill in this field" bubble) is not recorded. A blocked submit leaves the page state unchanged. Required-ness is checked as non-empty, which is what the browser checks on a text input.
- Speech recognition: starting, stopping, the `onstart`/`onend`/`onresult` callbacks, and the `isListening` changes they make. Only the unsupported path of the microphone click is modelled; the supported path returns the request.
- Timers and clocks: the one-second reply delay becomes the explicit `DeliverReply` step. `Date.now()` is a parameter, and nothing is claimed about message ids being increasing or unique.
- `src/utils/api.js` (base URL, logging, error-message choice) is not part of this model. Backend calls are recorded requests with success or failure outcomes given as parameters.
- The authentication context is not part of this model. In particular, whether `login` writes the user to the local-storage key `user` that the portal reads is not modelled; the portal's stored value is a parameter. `login`, `logout` and `updateUser` are recorded calls; the user they later provide is a parameter.
- `alert`, `navigate`, `window.open` (the FIR portal card), `console.error` and `localStorage` are recorded values or parameters. JSON parsing is an input, already classified as missing, unparseable, or parsed into its role and name.
- Presentation is left out: animations, styling classes, the mouse-tracking border of the search box, and the static pages (navigation bar, footer, home, about, placeholder lawyer pages, emergency support and recovery guide).
