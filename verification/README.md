# Data workspace front end — a Dafny model

This project models the state and logic of a single-page front end for a
data-unification workspace. Users sign up or log in, then work in a
playground. The playground is a canvas of source tables with the
relationships between them, and it sits beside an explainable-data chat.
The application also has a learning hub and an agent marketplace. Each
component of the front end becomes one Dafny module:

| module | file | component |
|---|---|---|
| `Navigation` | navigation.dfy | the application shell (`App.tsx`): the authentication stage, the current view, the agent drawer, the selected table and the user |
| `Graph`, `GraphSeed` | graph.dfy, graph_seed.dfy | the relationship canvas (`CanvasView.tsx`): the seeded tables, the derivation of relationship lines, and the presentation chosen for the active tab |
| `Chat` | chat.dfy | the chat rail (`RightRail.tsx`): the message log, the canned answer and proposal, and the input box and minimised flag, for one mount of the rail |
| `SignUp` | signup.dfy | the sign-up page (`SignUpPage.tsx`): the form, the ordered validation chain, the submit handler and the password-strength meter |
| `Learning` | learning.dfy | the learning hub (`LMSHub.tsx`): the lesson filter, difficulty badges, category completion percentages, and the action label and progress bar |
| `Marketplace` | marketplace.dfy | the agent marketplace (`AgentMarketplace.tsx`): the agent filter, the install button and the benefits preview |
| `Listing` | listing.dfy | the category-and-search filter shared by the hub and the marketplace |
| `Text`, `Numbers` | text.dfy, numbers.dfy | the JavaScript string and number semantics the components rely on: `trim`, `toLowerCase` (ASCII), `includes`, `split(...)[0]`, `parseInt`, `toString` |
| `Wrappers` | wrappers.dfy | `Option` (null/undefined/NaN) and `Result` |

Components whose state changes step by step are modelled as classes. Each
has the component's `useState` fields, and each handler is a method with a
`modifies` clause. `App`, `ChatPanel` and `SignUpPage` are modelled this
way. Every shell handler is also specified against a pure transition
function, `Navigation.Step`, and the shell's invariants are proved over
every sequence of events the rendered screens can deliver. The canvas's
`renderConnections` is a pair of nested loops. It is modelled as two
methods with loop invariants, and both are proved equal to a recursive
specification. The filters, validation, labels and colours are pure
functions with lemmas.

A few behaviours of the code differ from the description of the system:

- **Logout.** It resets the user, the stage and the view only. The agent
  drawer and the selected table keep their values (`App.tsx:43-47`).
  `Navigation.LogoutThenLogin` states this.
- **Edge order.** Relationship lines are drawn only when
  `parseInt(source) < parseInt(target)`. This is a numeric comparison, so
  ids that are not numbers produce no lines at all. See
  `Graph.NonNumericIdsHaveNoEdges`.

## Model

| member | source | states |
|---|---|---|
| Graph.Find | src/components/CanvasView.tsx:32 | `tables.find` returns a table exactly when one has the id; the found table has that id and is the first table in the list with it |
| Graph.Connections | src/components/CanvasView.tsx:27-52 | the lines `renderConnections` draws, defined table by table and connection by connection; `Graph.ConnectionsIff` characterises them and `Graph.RenderConnections` is proved to compute them |
| Graph.UseCaseTitle | src/components/CanvasView.tsx:224 | the use-case heading, chosen by the active tab as intended; `Graph.WorkspaceTabModes` gives both headings |
| Graph.RenderAsWritten | src/components/CanvasView.tsx:312-320 | the final switch as written, where the golden view fails on `Star` (line 126) and the use-case view on `activeTab` (line 224); `Graph.AsWrittenOnlyGraphRenders` states its outcomes |
| Graph.PushTableLines | src/components/CanvasView.tsx:31-48 | the inner loop appends exactly the admitted connections of one table, in the order of its connection list |
| Graph.RenderConnections | src/components/CanvasView.tsx:27-52 | the loops push exactly the lines of the specification `Connections`, table by table and connection by connection |
| Graph.EdgesOfConnectionsMember | src/components/CanvasView.tsx:31-34 | a line comes from one connection list exactly when its source is the table, its target is listed and the guard admits it |
| Graph.EdgesOfTablesMember | src/components/CanvasView.tsx:30-34 | a line comes from a run of tables exactly when one table of the run records it and the guard admits it |
| Graph.ConnectionsIff | src/components/CanvasView.tsx:30-33 | a line source→target is drawn iff a table with id source lists target, a table with id target exists, and parseInt(source) < parseInt(target) |
| Graph.EdgesAscend | src/components/CanvasView.tsx:33 | every drawn line goes to an existing table with a strictly larger numeric id |
| Graph.NoSelfLoopsOrReversedPairs | src/components/CanvasView.tsx:33 | no line joins a table to itself, and no pair is drawn in both directions |
| Graph.DanglingConnectionDropped | src/components/CanvasView.tsx:32-33 | a connection to a missing table draws nothing |
| Graph.NonNumericIdsHaveNoEdges | src/components/CanvasView.tsx:33 | an id for which parseInt gives NaN is never the end of a line |
| Graph.OneSidedHigherConnectionDropped | src/components/CanvasView.tsx:30-33 | a relationship listed only on the table with the higher id is drawn in neither direction |
| Graph.EdgeCountBounded | src/components/CanvasView.tsx:30-34 | there are never more lines than listed connections |
| Graph.KeyInjective | src/components/CanvasView.tsx:36 | the key `source-target` determines the line when the source id has no '-' |
| Graph.KeysUnique | src/components/CanvasView.tsx:30-36 | for distinct table ids, repeat-free connection lists and dash-free ids, the lines and their React keys are pairwise distinct |
| GraphSeed.SeedConnections | src/components/CanvasView.tsx:20-25 | the four seeded tables draw exactly the lines 1-2, 1-3 and 2-4, in that order |
| Graph.ModeFor | src/components/CanvasView.tsx:312-320 | 'golden-view' gives the golden view, 'customer-360' and 'order-analytics' the use-case view, and every other tab the relationship graph (each an iff) |
| Graph.WorkspaceTabModes | src/components/CanvasView.tsx:312-320 | the default tab shows the graph; the two use-case tabs get their own headings |
| Graph.AsWrittenOnlyGraphRenders | src/components/CanvasView.tsx:224 | as written, rendering succeeds exactly for the tabs that show the relationship graph; the use-case tabs fail on `activeTab` |
| Numbers.ParseInt | src/components/CanvasView.tsx:33 | `parseInt` with no radix: skips leading white space and an optional sign, reads hexadecimal digits after `0x` and decimal digits otherwise, and is NaN without digits; its properties are the `Numbers` lemmas below |
| Numbers.DecimalString | src/components/RightRail.tsx:39 | `toString` of a non-negative integer is a non-empty run of decimal digits without a leading zero |
| Numbers.ParseIntOfDecimalString | src/components/CanvasView.tsx:33 | parseInt reads back the decimal string of n as n |
| Numbers.ParseIntOneDigit | src/components/CanvasView.tsx:33 | parseInt of a one-digit string is that digit |
| Numbers.ParseIntWithoutDigits | src/components/CanvasView.tsx:33 | parseInt of a string without decimal digits is NaN |
| Numbers.DigitPrefixLongest | src/components/CanvasView.tsx:33 | parseInt reads the longest run of digits and stops at the first non-digit |
| Numbers.DecimalStringInjective | src/components/RightRail.tsx:39-47 | different numbers have different decimal strings |
| Text.Trim | src/components/RightRail.tsx:36 | `trim()`: drops leading and trailing JavaScript white space; `Text.TrimEmptyIffBlank` characterises when it is empty |
| Text.Lower | src/components/RightRail.tsx:49 | `toLowerCase()` on ASCII: same length, each character lowered on its own |
| Text.Includes | src/components/RightRail.tsx:49 | `includes`; `Text.IncludesIff` ties it to an occurrence at some index |
| Text.TrimEmptyIffBlank | src/components/RightRail.tsx:36 | `trim()` is empty exactly when the string is all JavaScript white space |
| Text.LowerIdempotent | src/components/RightRail.tsx:49 | lower-casing twice is lower-casing once |
| Text.LowerAppend | src/components/RightRail.tsx:49 | lower-casing works character by character over a concatenation |
| Text.IncludesIff | src/components/RightRail.tsx:49 | `includes` holds exactly when the pattern occurs at some index |
| Text.IncludesEmpty | src/components/LMSHub.tsx:157 | every string includes the empty string |
| Text.MissingCharExcludes | src/components/RightRail.tsx:49 | a string lacking one character of the pattern does not include it |
| Text.BeforeFirst | src/App.tsx:29 | `split(sep)[0]` is a prefix without sep, followed in the string by sep when shorter |
| Chat.InitialMessages | src/components/RightRail.tsx:20-32 | the mount log: the greeting with the three starter suggestions, five minutes before mounting; `Chat.InitialIsConversation` states its shape |
| Chat.AssistantReply | src/components/RightRail.tsx:49 | the canned answer, chosen by whether the question mentions "duplicate"; see `Chat.ReplyDependsOnlyOnDuplicate` and `Chat.ReplyIgnoresCase` |
| Chat.ProposalFor | src/components/RightRail.tsx:51-56 | the Customer 360 proposal when the question mentions "360", none otherwise; see `Chat.ProposalWellFormed` |
| Chat.AfterSend | src/components/RightRail.tsx:35-61 | the log after a send; `Chat.AfterSendExtends` and `Chat.AfterSendKeepsConversation` state what it keeps |
| Chat.ChatPanel.constructor | src/components/RightRail.tsx:19-33 | the rail mounts expanded, with the greeting log and an empty input; the log is a conversation |
| Chat.InitialIsConversation | src/components/RightRail.tsx:20-32 | the greeting alone is a conversation |
| Chat.CanSendIff | src/components/RightRail.tsx:36 | a send goes through exactly when the trimmed input is non-empty |
| Chat.ChatPanel.SendMessage | src/components/RightRail.tsx:35-61 | blank input changes nothing; otherwise the question and its answer are appended and the input is cleared; the minimised flag is kept and the conversation shape is preserved |
| Chat.AfterSendKeepsConversation | src/components/RightRail.tsx:35-61 | every send keeps the log a greeting followed by question-answer pairs |
| Chat.AfterSendExtends | src/components/RightRail.tsx:36-59 | a send never alters earlier messages and adds two messages, or none for blank input |
| Chat.ConversationRoles | src/components/RightRail.tsx:38-59 | in a conversation, questions sit at odd positions and answers at even ones, each answering its predecessor |
| Chat.AssistantFollowsQuestion | src/components/RightRail.tsx:46-57 | every later assistant message is the reply to the question just before it, with that question's proposal |
| Chat.FindingsDiffer | src/components/RightRail.tsx:49 | the two canned answers differ |
| Chat.ReplyDependsOnlyOnDuplicate | src/components/RightRail.tsx:49 | two questions get the same answer iff both or neither mention "duplicate" |
| Chat.ReplyIgnoresCase | src/components/RightRail.tsx:49-51 | the answer and the proposal ignore the question's letter case |
| Chat.ProposalWellFormed | src/components/RightRail.tsx:51-56 | a proposal names three distinct tables with a confidence of at most 100 |
| Chat.SendIdsDistinct | src/components/RightRail.tsx:39-47 | the two messages of one send have different id strings |
| Chat.MentionsWord | src/components/RightRail.tsx:49 | a question containing a lower-case word mentions it |
| Chat.NotMentioned | src/components/RightRail.tsx:49 | a question lacking a letter of the word, in both cases, does not mention it |
| Chat.FirstSuggestionTopics | src/components/RightRail.tsx:27 | the first suggestion mentions "duplicate" and not "360" |
| Chat.SecondSuggestionTopics | src/components/RightRail.tsx:28 | the second suggestion mentions neither word |
| Chat.ThirdSuggestionTopics | src/components/RightRail.tsx:29 | the third suggestion mentions "360" and not "duplicate" |
| Chat.StarterSuggestionReplies | src/components/RightRail.tsx:26-56 | the suggestions get the duplicate answer, the correlation answer, and the correlation answer with the Customer 360 proposal |
| Chat.ChatPanel.SetInput | src/components/RightRail.tsx:166 | typing replaces the input and nothing else |
| Chat.ChatPanel.SuggestionClick | src/components/RightRail.tsx:70-72 | a suggestion replaces the input; nothing is sent |
| Chat.ChatPanel.Minimize | src/components/RightRail.tsx:96 | the rail collapses; log and input are kept |
| Chat.ChatPanel.Restore | src/components/RightRail.tsx:78 | the rail expands; log and input are kept |
| Chat.ChatPanel.AcceptProposal | src/components/RightRail.tsx:63-68 | a golden set is created, with the proposal's title, exactly when the message carries a proposal |
| Chat.SuggestThenSend | src/components/RightRail.tsx:35-72 | clicking the third suggestion and sending yields the question and an answer with the Customer 360 proposal, with distinct ids, as a conversation |
| SignUp.Set | src/components/SignUpPage.tsx:25-28 | the named field takes the value and every other field keeps its own |
| SignUp.SetOwnValue | src/components/SignUpPage.tsx:25-28 | writing a field's own value changes nothing |
| SignUp.SetTwice | src/components/SignUpPage.tsx:25-28 | a second change of a field overrides the first |
| SignUp.SetCommutes | src/components/SignUpPage.tsx:25-28 | changes of two different fields commute |
| SignUp.Message | src/components/SignUpPage.tsx:31-49 | every validation message is non-empty, so it counts as an error |
| SignUp.ValidateForm | src/components/SignUpPage.tsx:30-52 | null means every check passes; an error names a failing check all of whose predecessors pass |
| SignUp.FirstFailureWins | src/components/SignUpPage.tsx:30-52 | the chain reports a check iff it fails and every earlier check passes |
| SignUp.EmptyFieldFirst | src/components/SignUpPage.tsx:31-33 | any empty field is reported as "Please fill in all fields" |
| SignUp.MissingAtSign | src/components/SignUpPage.tsx:35-37 | with all fields filled, an email without '@' is the error |
| SignUp.PasswordStrength | src/components/SignUpPage.tsx:78-87 | level 0 iff empty, 1 iff shorter than 6, 3 iff at least 10 with an upper-case letter and a digit, else 2; the label follows the level and only level 0 has no colour |
| SignUp.StrengthMonotone | src/components/SignUpPage.tsx:78-87 | extending a password never lowers its level |
| SignUp.ValidFormIsAtLeastFair | src/components/SignUpPage.tsx:39-82 | a password that passes validation is rated Fair or Strong |
| SignUp.SignUpPage.constructor | src/components/SignUpPage.tsx:11-23 | the page opens with an empty form, hidden passwords, no error, not loading, terms unaccepted |
| SignUp.SignUpPage.HandleChange | src/components/SignUpPage.tsx:25-28 | only the named field of the form changes |
| SignUp.SignUpPage.HandleSubmit | src/components/SignUpPage.tsx:54-76 | the form is handed over iff validation passes; otherwise the first error's message is shown and loading is untouched; after a hand-over the error is clear and loading is over |
| SignUp.SignUpPage.TogglePassword | src/components/SignUpPage.tsx:220 | flips the password's visibility only |
| SignUp.SignUpPage.ToggleConfirmPassword | src/components/SignUpPage.tsx:266 | flips the confirmation's visibility only |
| SignUp.SignUpPage.SetAcceptTerms | src/components/SignUpPage.tsx:287 | the terms flag follows the checkbox; nothing else changes |
| Navigation.Step | src/App.tsx:27-129 | what each callback the shell hands out does to its five pieces of state; every `Navigation.App` method is proved to perform it |
| Navigation.MainPanel | src/App.tsx:83-111 | `renderMainContent`; `Navigation.MainPanelShared` states which views share a panel |
| Navigation.Render | src/App.tsx:50-131 | the screen for each stage: landing, login, sign-up, or the workspace with its main panel and the drawer when open |
| Navigation.Enabled | src/App.tsx:50-129 | the callbacks reachable from what is on screen; the invariant lemmas quantify over exactly these |
| Navigation.LoginUser | src/App.tsx:27-31 | the logged-in user keeps the email, has no company, and is named by the part of the email before the first '@' |
| Navigation.SignUpUser | src/App.tsx:33-41 | the signed-up user keeps email and company and is named first name, a space, last name |
| Navigation.MainPanelShared | src/App.tsx:83-111 | only 'playground' and 'agent-drawer' share the playground layout; every other view has a panel of its own |
| Navigation.InitialInv | src/App.tsx:21-25 | the initial state satisfies the shell invariant |
| Navigation.StepKeepsInv | src/App.tsx:27-129 | every callback the rendered screen offers keeps the invariant: user present iff in the workspace, 'playground' outside it, inspector only with a table, 'agent-drawer' never current |
| Navigation.RunKeepsInv | src/App.tsx:27-129 | the invariant holds after every sequence of offered callbacks |
| Navigation.InspectorHasTable | src/App.tsx:89-106 | whenever the table inspector is on screen, a table is selected |
| Navigation.RailUnmountedBy | src/App.tsx:97-108 | while the playground layout (and so the chat rail) is shown, an offered callback keeps it iff it is not a view change, opening the inspector or metadata, or logout |
| Navigation.ToggleTwice | src/App.tsx:119-128 | toggling the drawer twice restores it; opening or closing it never changes the view |
| Navigation.LogoutThenLogin | src/App.tsx:27-47 | logging out and back in is possible and lands on the playground with the drawer and selected table as before |
| Navigation.SignedUpUserWellFormed | src/App.tsx:33-41 | a user created through the sign-up page has an email with '@', a non-empty company, and a password rated at least Fair |
| Navigation.App.constructor | src/App.tsx:21-25 | the shell starts on the landing page with the playground view, the drawer closed and no table or user |
| Navigation.App.GetStarted | src/App.tsx:53 | moves to the sign-up stage only |
| Navigation.App.GoToLogin | src/App.tsx:54 | moves to the login stage only (also the sign-up page's link) |
| Navigation.App.GoToSignup | src/App.tsx:64 | moves to the sign-up stage only |
| Navigation.App.Back | src/App.tsx:63 | returns to the landing stage only |
| Navigation.App.ForgotPassword | src/App.tsx:65-68 | changes no state |
| Navigation.App.HandleLogin | src/App.tsx:27-31 | records the login user and enters the workspace; view, drawer and table are kept |
| Navigation.App.HandleSignUp | src/App.tsx:33-41 | records the signed-up user and enters the workspace; view, drawer and table are kept |
| Navigation.App.HandleLogout | src/App.tsx:43-47 | clears the user, returns to landing and resets the view; drawer and table are kept |
| Navigation.App.SetCurrentView | src/App.tsx:118 | the view becomes the chosen one; nothing else changes |
| Navigation.App.ToggleAgentDrawer | src/App.tsx:119 | flips the drawer only |
| Navigation.App.CloseAgentDrawer | src/App.tsx:128 | closes the drawer only |
| Navigation.App.OpenTableInspector | src/App.tsx:103-106 | selects the table and shows the inspector |
| Navigation.App.OpenMetadata | src/App.tsx:106 | shows the metadata screen only |
| Navigation.App.ClosePanel | src/App.tsx:90-92 | both close buttons return to the playground, keeping the selected table |
| Listing.Filter | src/components/LMSHub.tsx:155-160 | the filtered list is a subsequence whose every element passes, and each element occurs in it as often as in the input if it passes and not at all otherwise |
| Listing.FilterMember | src/components/LMSHub.tsx:155-160 | an item survives the filter iff it is in the list and passes |
| Listing.FilterKeepsAll | src/components/LMSHub.tsx:155-160 | when every item passes, the whole list is kept |
| Listing.FilterIdempotent | src/components/LMSHub.tsx:155-160 | filtering twice equals filtering once |
| Listing.CategoryExact | src/components/LMSHub.tsx:156 | outside 'all', a category matches only itself |
| Listing.EmptySearchMatches | src/components/LMSHub.tsx:157-158 | the empty search matches every item |
| Listing.SearchIgnoresTermCase | src/components/LMSHub.tsx:157-158 | the search ignores the letter case of the term |
| Learning.DifficultyColorsDistinct | src/components/LMSHub.tsx:142-153 | the three difficulties get three different colours, none of them the gray default |
| Learning.UnknownDifficultyIsGray | src/components/LMSHub.tsx:142-153 | a string naming no difficulty gets the gray default |
| Learning.CompletionPercent | src/components/LMSHub.tsx:237 | the card's percentage is the whole number nearest to completed/total·100 (halves up), and there is none when total is 0 |
| Learning.CompletionPercentRange | src/components/LMSHub.tsx:237 | the percentage lies in 0..100, is 0 with nothing completed and 100 with everything completed |
| Learning.CategoryCardPercents | src/components/LMSHub.tsx:29-65 | the five seeded cards read 33, 38, 33, 29 and 44 percent |
| Learning.DifficultyColor | src/components/LMSHub.tsx:142-153 | `getDifficultyColor`; `Learning.DifficultyColorsDistinct` and `Learning.UnknownDifficultyIsGray` state its outcomes |
| Learning.FilteredLessons | src/components/LMSHub.tsx:155-160 | `filteredLessons`, the shared filter with the lesson predicate; see `Learning.FilteredLessonsSpec` |
| Learning.ShowsProgressBar | src/components/LMSHub.tsx:274 | the progress bar shows for progress strictly between 0 and 100 |
| Learning.FilteredLessonsSpec | src/components/LMSHub.tsx:155-160 | the shown lessons keep the catalogue's order, a lesson is shown iff it matches category and search, and a matching lesson is shown as many times as the catalogue holds it |
| Learning.AllAndEmptySearchShowEverything | src/components/LMSHub.tsx:155-160 | 'all' with an empty search shows the whole catalogue |
| Learning.OtherCategoriesHidden | src/components/LMSHub.tsx:156 | outside 'all', only lessons of the selected category show |
| Learning.SearchIgnoresCase | src/components/LMSHub.tsx:157-158 | the search term's letter case does not change the list |
| Learning.FilteredLessonsIdempotent | src/components/LMSHub.tsx:155-160 | filtering the shown list again changes nothing |
| Learning.ActionLabel | src/components/LMSHub.tsx:309 | 'Review' iff completed, 'Continue' iff not completed and started, 'Start' iff not completed and not started |
| Learning.ProgressBarMeansContinue | src/components/LMSHub.tsx:274-309 | a lesson showing its progress bar and not completed offers 'Continue' |
| Learning.StartHasNoProgressBar | src/components/LMSHub.tsx:274-309 | a lesson offering 'Start' shows no progress bar |
| Marketplace.FilteredAgents | src/components/AgentMarketplace.tsx:80-85 | `filteredAgents`, the shared filter with the agent predicate; see `Marketplace.FilteredAgentsSpec` |
| Marketplace.FilteredAgentsSpec | src/components/AgentMarketplace.tsx:80-85 | the shown agents keep the catalogue's order, an agent is shown iff it matches category and search, and a matching agent is shown as many times as the catalogue holds it |
| Marketplace.OtherCategoriesHidden | src/components/AgentMarketplace.tsx:81 | outside 'all', only agents of the selected category show |
| Marketplace.AllAndEmptySearchShowEverything | src/components/AgentMarketplace.tsx:80-85 | 'all' with an empty search shows every agent |
| Marketplace.SearchIgnoresCase | src/components/AgentMarketplace.tsx:82-83 | the search term's letter case does not change the list |
| Marketplace.FilteredAgentsIdempotent | src/components/AgentMarketplace.tsx:80-85 | filtering the shown list again changes nothing |
| Marketplace.InstallLabel | src/components/AgentMarketplace.tsx:199-208 | the button reads 'Install' iff the agent is not installed and 'Configure' iff it is |
| Marketplace.ShownBenefits | src/components/AgentMarketplace.tsx:173 | the preview is a prefix of the benefits, two long or all of them when there are fewer |

## Left out

- Rendering itself is left out: JSX markup, CSS classes other than the badge and bar colours, pixel positions, and the line coordinates of `renderConnections`. A line is modelled as its source and target only.
- The clock is a parameter. `Date.now()` and `new Date()` become a `now` reading passed in, and both messages of a send are stamped with it. The source reads the clock twice, so its assistant id can be larger by more than one. The model gives only the two ids of one send different strings. It does not claim that ids are unique across sends.
- The sign-up page's simulated 1.5-second delay, its `await`, and the `catch` branch are left out. The model's `HandleSubmit` is synchronous, and the hand-over to `onSignUp` is its return value. The intermediate `isLoading == true` state is not observable in the model.
- `console.log` calls are left out: the forgot-password link and accepting a proposal. Accepting a proposal is modelled as returning the title it would log.
- Number semantics are idealised. parseInt yields an exact integer, without double precision loss for long digit strings. `Math.round` of a category ratio is computed exactly, not in floating point. Agent ratings are kept in tenths (`ratingTenths`) rather than as floats.
- A string is a sequence of characters. JavaScript lengths count UTF-16 code units, which differ only for characters outside the Basic Multilingual Plane. `toLowerCase` is modelled for ASCII letters only; other characters are left unchanged.
- LoginPage.tsx is not part of this model. Its submit is the `LoginSubmit` event with whatever email and password it supplies.
- Pages the shell only displays are not part of this model: the landing page, logs, table inspector, metadata, ROI dashboard, left rail and agent drawer. Only the callbacks they hand back to the shell are modelled. The top navigation appears only through the four views it offers (`TopNavigation.tsx:78-106`), plus the drawer toggle and logout.
- The user menu, the search-box and category-button setters of the hub and the marketplace, and the tab bar are left out. Those setters are plain `useState` setters, so the filters take the selected category and the search term as parameters.
- The seeded lessons and agents are recorded as constants but no property is proved about them. The lemmas hold for any catalogue.
- Chat.ChatPanel.constructor: the rail lives inside the playground layout (`App.tsx:97-108`), so any callback that leaves that layout unmounts it and loses its log and input; the next mount starts again from the greeting. `ChatPanel` models one mount, so the log is append-only only within it. `Navigation.RailUnmountedBy` names the callbacks that unmount the rail; the two modules are not combined into one state.
- Chat.ChatPanel.SendMessage: its `ensures` carries the conversation invariant only for a log that already was a conversation. Every log the rail creates is one (`Chat.ChatPanel.constructor`).

## Findings

| source | as written | input that shows it | evidently intended | confidence | as-written member | corrected member |
|---|---|---|---|---|---|---|
| src/components/CanvasView.tsx:224 | the use-case heading reads `activeTab`, which is not defined in the component (its prop is `activeView`), so rendering throws a ReferenceError | activeView = 'customer-360' or 'order-analytics' | the heading is chosen by `activeView`: 'Customer 360 Golden Set' or 'Order Analytics Golden Set' | high; not executed | Graph.AsWrittenOnlyGraphRenders | Graph.WorkspaceTabModes |
| src/components/CanvasView.tsx:126 | the golden view renders the icon `Star`, which is not among the imports on line 2, so rendering throws a ReferenceError | activeView = 'golden-view' | the golden view renders with a star icon imported like the others | high; not executed | Graph.AsWrittenOnlyGraphRenders | Graph.ModeFor |
