# Asistente2 dashboard logic in Dafny

This project models the logic inside the Asistente2 React dashboard, an
assistant for an accounting practice, and proves properties of it. The
browser, the network, Google sign-in and React rendering are abstracted
away: callbacks (`onSubmit`, `onFilesSelected`, `navigate`, `googleLogout`)
become returned values, and fetch results, token decoding, the clock and
random suffixes become parameters.

The model covers:

- **File staging** (`FileUpload`). The component keeps a list of staged
  files and one notice slot.
  - Each incoming batch is filtered against the accepted-types string,
    by extension or by MIME type.
  - The survivors are appended to the list and cut to the optional
    `maxFiles` limit. Files already staged are never displaced.
  - Files are removed by name.
  - `FileStaging` is a class whose methods update the list and the
    notice in place. The filtering, combining and removing are pure
    functions with lemmas about them.
- **Workflow forms** (`OnBoardingForm`, `DocumentRequestForm`,
  `DataExtractForm`, `FullScreenForm`). Each form is a class over its
  `formData`:
  - change handlers overwrite one field;
  - closing the form resets it;
  - submit runs the required-field checks in the source's order.
  
  A submit returns `Blocked(check)` (the alert raised) or
  `Submitted(payload)` (the `onSubmit` call).
- **Session** (`AuthContext`) and **route gate** (`ProtectedRoute`).
  - Restoring a stored token has four outcomes: no token, restored,
    expired or without expiry, and undecodable.
  - `login` and `logout` update the user, the token and the storage slot.
  - The gate has three outcomes.
- **Sidebar** (`AppSidebar`).
  - The toggle updater and the disabled-parent guard.
  - The route effect, whose nested loops are proved to leave the open
    submenu on the last item whose sub-item is the current page.
- **Chat** (`ChatAgent`): sending appends the untrimmed input as a user
  message only when the input holds something other than white space.
- **Client selector and portfolio** (`ClientSelector`, `ClientDisplay`).
  - Rows are normalised with fallbacks.
  - The selector decides whether to fetch at all, and its option list
    depends on the loading and error state.
  - Choosing a client parses the option value back to its id.
  - `formatFieldName`, which the page defines but does not call (its
    detail labels are fixed strings), is proved to give one word per
    `_`-separated segment.

JavaScript's string operations live in `Text`: `trim` with the
ECMAScript white-space set, `split`/`join`, first-occurrence `replace`,
`String(n)` and `parseInt`. `ParseInt(IntToString(n)) == Some(n)` is
proved there for every integer written in plain decimal; for JavaScript
numbers that is the safe integers (see "## Left out").

Three consequences of the code are worth noting:

- Under the provider, the gate's "Verificando autenticación..." branch
  can never be shown. `AuthProvider` renders nothing while it is loading,
  so the session the gate reads always has `isLoading` false
  (`ProtectedRoute.NoPlaceholderUnderProvider`).
- With the menus as shipped, no route ever opens a submenu
  (`AppSidebar.ShippedMenusNeverOpen`).
- Closing the data-extraction form clears its files, but the file
  staging area inside it stays mounted (the closed modal is only made
  transparent) and keeps its list. After reopening, the staged files are
  still listed while submit is disabled. The next drop hands the form the
  old files and the new ones together (`DataExtractForm.CloseThenDrop`).

`removeFile` drops every staged file with the given name, not only the
first one, and the model does the same.

## Model

| member | source | states |
|---|---|---|
| FileUpload.AcceptedTypes | src/pages/Workflows/FileUpload.tsx:56 | one entry per comma-separated piece; entry i is piece i with the white space at both ends cut off, lower-cased, so it holds no comma, no upper-case ASCII letter and no white space at either end |
| FileUpload.Extension | src/pages/Workflows/FileUpload.tsx:60 | the extension compared is a dot followed by a last name segment that holds no dot |
| FileUpload.ExtensionOfDotted | src/pages/Workflows/FileUpload.tsx:60 | for `base.ext`, the compared extension is `.` plus the lower-cased `ext` |
| FileUpload.ExtensionOfUndotted | src/pages/Workflows/FileUpload.tsx:60 | a name without a dot is compared as `.` plus the whole lower-cased name |
| FileUpload.FilterAdmitted | src/pages/Workflows/FileUpload.tsx:58-67 | filtering never lengthens the batch |
| FileUpload.FilterAdmittedMembers | src/pages/Workflows/FileUpload.tsx:58-67 | a file survives exactly when it is in the batch and some accepted entry admits it (by extension or by MIME type) |
| FileUpload.FilterAdmittedDrops | src/pages/Workflows/FileUpload.tsx:68-72 | the batch shrinks, and so the rejection notice is raised, exactly when some file of it is not admitted |
| FileUpload.FilterAdmittedAppend | src/pages/Workflows/FileUpload.tsx:58-67 | filtering works file by file: the filter of a concatenation is the concatenation of the filters, so order is kept |
| FileUpload.Combine | src/pages/Workflows/FileUpload.tsx:32-37 | the new list is a prefix of old plus incoming; exactly `maxFiles` long when a truthy limit is exceeded, otherwise the whole concatenation |
| FileUpload.ExistingFilesKept | src/pages/Workflows/FileUpload.tsx:36-37 | the files already staged are never displaced by an add when they were within the limit |
| FileUpload.RemoveNamed | src/pages/Workflows/FileUpload.tsx:127 | removal never lengthens the list |
| FileUpload.RemoveNamedMembers | src/pages/Workflows/FileUpload.tsx:127 | removal keeps exactly the files with other names: every file with the name is gone |
| FileUpload.RemoveNamedAppend | src/pages/Workflows/FileUpload.tsx:127 | removal works file by file, keeping the order of the rest |
| FileUpload.LabelShowsAcceptedTypes | src/pages/Workflows/FileUpload.tsx:175-178 | the label has one entry per accepted type, and each entry is that type without its leading dot, up to case |
| FileUpload.StripLeadingDotLower | src/pages/Workflows/FileUpload.tsx:176 | stripping the leading dot commutes with lower-casing |
| FileUpload.FileStaging.constructor | src/pages/Workflows/FileUpload.tsx:20-22 | nothing staged, no notice |
| FileUpload.FileStaging.AddNewFiles | src/pages/Workflows/FileUpload.tsx:30-45 | staged list becomes `Combine`; the limit notice is set exactly on overflow and otherwise cleared; the parent receives the new list; the limit invariant holds |
| FileUpload.FileStaging.ProcessBatch | src/pages/Workflows/FileUpload.tsx:48-79 | a null batch changes nothing; otherwise the list grows by the admitted files (all of them when no types are given); the notice is the last one written; the parent is notified only when something was added |
| FileUpload.LimitScenario | src/pages/Workflows/FileUpload.tsx:30-45 | three admitted files dropped on an empty list with a limit of two: the first two are staged and passed to the parent, and the limit notice for two is shown |
| FileUpload.FileStaging.RemoveFile | src/pages/Workflows/FileUpload.tsx:125-134 | the list loses every file with the name; the notice is cleared only when one is shown, a limit is set and the list is within it |
| OnBoardingForm.InitialFormData | src/pages/Workflows/OnBoardingForm.tsx:22-27 | the form starts with exactly `clientId` and `clientType`, both blank |
| OnBoardingForm.OnBoarding.constructor | src/pages/Workflows/OnBoardingForm.tsx:27 | the state starts as the initial map |
| OnBoardingForm.OnBoarding.OpenChanged | src/pages/Workflows/OnBoardingForm.tsx:30-34 | closing resets to the initial map, opening keeps the data |
| OnBoardingForm.OnBoarding.HandleFieldChange | src/pages/Workflows/OnBoardingForm.tsx:37-42 | the named key holds the value; every other key keeps its value |
| OnBoardingForm.OnBoarding.HandleSubmit | src/pages/Workflows/OnBoardingForm.tsx:44-56 | blank client is reported first, then blank client type; submitted exactly when both are filled, with the whole map |
| OnBoardingForm.ResetThenSubmit | src/pages/Workflows/OnBoardingForm.tsx:30-50 | a form that was closed and reopened is blocked on the client check |
| FullScreenForm.FullScreen.constructor | src/pages/Workflows/FullScreenForm.tsx:19 | every input starts empty |
| FullScreenForm.FullScreen.OpenChanged | src/pages/Workflows/FullScreenForm.tsx:22-26 | closing empties the map, so every input shows `''` |
| FullScreenForm.FullScreen.HandleChange | src/pages/Workflows/FullScreenForm.tsx:28-33 | the named input shows the value, every other input shows what it showed (absent keys read as `''`) |
| FullScreenForm.FullScreen.HandleSubmit | src/pages/Workflows/FullScreenForm.tsx:35-37 | once the handler runs, the current map is submitted with no check of its own |
| DocumentRequestForm.InitialSelectedDocuments | src/pages/Workflows/DocumentRequestForm.tsx:32-58 | one box per requestable document, none ticked |
| DocumentRequestForm.Toggle | src/pages/Workflows/DocumentRequestForm.tsx:106-114 | only the one box flips (a box without entry becomes ticked); others are unchanged |
| DocumentRequestForm.TrulySelectedToggle | src/pages/Workflows/DocumentRequestForm.tsx:106-124 | flipping a box adds its id to the ids the submit check sees, or removes it, and changes no other id |
| DocumentRequestForm.ToggleTwice | src/pages/Workflows/DocumentRequestForm.tsx:106-114 | flipping a box twice restores the selection |
| DocumentRequestForm.Untick | src/pages/Workflows/DocumentRequestForm.tsx:72-75 | the reset selection keeps every key with nothing ticked |
| DocumentRequestForm.UntickInitial | src/pages/Workflows/DocumentRequestForm.tsx:55-81 | resetting the initial selection gives the initial selection |
| DocumentRequestForm.DocumentRequest.constructor | src/pages/Workflows/DocumentRequestForm.tsx:60-67 | the form starts with blank fields and all boxes unticked |
| DocumentRequestForm.DocumentRequest.OpenChanged | src/pages/Workflows/DocumentRequestForm.tsx:69-82 | closing blanks the text fields and unticks every existing box |
| DocumentRequestForm.DocumentRequest.HandleFieldChange | src/pages/Workflows/DocumentRequestForm.tsx:85-97 | only the named field changes |
| DocumentRequestForm.DocumentRequest.HandleNotesChange | src/pages/Workflows/DocumentRequestForm.tsx:99-104 | only the notes change |
| DocumentRequestForm.DocumentRequest.HandleCheckboxChange | src/pages/Workflows/DocumentRequestForm.tsx:106-114 | only the one box flips |
| DocumentRequestForm.DocumentRequest.HandleSubmit | src/pages/Workflows/DocumentRequestForm.tsx:116-136 | missing client first, then an empty selection; submitted exactly when a client is set and a box is ticked, with the full map; client type not required |
| DataExtractForm.SubmitDisabledWithoutFiles | src/pages/Workflows/DataExtractForm.tsx:206 | the button is disabled for a fresh form and exactly when no file is staged |
| DataExtractForm.DataExtract.constructor | src/pages/Workflows/DataExtractForm.tsx:24-32 | the form starts blank with no files |
| DataExtractForm.DataExtract.OpenChanged | src/pages/Workflows/DataExtractForm.tsx:34-38 | closing resets to blank fields and no files |
| DataExtractForm.DataExtract.HandleFieldChange | src/pages/Workflows/DataExtractForm.tsx:40-54 | only the named field changes; the files stay |
| DataExtractForm.DataExtract.HandleFilesUpdate | src/pages/Workflows/DataExtractForm.tsx:57-62 | the file list is replaced wholesale, nothing else changes |
| DataExtractForm.DataExtract.HandleSubmit | src/pages/Workflows/DataExtractForm.tsx:64-83 | client, client type, purpose, files, in that order; submitted exactly when all four are present, with the data unchanged |
| DataExtractForm.MountStaging | src/pages/Workflows/DataExtractForm.tsx:179-182 | the staging area gets the form's allow-list and no limit, and starts in step with a form holding no files |
| DataExtractForm.DropFiles | src/pages/Workflows/DataExtractForm.tsx:57-62 | a drop grows the staged list by the admitted files; when the staging area reports its list, the form's files become that list, otherwise the form is unchanged; if form and staging area agreed before, they agree after and submit is disabled exactly when nothing is staged |
| DataExtractForm.CloseThenDrop | src/pages/Workflows/DataExtractForm.tsx:34-38 | after a drop and a close, the form holds no files while the staging area still holds them; the next drop gives the form the old files plus the new ones |
| AuthContext.Classify | src/components/login/AuthContext.tsx:43-62 | restored exactly for a non-empty stored token that decodes with a non-zero expiry after now; no token exactly when nothing is stored; undecodable exactly when decoding fails |
| AuthContext.ExpiredNeverRestored | src/components/login/AuthContext.tsx:49 | a token whose expiry is not after now is never restored |
| AuthContext.AuthProvider.constructor | src/components/login/AuthContext.tsx:37-39 | nobody signed in, loading |
| AuthContext.AuthProvider.RestoreSession | src/components/login/AuthContext.tsx:43-64 | per outcome: restore sets user and token; expired or undecodable removes the stored token; no token leaves storage alone; loading stops on every branch |
| AuthContext.AuthProvider.Login | src/components/login/AuthContext.tsx:66-82 | with a credential: user is its decoding, token and storage are the credential, navigate home, no expiry check; without one nothing changes; a decode failure throws before any change |
| AuthContext.AuthProvider.Logout | src/components/login/AuthContext.tsx:84-91 | user, token and stored token cleared; provider sign-out then navigation to `/signin` |
| AuthContext.AuthProvider.Provided | src/components/login/AuthContext.tsx:93-102 | children get a session only when not loading, carrying the current user and token |
| AuthContext.UseAuth | src/components/login/AuthContext.tsx:106-111 | outside a provider the hook fails; inside it returns the provider's session |
| ProtectedRoute.Gate | src/components/auth/ProtectedRoute.tsx:10-26 | placeholder exactly while loading; redirect to `/signin`, replacing, from the current location exactly when not loading and no user; the page exactly when not loading with a user |
| ProtectedRoute.NoPlaceholderUnderProvider | src/components/auth/ProtectedRoute.tsx:7-15 | for every provider state: children, and so the gate, are rendered exactly when not loading; the session they get never shows the placeholder, and the gate redirects exactly when the provider holds no user |
| ProtectedRoute.FirstVisit | src/components/auth/ProtectedRoute.tsx:7-26 | after the session restore, the gate admits the visitor exactly when the stored token was restored, and otherwise redirects to sign in |
| AppSidebar.AtMostOneActiveLink | src/layout/AppSidebar.tsx:109-112 | with the shipped links, at most one is active for any route |
| AppSidebar.Toggle | src/layout/AppSidebar.tsx:150-161 | toggling the open pair closes it; any other pair becomes the open one |
| AppSidebar.ToggleTwice | src/layout/AppSidebar.tsx:150-161 | toggling one pair twice closes everything unless that pair was the open one |
| AppSidebar.ParentClick | src/layout/AppSidebar.tsx:292-296 | a disabled parent ignores the click; an enabled one toggles |
| AppSidebar.DisabledParentStaysClosed | src/layout/AppSidebar.tsx:292-296 | clicking a disabled parent changes nothing and never shows its submenu expanded |
| AppSidebar.LastMatch | src/layout/AppSidebar.tsx:118-130 | the last item with a sub-item on the current page, or none when no item has one |
| AppSidebar.RouteMatch | src/layout/AppSidebar.tsx:114-136 | none exactly when no item matches; a match in the second menu wins over the main menu; within a menu the last matching item wins |
| AppSidebar.RouteEffect | src/layout/AppSidebar.tsx:114-136 | the nested scan leaves exactly `RouteMatch`, whatever was open before |
| AppSidebar.NoSubItemsNoMatch | src/layout/AppSidebar.tsx:118-130 | a menu without sub-items never matches |
| AppSidebar.ShippedMenusNeverOpen | src/layout/AppSidebar.tsx:25-63 | with the shipped menus no route opens a submenu |
| AppSidebar.Sidebar.constructor | src/layout/AppSidebar.tsx:99-102 | no submenu open |
| AppSidebar.Sidebar.LocationChanged | src/layout/AppSidebar.tsx:114-136 | the open submenu becomes `RouteMatch` of the route |
| AppSidebar.Sidebar.ClickParent | src/layout/AppSidebar.tsx:290-296 | the open submenu becomes `ParentClick` of the clicked parent |
| AppSidebar.ShippedSidebarStaysClosed | src/layout/AppSidebar.tsx:25-136 | the shipped sidebar keeps every submenu closed on any route |
| ChatAgent.Sendable | src/components/chatAgent/ChatAgent.tsx:17 | the input is sendable exactly when it holds a character that is not white space |
| ChatAgent.Chat.constructor | src/components/chatAgent/ChatAgent.tsx:9-10 | no messages, empty input |
| ChatAgent.Chat.HandleInputChange | src/components/chatAgent/ChatAgent.tsx:12-14 | the input becomes the typed value; messages unchanged |
| ChatAgent.Chat.HandleSendMessage | src/components/chatAgent/ChatAgent.tsx:16-26 | sendable input is appended untrimmed as the user's message and the input emptied; otherwise nothing changes; only user messages exist |
| ChatAgent.Chat.HandleKeyPress | src/components/chatAgent/ChatAgent.tsx:84-88 | Enter does exactly what the send button does; other keys do nothing |
| ChatAgent.TypeAndSend | src/components/chatAgent/ChatAgent.tsx:12-26 | typing and sending appends exactly one message, the typed text untrimmed, exactly when it is sendable; the earlier messages are kept; the input is emptied on send and otherwise still holds the typed text |
| Text.TrimEmptyIff | src/components/chatAgent/ChatAgent.tsx:17 | a trimmed string is empty exactly when every character is white space |
| Text.JoinSplit | src/pages/Workflows/FileUpload.tsx:56 | splitting then joining on the same separator gives the string back |
| Text.SplitJoin | src/pages/Portfolio/ClientDisplay.tsx:135-137 | splitting a join of separator-free pieces gives the pieces back |
| Text.ParseIntOfIntToString | src/pages/Portfolio/ClientDisplay.tsx:123 | `parseInt` of an integer's plain decimal text is that integer (for JavaScript numbers: safe integers, see "## Left out") |
| ClientSelector.NormaliseRows | src/pages/Workflows/ClientSelector.tsx:61-65 | one item per row in order; a missing id gets the `unknown-id-` fallback, a missing or empty name `Nombre no disponible` |
| ClientSelector.NormalisedItemsLabelled | src/pages/Workflows/ClientSelector.tsx:61-65 | every item has a non-empty name and a row's own id is kept |
| ClientSelector.HttpErrorMessage | src/pages/Workflows/ClientSelector.tsx:53-56 | a failed status gives a non-empty `Error HTTP: ` message |
| ClientSelector.Settle | src/pages/Workflows/ClientSelector.tsx:47-77 | no error exactly for an array answer; any error leaves no items; each failure kind gives its message |
| ClientSelector.NumericOptionValuesDistinct | src/pages/Workflows/ClientSelector.tsx:111 | different numeric ids give different option values |
| ClientSelector.Options | src/pages/Workflows/ClientSelector.tsx:107-114 | the blank option first, labelled loading, then error, then default; items follow, in order, only when neither loading nor failed |
| ClientSelector.ItemsShownIffUsable | src/pages/Workflows/ClientSelector.tsx:103-114 | item options are listed exactly when the select is not disabled by its own state |
| ClientSelector.FailedFetchShowsError | src/pages/Workflows/ClientSelector.tsx:66-114 | a failed request with a message leaves a disabled select with only the error option |
| ClientSelector.SuccessfulFetchListsRows | src/pages/Workflows/ClientSelector.tsx:61-114 | a successful request lists one option per row, in order, after the blank one |
| ClientSelector.Selector.constructor | src/pages/Workflows/ClientSelector.tsx:34-36 | no items, not loading, no error |
| ClientSelector.Selector.StartFetch | src/pages/Workflows/ClientSelector.tsx:40-46 | requested exactly with a URL, a token and the go-ahead; only a withheld go-ahead clears the items; a request starts loading with no error |
| ClientSelector.Selector.CompleteFetch | src/pages/Workflows/ClientSelector.tsx:53-77 | items and error become the settled outcome; loading stops on every path |
| ClientSelector.Selector.Render | src/pages/Workflows/ClientSelector.tsx:99-115 | the select's disabled flag and options from the state; while loading only the loading option |
| ClientSelector.FetchOnce | src/pages/Workflows/ClientSelector.tsx:38-81 | a full request leaves the select showing exactly the settled outcome, not loading |
| ClientDisplay.Capitalize | src/pages/Portfolio/ClientDisplay.tsx:136 | same length; the first character upper-cased, the rest kept |
| ClientDisplay.FormatFieldNameWords | src/pages/Portfolio/ClientDisplay.tsx:132-138 | for a field name without spaces, the formatted name has one word per `_`-separated segment after the prefix removal, each capitalised |
| ClientDisplay.ReplaceFirstKeeps | src/pages/Portfolio/ClientDisplay.tsx:134 | removing the prefix introduces no new character |
| ClientDisplay.FormatNecesidades | src/pages/Portfolio/ClientDisplay.tsx:132-138 | the formatter maps `x_studio_necesidades` to `Necesidades` |
| ClientDisplay.NormaliseClients | src/pages/Portfolio/ClientDisplay.tsx:64-67 | one client per entry in order; a missing id becomes 0, a missing or empty name `N/A` |
| ClientDisplay.NormalisedClientsNamed | src/pages/Portfolio/ClientDisplay.tsx:64-67 | every listed client has a non-empty name |
| ClientDisplay.FirstWithId | src/pages/Portfolio/ClientDisplay.tsx:124 | the first position holding the id, or none when no client has it |
| ClientDisplay.FindClient | src/pages/Portfolio/ClientDisplay.tsx:123-124 | a client is found exactly when the value parses to an id some client has; it is the first client in the list with that id |
| ClientDisplay.ChoosingOptionFindsClient | src/pages/Portfolio/ClientDisplay.tsx:122-124 | choosing a client's option finds a client with its id; with unique ids, that very client (for safe-integer ids, see "## Left out") |
| ClientDisplay.SettleClients | src/pages/Portfolio/ClientDisplay.tsx:56-76 | a list exactly on success, an error otherwise, `Error HTTP: <status>` or the thrown message |
| ClientDisplay.SettleDetails | src/pages/Portfolio/ClientDisplay.tsx:99-115 | details exactly for a non-empty answer, its first entry; otherwise the matching error |
| ClientDisplay.Portfolio.constructor | src/pages/Portfolio/ClientDisplay.tsx:30-36 | empty list, nothing selected, not loading, no errors |
| ClientDisplay.Portfolio.StartFetchClients | src/pages/Portfolio/ClientDisplay.tsx:42-46 | loading; list, selection, details and error cleared |
| ClientDisplay.Portfolio.FinishFetchClients | src/pages/Portfolio/ClientDisplay.tsx:56-80 | the list on success, the error otherwise; loading stops either way |
| ClientDisplay.Portfolio.HandleClientChange | src/pages/Portfolio/ClientDisplay.tsx:83-130 | selects `FindClient` of the parsed value; details are requested, and their state reset, exactly when a client was found |
| ClientDisplay.Portfolio.FinishFetchDetails | src/pages/Portfolio/ClientDisplay.tsx:99-119 | the details or their error; loading of details stops either way |
| ClientDisplay.ChooseAndReceive | src/pages/Portfolio/ClientDisplay.tsx:83-130 | the chosen value selects `FindClient` of its parsed id; when a client was found, the answer leaves exactly the settled details or error, no longer loading |
| ClientDisplay.LoadAndChoose | src/pages/Portfolio/ClientDisplay.tsx:38-130 | after loading the list, choosing the i-th option selects a client with that id and requests its details |

## Left out

- Rendering, CSS classes, StrictMode double invocation and the
  scheduling of effects are not modelled. Each handler and effect is one
  sequential step, and an `alert` is the `Blocked` result.
- Network requests are not modelled. Each fetch is a `Response` value
  given as a parameter, and overlapping fetches that race each other are
  left out.
- `localStorage`, `jwtDecode` and `Date.now` are parameters: one
  optional-string field, an abstract decoder and a number.
- `googleLogout`, `navigate` and `onSubmit` are returned as effects. The
  `GoogleLogin` button is not part of this model.
- The random base-36 suffix of fallback ids (`Math.random`) is a
  parameter, a function from row position to text.
- Case mapping (`toLowerCase`/`toUpperCase`) is ASCII-only.
  Non-ASCII letters are not case-mapped.
- FileUpload.FileStaging: `maxFiles` is a natural number or absent, so
  negative or fractional limits are not modelled.
- FileUpload.Notice: the Spanish notice texts are datatype constructors
  carrying the values they interpolate, not strings.
- File size display (`toFixed`), drag-state handlers, refs, clearing the
  hidden input and `triggerFileInput` are browser plumbing and are not
  modelled.
- Console logging is not modelled.
- Handlers that write `[name]: value` are modelled for the field names
  the forms use. `DocumentRequestForm.TextField` and
  `DataExtractForm.TextField` are those names. A handler called with any
  other name, which would add a stray key to the record, is not modelled.
- Props that change while a component is mounted (`maxFiles`,
  `acceptedFileTypes`, the menus) are fixed at construction.
- ClientSelector `handleChange` is not modelled. It forwards the select's
  name and value to `onChange` unchanged and holds no state or logic.
- ClientSelector.ApiRow: only integer and string ids are modelled. A
  JavaScript number that is not an integer (`String(1.5)` is `"1.5"`) is
  not, and neither is a non-object row in the array. It would make `item.id` throw,
  which amounts to a `Threw` response.
- Text.IntToString: numbers are exact integers whose `String` is plain
  decimal digits. For JavaScript numbers this holds only for
  |n| <= Number.MAX_SAFE_INTEGER (2^53 - 1). Above that, `String` gives
  the nearest double's text (`String(2**64)` is `"18446744073709552000"`);
  from 1e21 on it writes exponent form (`"1e+21"`), which `parseInt`
  reads back as 1.
- Text.ParseIntOfIntToString: proved for every integer, which is the
  JavaScript behaviour only for safe integers; see the line above.
- ClientDisplay.ChoosingOptionFindsClient: holds for safe-integer ids.
  For an id from 1e21 on, the page's option value parses to another
  number, so choosing it selects a different client or none.
- ClientSelector.NumericOptionValuesDistinct: holds for safe-integer
  ids; above 2^53 distinct ids are not even distinct JavaScript numbers.
- ClientDisplay.ClientData: ids are integers. A fractional numeric id,
  which the page would compare and display like any other number, is not
  modelled.
- ClientDisplay.SettleClients: an answer that is not an array is not
  modelled separately. It makes `data.map` throw, which amounts to a
  `Threw` response.
- ClientDisplay.FormatFieldNameWords: stated only for field names without
  spaces. A space inside a segment would split a word in two.
- FullScreenForm.FullScreen.HandleSubmit: the browser's constraint
  validation of the `required` and `type="email"` inputs is not
  modelled. The handler is modelled from the point where the browser
  lets the submit through.
- The subMenuHeight effect measures DOM heights and is not modelled.
- The sidebar's hover, expanded and mobile flags only change what is
  drawn, and are not modelled.
- `src/pages/Workflows/WorkFlows.tsx`, `InfoCard.tsx` and
  `StaticOptionsSelector.tsx` are not part of this model. They are a
  card launcher that only alerts, a presentational card, and a thin
  select wrapper.
- `main.tsx`, `App.tsx`, `Login.tsx`, `SignIn.tsx`, `Home.tsx` and
  `EcommerceMetrics.tsx` are routing, wiring and static markup, and are
  not part of this model.
