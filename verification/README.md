# Turtle soup: a verified model of the game core

TURTLESOUP is a lateral-thinking riddle game ("turtle soup"). A player picks a riddle from a menu and asks a language-model narrator yes/no questions until they can state the hidden story. This project models, in Dafny, the parts of the system whose behaviour the code itself decides:

- **Session** (`session.dfy`) is the game screen as a class. It covers the conversation log, the loading flag, the turn counter, the cost ledger and the reveal toggle. A send is split into a start step and a completion step, and each step's whole new state is specified. The running total is proved to be the sum of the recorded costs.
- **Graph** (`graph.dfy`) is the back end's per-thread game state. It covers:
  - the host node and the history window it shows the narrator;
  - the summariser and the router that picks it every tenth turn;
  - the `/init` and `/chat` handlers over a checkpoint store.

  With a working summariser, the history always holds exactly `2 * (turns % 10)` messages.
- **Accounts** (`accounts.dfy`) covers registration, which consumes a one-time invite code, and the start-up seeding of the invite-code table.
- **CodeAdmin** (`codeadmin.dfy`) is the invite-code administration script: random codes, one typed code, or a batch of prefixed codes.
- **Shell** (`shell.dfy`) is the top-level view state machine: loading, login, menu and game, with credentials kept in browser storage.
- **Lobby** (`lobby.dfy`) is the menu. It shows six entries from a shuffled catalog or the whole catalog, plus each card's preview and heading.
- **Scanner** (`scanner.dfy`) is the repository's source-collecting script. It covers the file predicates, directory pruning during the walk, the root scan and the puzzle sample.
- **Basics**, **Text** and **Puzzles** hold the shared pieces:
  - option and result types;
  - JavaScript and Python whitespace trimming;
  - substring tests;
  - the puzzle record.

The language model, random number generators, the clock, the file system and browser storage are not called. Their results are parameters instead: the narrator's reply and token counts, shuffles, random draws, directory trees and listings, and the storage map.

Three behaviours of the code are easy to miss:

- Within one mounted game screen, the conversation thread id is minted once, when the screen mounts. A new riddle or model handed to that mounted screen re-initialises the game under the same id, so the id is a `const` of `Session.Game`.
- Within one mounted game screen, no guard drops a reply that arrives after such a re-initialisation. `Session.StaleReplyAfterRestart` shows the reply landing in the new log.
- The `/init` request class that is in force has no `model` field (see Findings).

## Model

| member | source | states |
|---|---|---|
| Text.Trim | frontend/src/components/Game.jsx:55-56 | the input is a run of spaces, then the result, then another run of spaces; the result is empty exactly when the input is all whitespace, and otherwise starts and ends with non-space characters |
| Text.AsciiLower | readcode.py:52 | same length as the input, with each character lower-cased |
| Session.NextTurnCount | frontend/src/components/Game.jsx:77 | a reported non-zero count replaces the counter; a missing or zero report leaves it unchanged |
| Session.LedgerIsSumOfCosts | frontend/src/components/Game.jsx:80-86 | the total cost is the sum of all costs recorded since the last reset; the last-turn fields are those of the last record, and they are zero when nothing is recorded |
| Session.LedgerTotalMonotone | frontend/src/components/Game.jsx:84 | with non-negative costs, the total never decreases as costs are recorded |
| Session.Game.constructor | frontend/src/components/Game.jsx:7-22 | empty log and input, not loading, answer hidden, zero counter and stats; the thread id is fixed for the component's lifetime |
| Session.Game.Begin | frontend/src/components/Game.jsx:31-52 | the log becomes exactly one greeting naming the model; stats are zeroed and the counter is 0; the init request carries the same thread id, the question, the answer and the model |
| Session.Game.SetInput | frontend/src/components/Game.jsx:225 | only the input changes |
| Session.Game.StartSend | frontend/src/components/Game.jsx:55-71 | a blank trimmed input, or a send that is already loading, changes nothing and sends nothing; otherwise exactly one user message with the trimmed text is appended, the input is cleared, loading is set, and the chat request carries the same thread id |
| Session.Game.CompleteOk | frontend/src/components/Game.jsx:72-91 | exactly one narrator message with the reply is appended; the counter follows NextTurnCount; stats change only when cost data is present, and the total then grows by that cost; loading is cleared |
| Session.Game.CompleteErr | frontend/src/components/Game.jsx:87-91 | exactly one system message with the fixed notice is appended; stats and counter are untouched; loading is cleared |
| Session.Game.ToggleReveal | frontend/src/components/Game.jsx:125 | the answer flag flips and nothing else changes |
| Session.StaleReplyAfterRestart | frontend/src/components/Game.jsx:31-75 | a reply to a send from the previous riddle is appended to the new riddle's log after its greeting |
| Graph.PricingIsNonNegative | backend/server.py:43-51 | every price in the pricing table is non-negative |
| Graph.TurnCost | backend/server.py:334-337 | for a priced model, the cost is the prompt tokens in millions times the input price plus the completion tokens in millions times the output price; it is never negative, and it is zero for a model without a price and for zero tokens |
| Graph.TurnCostMonotone | backend/server.py:334-337 | more prompt or completion tokens never cost less |
| Graph.Transcript | backend/server.py:307-309 | a non-empty transcript ends with a newline |
| Graph.Window | backend/server.py:303 | the narrator is shown the last min(n, 20) earlier messages, as a suffix of the history |
| Graph.RecentHistoryPlaceholderIff | backend/server.py:303-305 | the placeholder context appears exactly when there is no earlier message |
| Graph.RecentHistoryText | backend/server.py:301-309 | the accumulating loop produces the transcript of the window, or the placeholder |
| Graph.HostPromptOf | backend/server.py:290-330 | there is no prompt exactly when the history is empty; otherwise the question is the latest message, and the placeholder is used exactly when that message is the only one |
| Graph.HostNode | backend/server.py:288-352 | on an empty history the host changes nothing; otherwise applying its update appends exactly one narrator reply, counts one turn, and records the callback's total tokens and the turn's cost, keeping everything else |
| Graph.ShouldSummarize | backend/server.py:393-397 | the router picks the summariser exactly when the turn count is a positive multiple of 10 |
| Graph.SummarizeNode | backend/server.py:355-390 | applying the summariser's update empties the history and replaces the summary, keeping everything else |
| Graph.SummarizeNodeAsWritten | backend/server.py:366-367 | as written, the summariser always fails, because its chain names an undefined `llm` |
| Graph.RunGraph | backend/server.py:400-413 | the update stream starts with the host's update and holds the summariser's exactly when the router picks it; the final state is the stream's updates applied in order |
| Graph.RunGraphAsWritten | backend/server.py:355-413 | as written, a run fails exactly when the router picks the summariser; the stored state is always the one after the host, and a successful run is the host's update alone |
| Graph.ReplyFromEvents | backend/server.py:532-539 | the stream loop ends with the last message of the latest host event that has a non-empty history, or the empty string |
| Graph.ParseInitRequest | backend/server.py:135-139 | a missing model takes the declared default; a given one is kept |
| Graph.Bind | backend/server.py:135-139 | binding succeeds exactly when every declared field is in the body or has a default; the bound request has exactly the declared fields, with the body's values or else the defaults, so undeclared keys are dropped |
| Graph.InitGame | backend/server.py:500-519 | the handler succeeds only over a request class that declares `model` and binds the body |
| Graph.InitWithFirstDeclaration | backend/server.py:135-139 | over the first declaration, a body with the thread id, story and truth stores the initial state of the parsed request, `model` defaulting when absent; any other body is refused by validation |
| Graph.InitialState | backend/server.py:505-516 | fresh state: the puzzle, an empty history, the opening summary, no turns and no cost; a model without a price is replaced by the fallback, so the stored model is always priced or the fallback |
| Graph.InitAlwaysFailsAsWritten | backend/server.py:418-422 | over the second `InitRequest` declaration, every `/init` body fails, one carrying `model` included: a body with the three declared fields raises on the missing `model` attribute, and any other is refused by validation |
| Graph.WithQuestion | backend/server.py:526-530 | the graph input is the stored history with exactly the user's message appended |
| Graph.ChatExchange | backend/server.py:400-410 | one chat turn appends the user message and the narrator reply and counts one turn, except that on a tenth turn the history is emptied and the summary replaced; the reply the stream loop extracts is the narrator's reply |
| Graph.ChatKeepsHistoryBound | backend/server.py:345-387 | a chat turn preserves the invariant that the history holds 2 * (turns % 10) messages |
| Graph.WindowKeepsAllEarlierMessages | backend/server.py:301-303 | under that invariant, the 20-message window never cuts any earlier message |
| Graph.ChatsFromInit | backend/server.py:507-516 | after n chats from a fresh thread, the counter is n and the history holds 2 * (n % 10) messages |
| Graph.ChatAsWrittenNeverEmptiesHistory | backend/server.py:366-367 | as written, the stored history always gains the question and the reply; the call fails exactly on tenth turns |
| Graph.ChatsAsWrittenGrow | backend/server.py:355-387 | as written, n chats add 2n messages to the history, without bound |
| Graph.Checkpointer.constructor | backend/server.py:412-413 | the checkpoint store starts empty |
| Graph.Checkpointer.Init | backend/server.py:500-519 | the corrected handler, with `model` restored in the request: the thread's stored state becomes the fresh state, replacing any earlier one; the reported model is the stored one |
| Graph.Checkpointer.Chat | backend/server.py:522-554 | the corrected handler, with a working summariser: an unknown thread fails and nothing is stored; otherwise the stored state becomes the chat turn's final state, and the response carries the reply, summary, counter and cost report of that state |
| Accounts.CheckRegistration | backend/server.py:432-445 | registration goes through exactly when the name is new and the code exists and is unused; a taken name is reported first, then an unknown code, and a used code last |
| Accounts.RegistrationConsumesOneCode | backend/server.py:449-455 | an accepted registration adds exactly one user and exactly one used code |
| Accounts.CodeServesOnce | backend/server.py:442-449 | after a code has been used to register, every further registration with it is refused |
| Accounts.Database.constructor | backend/server.py:54-67 | both tables start empty |
| Accounts.Database.InitInviteCodes | backend/server.py:70-84 | an empty code table receives the default codes, all unused; a non-empty one and the user table are left unchanged |
| Accounts.Database.Register | backend/server.py:429-457 | a refused registration changes no table and reports the first failing check; an accepted one marks its code used and adds the user |
| CodeAdmin.GenerateRandomCode | backend/manage_codes.py:10-13 | the code has the requested length and uses only upper-case letters and digits |
| CodeAdmin.AddCustomCode | backend/manage_codes.py:28-43 | the input is stripped; a blank code is ignored; an existing code is reported and left alone; a new code is added unused; users are never touched |
| CodeAdmin.BatchGenerate | backend/manage_codes.py:46-70 | the count is refused exactly when it does not parse, and nothing changes then; the batch runs out of draws exactly when fewer than `count` draws offer a code not in the committed table; otherwise its codes are the first `count` codes offered, each the stripped prefix plus a six-character random suffix; the batch is committed all at once, and only when its codes are distinct |
| CodeAdmin.NextFresh | backend/manage_codes.py:58-62 | the retry loop returns the next offered code, prefix plus a draw, that is not in the table, with the index after its draw; it gives up only when no later draw offers one |
| Shell.RestoredUser | frontend/src/App.jsx:16-19 | a user is restored exactly when both the token and the username are stored and non-empty, and carries them |
| Shell.App.constructor | frontend/src/App.jsx:10-12 | loading, with no user and no puzzle |
| Shell.App.Startup | frontend/src/App.jsx:14-26 | the menu with the restored user when both credentials are stored, otherwise the login page with no user; storage is unchanged |
| Shell.App.LoginSuccess | frontend/src/App.jsx:28-33 | both credentials are stored, the user is set, and the menu is shown |
| Shell.App.Logout | frontend/src/App.jsx:35-41 | both credentials are removed, user and puzzle are cleared, and the login page is shown |
| Shell.App.StartGame | frontend/src/App.jsx:43-46 | the puzzle becomes current and the game is shown |
| Shell.App.Back | frontend/src/App.jsx:70 | the menu is shown and the puzzle stays current |
| Shell.App.Render | frontend/src/App.jsx:49-72 | nothing is rendered exactly while loading; the game page appears exactly in the game view with a puzzle, and shows that puzzle |
| Shell.ValidAppRendersAPage | frontend/src/App.jsx:55-72 | in every reachable state past loading a page is shown: the game view always has its puzzle and the menu always has a user |
| Lobby.Preview | frontend/src/components/Menu.jsx:67 | a question of at most 60 characters is shown whole; a longer one is cut to its first 60 characters plus an ellipsis, so the preview never exceeds 63 characters |
| Lobby.Heading | frontend/src/components/Menu.jsx:66 | a present, non-empty title is shown; otherwise the fixed fallback; the heading is never empty |
| Lobby.PrefixOfShuffleDrawsFromCatalog | frontend/src/components/Menu.jsx:13-14 | a prefix of a shuffled catalog takes no entry more often than the catalog holds it |
| Lobby.Menu.constructor | frontend/src/components/Menu.jsx:6-10 | mounting shows the first six entries of a shuffle of the catalog |
| Lobby.Menu.Refresh | frontend/src/components/Menu.jsx:12-15 | the list becomes the first min(6, n) entries of a permutation of the catalog, a sub-multiset of it |
| Lobby.Menu.ViewAll | frontend/src/components/Menu.jsx:17 | the list becomes exactly the catalog |
| Scanner.Extension | readcode.py:51 | the extension is non-empty exactly when the last path component has a dot after a character other than a dot; it then starts with a dot, contains no other dot and ends that component, so it runs from the component's last dot |
| Scanner.DotFileHasNoExtension | readcode.py:51 | a leading dot does not start an extension: `.bashrc` has none |
| Scanner.LastDotStartsExtension | readcode.py:51 | only the last dot counts: `src/a.tar.gz` has the extension `.gz` |
| Scanner.ExtensionOfJoin | readcode.py:209-210 | a directory joined in front of a file name does not change the name's extension |
| Scanner.IsBinaryIgnoresCase | readcode.py:48-54 | the binary test is case-insensitive: a lower-cased path is binary exactly when the original is |
| Scanner.IsBinaryByName | readcode.py:48-54 | a path is binary exactly when its last component has a dot after a character other than a dot and, lower-cased, ends with one of the binary extensions |
| Scanner.ShouldProcessFileDecides | readcode.py:149-168 | excluded and hidden names are refused; an accepted file has a target extension or is `.json`; a target extension is accepted; a `.json` file is accepted exactly when its absolute path mentions `puzzles` |
| Scanner.AcceptedExtensionsAreText | readcode.py:52 | none of the extensions the file filter accepts is a binary extension |
| Scanner.BinaryCheckIsRedundant | readcode.py:204-211 | a file accepted by the filter is never binary, so the walk's binary check rejects nothing |
| Scanner.Prune | readcode.py:200-202 | a subdirectory survives pruning exactly when it is neither excluded nor hidden, and pruning never adds names |
| Scanner.KeptDirsArePruned | readcode.py:198-202 | the subdirectory entries the walk keeps are, by name and in order, the pruned list |
| Scanner.DescendWalksKeptDirs | readcode.py:198-202 | the descent over a listing walks exactly the kept subdirectories, one after the other, in listing order |
| Scanner.WalkVisitsPrunedDirs | readcode.py:190-210 | the walk of a directory reads its own files, then walks exactly the subdirectories of the pruned list, in order |
| Scanner.WalkReadsOnlySources | readcode.py:198-211 | every file the walk reads has a target extension, or is a `.json` file whose absolute path mentions `puzzles` |
| Scanner.ReadFiles | readcode.py:204-216 | the file loop reads exactly the files that pass both checks, in listing order |
| Scanner.WalkDir | readcode.py:198-220 | the recursive walk reads exactly what the top-down walk specification reads: each directory's files, then its kept subdirectories |
| Scanner.RootFiles | readcode.py:180-181 | a name is read exactly when it is listed and is a core root file, and it is read as often as it is listed |
| Scanner.RootFilesAreServerPy | readcode.py:180-181 | the root scan reads `server.py` once per occurrence in the listing and nothing else |
| Scanner.RootScanReadsAtMostOne | readcode.py:180-181 | because a listing names each entry once, the root scan reads at most one file |
| Scanner.ScanRoot | readcode.py:180-189 | the root loop reads exactly the listed core root files, in listing order |
| Scanner.FirstJson | readcode.py:227-229 | the sample is absent exactly when no listed name ends in `.json`; otherwise it is the first such name |
| Scanner.Sample | readcode.py:223-236 | the scan fails exactly when `puzzles` exists but is a regular file; otherwise at most one puzzle file is read, and one is read exactly when `puzzles` is a directory listing a `.json` name; it is then the first such name joined to `puzzles` |
| Scanner.WalkCoreDirs | readcode.py:192-220 | the loop over the core directories walks each existing one, in order, and reads exactly what the walk specification reads for it |
| Scanner.CollectFiles | readcode.py:171-241 | the scan fails exactly when `puzzles` is a regular file; otherwise the files read are the root files, then the walks of the core directories that exist, then the sample, and the reported count is their number |

## Left out

- Language-model calls, the prompt texts, token callbacks and the checkpointer's stream machinery are not modelled. The reply, the token counts and the new summary are parameters. A run's events are the two node updates.
- Password hashing, JWT tokens, `/token`, `/users/me` and the password-reset script are not modelled. A user maps to an opaque hash string.
- Database sessions, flushes and connections are not modelled. The tables are maps, and a commit either writes all of a batch or nothing.
- The `/puzzles` listing, the CORS set-up and the HTTP layer are not modelled. Request validation is modelled only for `/init`, and only as field presence: a body maps field names to strings, so a wrongly typed value is not modelled.
- Requests in flight are not interleaved. A send is a start step followed by one completion step; two outstanding sends never overlap.
- Rendering, auto-scroll, the mobile puzzle panel, `toFixed` formatting, the login form, the upload dialog and the menu's upload alert are not modelled.
- The code-listing menu of the administration script and its `list_codes` printout are not modelled, because they only print.
- Reading file contents, read errors (a file that fails to decode is skipped), the clipboard code and the printed progress are not modelled. The scanner returns the paths it reads.
- Graph.TurnCost: costs are exact reals, so floating-point rounding of the price arithmetic is not modelled.
- Unmounting and remounting the game screen: the shell renders `Game` only in the game view, so going back to the menu unmounts it. Choosing a riddle then mounts a fresh screen with a new thread id, and a reply that arrives after unmounting is dropped. `Session.Game` models one mounted screen, and `Shell.App` only tracks which view is shown.
- Session.Game.CompleteOk: the running total is an exact `real` sum. The front end adds JavaScript floating-point numbers, so rounding of the total is not modelled.
- Session.LedgerIsSumOfCosts: the total equals the exact sum of the recorded costs. With floating-point addition it equals that sum only up to rounding.
- Session.Game.CompleteOk: the reply's fields are options. A cost report missing `tokens` or `cost` inside a present `cost_data` is not modelled.
- Lobby.Preview: lengths count Unicode code points. JavaScript counts UTF-16 units, so a question with characters outside the Basic Multilingual Plane is cut at a different place.
- Text.AsciiLower: Python's `str.lower` also lowers non-ASCII letters. Only two non-ASCII characters lower-case to something containing an ASCII letter: the Kelvin sign becomes `k`, and the capital I with dot above becomes `i` followed by a combining dot above (U+0307), which also changes the length. No binary extension contains `k` or U+0307, so the binary test gives the same answers.
- Scanner.ShouldProcessFileDecides: the absolute path is the working directory joined with the path. The normalisation of `.`, `..` and repeated separators is not modelled, and neither are Windows separators or symbolic links.
- CodeAdmin.BatchGenerate: the retry loop draws from a finite list of random suffixes instead of retrying forever. Running out of draws stops the batch with nothing written. The count arrives already parsed (`None` when `int()` would raise).
- Graph.Checkpointer.Chat: on a thread with no stored state, the model fails without storing anything. The real checkpointer first records the graph input.

## Findings

| source | as written | input that shows it | evidently intended | confidence | as-written member | corrected member |
|---|---|---|---|---|---|---|
| backend/server.py:418-422 | the second `InitRequest` declaration replaces the first and has no `model` field, so `req.model` at line 505 raises `AttributeError` and no state is stored | any `/init` body, e.g. thread "t", story "s", truth "a", model "gpt-4o" | the first declaration (lines 135-139), with `model` defaulting to "gemini-2.5-flash", and the fallback to "gpt-3.5-turbo" for an unpriced model | not executed | Graph.InitAlwaysFailsAsWritten | Graph.InitWithFirstDeclaration |
| backend/server.py:366-367 | the summariser's chain uses a module-level `llm` that is never defined, so the tenth chat turn raises `NameError` after the host's reply has been stored; the history is never emptied and grows by two messages per turn | ten `/chat` calls on one thread, once `/init` is fixed (as written no thread is ever initialised, and `/chat` on such a thread fails first on the missing turn count) | the chain uses the thread's model, as the host node does, and the history is emptied every tenth turn | not executed | Graph.ChatsAsWrittenGrow | Graph.ChatsFromInit |
