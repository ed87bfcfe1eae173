# skill-quest-ai, modelled in Dafny

skill-quest-ai is a career-mentoring web application. It has a React front end, a
Supabase backend and an edge function, `ai-mentor`, which forwards prompts to Google's
Gemini model. This project models the application's logic as pure Dafny functions and
proves what that logic promises.

The modules follow the source files:

- `Wrappers`: `Option` and `Result`.
- `Text`: the JavaScript string operations the code relies on. These are `trim`,
  `includes`, `startsWith`, `toLowerCase` on ASCII letters, and the decimal rendering of
  a timestamp inside a template string.
- `Json`: JSON values and JavaScript falsiness.
- `RouteGuard`: `src/components/ProtectedRoute.tsx`. It decides between a spinner, a
  redirect to `/auth`, or the guarded page.
- `MentorProxy`: `supabase/functions/ai-mentor/index.ts`. It covers the CORS preflight,
  the key and prompt checks, the exact request sent to the provider, the optional chain
  to the first candidate's text, the success reply with its echoed context, and the
  500 error reply.
- `AiService`: `src/services/aiService.ts`. It covers the call wrapper, the chat reply
  with its five-message history window, roadmap generation from parsed JSON, the
  quote, the progress analysis with per-status counts, and the next-step suggestions
  with their fallback.
- `Chat`: `src/pages/Chat.tsx` and `src/pages/Chat_Modified.tsx`. It covers the
  greeting, the suggestions, the send guard, the focus prefix, and the two messages a
  send appends.
- `TodoBoard`: the local kanban board of `src/pages/Todo.tsx`.
- `TodoStore`: the persisted board of `src/hooks/useTodos.tsx`. The `todos` table is an
  in-memory sequence of rows. Each handler yields the write it would send.
- `Profile`: `src/hooks/useProfile.tsx`. It covers the fetch with its "no rows"
  tolerance, the shaping of achievements and roadmaps, and the three writes.
- `Social`: `src/hooks/useSocialFeatures.tsx`. It covers posts, comments and likes as
  in-memory tables.
- `ImageUpload`: the type check, the size check and the storage path of
  `src/components/ImageUpload.tsx`.
- `Roadmaps`: the search filter, the difficulty colours, the card click and the card
  button of `src/pages/Roadmaps.tsx`.

Everything that comes from outside the code is a parameter:

- the session (an optional user id);
- clock readings;
- the outcome of every backend query and of the AI call;
- the result of `JSON.parse`.

## Model

| member | source | states |
|---|---|---|
| Text.Trim | src/hooks/useTodos.tsx:93 | `trim` yields a contiguous piece of the input with no white space at either end, everything cut from either side being white space. It is empty exactly when the input is blank, the emptiness test every guard relies on. |
| Text.TrimDetermined | src/hooks/useTodos.tsx:93 | Any piece of the input with only white space around it and none at its ends is the trimmed string, so the contract of `trim` fixes its result. |
| Text.TrimIdempotent | src/pages/Todo.tsx:66 | Trimming an already trimmed title changes nothing. |
| Text.Lower | src/pages/Roadmaps.tsx:116 | Lower-casing keeps the length and maps every character through the ASCII letter map. |
| Text.LowerIdempotent | src/pages/Roadmaps.tsx:116 | Lower-casing twice is lower-casing once. |
| Text.NatToString | src/pages/Chat.tsx:47 | A rendered timestamp is a non-empty string of decimal digits with no leading zero. |
| Text.NatToStringRoundTrip | src/pages/Chat.tsx:47 | Reading the digits back gives the number, so the rendering loses nothing. |
| Text.NatToStringInjective | src/components/ImageUpload.tsx:48 | Different timestamps render differently. |
| RouteGuard.Decide | src/components/ProtectedRoute.tsx:10-28 | The guard shows a spinner while loading. After that it redirects to `/auth` exactly when there is no user and the path is not public, and it renders the page in every other case. |
| RouteGuard.DefaultNeedsSession | src/components/ProtectedRoute.tsx:10 | With the default empty list of public paths, every page needs a session. |
| RouteGuard.MorePublicPathsRenderMore | src/components/ProtectedRoute.tsx:24 | Adding public paths never turns a rendered page into a redirect. |
| MentorProxy.FirstText | supabase/functions/ai-mentor/index.ts:67-71 | The optional chain `candidates[0].content.parts[0].text` is present exactly when every link exists and the text is truthy. When present it is that text. |
| MentorProxy.Failed | supabase/functions/ai-mentor/index.ts:83-94 | The error reply has status 500, the JSON headers and the apology. It carries the error's message, or the generic one when the message is empty. |
| MentorProxy.Finish | supabase/functions/ai-mentor/index.ts:59-81 | After the provider call, the reply is generated (status 200) exactly when the provider answered with a success status, a reply that parses and a truthy first text. Otherwise it is a 500 with the JSON headers and the message of its own path: the thrown fetch error, the provider error with its status, the parse error, or the invalid-reply error. |
| MentorProxy.Handle | supabase/functions/ai-mentor/index.ts:11-95 | A preflight gets the bare CORS headers. The provider is called exactly when the method is not OPTIONS, the key is set, the body decodes and the prompt is truthy, and the request is the exact POST with the prompt, the generation settings and the two safety settings. Every non-preflight reply that is not generated is a 500 fault with the apology. Each error path yields its own message: the missing key, the body's read error, the missing prompt, the thrown fetch, the provider status, the parse error and the invalid reply. |
| MentorProxy.EveryResponseHasCors | supabase/functions/ai-mentor/index.ts:14 | Every reply, success or error, begins with the two CORS headers. |
| MentorProxy.NoCallNoInfluence | supabase/functions/ai-mentor/index.ts:13-26 | When no provider request goes out, the provider's behaviour cannot affect the reply. |
| MentorProxy.GeneratedEchoes | supabase/functions/ai-mentor/index.ts:71-77 | A generated reply carries the first candidate's text. It echoes the request's context, or null when that context is falsy. |
| MentorProxy.ProviderStatusReported | supabase/functions/ai-mentor/index.ts:59-63 | A provider answer with a non-success status becomes a 500 whose error names that status. |
| MentorProxy.PlainAnswer | supabase/functions/ai-mentor/index.ts:65-81 | A well-formed provider reply with a plain string text is returned as the content with status 200. |
| AiService.CallAI | src/services/aiService.ts:5-21 | Any invocation error surfaces as the single connection-failure message. Otherwise the payload's content is passed through. |
| AiService.ContentOr | src/services/aiService.ts:43 | `content \|\| fallback`: a failed call propagates, and an empty or missing content gives the fallback. |
| AiService.LastFive | src/services/aiService.ts:26 | `slice(-5)` is the suffix of the history whose length is the smaller of five and the history's length. |
| AiService.LastFiveKeepsNewest | src/services/aiService.ts:26 | After a message is appended, the window ends with that message and drops the oldest one once the window is full. |
| AiService.GetChatResponse | src/services/aiService.ts:23-44 | The chat prompt embeds the message. The context is of type "chat", carries the time, and its history is the last min(5, n) messages of the n given, in order. The reply is a failure exactly when the invocation fails. A non-empty content is the reply as is, a missing or empty one gives the apology, so a successful reply is never empty. |
| AiService.GeneratedObject | src/services/aiService.ts:87-92 | The generated roadmap object has status "not-started" and progress 0. Its id is the parsed one if present, else `roadmap_<time>`. Every other parsed property is kept. |
| AiService.Spread | src/services/aiService.ts:89 | Spreading a parsed value contributes an object's own properties and nothing for any other value. |
| AiService.GenerateRoadmap | src/services/aiService.ts:46-97 | The level defaults to beginner and the call carries no context. The result succeeds exactly when the call delivered content that parses, and is then the shaped object. A failed call propagates, and an unparseable reply gives the roadmap failure. |
| AiService.RoadmapIdsFromClock | src/services/aiService.ts:88-89 | Two roadmaps generated from the same reply at different times share an id exactly when the reply supplied one. |
| AiService.GenerateMotivationalQuote | src/services/aiService.ts:99-108 | The quote is the reply's content when that is non-empty and the fixed quote otherwise, so it is never empty. |
| AiService.CountStatus | src/services/aiService.ts:114-116 | The count of tasks with a status is at most the number of tasks, and it is zero exactly when no task has it. |
| AiService.CountsPartition | src/services/aiService.ts:114-116 | The completed, pending and in-progress counts add up to the number of tasks. |
| AiService.CountAppend | src/services/aiService.ts:114-116 | Counting a concatenation is adding the counts. |
| AiService.AnalyzeProgress | src/services/aiService.ts:110-125 | The prompt carries the count of completed, pending and in-progress tasks, each the number of tasks with that status, and the streak. The reply is the content when non-empty and the fixed encouragement otherwise. |
| AiService.SuggestNextSteps | src/services/aiService.ts:127-146 | The prompt carries the roadmap names and the number of completed tasks. A reply that parses is returned as parsed, and otherwise the three fixed steps are. A failed call propagates. |
| Chat.Greeting | src/pages/Chat_Modified.tsx:10-19 | Without a focus the greeting is the plain one. With a focus it names the focused roadmap. |
| Chat.InitialState | src/pages/Chat.tsx:8-18 | A fresh page has exactly the mentor's greeting, an empty input and no pending reply. |
| Chat.Suggestions | src/pages/Chat_Modified.tsx:23-52 | There are four suggestions. Without a focus they are the plain page's four. With a focus each one mentions the roadmap, and the third one's category is its title. |
| Chat.SuggestionClick | src/pages/Chat.tsx:84-86 | A click only fills the input. |
| Chat.ContextualInput | src/pages/Chat_Modified.tsx:57-59 | The sent text ends with the raw input. With a focus it starts with the context prefix and names the roadmap. |
| Chat.UserMessage | src/pages/Chat.tsx:46-51 | The user's message shows the raw input and has id `user_<time>`. |
| Chat.BeginSend | src/pages/Chat_Modified.tsx:55-71 | A blank input or a pending reply changes nothing. Otherwise the user's message is appended, the input is cleared, the page waits, and the contextual text goes out with the history as it was before the append. |
| Chat.ReplyMessage | src/pages/Chat.tsx:61-78 | A reply becomes the mentor's message with id `ai_<time>`. A failure becomes the apology with id `ai_error_<time>`. |
| Chat.FinishSend | src/pages/Chat.tsx:68-81 | After the await, exactly the reply is appended and the page stops waiting. |
| Chat.HandleSendMessage | src/pages/Chat_Modified.tsx:54-96 | An ignored send changes nothing and calls nothing. An accepted send calls the AI once, with the contextual text and the last five earlier messages. It then leaves the old messages, the user's message and the reply (or the apology), an empty input and no pending reply. |
| Chat.SendAppendsTwo | src/pages/Chat.tsx:53-68 | A send keeps the earlier messages as a prefix and appends a user message and then a mentor message. |
| Chat.SendWhileWaitingIgnored | src/pages/Chat.tsx:44 | A second send while the first is awaited does nothing. |
| Chat.PlainPageSendsRawInput | src/pages/Chat.tsx:54-59 | The plain page sends exactly the typed text, and the shown text is the same. |
| Chat.ReplyNeverEmpty | src/pages/Chat.tsx:61-78 | The mentor's message after a send is never empty. |
| Chat.SendIdsDiffer | src/pages/Chat.tsx:47 | The two messages a send appends have different ids. |
| TodoBoard.FindIndex | src/pages/Todo.tsx:47 | `find` locates the first task with the id, and reports absence exactly when no task has it. |
| TodoBoard.RemoveOnly | src/pages/Todo.tsx:53 | With unique ids, filtering an id out removes exactly its one task. |
| TodoBoard.ToggleTask | src/pages/Todo.tsx:44-63 | Toggling an id that is not in the column leaves the board unchanged. |
| TodoBoard.ToggleCompletes | src/pages/Todo.tsx:50-54 | Checking a task of an open column moves it, checked, to the head of the completed column. The third column stays untouched. |
| TodoBoard.ToggleReopens | src/pages/Todo.tsx:55-57 | Unchecking a completed task moves it, unchecked, to the head of the this-week column. |
| TodoBoard.ToggleKeepsIds | src/pages/Todo.tsx:44-63 | A toggle keeps the multiset of task ids on the board, so ids stay unique. |
| TodoBoard.ToggleFlipsOnlyCompleted | src/pages/Todo.tsx:50 | Every task on the toggled board is a task of the original board with at most its check mark flipped. |
| TodoBoard.ToggleKeepsConsistent | src/pages/Todo.tsx:52-57 | Checked tasks are exactly those of the completed column, before and after a toggle. |
| TodoBoard.ToggleRoundTrip | src/pages/Todo.tsx:44-63 | Checking the head of the this-week column and then unchecking it restores the board. |
| TodoBoard.AddTask | src/pages/Todo.tsx:65-82 | A blank entry changes nothing. Otherwise an unchecked medium-priority task titled with the raw entry goes to the head of the this-week column, and the entry is cleared. |
| TodoBoard.AddTaskIds | src/pages/Todo.tsx:68-79 | Adding a task adds exactly its time-stamp id to the board's ids. |
| TodoBoard.AddTaskKeepsInvariants | src/pages/Todo.tsx:65-82 | With a fresh time stamp, adding keeps ids unique and the board consistent. |
| TodoBoard.PriorityColor | src/pages/Todo.tsx:26-33 | Each of high, medium and low has its own text colour, and any other priority gets the muted one. |
| TodoBoard.PriorityBg | src/pages/Todo.tsx:35-42 | Each of high, medium and low has its own background, and any other priority gets the muted one. |
| TodoBoard.PriorityStylesAgree | src/pages/Todo.tsx:26-42 | Two priorities share a text colour exactly when they share a background. |
| TodoStore.Normalize | src/hooks/useTodos.tsx:53 | The shaped row keeps every field. An empty completion time reads as absent. |
| TodoStore.Bucket | src/hooks/useTodos.tsx:45-73 | A column holds only rows of its status. |
| TodoStore.BucketMembers | src/hooks/useTodos.tsx:45-73 | A column holds exactly the shaped rows of its status. |
| TodoStore.CategorizeCount | src/hooks/useTodos.tsx:45-73 | When every status is one of the three, the columns together hold every fetched row. |
| TodoStore.OwnRows | src/hooks/useTodos.tsx:37-41 | The query returns only the user's rows. |
| TodoStore.OwnRowsMembers | src/hooks/useTodos.tsx:40 | The query returns exactly the user's rows. |
| TodoStore.Categorize | src/hooks/useTodos.tsx:45-73 | Each of the three columns holds, shaped, exactly the rows of its status, and a row of any other status lands in none. |
| TodoStore.FetchTodos | src/hooks/useTodos.tsx:32-86 | Nothing is fetched without a user. With one, each column holds, shaped, exactly that user's rows of its status, so no other user's row reaches the board. |
| TodoStore.Column | src/hooks/useTodos.tsx:146 | A key names a column exactly when it is one of the three statuses. On a categorised board that column holds exactly the rows of that status. |
| TodoStore.Find | src/hooks/useTodos.tsx:146-149 | A found todo is a row of the column with that id, and it is missing exactly when no row has the id. |
| TodoStore.AddTodo | src/hooks/useTodos.tsx:88-102 | No write without a user or with a blank title. Otherwise one insert for the user with the trimmed title, status this-week and priority defaulting to medium. |
| TodoStore.UpdateTodo | src/hooks/useTodos.tsx:122-130 | No write without a user. Otherwise an update filtered by the id and the owner. |
| TodoStore.TogglePatch | src/hooks/useTodos.tsx:151-158 | The patch flips completion and moves the row to completed (stamping the time) or back to this-week (clearing it). |
| TodoStore.ToggleTodo | src/hooks/useTodos.tsx:145-149 | No write when the column or the todo is not found. |
| TodoStore.ToggleWrite | src/hooks/useTodos.tsx:145-158 | For a row of the user's fetched board, the write is the toggle patch of that row, addressed to it. |
| TodoStore.ToggleThenFetch | src/hooks/useTodos.tsx:145-158 | After a toggle is applied, the row alone changes, and a re-fetch shows it in the completed column exactly when it became completed. |
| TodoStore.ToggleTwiceRestores | src/hooks/useTodos.tsx:145-158 | Two toggles of an unchecked this-week row, with a re-fetch in between, restore the table. |
| TodoStore.MoveTodo | src/hooks/useTodos.tsx:189-201 | A move writes the status alone, for the user's row. |
| TodoStore.MoveKeepsCompletion | src/hooks/useTodos.tsx:194-201 | Applying a move changes the status of the addressed row only and never its completion. |
| TodoStore.DeleteTodo | src/hooks/useTodos.tsx:161-169 | No write without a user. Otherwise a delete filtered by the id and the owner. |
| TodoStore.DeleteOnlyOwned | src/hooks/useTodos.tsx:165-169 | A delete removes exactly the user's row with that id. |
| TodoStore.UpdateRows | src/hooks/useTodos.tsx:126-130 | An update patches the matching rows and keeps every other row. |
| TodoStore.DeleteRows | src/hooks/useTodos.tsx:165-169 | After a delete the table holds exactly the rows that do not match both the id and the owner. |
| TodoStore.Apply | src/hooks/useTodos.tsx:96-169 | An insert appends one row with the new id, the written fields, no completion and the creation stamp, keeping the rest. An update keeps the length and patches exactly the matching rows. A delete keeps exactly the rows that do not match. |
| TodoStore.UpdateOnlyAt | src/hooks/useTodos.tsx:126-130 | With unique ids an update changes the addressed row alone. |
| TodoStore.RefetchShows | src/hooks/useTodos.tsx:45-73 | A row whose status follows its completion shows up in the completed column or the this-week column accordingly. |
| Profile.DeriveStatus | src/hooks/useProfile.tsx:179 | A supplied status wins. Otherwise progress 100 means completed, positive means active and anything else means not-started. |
| Profile.UpdateRoadmapProgress | src/hooks/useProfile.tsx:169-182 | No write without a user. Otherwise one upsert with the progress, the derived status, a start time (its own clock reading) when progress is positive and a completion time (a second reading) at 100. |
| Profile.CompletedIsStarted | src/hooks/useProfile.tsx:179-181 | A roadmap written at 100 is completed and stamped both started and completed, each with its own clock reading. |
| Profile.FirstProgress | src/hooks/useProfile.tsx:100-101 | The roadmap's progress row is present exactly when the joined list is non-empty, and it is the list's first entry. |
| Profile.UpdateUserStats | src/hooks/useProfile.tsx:145-154 | No write without a user. Otherwise one upsert of the given fields keyed by the user. |
| Profile.UpdateProfile | src/hooks/useProfile.tsx:118-125 | No write without a user. Otherwise the user's own profile row gets the updates. |
| Profile.ShapeAchievement | src/hooks/useProfile.tsx:78-82 | An achievement is earned exactly when it has a joined entry, and its time comes from the first entry. |
| Profile.OrElse | src/hooks/useProfile.tsx:98-99 | `s \|\| fallback` on an optional string. |
| Profile.ShapeRoadmap | src/hooks/useProfile.tsx:96-102 | Duration and colour have defaults. Without a progress entry the progress is 0 and the status not-started. Otherwise they are read from the first entry. |
| Profile.ProgressReadBack | src/hooks/useProfile.tsx:169-182 | Once the written progress is the first joined entry, the shaped roadmap shows that progress and the derived status. |
| Profile.Single | src/hooks/useProfile.tsx:55 | "No rows" is an empty answer, and any other error fails. |
| Profile.ShapeAchievements | src/hooks/useProfile.tsx:78-82 | Every achievement row is shaped, in order. |
| Profile.ShapeRoadmaps | src/hooks/useProfile.tsx:96-102 | Every roadmap row is shaped, in order. |
| Profile.FetchProfile | src/hooks/useProfile.tsx:44-116 | Without a user the fetch changes nothing. With one it fails exactly when a lookup fails with an error other than "no rows" or a list query fails. A fetch that does not fail stores the profile, the stats and every shaped achievement and roadmap. |
| Profile.NoRowsTolerated | src/hooks/useProfile.tsx:55-65 | "No rows" on the profile and stats lookups does not stop the fetch, and the missing rows are stored as absent. |
| Profile.ProfileErrorAborts | src/hooks/useProfile.tsx:55 | Any other profile error fails before anything is stored. |
| Profile.StatsErrorAborts | src/hooks/useProfile.tsx:65 | Any other stats error fails after only the profile was stored. |
| Profile.ListErrorsAbort | src/hooks/useProfile.tsx:76-94 | The achievements and roadmaps queries tolerate no error. |
| Social.CreatePost | src/hooks/useSocialFeatures.tsx:97-109 | No post without a user or with blank content. Otherwise exactly one post by the user with the trimmed content. |
| Social.AddComment | src/hooks/useSocialFeatures.tsx:221-232 | No comment without a user or with blank content. Otherwise exactly one comment by the user on the post. |
| Social.KeepPosts | src/hooks/useSocialFeatures.tsx:254-261 | The filtered delete keeps every post except the user's own with that id. |
| Social.DeletePost | src/hooks/useSocialFeatures.tsx:253-261 | Without a user nothing changes. Otherwise only the user's own post with the id disappears. Comments and likes are untouched. |
| Social.DeleteSparesOthers | src/hooks/useSocialFeatures.tsx:258-261 | Another user's post survives a delete. |
| Social.ToggleLike | src/hooks/useSocialFeatures.tsx:129-167 | Without a user nothing changes and the sign-in message is reported. Otherwise the user's like of the post flips, and no other like, post or comment changes. |
| Social.ToggleLikeTwice | src/hooks/useSocialFeatures.tsx:140-167 | Toggling twice restores the database. |
| Social.UserLiked | src/hooks/useSocialFeatures.tsx:79 | A post reads as liked exactly when a user is signed in and has a like on it. |
| Social.ShapePost | src/hooks/useSocialFeatures.tsx:73-80 | Missing tags read as none and an empty image as absent. The author is "Unknown User" when unknown, and the liked flag follows the likes. |
| Social.SelectPosts | src/hooks/useSocialFeatures.tsx:50-52 | A type filter keeps exactly the posts of that type, and no filter keeps all of them. |
| Social.FetchPosts | src/hooks/useSocialFeatures.tsx:42-95 | The feed is the selected posts, each shaped, in the table's order. |
| Social.ToggleLikeThenFetch | src/hooks/useSocialFeatures.tsx:129-167 | After a toggle the feed shows exactly that post's liked flag flipped. |
| Social.SignedOutLikesNothing | src/hooks/useSocialFeatures.tsx:79 | Signed out, no post reads as liked. |
| ImageUpload.Extension | src/components/ImageUpload.tsx:47 | `split('.').pop()` is the dot-free text after the last dot, or the whole name without a dot. |
| ImageUpload.ObjectPath | src/components/ImageUpload.tsx:48 | The object path lies in the user's own folder. |
| ImageUpload.HandleFileUpload | src/components/ImageUpload.tsx:19-48 | No file or no user means no action. A non-image is rejected first, then a file over 5 MiB. Otherwise the upload goes to `<user>/<time>.<ext>`. |
| ImageUpload.SizeBoundary | src/components/ImageUpload.tsx:34 | The size bound is inclusive: exactly 5 MiB uploads, and one byte more is rejected. |
| ImageUpload.TypeBeforeSize | src/components/ImageUpload.tsx:24-41 | A large non-image gets the type message. |
| ImageUpload.PathKeepsExtension | src/components/ImageUpload.tsx:47-48 | Reading the extension back from the path gives the file's extension. |
| ImageUpload.ExtensionAfterDot | src/components/ImageUpload.tsx:47 | Whatever precedes the last dot does not affect the extension. |
| ImageUpload.PathsDiffer | src/components/ImageUpload.tsx:48 | Two uploads at different times get different paths. |
| Roadmaps.Filter | src/pages/Roadmaps.tsx:115-117 | The filtered list holds exactly the cards whose lower-cased title contains the lower-cased query. |
| Roadmaps.Matches | src/pages/Roadmaps.tsx:116 | The empty query matches every card, a query longer than the title matches none, and a query found verbatim in the title always matches. |
| Roadmaps.FilterIsSubsequence | src/pages/Roadmaps.tsx:115 | The filter keeps the catalogue's order. |
| Roadmaps.EmptyQueryKeepsAll | src/pages/Roadmaps.tsx:116 | An empty query keeps every card. |
| Roadmaps.FilterIdempotent | src/pages/Roadmaps.tsx:115-117 | Filtering again with the same query changes nothing. |
| Roadmaps.FilterIgnoresCase | src/pages/Roadmaps.tsx:116 | Queries that lower-case alike select the same cards. |
| Roadmaps.TitleCaseIgnored | src/pages/Roadmaps.tsx:116 | The letter case of a title does not affect matching. |
| Roadmaps.DifficultyColor | src/pages/Roadmaps.tsx:105-112 | Beginner, Intermediate and Advanced each get their colour, and anything else gets the muted one. |
| Roadmaps.ClickCard | src/pages/Roadmaps.tsx:217 | Only the web-development card opens its detail view, and any other click changes nothing. |
| Roadmaps.CardButton | src/pages/Roadmaps.tsx:278-284 | Only the web-development button is enabled. Started cards read "Continue Learning" in the hero style, and others read "Start Roadmap". |
| Roadmaps.ShowsProgress | src/pages/Roadmaps.tsx:224 | The progress figure is drawn exactly on cards whose button reads "Continue Learning". |

## Left out

- Backend calls (Supabase queries, storage uploads, the function invocation, the `fetch` to the provider), toasts and console logging are not modelled as effects. Their outcomes are parameters, and each handler yields the write it would issue.
- Asynchrony, React state batching and re-rendering are left out. Each handler is a step from one state to the next.
- `Date.now()` and `new Date()` are parameters. `updateRoadmapProgress` reads the clock twice, and the model takes two readings. Other handlers that read the clock more than once share one reading, listed below.
- Chat.UserMessage: the id's `Date.now()` and the timestamp's `new Date()` are modelled as one reading, so the id always agrees with the timestamp.
- Chat.ReplyMessage: the id's `Date.now()` and the timestamp's `new Date()` are modelled as one reading, as for the user's message.
- `JSON.parse` is a parameter that may fail. The parsed reply's shape is not checked, as in the source.
- AiService.Spread: a parsed array or string would spread its indices as properties in JavaScript. Here any non-object contributes nothing.
- AiService.CallAI: a `null` payload from the invocation, which would throw when read, is not modelled. The payload's content is taken to be a string or absent.
- MentorProxy.Handle: the provider's reply is an outcome parameter. A failure of `response.text()` on an error answer is not modelled, and a failure of `response.json()` is one kind of that outcome.
- MentorProxy: the generation settings' fractional values (0.7 and 0.8) are kept in tenths, since the model has no floating point.
- Json: numbers are integers.
- The prompt templates are abstracted to the values they embed. Their fixed prose is left out.
- TodoBoard.ToggleTask: the source flips the found task object in place inside a state updater. The model flips a copy, which matches a single run of the updater but not a double run.
- TodoStore.Apply: the row an insert creates takes its defaults (not completed, no completion time) from the table definition, which is not part of this model.
- TodoStore.FetchTodos: the `created_at` newest-first ordering of the query is not modelled. The columns keep the table's order.
- TodoStore.MoveTodo: the unused `fromStatus` argument is dropped. So is `deleteTodo`'s unused `columnKey`.
- Social: likes are a set of (user, post) pairs. Duplicate likes, for which `.single()` would fail, are not modelled.
- Social: `fetchComments` is not modelled. It only shapes comments the way `fetchPosts` shapes posts.
- Social.FetchPosts: the `created_at` newest-first ordering of the query is not modelled. The feed keeps the table's order.
- Social.FetchPosts: the author name lookup is a map from user id to name. The per-post profile query is not modelled.
- Text.Lower: lower-casing covers ASCII letters only.
- Profile: progress is an integer. A `NaN` or fractional progress is not modelled.
- Roadmaps: the detail view and its back button are presentation only and are not modelled.
- Rendering (markup, icons, class names other than the colour maps) is not modelled.
