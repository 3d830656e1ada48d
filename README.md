# EduConnect chat, feed and comments, modelled in Dafny

EduConnect is a university student portal with an Express/MongoDB backend and a React client. This project models its chat core and its small social feed:

- **Chat session store** (`/api/chats`, module `ChatRoutes`). Chat sessions are scoped to their owner. The store supports listing the newest 50 active sessions, getting one session, and saving: a save either creates a session or replaces an owned session's transcript. Delete is a soft delete, and clear-all soft-deletes every active session of the caller. The store is the class `SessionStore` over a map from session id to session.
- **Assistant proxy** (`/api/chat`, module `AssistantProxy`). It renders the transcript as "Student:" / "Assistant:" lines, wraps them between the university system prompt and an "Assistant:" cue, asks the AI provider, and normalises the answer. The provider is a function argument.
- **Chat tab of the client** (module `ChatbotTab`). This covers:
  - the chat-title rule;
  - the loop that cuts trailing punctuation off a URL found in a message;
  - the tab's conversation state (class `ChatbotState`): sending a message, saving, starting a new chat, loading a chat and deleting one.
- **Post controller** (module `PostController`). It covers creating a post with an optional image upload, the feed annotated with the viewer's likes, and the like/unlike toggle. The store is the class `FeedStore` over the post and like collections.
- **Comment controller** (module `CommentController`). It covers listing a post's comments newest first and appending a comment (class `CommentStore`).

Shared pieces:

- `Common` holds the ids, the messages, the HTTP error results, and the JavaScript string operations the code relies on: `trim`, `substring`, `endsWith` and upper-casing the first character.
- `Ordering` holds the newest-first sort that the backend asks MongoDB for with `.sort({ field: -1 })`. It is proved to be a permutation of its input in non-increasing order.

How the outside world enters the model:

- The authenticated user is an argument (`owner`, `user`, `viewer`).
- The clock is the argument `now`.
- Document ids come from counters.
- Network answers (the AI reply, the image upload, the save response, the fetched chat) are arguments of the operations that await them.

Three behaviours of the code that are easy to get wrong:

- Save accepts an empty message array. Only a missing array, or a value that is not an array, is a 400. The `/api/chat` endpoint does reject an empty array.
- Get returns the caller's own session even after it was soft-deleted. The handler does not filter on `isActive`.
- Nothing in the controller makes likes unique per user and post. The model therefore keeps likes as a sequence that may hold duplicates, and it proves what the toggle does in that case (`ToggleTwice`, `ToggleAgreesWithFeed`).

## Model

| member | source | states |
|---|---|---|
| Common.Trim | client/src/components/home/ChatbotTab.jsx:30 | `trim()` returns a contiguous piece of its input; everything before and after that piece is ECMAScript whitespace, and the piece has no whitespace at either end; it is empty exactly when the input is all whitespace |
| Common.TrimStart | client/src/components/home/ChatbotTab.jsx:174 | the result is a suffix of the input; everything cut off was whitespace; the result does not start with whitespace |
| Common.TrimEnd | client/src/components/home/ChatbotTab.jsx:174 | the result is a prefix of the input; everything cut off was whitespace; the result does not end with whitespace |
| Common.Take | backend/routes/chatRoutes.js:80 | `substring(0, n)` has length min(n, length) and is a prefix of the input |
| Common.EndsWithMeansSuffix | client/src/components/home/ChatbotTab.jsx:72 | `endsWith` holds exactly when the suffix is what remains of the string after dropping some prefix |
| Common.UpperChar | client/src/components/home/ChatbotTab.jsx:38 | a lower-case ASCII letter becomes the upper-case letter at the same position in the alphabet; every other character is unchanged |
| Common.UpperFirst | client/src/components/home/ChatbotTab.jsx:38 | the first character is upper-cased and the rest is unchanged; the length is kept |
| Ordering.InsertDesc | backend/routes/chatRoutes.js:15 | inserting into a newest-first sequence keeps it newest-first, adds exactly that one element, and grows the length by one |
| Ordering.SortDesc | backend/controllers/postController.js:60 | `.sort({ key: -1 })` returns a permutation of its input in non-increasing key order |
| Ordering.DistinctAtMostOnce | backend/routes/chatRoutes.js:11-17 | in a sequence without repeats, every element occurs at most once |
| Ordering.DistinctPermutation | backend/routes/chatRoutes.js:15 | reordering a sequence without repeats introduces none |
| ChatRoutes.TopOfSorted | backend/routes/chatRoutes.js:15-17 | the first n of a sorted permutation come from the input; anything dropped is no newer than the last one kept, and is dropped only when n were kept |
| ChatRoutes.NewChatTitle | backend/routes/chatRoutes.js:77-82 | a given title wins; otherwise a first message from the user gives its content, cut to 50 characters with "..." only when longer; otherwise "New Chat"; a derived title is at most 53 characters |
| ChatRoutes.SessionStore.Get | backend/routes/chatRoutes.js:27-43 | Ok exactly when the caller owns the session, active or not, and the value is the stored session; otherwise 404 "Chat not found", the same for a missing session and for another owner's |
| ChatRoutes.SessionStore.List | backend/routes/chatRoutes.js:9-24 | at most 50 summaries, all distinct, each of an active session of the caller, newest update first; an active session of the caller is left out only when 50 are shown and it was updated no later than the 50th |
| ChatRoutes.SessionStore.CollectListable | backend/routes/chatRoutes.js:11-14 | `find({ userId, isActive: true })` yields the summary of every active session of the caller exactly once, and nothing else |
| ChatRoutes.SessionStore.Save | backend/routes/chatRoutes.js:46-96 | a missing message array is a 400 with no change; an id the caller does not own is a 404 with no change; an owned id gets the new transcript wholesale, the given title or "Updated Chat", and a fresh update time, keeping the owner, creation time and active flag; with no id, a new active session is stored under a fresh id; after any success, Get of the returned id yields that session with exactly the saved messages |
| ChatRoutes.SessionStore.Delete | backend/routes/chatRoutes.js:99-119 | Ok exactly when the caller owns the session; only its active flag changes, to false; otherwise 404 and no change; after a success the session is still owned and inactive, so a second delete succeeds and changes nothing |
| ChatRoutes.SessionStore.ClearAll | backend/routes/chatRoutes.js:122-134 | every active session of the caller becomes inactive and every other session is unchanged; afterwards the caller has no active session |
| AssistantProxy.RenderLine | backend/server.js:89-92 | a user turn renders as "Student: " plus its content; any other role renders as "Assistant: " plus its content |
| AssistantProxy.RenderLines | backend/server.js:88-92 | one rendered line per message, in order |
| AssistantProxy.FullPrompt | backend/server.js:95 | the prompt is the system prompt, then the history header, then the conversation, then the "Assistant:" cue, with nothing else |
| AssistantProxy.ReplyText | backend/server.js:103-105 | the reply is never empty: the provider's text when non-empty, the fallback otherwise |
| AssistantProxy.HandleChat | backend/server.js:79-126 | 400 "Messages are required" exactly when the messages are missing or empty; for a non-empty transcript, 500 exactly when the provider fails on the full prompt; otherwise the reply is the provider's normalised text for the full prompt, stamped with now |
| AssistantProxy.JoinLines | backend/server.js:93 | `join("\n")` gives "" for no lines and the line itself for one line; otherwise it starts with the first line, followed by a line break when more lines follow |
| AssistantProxy.Conversation | backend/server.js:88-93 | the conversation block is empty exactly when the transcript is; for one message it is that message's rendered line; otherwise it starts with the first message's rendered line |
| AssistantProxy.JoinAppend | backend/server.js:93 | joining one more line appends "\n" and that line |
| AssistantProxy.ConversationAppend | backend/server.js:88-93 | appending one message to a non-empty transcript appends exactly one line to the conversation block |
| AssistantProxy.IndexOfNewline | backend/server.js:93 | finds the first line break |
| AssistantProxy.BreakAfterFirstLine | backend/server.js:93 | in a line without breaks followed by a break and more text, the first break is the one right after the line |
| AssistantProxy.SplitJoin | backend/server.js:93 | splitting a join of break-free lines on "\n" gives the lines back |
| AssistantProxy.ParseRendered | backend/server.js:89-92 | the rendered lines parse back to who spoke and what, in order |
| AssistantProxy.ConversationReadsBack | backend/server.js:88-93 | when no content holds a line break, the conversation block reads back as exactly who said what, in order; only non-user role names and timestamps are lost |
| AssistantProxy.LineHasNoBreak | backend/server.js:91 | a rendered line of a break-free message has no break |
| ChatbotTab.FirstUserIndex | client/src/components/home/ChatbotTab.jsx:27 | `find` locates the first message with role "user", or reports that there is none |
| ChatbotTab.TitleSource | client/src/components/home/ChatbotTab.jsx:27-49 | when the first user message has non-empty content, the title text is that content; otherwise it is the first message's content when that is non-empty, else none, so a later user message is never consulted; the text is never empty |
| ChatbotTab.TitleFrom | client/src/components/home/ChatbotTab.jsx:30-38 | the trimmed text cut to 40 characters plus "..." when longer than 40, else the trimmed text with an upper-cased first letter; at most 43 characters; empty exactly for whitespace-only text |
| ChatbotTab.ExtractChatTitle | client/src/components/home/ChatbotTab.jsx:21-52 | "University Chat" for an empty transcript or one without usable text, otherwise the title made from the title source; at most 43 characters |
| ChatbotTab.StripMark | client/src/components/home/ChatbotTab.jsx:72-74 | one step leaves a prefix at most one character shorter, and it shortens exactly when the text ends with the mark and the mark does not follow a "." |
| ChatbotTab.StripMarks | client/src/components/home/ChatbotTab.jsx:67-75 | the pass over the marks leaves a prefix, at most one character shorter per mark |
| ChatbotTab.StripMarksStep | client/src/components/home/ChatbotTab.jsx:71-75 | the pass over one more mark is one more step after the pass over the marks before it |
| ChatbotTab.StripMarksRemovesMarks | client/src/components/home/ChatbotTab.jsx:68-75 | every character the pass removes is one of the marks and does not follow a "." |
| ChatbotTab.CleanUrl | client/src/components/home/ChatbotTab.jsx:67-75 | the loop computes the pass over the nine marks in order: the result is a prefix of the URL, at most nine characters shorter, and every removed character is a mark not right after a "." |
| ChatbotTab.ReplyMessage | client/src/components/home/ChatbotTab.jsx:196-219 | the assistant turn is the reply's content, stamped with the server's timestamp or now when that is empty; or the fixed apology stamped now when the request failed |
| ChatbotTab.ChatbotState.constructor | client/src/components/home/ChatbotTab.jsx:139-148 | the tab mounts with only the welcome greeting, no chat id, an empty input and nothing in flight |
| ChatbotTab.ChatbotState.SetInput | client/src/components/home/ChatbotTab.jsx:784 | typing sets the input box |
| ChatbotTab.ChatbotState.BeginSend | client/src/components/home/ChatbotTab.jsx:173-186 | a send happens exactly when the trimmed input is non-empty and nothing is loading; it appends the trimmed text as the user's turn, clears the box, and puts the send in flight with the new transcript and the current chat id; otherwise nothing changes |
| ChatbotTab.ChatbotState.FinishSend | client/src/components/home/ChatbotTab.jsx:188-231 | the transcript becomes the one sent plus the reply or the apology; that transcript is saved under the chat id the send started with; loading ends |
| ChatbotTab.ChatbotState.SaveChat | client/src/components/home/ChatbotTab.jsx:233-256 | the request carries the seen chat id, the transcript and its derived title (at most 43 characters); a new id from the server is adopted only when the seen id was empty |
| ChatbotTab.ChatbotState.SendMessage | client/src/components/home/ChatbotTab.jsx:173-231 | a whole uninterrupted send grows the transcript by exactly the trimmed user turn and the reply or apology, and saves exactly that transcript with its title; with an empty input or a send in flight nothing changes |
| ChatbotTab.ChatbotState.LoadChat | client/src/components/home/ChatbotTab.jsx:258-275 | a successful fetch replaces the transcript and adopts the chat's id; a failed one changes nothing |
| ChatbotTab.ChatbotState.StartNewChat | client/src/components/home/ChatbotTab.jsx:277-288 | the transcript becomes the single new-chat greeting, and the chat id is cleared |
| ChatbotTab.ChatbotState.DeleteChat | client/src/components/home/ChatbotTab.jsx:290-308 | deleting the chat on screen starts a new chat; deleting another chat, or a failed delete, leaves the conversation alone |
| PostController.LikesOf | backend/controllers/postController.js:72 | `countDocuments({ post })` is at most the number of likes, and zero exactly when no like is on that post |
| PostController.Toggled | backend/controllers/postController.js:90-106 | when the caller has a like on the post, one copy of it is removed; otherwise the like is appended |
| PostController.LikesOfConcat | backend/controllers/postController.js:72 | a post's like count over two collections is the sum of their counts |
| PostController.FirstIndexOf | backend/controllers/postController.js:90-93 | `findOne` locates the first equal like |
| PostController.RemoveFirst | backend/controllers/postController.js:97 | `deleteOne` removes exactly one copy of the like |
| PostController.ToggleCounts | backend/controllers/postController.js:95-109 | a toggle moves the post's count down by one when the like existed and up by one otherwise; no other post's count moves |
| PostController.ToggleTwice | backend/controllers/postController.js:85-114 | two toggles restore the likes exactly when the pair was liked at most once to begin with |
| PostController.ToggleAgreesWithFeed | backend/controllers/postController.js:65-71 | after a toggle, the feed's isLiked agrees with the toggle's answer exactly when the pair was liked at most once before |
| PostController.View | backend/controllers/postController.js:64-73 | isLiked is whether the viewer has a like on the post; likes is the post's like count |
| PostController.Views | backend/controllers/postController.js:63-75 | one view per post, in order |
| PostController.PostsOf | backend/controllers/postController.js:69-70 | the posts behind the views, in order |
| PostController.FeedStore.CreatePost | backend/controllers/postController.js:6-53 | a failed upload of a given image is a 500 "Failed to upload image" with nothing stored; otherwise exactly one post, owned by the caller, is appended under a fresh id with the uploaded URL or no image; the response shows it unliked with 0 likes; every viewer's feed gains exactly that post |
| PostController.FeedStore.GetPosts | backend/controllers/postController.js:56-82 | every post exactly once, newest first, each with whether the viewer liked it and its like count |
| PostController.FeedStore.ToggleLike | backend/controllers/postController.js:85-114 | an existing like of the caller is removed and the answer is "not liked"; otherwise a like is added and the answer is "liked"; the count is the post's count afterwards, one less or one more than before, and no other post's count moves |
| CommentController.OnPost | backend/controllers/commentController.js:7 | `find({ post })` keeps exactly the comments on that post |
| CommentController.OnPostAppend | backend/controllers/commentController.js:23-29 | appending a comment adds it to the listing of its own post and to no other |
| CommentController.CommentStore.GetComments | backend/controllers/commentController.js:3-16 | exactly the comments on the post, each as often as stored, newest first |
| CommentController.CommentStore.AddComment | backend/controllers/commentController.js:18-41 | exactly one comment is appended, by the caller, on the post, with the given content and a fresh id; that post's listing gains exactly it, and other posts' listings do not change |

## Left out

- Authentication (`protect`, the 401 paths), the Express and Mongo bootstrap, and `populate` of user names: these are I/O and framework wiring. The caller is an argument.
- Store failures and ObjectId cast failures (every 500 "Failed to …" / "Server error" branch, and the outer 500 of `/api/chat`): the database is a value that cannot fail.
- A message element that is not an object, or content that is not a string: messages are typed records.
- Chat.js, Like.js and Comment.js are not part of this model. Three schema behaviours are assumed: `isActive` defaults to true, `createdAt` and `updatedAt` are both `now` on create, and `findOneAndUpdate`/`updateMany` do not touch `updatedAt` unless told to.
- Post.js trims `description` and `link` on save: not modelled, and the post keeps them as given. Their `createdAt` is taken from `now`.
- Concurrency: two requests interleaving (two toggles both inserting a like, two saves racing) is not modelled; each operation runs alone. Within the chat tab, an await is split into `BeginSend` and `FinishSend`.
- React rendering, toasts, scrolling, focus, `formatTime`/`formatDate`, the history drawer and `loadChatHistory`, and the `new URL` display text of a link: presentation only.
- AssistantProxy.ChatEndpoint: it passes the deployed system prompt to `HandleChat`, and has no contract of its own, because every property is stated for any system prompt on `HandleChat`.
- The provider call itself (model name, network): it is a function argument.
- Common.UpperChar: upper-cases ASCII letters only. JavaScript's `toUpperCase` also maps other scripts.
- String lengths are counted in characters, not UTF-16 code units. A title with astral characters (such as emoji) may be cut at a different place than the browser cuts it.
