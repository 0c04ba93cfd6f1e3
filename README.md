# A verified model of Poetize's messaging and helper core

Poetize is a blog platform with a built-in chat (IM) service. It has:
- a Java (Spring) server;
- a chat web client and a blog web UI, both in JavaScript;
- a Python side service for mail and third-party login.

This project models, in Dafny, the parts of those programs that carry real rules, and proves what the code promises about them. Each module below is one source file, or one group of closely tied files.

- **ChatReadState** (`chat_read_state.dfy`): the per-user "last read" marker of a conversation and the six read-only SQL queries over it:
  - per-friend and per-group unread counts;
  - the batched counts over friendships and group memberships;
  - the hide-aware friend and group chat lists, sorted by last read time.

  Tables are sequences of rows and the markers a map. A missing marker acts as a read at the epoch.
- **ChatReadService** (`chat_read_service.dfy`): marking a conversation read, hiding it and un-hiding it. These are writes of the marker table, with the service's read operations expressed through the queries.
- **WsStateMachine**, **ReconnectStrategy**, **TimerRegistry**, **TioWs**, **EventBus**: the chat client's connection control:
  - the WebSocket state machine with its transition table, metadata and listeners;
  - the back-off and give-up rules and the reconnect scheduler;
  - the named-timer registry;
  - the socket wrapper's URL, flags and send gate;
  - the global `$bus` event bus.
- **ArticleService**, **TranslationService**, **UserCache**, **FileFilter**, **XssFilter**, **WebInfo**, **Sitemap**, **ArticleEvents**, **ImageCompress**: server helpers:
  - search snippets, truncation, regex-search syntax, hidden-article passwords and the save-task registry;
  - the retrying translation upsert and its fallbacks;
  - the expiring, size-capped user cache;
  - the upload limiter;
  - HTML escaping and input cleaning;
  - the site-information aggregations and status rules;
  - the sitemap endpoint and its client address;
  - the prerender dispatch after article events;
  - the image-compression counters and batch tally.
- **EmailConfig**, **OAuthConfig**, **QqProvider**: the Python service:
  - mail-configuration selection, defaulting, the SSL decision and request normalisation;
  - the OAuth template and dynamic-settings merge with its credential checks;
  - QQ's form-style token reply and JSONP openid reply.
- **TokenExpire**: the blog UI's token validity rule and its login-expiry and login-redirect navigation.
- **Common**, **Text** and **PyValues** are shared vocabulary:
  - optional and result values;
  - Java's `trim`/`isBlank`/`split` and Python's `str.split`/`strip`;
  - the JSON values the Python code handles, with Python's truth values, `==`, `str()` and `int()`.

Objects whose fields the source updates in place are Dafny classes, with `modifies` frames and methods proved against specification functions. Examples are the marker store, the state machine, the timer registry, the bus, the caches and the counters. Read-only logic is functions and lemmas. Clocks, randomness, HTTP replies, database outcomes and foreign libraries are explicit inputs:
- `now` for the clock;
- `rand` for the random number;
- `Fault` or `Reply` values for what a database or a server answers;
- a `sanitize` function for the OWASP sanitiser;
- a `parse` function for `json.loads`.

## Model

| member | source | states |
|---|---|---|
| ChatReadState.ChatTypeCodeRoundTrip | poetize-server/poetry-web/src/main/java/com/ld/poetry/im/http/entity/ImChatLastRead.java:34-35 | the stored chat-type codes 1 (private) and 2 (group) read back as the same kind, and only they do |
| ChatReadState.GroupFriendRowsSpec | poetize-server/poetry-web/src/main/java/com/ld/poetry/im/http/dao/ImChatLastReadMapper.java:29-38 | grouping by friend id: a friend has an entry exactly when some active friendship row names it, and the entry is the friend's unread count times the number of such rows (the LEFT JOIN repeats messages per duplicate row) |
| ChatReadState.GroupMemberRowsSpec | poetize-server/poetry-web/src/main/java/com/ld/poetry/im/http/dao/ImChatLastReadMapper.java:47-57 | grouping by group id: a group has an entry exactly when some membership row with status 1 or 2 names it, and the entry is the group's unread count times the number of such rows |
| ChatReadState.BatchedFriendCountMatchesSingle | poetize-server/poetry-web/src/main/java/com/ld/poetry/im/http/dao/ImChatLastReadMapper.java:29-39 | with one friendship row, getFriendUnreadCountsByUserId reports for the friend exactly what getFriendUnreadCount does |
| ChatReadState.BatchedFriendCountsOnlyFriends | poetize-server/poetry-web/src/main/java/com/ld/poetry/im/http/dao/ImChatLastReadMapper.java:36-37 | a friend without an active friendship row (friend_status = 1) gets no entry from the batched query |
| ChatReadState.BatchedGroupCountMatchesSingle | poetize-server/poetry-web/src/main/java/com/ld/poetry/im/http/dao/ImChatLastReadMapper.java:47-58 | with one membership row, getGroupUnreadCountsByUserId reports for the group exactly what getGroupUnreadCount does |
| ChatReadState.BatchedGroupCountsOnlyGroups | poetize-server/poetry-web/src/main/java/com/ld/poetry/im/http/dao/ImChatLastReadMapper.java:55-56 | a group without a membership row of status 1 or 2 gets no entry from the batched query |
| ChatReadState.FriendCountAntitone | poetize-server/poetry-web/src/main/java/com/ld/poetry/im/http/dao/ImChatLastReadMapper.java:67-71 | moving the last-read time later never raises a private unread count |
| ChatReadState.GroupCountAntitone | poetize-server/poetry-web/src/main/java/com/ld/poetry/im/http/dao/ImChatLastReadMapper.java:81-86 | moving the last-read time later never raises a group unread count |
| ChatReadState.UnmarkedFriendCountsAll | poetize-server/poetry-web/src/main/java/com/ld/poetry/im/http/dao/ImChatLastReadMapper.java:69-71 | without a last-read row the bound is 1970-01-01, so every message from the friend to the user created after it is unread |
| ChatReadState.FriendChatList | poetize-server/poetry-web/src/main/java/com/ld/poetry/im/http/dao/ImChatLastReadMapper.java:95-101 | the friend chat list is ordered by last-read time, newest first, and is a permutation of the friend ids of the active, not hidden friendship rows |
| ChatReadState.GroupChatList | poetize-server/poetry-web/src/main/java/com/ld/poetry/im/http/dao/ImChatLastReadMapper.java:110-116 | the group chat list is ordered by last-read time, newest first, and is a permutation of the group ids of the active, not hidden membership rows |
| ChatReadState.FriendChatListMembership | poetize-server/poetry-web/src/main/java/com/ld/poetry/im/http/dao/ImChatLastReadMapper.java:95-101 | a friend is listed exactly when an active friendship row names it and its chat is not hidden |
| ChatReadState.HiddenGroupNotListed | poetize-server/poetry-web/src/main/java/com/ld/poetry/im/http/dao/ImChatLastReadMapper.java:115 | a group chat whose row has is_hidden set is never listed |
| ChatReadState.GroupChatListVisible | poetize-server/poetry-web/src/main/java/com/ld/poetry/im/http/dao/ImChatLastReadMapper.java:110-116 | every listed group is one of the user's active memberships and its chat is not hidden |
| ChatReadState.FriendChatListReadBeforeUnread | poetize-server/poetry-web/src/main/java/com/ld/poetry/im/http/dao/ImChatLastReadMapper.java:101 | in the friend list every chat read after the epoch precedes every chat never read |
| ChatReadService.MarkReadCountsOnlyLater | poetize-server/poetry-web/src/main/java/com/ld/poetry/im/http/service/ImChatLastReadService.java:53-59 | after markFriendAsRead at time now, the friend's unread count is the number of its messages created after now, and whether the chat is visible is unchanged |
| ChatReadService.MarkReadClearsUnread | poetize-server/poetry-web/src/main/java/com/ld/poetry/im/http/service/ImChatLastReadService.java:61-67 | after markGroupAsRead at time now, a group whose messages are all at most now old has nothing unread |
| ChatReadService.OtherConversationsUnaffected | poetize-server/poetry-web/src/main/java/com/ld/poetry/im/http/service/ImChatLastReadService.java:53-67 | writing one conversation's row leaves every other conversation's unread count and visibility unchanged |
| ChatReadService.WritesTouchOneRow | poetize-server/poetry-web/src/main/java/com/ld/poetry/im/http/service/ImChatLastReadService.java:53-108 | marking read, hiding and un-hiding each change only the row of the named conversation |
| ChatReadService.MarkReadIdempotent | poetize-server/poetry-web/src/main/java/com/ld/poetry/im/http/service/ImChatLastReadService.java:53-59 | marking the same conversation read twice at the same instant equals marking it once |
| ChatReadService.HideRemovesFromList | poetize-server/poetry-web/src/main/java/com/ld/poetry/im/http/service/ImChatLastReadService.java:85-91 | a hidden friend chat is not in the friend chat list, and hiding an existing row keeps its unread count |
| ChatReadService.UnhideRestoresToList | poetize-server/poetry-web/src/main/java/com/ld/poetry/im/http/service/ImChatLastReadService.java:101-108 | after unhideChat a friend with an active friendship is listed again and its unread count is unchanged |
| ChatReadService.WritesKeepWellKeyed | poetize-server/poetry-web/src/main/java/com/ld/poetry/im/http/service/ImChatLastReadService.java:53-108 | every write keeps each row filed under its own user, chat type and chat id |
| ChatReadService.ReadMarkerStore.constructor | poetize-server/poetry-web/src/main/java/com/ld/poetry/im/http/service/ImChatLastReadService.java:17 | the service starts with an empty last-read table |
| ChatReadService.ReadMarkerStore.MarkFriendAsRead | poetize-server/poetry-web/src/main/java/com/ld/poetry/im/http/service/ImChatLastReadService.java:53-59 | the table becomes MarkedRead for the private conversation: its last-read time is now, other rows unchanged |
| ChatReadService.ReadMarkerStore.MarkGroupAsRead | poetize-server/poetry-web/src/main/java/com/ld/poetry/im/http/service/ImChatLastReadService.java:61-67 | the table becomes MarkedRead for the group conversation |
| ChatReadService.ReadMarkerStore.HideFriendChat | poetize-server/poetry-web/src/main/java/com/ld/poetry/im/http/service/ImChatLastReadService.java:85-91 | the table becomes HiddenChat for the private conversation |
| ChatReadService.ReadMarkerStore.HideGroupChat | poetize-server/poetry-web/src/main/java/com/ld/poetry/im/http/service/ImChatLastReadService.java:93-99 | the table becomes HiddenChat for the group conversation |
| ChatReadService.ReadMarkerStore.UnhideChat | poetize-server/poetry-web/src/main/java/com/ld/poetry/im/http/service/ImChatLastReadService.java:101-108 | the table becomes UnhiddenChat for the conversation named by chat type and id; no row is created |
| WsStateMachine.TransitionTableShape | poetize-im-ui/src/utils/wsStateMachine.js:27-33 | no state may go to itself, every state but CLOSED may close, CLOSED goes nowhere, CONNECTED is entered only from CONNECTING and CONNECTING only from DISCONNECTED or RECONNECTING |
| WsStateMachine.Step | poetize-im-ui/src/utils/wsStateMachine.js:72-98 | a transition is taken exactly when the target differs from the current state and the table allows it; a refused one changes nothing; a taken one lands in the target |
| WsStateMachine.ClosedIsFinal | poetize-im-ui/src/utils/wsStateMachine.js:32 | once CLOSED, no sequence of transition calls changes the state or the metadata |
| WsStateMachine.StepKeepsAttemptsConsistent | poetize-im-ui/src/utils/wsStateMachine.js:100-119 | the reconnect counter stays non-negative, is zero while connected or closed, and positive while reconnecting, across one transition |
| WsStateMachine.RunKeepsAttemptsConsistent | poetize-im-ui/src/utils/wsStateMachine.js:100-119 | the same invariant holds after any sequence of transition calls |
| WsStateMachine.RunTimesBounded | poetize-im-ui/src/utils/wsStateMachine.js:100-110 | on a clock that only moves forward, the recorded connection and disconnection times never exceed the clock |
| WsStateMachine.ConnectionDurationNegativeWhileConnected | poetize-im-ui/src/utils/wsStateMachine.js:149-155 | as written, connect at 100, reconnect at 200, connect again at 300: asked at 350 the duration is -100 (the intended value is 50) |
| WsStateMachine.ConnectionDurationFixedNonNegative | poetize-im-ui/src/utils/wsStateMachine.js:149-155 | measured to the clock while connected, the duration of an open connection is never negative; otherwise it equals the duration as written |
| WsStateMachine.WebSocketStateMachine.constructor | poetize-im-ui/src/utils/wsStateMachine.js:36-48 | a new machine is DISCONNECTED with zeroed metadata and no listeners |
| WsStateMachine.WebSocketStateMachine.Transition | poetize-im-ui/src/utils/wsStateMachine.js:72-98 | the state and metadata move as Step says; every listener is notified exactly when the transition is taken; listeners are kept |
| WsStateMachine.WebSocketStateMachine.ResetReconnectAttempts | poetize-im-ui/src/utils/wsStateMachine.js:128-130 | only the reconnect counter changes, to 0 |
| WsStateMachine.WebSocketStateMachine.IncrementReconnectAttempts | poetize-im-ui/src/utils/wsStateMachine.js:135-137 | only the reconnect counter changes, by one |
| WsStateMachine.WebSocketStateMachine.OnStateChange | poetize-im-ui/src/utils/wsStateMachine.js:160-164 | the callback is registered under its id, and the returned unsubscribe names that id |
| WsStateMachine.WebSocketStateMachine.Unsubscribe | poetize-im-ui/src/utils/wsStateMachine.js:163 | exactly that listener is removed |
| WsStateMachine.WebSocketStateMachine.Reset | poetize-im-ui/src/utils/wsStateMachine.js:182-192 | back to DISCONNECTED with zeroed metadata and no listeners |
| ReconnectStrategy.NewStrategy | poetize-im-ui/src/utils/reconnectStrategy.js:7-13 | every numeric option is non-zero after its default is applied, and jitter is on unless the option is exactly false |
| ReconnectStrategy.DefaultStrategy | poetize-im-ui/src/utils/reconnectStrategy.js:8-12 | the defaults are 10 attempts, 1000 ms base, 60000 ms cap, factor 2, jitter on, and an option of 0 falls back to the default |
| ReconnectStrategy.GetDelay | poetize-im-ui/src/utils/reconnectStrategy.js:20-40 | the delay never exceeds maxDelay |
| ReconnectStrategy.GetDelayWithoutJitter | poetize-im-ui/src/utils/reconnectStrategy.js:20-40 | without jitter the delay is baseDelay times factor to the power attempt-1, doubled after a connection of 1-4999 ms, capped at maxDelay |
| ReconnectStrategy.GetDelayJitterBand | poetize-im-ui/src/utils/reconnectStrategy.js:31-39 | with jitter the delay lies within 15% either side of the un-jittered delay, each bound capped and rounded |
| ReconnectStrategy.BackoffNeverShrinks | poetize-im-ui/src/utils/reconnectStrategy.js:20-40 | without jitter and with factor at least 1, a later attempt never waits less |
| ReconnectStrategy.DefaultDelays | poetize-im-ui/src/utils/reconnectStrategy.js:20-40 | with the defaults: 1000 ms for attempt 1, 32000 ms for attempt 6, the 60000 ms cap at attempt 7, 2000 ms after a 1000 ms connection |
| ReconnectStrategy.ShouldReconnectIff | poetize-im-ui/src/utils/reconnectStrategy.js:47-79 | reconnecting is allowed exactly when attempts are below maxAttempts, not kicked, page visible, online and the close code is not 1000 |
| ReconnectStrategy.ReconnectManager.constructor | poetize-im-ui/src/utils/reconnectStrategy.js:104-108 | the given strategy, else a default one; the given timer registry; no callback |
| ReconnectStrategy.ReconnectManager.OnReconnect | poetize-im-ui/src/utils/reconnectStrategy.js:113-115 | only the callback changes |
| ReconnectStrategy.ReconnectManager.ScheduleReconnect | poetize-im-ui/src/utils/reconnectStrategy.js:122-159 | a reconnect is scheduled exactly when shouldReconnect allows it and no duplicate login (under 3000 ms after 5 or more attempts) is detected; onKicked is called exactly on a detected duplicate; the "reconnect" timer is set with getDelay's delay: the timer it owned is cancelled, the name moves to the end of the order and one new browser timer is pending; otherwise the registry does not change |
| ReconnectStrategy.ReconnectManager.Cancel | poetize-im-ui/src/utils/reconnectStrategy.js:164-169 | the registry loses the "reconnect" timer and its browser timer, and nothing else |
| TimerRegistry.Without | poetize-im-ui/src/utils/timerManager.js:64 | deleting a name keeps every other name, keeps the names distinct, and changes nothing when the name is absent |
| TimerRegistry.TimerManager.constructor | poetize-im-ui/src/utils/timerManager.js:7-9 | a new registry holds no timers |
| TimerRegistry.TimerManager.Clear | poetize-im-ui/src/utils/timerManager.js:56-69 | returns whether the name owned a timer; the name and its browser timer are gone, everything else stays |
| TimerRegistry.TimerManager.Set | poetize-im-ui/src/utils/timerManager.js:18-37 | the timer the name owned is cancelled, a fresh browser timer is started and recorded under the name, which moves to the end of the name order; the new id is returned |
| TimerRegistry.TimerManager.SetTimeout | poetize-im-ui/src/utils/timerManager.js:42-44 | set with isInterval false |
| TimerRegistry.TimerManager.SetInterval | poetize-im-ui/src/utils/timerManager.js:49-51 | set with isInterval true |
| TimerRegistry.TimerManager.ClearAll | poetize-im-ui/src/utils/timerManager.js:74-84 | every owned browser timer is cancelled and the registry is empty; other browser timers stay |
| TimerRegistry.SizeIsNameCount | poetize-im-ui/src/utils/timerManager.js:89-112 | getNames lists exactly the names has() accepts, each once, so size() is its length |
| TimerRegistry.SetTwiceKeepsLatest | poetize-im-ui/src/utils/timerManager.js:18-51 | setting a name twice leaves only the second timer under it, with the first browser timer cancelled |
| TioWs.UrlQueryRoundTrip | poetize-im-ui/src/utils/tiows.js:18-25 | when no part holds a '?', the URL has a '?' exactly when paramStr is truthy, the text after the first '?' is paramStr, and the text before it ends in /socket |
| TioWs.TioWebSocket.constructor | poetize-im-ui/src/utils/tiows.js:10-25 | the URL is built from protocol, ip, optional port and optional query; no socket yet |
| TioWs.TioWebSocket.Connect | poetize-im-ui/src/utils/tiows.js:27-43 | a new socket in CONNECTING with both flags cleared |
| TioWs.TioWebSocket.HandleOpen | poetize-im-ui/src/utils/tiows.js:45-54 | the socket is OPEN, connected, not connecting |
| TioWs.TioWebSocket.HandleClose | poetize-im-ui/src/utils/tiows.js:56-65 | the socket is CLOSED, neither connected nor connecting |
| TioWs.TioWebSocket.HandleError | poetize-im-ui/src/utils/tiows.js:67-75 | only the connected flag is cleared |
| TioWs.TioWebSocket.Send | poetize-im-ui/src/utils/tiows.js:85-109 | sending succeeds exactly when the socket is OPEN and the underlying send does not throw; success implies isReady |
| TioWs.TioWebSocket.GetReadyState | poetize-im-ui/src/utils/tiows.js:112-114 | the socket's ready state, or CLOSED without a socket |
| TioWs.TioWebSocket.Close | poetize-im-ui/src/utils/tiows.js:117-121 | an open or connecting socket starts closing; no socket, or one already closing or closed, is left as is; the flags are unchanged |
| EventBus.FilterOutMembership | poetize-im-ui/src/main.js:81 | after filtering, a callback is present exactly when it was present and is not the removed one |
| EventBus.FilterOutAppend | poetize-im-ui/src/main.js:81 | filtering distributes over concatenation, so the surviving callbacks keep their order |
| EventBus.FilterOutAbsent | poetize-im-ui/src/main.js:81 | filtering out a callback that is not in the list leaves the list unchanged |
| EventBus.RegisterAllAppend | poetize-im-ui/src/main.js:68-74 | registering two batches one after the other equals registering their concatenation |
| EventBus.OnAppends | poetize-im-ui/src/main.js:68-74 | $on appends the callback to the event's list (an empty list when absent) and leaves other events alone |
| EventBus.OffRemoves | poetize-im-ui/src/main.js:75-83 | $off(event, cb) removes every cb and keeps the rest; $off(event) empties the list; other events are untouched |
| EventBus.OffUnregisteredIsNoOp | poetize-im-ui/src/main.js:76 | $off on an event never registered changes nothing |
| EventBus.OffUndoesOn | poetize-im-ui/src/main.js:68-83 | $on then $off of the same callback gives the list that $off alone gives |
| EventBus.OffAfterOnRestores | poetize-im-ui/src/main.js:68-83 | when the callback was not registered, $on then $off restores the original list |
| EventBus.Bus.constructor | poetize-im-ui/src/main.js:66 | the bus starts with no events |
| EventBus.Bus.On | poetize-im-ui/src/main.js:68-74 | the table becomes Registered(event, cb) and the bus itself is returned |
| EventBus.Bus.Off | poetize-im-ui/src/main.js:75-83 | the table becomes Removed(event, cb) and the bus itself is returned |
| EventBus.Bus.Emit | poetize-im-ui/src/main.js:84-89 | the callbacks called are exactly the event's list when the dispatch starts, in order (none for an unregistered event); registrations made by the callbacks are kept but do not join this dispatch; the bus itself is returned |
| ArticleEvents.PlannedCallsShape | poetize-server/poetry-web/src/main/java/com/ld/poetry/event/ArticleEventListener.java:32-66 | a visible created or updated article is rendered, any other saved or deleted article's page is deleted; the home page is re-rendered second; the category page last, exactly when there is a sort id; an unknown operation makes no call |
| ArticleEvents.IssueSpec | poetize-server/poetry-web/src/main/java/com/ld/poetry/event/ArticleEventListener.java:31-70 | the calls made are the planned ones in order up to and including the first that throws, or all of them when none throws |
| ArticleEvents.HandlerTraceIsPrefix | poetize-server/poetry-web/src/main/java/com/ld/poetry/event/ArticleEventListener.java:27-71 | the trace of prerender calls is always a prefix of the plan, and the whole plan when no call throws |
| ArticleService.SnippetWindow | poetize-server/poetry-web/src/main/java/com/ld/poetry/service/impl/ArticleServiceImpl.java:1615-1625 | the window lies in the content and is exactly maxLength wide, and holds the keyword occurrence whenever the keyword is no longer than maxLength (halving truncates toward zero as Java's int division does) |
| ArticleService.ContentSnippet | poetize-server/poetry-web/src/main/java/com/ld/poetry/service/impl/ArticleServiceImpl.java:1600-1638 | null content gives null, content no longer than maxLength is returned as it is, and a longer one gives maxLength characters plus three to six characters of "..." |
| ArticleService.SnippetWithoutKeyword | poetize-server/poetry-web/src/main/java/com/ld/poetry/service/impl/ArticleServiceImpl.java:1601-1613 | without a keyword, or when the lower-cased keyword does not occur in the lower-cased content, the snippet is the first maxLength characters followed by "..." |
| ArticleService.SnippetKeepsKeyword | poetize-server/poetry-web/src/main/java/com/ld/poetry/service/impl/ArticleServiceImpl.java:1607-1637 | when the keyword occurs and fits, the snippet is a maxLength-wide window holding the first occurrence, with "..." exactly on the sides where content was cut |
| ArticleService.StripTagsSubset | poetize-server/poetry-web/src/main/java/com/ld/poetry/service/impl/ArticleServiceImpl.java:1718 | removing tags adds no character |
| ArticleService.StripTagsNoTag | poetize-server/poetry-web/src/main/java/com/ld/poetry/service/impl/ArticleServiceImpl.java:1718 | after removing tags no '<' is followed anywhere by a '>' |
| ArticleService.StripTagsDropsTag | poetize-server/poetry-web/src/main/java/com/ld/poetry/service/impl/ArticleServiceImpl.java:1718 | a '<', any text without '>', and the closing '>' are removed as one tag |
| ArticleService.StripTagsKeepsText | poetize-server/poetry-web/src/main/java/com/ld/poetry/service/impl/ArticleServiceImpl.java:1718 | a character other than '<' outside a tag is kept |
| ArticleService.StripTagsUnclosed | poetize-server/poetry-web/src/main/java/com/ld/poetry/service/impl/ArticleServiceImpl.java:1718 | a '<' that is never closed is kept |
| ArticleService.LastSentenceEnd | poetize-server/poetry-web/src/main/java/com/ld/poetry/service/impl/ArticleServiceImpl.java:1725-1728 | the maximum of the four lastIndexOf calls: the last position of a sentence mark, or -1, with no mark after it |
| ArticleService.KeptText | poetize-server/poetry-web/src/main/java/com/ld/poetry/service/impl/ArticleServiceImpl.java:1724-1732 | the kept text is a prefix of the plain text of at most maxLength characters; it is shorter only when it ends at a sentence mark beyond 70% of maxLength, with no mark after it within the limit; with no such mark it is exactly the first maxLength characters |
| ArticleService.TruncateContent | poetize-server/poetry-web/src/main/java/com/ld/poetry/service/impl/ArticleServiceImpl.java:1712-1735 | null gives null; content that fits, or whose tag-stripped text fits, is returned unchanged; otherwise the result is the kept text of the stripped content followed by "..." |
| ArticleService.RegexSearchRoundTrip | poetize-server/poetry-web/src/main/java/com/ld/poetry/service/impl/ArticleServiceImpl.java:728-729 | any non-empty pattern wrapped in slashes is a regex search for exactly that pattern |
| ArticleService.RegexSearchShape | poetize-server/poetry-web/src/main/java/com/ld/poetry/service/impl/ArticleServiceImpl.java:1674-1675 | a search string is a regex search exactly when it is at least three characters and a pattern wrapped in slashes; otherwise it is searched as it is |
| ArticleService.HiddenArticlePassword | poetize-server/poetry-web/src/main/java/com/ld/poetry/service/impl/ArticleServiceImpl.java:120-131 | a hidden article is refused without a password with text; a saved hidden article can be read with exactly the saved password (line 886); a visible one without any |
| ArticleService.VisibleArticleStoresNoPassword | poetize-server/poetry-web/src/main/java/com/ld/poetry/service/impl/ArticleServiceImpl.java:130-134 | a visible or unspecified article is never refused for its password and stores none |
| ArticleService.UpdateNeverInserts | poetize-server/poetry-web/src/main/java/com/ld/poetry/service/impl/ArticleServiceImpl.java:475-486 | updateSaveStatus never adds a task, and a known task ends up with exactly the new status, message, article id and time |
| ArticleService.LookupOutcome | poetize-server/poetry-web/src/main/java/com/ld/poetry/service/impl/ArticleServiceImpl.java:436-461 | a lookup fails exactly for an unknown task or a finished one last updated more than five minutes ago, removes only such an expired task, and otherwise returns the stored status |
| ArticleService.ProcessingNeverExpires | poetize-server/poetry-web/src/main/java/com/ld/poetry/service/impl/ArticleServiceImpl.java:453-454 | a task still processing is always returned, however old |
| ArticleService.UpdateThenLookup | poetize-server/poetry-web/src/main/java/com/ld/poetry/service/impl/ArticleServiceImpl.java:453-482 | a status just recorded for a known task is what a lookup within five minutes reports |
| ArticleService.SaveStatusRegistry.constructor | poetize-server/poetry-web/src/main/java/com/ld/poetry/service/impl/ArticleServiceImpl.java:466 | the registry starts empty |
| ArticleService.SaveStatusRegistry.Register | poetize-server/poetry-web/src/main/java/com/ld/poetry/service/impl/ArticleServiceImpl.java:285-286 | a new task is recorded as processing, stamped with the current time |
| ArticleService.SaveStatusRegistry.UpdateSaveStatus | poetize-server/poetry-web/src/main/java/com/ld/poetry/service/impl/ArticleServiceImpl.java:475-486 | the registry becomes StatusUpdated: the known task takes the new values, an unknown id changes nothing |
| ArticleService.SaveStatusRegistry.GetArticleSaveStatus | poetize-server/poetry-web/src/main/java/com/ld/poetry/service/impl/ArticleServiceImpl.java:436-461 | the answer and the registry left behind are those of StatusLookup |
| TranslationService.SaveFromSpec | poetize-server/poetry-web/src/main/java/com/ld/poetry/service/impl/TranslationServiceImpl.java:95-163 | at most three attempts are made; the table changes only at the article's English row, an existing row is never lost, and on success that row holds the new title, content and update time |
| TranslationService.ExistingRowUpdated | poetize-server/poetry-web/src/main/java/com/ld/poetry/service/impl/TranslationServiceImpl.java:105-114 | an existing English row is rewritten at the first attempt that reaches the database, and nothing is inserted |
| TranslationService.MissingRowInserted | poetize-server/poetry-web/src/main/java/com/ld/poetry/service/impl/TranslationServiceImpl.java:115-128 | without faults a missing row is inserted at the first attempt |
| TranslationService.AllAttemptsFail | poetize-server/poetry-web/src/main/java/com/ld/poetry/service/impl/TranslationServiceImpl.java:153-162 | a database error on every attempt reports failure after three attempts and leaves the table as it was |
| TranslationService.InterruptGivesUp | poetize-server/poetry-web/src/main/java/com/ld/poetry/service/impl/TranslationServiceImpl.java:129-152 | an interrupted wait after a duplicate key gives up at once with failure, leaving the other writer's row |
| TranslationService.DuplicateKeyRetriedAsUpdate | poetize-server/poetry-web/src/main/java/com/ld/poetry/service/impl/TranslationServiceImpl.java:129-134 | a duplicate key on the first attempt is resolved on the second by rewriting the other writer's row |
| TranslationService.LastDuplicateKeyRereads | poetize-server/poetry-web/src/main/java/com/ld/poetry/service/impl/TranslationServiceImpl.java:129-161 | a duplicate key on the last attempt re-reads the row: the save succeeds exactly when the re-read finds it, and then rewrites the other writer's row; a re-read that throws leaves that row and one that finds nothing leaves the table as it was; three attempts are made |
| TranslationService.TranslationStore.constructor | poetize-server/poetry-web/src/main/java/com/ld/poetry/service/impl/TranslationServiceImpl.java:42-44 | the translation table starts empty |
| TranslationService.TranslationStore.SaveOrUpdateTranslation | poetize-server/poetry-web/src/main/java/com/ld/poetry/service/impl/TranslationServiceImpl.java:95-163 | the result, the new table and the number of attempts are those of SaveFrom from the first attempt, including the last attempt's re-read after a duplicate key, which fails when it throws or finds no row |
| TranslationService.ArticleTranslation | poetize-server/poetry-web/src/main/java/com/ld/poetry/service/impl/TranslationServiceImpl.java:207-242 | a missing id or a blank language gives only the invalid-arguments error; every other answer carries a status; the status is success exactly when the arguments are valid, the lookup does not throw and the row exists |
| TranslationService.SavedTranslationReadsBack | poetize-server/poetry-web/src/main/java/com/ld/poetry/service/impl/TranslationServiceImpl.java:223-227 | a stored English translation reads back with status success and its title and content, a null text as "" |
| TranslationService.TranslateText | poetize-server/poetry-web/src/main/java/com/ld/poetry/service/impl/TranslationServiceImpl.java:245-297 | blank text is returned as it is; a non-blank text always gives a non-blank result, which is the text itself or the translation of a code-200 reply |
| TranslationService.LongTextIsOnePiece | poetize-server/poetry-web/src/main/java/com/ld/poetry/service/impl/TranslationServiceImpl.java:185-204 | translating long text is translating it in one piece |
| TranslationService.TranslationFallback | poetize-server/poetry-web/src/main/java/com/ld/poetry/service/impl/TranslationServiceImpl.java:269-291 | a code-200 reply with a non-blank translation replaces the text; any other reply, or none, leaves the original |
| UserCache.Purged | poetize-server/poetry-web/src/main/java/com/ld/poetry/utils/cache/UserCacheManager.java:290-292 | the purged cache keeps exactly the entries not older than five minutes, unchanged |
| UserCache.LocalLookupSpec | poetize-server/poetry-web/src/main/java/com/ld/poetry/utils/cache/UserCacheManager.java:225-239 | a lookup returns a user exactly for a live entry, and its user; it removes only the entry it found expired |
| UserCache.StoreThenLookup | poetize-server/poetry-web/src/main/java/com/ld/poetry/utils/cache/UserCacheManager.java:70-72 | a user just stored under a token is found there while the entry is at most five minutes old |
| UserCache.PurgedIdempotent | poetize-server/poetry-web/src/main/java/com/ld/poetry/utils/cache/UserCacheManager.java:290-292 | purging twice is purging once, and leaves no expired entry |
| UserCache.UserCacheManager.constructor | poetize-server/poetry-web/src/main/java/com/ld/poetry/utils/cache/UserCacheManager.java:32-37 | both local maps and the shared cache start empty |
| UserCache.UserCacheManager.GetUserFromLocalCache | poetize-server/poetry-web/src/main/java/com/ld/poetry/utils/cache/UserCacheManager.java:225-239 | the answer and the local cache left behind are those of LocalLookup; nothing else changes |
| UserCache.UserCacheManager.PutUserToLocalCache | poetize-server/poetry-web/src/main/java/com/ld/poetry/utils/cache/UserCacheManager.java:244-264 | the token's entry is written with the current time and every other entry kept is unchanged; below 1000 entries nothing else changes; a full cache first drops its expired entries and, if that frees room, nothing else; if still full it keeps only live entries, at most 100 below the cap plus the new one; the id map and the shared cache are untouched |
| UserCache.UserCacheManager.UpdateUserIdToTokenMapping | poetize-server/poetry-web/src/main/java/com/ld/poetry/utils/cache/UserCacheManager.java:281-285 | the id maps to the token when the token has text; otherwise nothing changes |
| UserCache.UserCacheManager.GetUserByToken | poetize-server/poetry-web/src/main/java/com/ld/poetry/utils/cache/UserCacheManager.java:81-107 | a token without text gives null and changes nothing; a live local entry's user is returned with nothing changed; a local miss leaves the lookup's cleaned cache and, when the shared cache lacks the token, returns null with the id map unchanged; otherwise the shared cache's user is returned, stored locally under the token as putUserToLocalCache stores it, and its id mapped to the token; the shared cache never changes |
| UserCache.UserCacheManager.GetUserById | poetize-server/poetry-web/src/main/java/com/ld/poetry/utils/cache/UserCacheManager.java:115-141 | null id gives null and changes nothing; the locally cached user of the id's token when it is live and has that id, else the user table's answer; the local cache is left as the lookup leaves it, and a table user found on a miss is stored under the mapped token; the id map and the shared cache never change |
| UserCache.UserCacheManager.CacheUser | poetize-server/poetry-web/src/main/java/com/ld/poetry/utils/cache/UserCacheManager.java:149-168 | with a token with text and a user, the user is stored under the token in the shared cache, in the local cache as putUserToLocalCache stores it, and its id maps to the token; otherwise nothing changes |
| UserCache.UserCacheManager.RemoveUserCache | poetize-server/poetry-web/src/main/java/com/ld/poetry/utils/cache/UserCacheManager.java:175-199 | the token leaves both caches, and the id of the live user it held loses its mapping; a token without text changes nothing |
| UserCache.UserCacheManager.RemoveUserCacheById | poetize-server/poetry-web/src/main/java/com/ld/poetry/utils/cache/UserCacheManager.java:206-220 | null id changes nothing; otherwise the id loses its mapping; without a mapped token with text nothing else changes; with one, the token leaves the local and the shared cache, and the id of the live user it held locally also loses its mapping, with nothing else changed |
| UserCache.UserCacheManager.CacheUserById | poetize-server/poetry-web/src/main/java/com/ld/poetry/utils/cache/UserCacheManager.java:366-375 | with a user and a token with text mapped from the id, the user is stored under that token in the shared and the local cache and the user's id maps to it; otherwise nothing changes |
| UserCache.UserCacheManager.ClearAllCache | poetize-server/poetry-web/src/main/java/com/ld/poetry/utils/cache/UserCacheManager.java:316-325 | both local maps are empty and the shared cache is untouched |
| FileFilter.SegmentsNonEmpty | poetize-server/poetry-web/src/main/java/com/ld/poetry/utils/storage/FileFilter.java:21 | the path matcher's tokens are never empty: repeated, leading and trailing separators produce none |
| FileFilter.SegmentsHaveNoSlash | poetize-server/poetry-web/src/main/java/com/ld/poetry/utils/storage/FileFilter.java:21 | no token holds a '/' |
| FileFilter.UploadPatternSegments | poetize-server/poetry-web/src/main/java/com/ld/poetry/utils/storage/FileFilter.java:21 | the pattern /resource/upload has the two tokens resource and upload |
| FileFilter.UploadPathIsAntMatch | poetize-server/poetry-web/src/main/java/com/ld/poetry/utils/storage/FileFilter.java:21 | a request is subject to the limiter exactly when the matcher accepts its URI against /resource/upload |
| FileFilter.UploadPatternIsUploadPath | poetize-server/poetry-web/src/main/java/com/ld/poetry/utils/storage/FileFilter.java:21 | /resource/upload itself is an upload path |
| FileFilter.TrailingSlashIsNotUploadPath | poetize-server/poetry-web/src/main/java/com/ld/poetry/utils/storage/FileFilter.java:21 | /resource/upload/ is not an upload path |
| FileFilter.OtherSegmentIsNotUploadPath | poetize-server/poetry-web/src/main/java/com/ld/poetry/utils/storage/FileFilter.java:21 | /resource/uploads is not an upload path |
| FileFilter.FilterSpec | poetize-server/poetry-web/src/main/java/com/ld/poetry/utils/storage/FileFilter.java:20-57 | other paths pass with the counters untouched; an upload without a known user is blocked untouched; the administrator passes untouched; any other upload adds exactly one to its user's and its IP's counter, and is blocked exactly when either stood at the limit or more before |
| FileFilter.RepeatedUploads | poetize-server/poetry-web/src/main/java/com/ld/poetry/utils/storage/FileFilter.java:33-50 | from fresh counters the n-th upload of an ordinary user from one IP is blocked exactly when n - 1 reaches the limit, and both counters then stand at n |
| FileFilter.UploadLimiter.constructor | poetize-server/poetry-web/src/main/java/com/ld/poetry/utils/storage/FileFilter.java:16-18 | no counters yet |
| FileFilter.UploadLimiter.DoFilterFile | poetize-server/poetry-web/src/main/java/com/ld/poetry/utils/storage/FileFilter.java:20-57 | the verdict and the new counters are those of FilterRequest |
| Sitemap.DropTrailingEmpty | poetize-server/poetry-web/src/main/java/com/ld/poetry/controller/SitemapController.java:74 | what Java's split keeps of the pieces: a prefix of them that ends in a non-empty piece, only empty pieces being dropped |
| Sitemap.PiecesNoSep | poetize-server/poetry-web/src/main/java/com/ld/poetry/controller/SitemapController.java:74 | a header without a comma is one piece |
| Sitemap.SplitEmptyIffOnlySeparators | poetize-server/poetry-web/src/main/java/com/ld/poetry/controller/SitemapController.java:74 | split(",") yields an empty array exactly when the header is non-empty and made of commas only |
| Sitemap.AsWrittenThrowsOnCommas | poetize-server/poetry-web/src/main/java/com/ld/poetry/controller/SitemapController.java:71-83 | as written, the address lookup throws exactly for a usable X-Forwarded-For made of commas only |
| Sitemap.ClientIpAddress | poetize-server/poetry-web/src/main/java/com/ld/poetry/controller/SitemapController.java:71-83 | the corrected address agrees with the as-written one whenever that one does not throw |
| Sitemap.ClientIpAddressOrder | poetize-server/poetry-web/src/main/java/com/ld/poetry/controller/SitemapController.java:72-82 | an X-Forwarded-For with text, not "unknown" and without a comma gives itself trimmed; otherwise X-Real-IP under the same test; otherwise the remote address |
| Sitemap.SitemapReply | poetize-server/poetry-web/src/main/java/com/ld/poetry/controller/SitemapController.java:42-65 | a sitemap with text gives 200 with the XML type, one hour's caching and X-Robots-Tag noindex; an empty one gives 404; a generator failure gives 500 with the XML error body |
| Sitemap.GetSitemap | poetize-server/poetry-web/src/main/java/com/ld/poetry/controller/SitemapController.java:37-66 | with the corrected address the reply depends on the generated sitemap alone |
| Sitemap.GetSitemapAgrees | poetize-server/poetry-web/src/main/java/com/ld/poetry/controller/SitemapController.java:37-66 | the as-written and the corrected handler agree whenever the as-written address does not throw |
| Sitemap.CommaOnlyForwardedForFails | poetize-server/poetry-web/src/main/java/com/ld/poetry/controller/SitemapController.java:39-74 | as written, X-Forwarded-For "," turns a servable sitemap into a 500; corrected, it is served with 200 |
| XssFilter.ReplaceChar | poetize-server/poetry-web/src/main/java/com/ld/poetry/utils/XssFilterUtil.java:75-80 | String.replace leaves a string without the target character unchanged |
| XssFilter.ReplaceCharAppend | poetize-server/poetry-web/src/main/java/com/ld/poetry/utils/XssFilterUtil.java:75-80 | String.replace of one character distributes over concatenation |
| XssFilter.EscapeHtml | poetize-server/poetry-web/src/main/java/com/ld/poetry/utils/XssFilterUtil.java:70-73 | blank content (null, empty, whitespace only) is returned as it is; any other content gives a string |
| XssFilter.EscapeChar | poetize-server/poetry-web/src/main/java/com/ld/poetry/utils/XssFilterUtil.java:75-80 | each of & < > " ' / becomes an entity starting with '&' and holding none of the six characters except that '&'; every other character stands for itself |
| XssFilter.EscapeEach | poetize-server/poetry-web/src/main/java/com/ld/poetry/utils/XssFilterUtil.java:75-80 | escaping never shortens the text, and leaves no special character but the '&' of an entity |
| XssFilter.ChainAppend | poetize-server/poetry-web/src/main/java/com/ld/poetry/utils/XssFilterUtil.java:75-80 | the chain of six replacements distributes over concatenation |
| XssFilter.ChainSingle | poetize-server/poetry-web/src/main/java/com/ld/poetry/utils/XssFilterUtil.java:75-80 | on one character the chain yields that character's entity: no entity made by an earlier replacement is rewritten by a later one |
| XssFilter.ChainIsPerChar | poetize-server/poetry-web/src/main/java/com/ld/poetry/utils/XssFilterUtil.java:75-80 | the six chained replacements equal escaping every character on its own |
| XssFilter.EscapeHtmlSpec | poetize-server/poetry-web/src/main/java/com/ld/poetry/utils/XssFilterUtil.java:70-81 | non-blank content is escaped character by character, and the result holds none of < > " ' / |
| XssFilter.UnescapeEscape | poetize-server/poetry-web/src/main/java/com/ld/poetry/utils/XssFilterUtil.java:75-80 | escaping loses nothing: reading the six entities back gives the original text |
| XssFilter.CleanWith | poetize-server/poetry-web/src/main/java/com/ld/poetry/utils/XssFilterUtil.java:50-62 | null stays null; blank content is returned as it is; otherwise the policy's sanitised text, or the escaped content when the sanitiser throws (also lines 143-175) |
| XssFilter.ContainsXss | poetize-server/poetry-web/src/main/java/com/ld/poetry/utils/XssFilterUtil.java:89-97 | blank content is never XSS; otherwise it is XSS exactly when the strict policy changes it; a sanitiser exception propagates |
| XssFilter.ValidateAndCleanSpec | poetize-server/poetry-web/src/main/java/com/ld/poetry/utils/XssFilterUtil.java:106-135 | null is rejected; otherwise a value is returned exactly when the trimmed input is non-empty, at most maxLength long and cleans to a non-empty text, and the value is that cleaning |
| XssFilter.ValidateAndCleanEscapesOnException | poetize-server/poetry-web/src/main/java/com/ld/poetry/utils/XssFilterUtil.java:55-61 | a trimmed input the sanitiser cannot handle comes back escaped, so it never holds a '<' |
| WebInfo.ClampDays | poetize-server/poetry-web/src/main/java/com/ld/poetry/controller/WebInfoController.java:643-647 | the day count lies in 1..365: missing or non-positive gives 7, above 365 gives 365, any other value is kept |
| WebInfo.ClampDaysIdempotent | poetize-server/poetry-web/src/main/java/com/ld/poetry/controller/WebInfoController.java:643-647 | a clamped day count is clamped to itself |
| WebInfo.Present | poetize-server/poetry-web/src/main/java/com/ld/poetry/controller/WebInfoController.java:296-297 | filter(Objects::nonNull) keeps exactly the present values |
| WebInfo.Distinct | poetize-server/poetry-web/src/main/java/com/ld/poetry/controller/WebInfoController.java:298 | distinct() keeps the same values, each once |
| WebInfo.DistinctCount | poetize-server/poetry-web/src/main/java/com/ld/poetry/controller/WebInfoController.java:295-299 | counting the distinct present values counts the set of present values |
| WebInfo.IpCountsAreDistinctIps | poetize-server/poetry-web/src/main/java/com/ld/poetry/controller/WebInfoController.java:294-302 | ip_count_yest and ip_count_today each count the different non-null IPs of their list (also lines 331-336) |
| WebInfo.HistoryInfoReport | poetize-server/poetry-web/src/main/java/com/ld/poetry/controller/WebInfoController.java:385-409 | an exception anywhere gives the all-zero default report; a null list of today's records gives 0 IPs and no provinces (also lines 377-381) |
| WebInfo.ProvinceTodaySorted | poetize-server/poetry-web/src/main/java/com/ld/poetry/controller/WebInfoController.java:361-374 | province_today is sorted by count, largest first, and is a reordering of the province groups |
| WebInfo.ProvinceTodayCounts | poetize-server/poetry-web/src/main/java/com/ld/poetry/controller/WebInfoController.java:361-374 | each entry names a province of today's records and carries the number of records from it |
| WebInfo.ProvinceTodayComplete | poetize-server/poetry-web/src/main/java/com/ld/poetry/controller/WebInfoController.java:361-374 | every province among today's records has an entry |
| WebInfo.ProvinceGroupsDistinct | poetize-server/poetry-web/src/main/java/com/ld/poetry/controller/WebInfoController.java:364 | groupingBy gives each province one group |
| WebInfo.SiteInfo.AddHistoryStats | poetize-server/poetry-web/src/main/java/com/ld/poetry/controller/WebInfoController.java:182-209 | with no statistics or on a failure both counters become "0"; otherwise each counter present is copied, the hour list by its size, and a missing one is left unchanged |
| WebInfo.WaifuStatus | poetize-server/poetry-web/src/main/java/com/ld/poetry/controller/WebInfoController.java:428-456 | no cached site information is the failure "网站信息不存在"; otherwise the reply carries the id and a flag that is true exactly when enableWaifu is true |
| WebInfo.WaifuJson | poetize-server/poetry-web/src/main/java/com/ld/poetry/controller/WebInfoController.java:461-467 | the cached waifu JSON when it has text, otherwise "{}" |
| WebInfo.BothEnabled | poetize-server/poetry-web/src/main/java/com/ld/poetry/controller/WebInfoController.java:779 | the platform is enabled exactly when both flags are true; a null flag fails as Boolean unboxing does |
| WebInfo.ThirdLoginStatus | poetize-server/poetry-web/src/main/java/com/ld/poetry/controller/WebInfoController.java:753-795 | the loop builds the reply ThirdLoginStatusOf describes, failing at the first null flag |
| WebInfo.PutPlatformsOther | poetize-server/poetry-web/src/main/java/com/ld/poetry/controller/WebInfoController.java:777-786 | a platform type no configuration has keeps its previous entry or stays absent |
| WebInfo.PutPlatformsLast | poetize-server/poetry-web/src/main/java/com/ld/poetry/controller/WebInfoController.java:777-786 | the last configuration of a platform type decides its entry |
| WebInfo.ThirdLoginStatusEnableFlag | poetize-server/poetry-web/src/main/java/com/ld/poetry/controller/WebInfoController.java:766-768 | "enable" is true exactly when some configuration is active |
| WebInfo.ThirdLoginStatusPlatform | poetize-server/poetry-web/src/main/java/com/ld/poetry/controller/WebInfoController.java:776-786 | without a provider, a platform's entry says enabled exactly when both flags of its last configuration are true |
| WebInfo.NullFlagFails | poetize-server/poetry-web/src/main/java/com/ld/poetry/controller/WebInfoController.java:779 | a null flag in any configuration makes the all-platform reply a failure |
| WebInfo.ThirdLoginStatusOneProvider | poetize-server/poetry-web/src/main/java/com/ld/poetry/controller/WebInfoController.java:771-775 | with a non-blank provider named, its entry says whether an active configuration has that type |
| WebInfo.OneProviderStatusKeys | poetize-server/poetry-web/src/main/java/com/ld/poetry/controller/WebInfoController.java:766-775 | that reply holds only "enable" and the provider |
| ImageCompress.BatchCompressResult.constructor | poetize-server/poetry-web/src/main/java/com/ld/poetry/service/AsyncImageCompressService.java:160-166 | a new batch tally starts with every count, total and the processing time at 0 |
| ImageCompress.BatchCompressResult.AddSuccess | poetize-server/poetry-web/src/main/java/com/ld/poetry/service/AsyncImageCompressService.java:168-172 | one more success, and the result's two sizes added to the totals; nothing else changes |
| ImageCompress.BatchCompressResult.AddSkipped | poetize-server/poetry-web/src/main/java/com/ld/poetry/service/AsyncImageCompressService.java:174-176 | only the skipped count moves, by one |
| ImageCompress.BatchCompressResult.AddError | poetize-server/poetry-web/src/main/java/com/ld/poetry/service/AsyncImageCompressService.java:178-180 | only the error count moves, by one |
| ImageCompress.BatchCompressResult.SetProcessingTime | poetize-server/poetry-web/src/main/java/com/ld/poetry/service/AsyncImageCompressService.java:189 | only the processing time changes |
| ImageCompress.SuccessesPlusErrors | poetize-server/poetry-web/src/main/java/com/ld/poetry/service/AsyncImageCompressService.java:112-120 | every file of a batch is counted once, as a success or as an error |
| ImageCompress.SavedIsSumOfSavings | poetize-server/poetry-web/src/main/java/com/ld/poetry/service/AsyncImageCompressService.java:196-198 | a batch's saved bytes are the sum of each success's saving |
| ImageCompress.AnyFailedIffErrors | poetize-server/poetry-web/src/main/java/com/ld/poetry/service/AsyncImageCompressService.java:108-121 | a file failed exactly when the per-file tally counts an error |
| ImageCompress.OneFailureFailsTheBatch | poetize-server/poetry-web/src/main/java/com/ld/poetry/service/AsyncImageCompressService.java:108 | two files with the second failing: the per-file tally is one success and one error, and the batch fails as written |
| ImageCompress.AsyncImageCompressService.constructor | poetize-server/poetry-web/src/main/java/com/ld/poetry/service/AsyncImageCompressService.java:21-26 | the three service counters start at 0 |
| ImageCompress.AsyncImageCompressService.CompressImage | poetize-server/poetry-web/src/main/java/com/ld/poetry/service/AsyncImageCompressService.java:32-78 | a success counts one more processed image and adds its saving; an IOException counts one more error and is rethrown; either way the other counters stay |
| ImageCompress.AsyncImageCompressService.ResetStats | poetize-server/poetry-web/src/main/java/com/ld/poetry/service/AsyncImageCompressService.java:150-155 | the statistics read back as three zeros |
| ImageCompress.AsyncImageCompressService.BatchCompressAsWritten | poetize-server/poetry-web/src/main/java/com/ld/poetry/service/AsyncImageCompressService.java:85-133 | with a failed file the join fails the whole batch; otherwise every file is a success and the sizes are summed |
| ImageCompress.AsyncImageCompressService.BatchCompress | poetize-server/poetry-web/src/main/java/com/ld/poetry/service/AsyncImageCompressService.java:110-127 | the per-file tally the collecting loop is written for: successes and errors by outcome, adding up to the file count, sizes and saving summed over the successes, no skips, the measured duration |
| EmailConfig.MailConfigIndexSpec | py/email_api.py:172-194 | nothing without configurations; else the first whose id prints like a truthy requested id, else the first marked default, else the first |
| EmailConfig.GetMailConfig | py/email_api.py:172-194 | the two search loops return the configuration MailConfigIndex picks |
| EmailConfig.RandomEmailConfigSpec | py/email_api.py:144-170 | with an enabled configuration one of them is chosen; without one a configuration is returned exactly when the cached default index is a number within the list |
| EmailConfig.SetDefaultSpec | py/email_api.py:112-125 | adding a default adds its key with that value only when missing, and keeps every other key |
| EmailConfig.SavedDefaultsKeys | py/email_api.py:111-125 | saving adds exactly the six keys id, connectionTimeout, timeout, jndiName, trustAllCerts and customProperties where missing |
| EmailConfig.SavedDefaultsSpec | py/email_api.py:111-125 | every key already present keeps its value |
| EmailConfig.SavedDefaultsAdded | py/email_api.py:111-125 | the id added is the position plus one, the timeouts 25000, jndiName empty, trustAllCerts false, customProperties an empty dictionary |
| EmailConfig.SavedDefaultsIdempotent | py/email_api.py:111-125 | saving again at any position changes nothing |
| EmailConfig.FillSavedDefaults | py/email_api.py:111-125 | the loop gives each configuration of the list its defaults in place |
| EmailConfig.SaveEmailConfigs | py/email_api.py:78-142 | true exactly when the stored file is readable, a default index is known and the file is writable; the file written holds the filled configurations and the given index, else the stored one, else -1 |
| EmailConfig.DefaultIndexParamSpec | py/email_api.py:466-471 | an absent defaultIndex parameter and one int() rejects give -1; a printed integer gives itself |
| EmailConfig.SavedConfigs | py/email_api.py:486-493 | each configuration the endpoint saves is its request item with the endpoint's and the service's defaults, position by position |
| EmailConfig.SavedConfigsSpec | py/email_api.py:486-493 | a saved configuration is enabled unless the request said otherwise, keeps every key it was sent with, and is numbered from 1 when it has no id |
| EmailConfig.SaveEmailConfigsApi | py/email_api.py:462-532 | a body len() rejects is 500, one that is not a list 400; a list is 200 exactly when the save succeeds, with the saved file the configurations and the integer query index, and 500 otherwise |
| EmailConfig.SmtpSslSpec | py/email_api.py:196-230 | an empty configuration or a port int() rejects raises; otherwise SSL is used exactly when the port is 465 or ssl is True, 1, or a string reading true, 1 or yes |
| EmailConfig.QuotedSslPort | py/email_api.py:202-226 | a port stored as the string "465" is read as 465 and forces SSL |
| EmailConfig.SmtpSetupSpec | py/email_api.py:196-240 | setting up raises exactly when the SSL decision does, or the protocol or proxy type is present and not a string, or int() rejects the timeout or a truthy proxy port; otherwise it makes the SSL decision; a null protocol or timeout is reported as such |
| EmailConfig.TestEmailConfigOrder | py/email_api.py:196-388 | the four checks in order (empty, host, port, credentials), each only when the earlier pass; a pass needs all four, a configuration that sets up without raising, a connection and a string host; a setup that raises gives the generic failure with its text; a failed connection gives its exception's message |
| EmailConfig.TestRecipientSpec | py/email_api.py:545-556 | a non-empty testEmail parameter wins; else a truthy testTo; else the username |
| EmailConfig.ForcedByPortKeys | py/email_api.py:558-564 | the port rule touches only ssl and starttls |
| EmailConfig.FillFlagAt | py/email_api.py:567-580 | one round of the flag loop fills its key when it is missing or None and keeps every other key |
| EmailConfig.FlagLoopAt | py/email_api.py:567-580 | after the whole loop a flag is its default when it was missing or None, and unchanged otherwise |
| EmailConfig.NormalisedTestConfigKeys | py/email_api.py:558-580 | the configuration forwarded has exactly the sent keys plus the five flags, and every other key keeps its value |
| EmailConfig.NormalisedTestConfigFlag | py/email_api.py:558-580 | port 465 has ssl True, port 587 without starttls has starttls True, a flag that is not None stays (False included), a missing or None one gets its default; no flag is None |
| EmailConfig.NormaliseTestConfig | py/email_api.py:558-580 | the port rule and the flag loop compute NormalisedTestConfig |
| EmailConfig.NormalisedKeepsFields | py/email_api.py:558-580 | normalising changes none of the fields the local test checks, and does not change whether setting up a non-empty configuration raises |
| EmailConfig.TestEmailConfigApiStatusSpec | py/email_api.py:534-693 | 400 exactly for an empty configuration; 200 when the Java reply is an object with code 200; 500 for an object with another code and a string or absent message, and for a reply that is not JSON; the local test when the request raises, the reply is not an object, or its message is not a string |
| EmailConfig.LocalFallbackStatus | py/email_api.py:296-388 | the local test: a missing field is a 500, a timeout after a good setup a 504, and 200 exactly when every field is there, setup does not raise, the connection is made and the host is a string |
| EmailConfig.TimeoutMessageMentionsTimeout | py/email_api.py:362-365 | the timeout message holds the word the endpoint maps to 504 (also line 680) |
| EmailConfig.ValidationMessagesNoTimeout | py/email_api.py:306-317 | none of the validation messages holds that word, so none becomes a 504 |
| OAuthConfig.DynamicConfigSpec | py/oauth/config.py:96-124 | dynamic settings apply exactly when there is a source, its answer is a dictionary with a truthy 'enable', and the provider's entry is a non-empty dictionary whose 'enabled' is missing or truthy; they are that entry |
| OAuthConfig.MissingFromMembership | py/oauth/config.py:143 | a field is reported exactly when it is required and missing or falsy |
| OAuthConfig.MissingFieldsSpec | py/oauth/config.py:137-143 | the missing list is client_key (for x) or client_id, then client_secret, each only when falsy |
| OAuthConfig.ProviderConfigSpec | py/oauth/config.py:59-94 | a missing or falsy template is unsupported_provider, a non-dictionary one config_error; a result is the template overridden key by key by the dynamic settings, with every required field truthy; every error names the provider |
| OAuthConfig.IncompleteMessage | py/oauth/config.py:144-149 | with a usable template, the configuration is incomplete_config exactly when fields are missing, and the message lists them joined by ", " |
| OAuthConfig.NoSecretIsIncomplete | py/oauth/config.py:137-149 | a template without a client secret and no dynamic settings is incomplete_config |
| OAuthConfig.BuiltInTemplatesLackSecrets | py/oauth/config.py:14-48 | each of the five built-in templates is a dictionary with a user-info URL and no client secret |
| OAuthConfig.BuiltInTemplatesNeedCredentials | py/oauth/config.py:14-149 | without dynamic settings no built-in provider is usable |
| OAuthConfig.TemplateTable.constructor | py/oauth/config.py:14-48 | the class-level table starts with the five built-in providers in order |
| OAuthConfig.TemplateTable.SupportedProviders | py/oauth/config.py:167-174 | the table's keys, each once, in insertion order |
| OAuthConfig.TemplateTable.AddProviderTemplate | py/oauth/config.py:176-184 | adds or replaces exactly one entry; a new provider goes last in the key order |
| OAuthConfig.SupportedProvidersOfFreshTable | py/oauth/config.py:167-174 | a fresh table lists github, google, x, yandex, gitee |
| OAuthConfig.OAuthConfigManager.constructor | py/oauth/config.py:50-57 | a manager shares the table and records whether a configuration source was given |
| OAuthConfig.OAuthConfigManager.GetProviderConfig | py/oauth/config.py:59-94 | the configuration or error ProviderConfig states, against the table as it is now |
| OAuthConfig.OAuthConfigManager.IsProviderEnabled | py/oauth/config.py:151-165 | true exactly when getting the configuration raises no ConfigurationError |
| QqProvider.SplitAtFirstEquals | py/oauth/providers/qq.py:37 | splitting an item at its first "=" gives a key without "=" that, with "=" and the value, rebuilds the item |
| QqProvider.TokenDataLookup | py/oauth/providers/qq.py:33-38 | a key is in the parsed token data exactly when some item assigns it, and its value comes from the last such item |
| QqProvider.ParseTokenText | py/oauth/providers/qq.py:32-38 | the parsing loop over text.split('&') builds the dictionary TokenData states |
| QqProvider.GetAccessToken | py/oauth/providers/qq.py:16-50 | the token ParseTokenText and the configuration give, or the error AccessToken states |
| QqProvider.TokenConfigMissing | py/oauth/providers/qq.py:21-27 | a configuration key get_access_token reads is missing exactly when the configuration is incomplete |
| QqProvider.AccessTokenSucceeds | py/oauth/providers/qq.py:16-50 | a token is returned exactly when the configuration is complete, the request succeeds and the reply assigns a non-empty access_token |
| QqProvider.AccessTokenValue | py/oauth/providers/qq.py:35-45 | the token returned is the value of the last item "access_token=..." of the reply |
| QqProvider.AccessTokenIsData | py/oauth/providers/qq.py:40-45 | the token returned is the parsed reply's access_token |
| QqProvider.AccessTokenFailures | py/oauth/providers/qq.py:42-50 | every failure names "qq" and carries a message; it is no_token (passed through with its own message) or token_request_failed |
| QqProvider.NoAccessTokenItem | py/oauth/providers/qq.py:40-43 | with a complete configuration, a reply without any access_token item is no_token |
| QqProvider.OpenidJsonUnwraps | py/oauth/providers/qq.py:65-67 | a callback( ... ) reply unwraps to exactly what is between the parentheses |
| QqProvider.OpenidJsonPlain | py/oauth/providers/qq.py:65-67 | a reply that is not a callback is only stripped |
| QqProvider.OpenidJsonBarePrefix | py/oauth/providers/qq.py:66-67 | the bare prefix "callback(" unwraps to the empty text |
| QqProvider.UserInfoSpec | py/oauth/providers/qq.py:52-110 | a record is returned exactly when every key, request and decoding succeeds, the openid is truthy and ret equals 0; it has the six keys, provider qq, the openid as uid, an empty email to collect, and the avatar falling back from figureurl_qq_2 to figureurl_qq_1 to ""; failures are no_openid, api_error or user_info_failed |
| QqProvider.NoOpenidBeforeUserRequest | py/oauth/providers/qq.py:71-74 | a falsy openid is no_openid, whatever the user-information request would do |
| QqProvider.ApiErrorMessage | py/oauth/providers/qq.py:90-92 | a ret other than 0 without msg is api_error with the "未知错误" message |
| TokenExpire.IsTokenValidSpec | poetize-ui/src/utils/tokenExpireHandler.js:120-132 | a token is valid exactly when it is a string of at least ten characters; the "null" and "undefined" checks are subsumed |
| TokenExpire.ExpiryNavigationSpec | poetize-ui/src/utils/tokenExpireHandler.js:39-82 | no navigation exactly for an admin already on /verify or a user already on /user; otherwise a push to /verify (for an admin, or from an admin or verify page) or /user, carrying the redirect path and expired=true |
| TokenExpire.AdminPagesGoToVerify | poetize-ui/src/utils/tokenExpireHandler.js:63-70 | an expired user on an /admin path is sent to /verify, never to the user login page |
| TokenExpire.LoginLocation | poetize-ui/src/utils/tokenExpireHandler.js:199-206 | the target is /verify for an admin and /user otherwise; its query has every extra key with its value, plus redirect, which is the redirect path unless an extra key overrides it |
| TokenExpire.AfterLoginLocationSpec | poetize-ui/src/utils/tokenExpireHandler.js:242-272 | a non-empty redirect other than /user and /verify is followed, keeping only hasComment and hasReplyAction and only when 'true'; otherwise the default path (or /) with no query |
| TokenExpire.AuthSession.constructor | poetize-ui/src/utils/tokenExpireHandler.js:6-7 | the session holds the given storage, store users and route, with no navigation yet |
| TokenExpire.AuthSession.ValidToken | poetize-ui/src/utils/tokenExpireHandler.js:139-148 | the stored admin or user token when it has at least ten characters, else null |
| TokenExpire.AuthSession.ClearAuthState | poetize-ui/src/utils/tokenExpireHandler.js:12-24 | the four login keys leave storage, both store users become {}, and nothing else changes |
| TokenExpire.AuthSession.HandleTokenExpire | poetize-ui/src/utils/tokenExpireHandler.js:32-113 | clears the login, then pushes what ExpiryNavigation says for the given path or the route's full path; afterwards neither the user nor the admin is logged in |
| TokenExpire.AuthSession.RedirectToLogin | poetize-ui/src/utils/tokenExpireHandler.js:178-234 | pushes LoginLocation for the given path, else the route's full path, else window.location's path and search; the login state is untouched |
| TokenExpire.AuthSession.HandleLoginRedirect | poetize-ui/src/utils/tokenExpireHandler.js:242-272 | replaces the route with AfterLoginLocation; nothing else changes |
| TokenExpire.ShortTokenNotLoggedIn | poetize-ui/src/utils/tokenExpireHandler.js:155-166 | a stored token shorter than ten characters never counts as logged in |
| Text.BlankIsNoText | poetize-server/poetry-web/src/main/java/com/ld/poetry/utils/XssFilterUtil.java:51 | StringUtils.isBlank holds exactly when StringUtils.hasText does not |
| Text.JavaTrim | poetize-server/poetry-web/src/main/java/com/ld/poetry/utils/XssFilterUtil.java:113 | String.trim keeps no leading or trailing character at or below U+0020, is empty exactly when every character is, and never lengthens |
| Text.IndexOf | poetize-server/poetry-web/src/main/java/com/ld/poetry/service/impl/ArticleServiceImpl.java:1608 | String.indexOf gives the first position of the substring, or -1 when it occurs nowhere |
| PyValues.PyEqEquivalence | py/email_api.py:560-563 | Python == on decoded values is an equivalence |
| PyValues.PyEqNumbers | py/email_api.py:560-563 | no bool equals 465 or 587, and exactly 1 and True equal 1 (also line 216) |
| PyValues.PyStr | py/oauth/providers/qq.py:91-92 | str() returns a string unchanged and has a printed form for every value but a dictionary |
| PyValues.PyStrip | py/oauth/providers/qq.py:65 | str.strip leaves no whitespace at either end |
| PyValues.StripKeeps | py/oauth/providers/qq.py:65 | str.strip removes whitespace only: every other character survives |
| PyValues.ParseIntDecimal | py/email_api.py:466-471 | int() reads back what str() prints for any integer |
| PyValues.ParseIntRejects | py/email_api.py:466-471 | int() rejects any string holding a character other than whitespace, a sign, a digit or an underscore |
| PyValues.PyIntOfStr | py/email_api.py:202 | int(str(n)) == n for every integer n |

## Left out

- Storage, HTTP, SMTP, the shared cache service and every framework call are not executed. Their answers are parameters: rows, `Fault`s, `Reply`s, `SourceAnswer`s and outcome options. What they print or log is not modelled.
- Concurrency is not modelled. The model is sequential and leaves out:
  - the user cache's read/write lock and concurrent maps;
  - the image service's virtual threads and futures;
  - the translation upsert's race, which is only a `Fault` an attempt may meet.

  The image batch collects its outcomes in file order.
- Sleeping (`Thread.sleep` between translation retries), `setTimeout` callbacks firing, and `console` output are not modelled. The clock is always a parameter (`now`, milliseconds).
- ChatReadService: only the service interface exists in the source. The writes are modelled from its documentation, as upserts of one marker row. The message broadcaster and connection registry that call `unhideChat` are not part of this model.
- WsStateMachine: the order in which listeners are called is not kept. A notification is the set of listener ids called.
- ReconnectStrategy.GetDelay:
  - requires a non-zero back-off factor, which `options.backoffFactor || 2` always gives;
  - models JavaScript doubles as exact reals, so rounding of `Math.pow` and of the jitter is not captured.
- ReconnectStrategy.ReconnectManager.ScheduleReconnect: `rand` is the value `Math.random()` returned, as a parameter.
- EventBus: keys inherited from `Object.prototype` (for example an event named "constructor") are not modelled. The table holds only registered events.
- ArticleService.ContentSnippet: case-insensitive matching lower-cases ASCII letters only. Java's `toLowerCase`, which may change a string's length for some non-ASCII letters, is not modelled.
- ArticleService.TruncateContent:
  - the 0.7 threshold is the exact comparison `10 * k > 7 * maxLength`, not a double computation;
  - `maxLength` is a natural number;
  - HTML tags are removed with the source's pattern read as "from `<` to the next `>`", without java.util.regex.
- Java string lengths and positions: ArticleService, XssFilter.ValidateAndClean's `maxLength`, Text.IndexOf and Text.JavaTrim count Unicode scalar values, where Java's `String` counts UTF-16 code units. For a character outside the Basic Multilingual Plane, which Java counts as two, a length or position in the model is smaller than Java's.
- Article listing, hot-score computation, summaries and the thread pipelines of the article service lie outside the modelled core.
- TranslationService: translateAndSaveArticle, refreshArticleTranslation and deleteArticleTranslation are HTTP and database glue around the modelled upsert and fallback, and are not modelled.
- UserCache:
  - user ids are never null;
  - the shared token cache's own expiry and the `RetryUtil` around it are not modelled;
  - removeUserByToken, removeUserById and cacheUserByToken are thin wrappers over the modelled operations, and getCacheStats only reports sizes; none of them is modelled separately.
- FileFilter: the counters' cache expiry lives in the cache service and is not modelled. `AtomicInteger` wrap-around is not modelled; the counters are unbounded.
- XssFilter: the OWASP policies are the `sanitize` parameter. `e.getMessage()` contents are not modelled.
- WebInfo:
  - `avg_unique_visits` and the other floating-point averages are not modelled, and neither are `username_yest`/`username_today`;
  - provinces with equal counts are ordered by first appearance, where the source's hash map leaves the order unspecified;
  - refreshHistoryCache, updateThirdLoginConfig and getThirdLoginConfig are cache and database glue and are not modelled.
- ImageCompress:
  - compressing one image is an input outcome;
  - getTotalCompressionRatio and getErrorRate are floating point and are not modelled;
  - only an `IOException` counts as an error in CompressImage;
  - a failure wrapped as another exception's cause is treated like the failure itself.
- EmailConfig:
  - `str()` of a dictionary is not modelled; the model gives None for it;
  - floats, lists, non-ASCII digits in `int()`, and list items that are not dictionaries are not modelled;
  - a cache failure reads as no cached value;
  - the random choice among configurations is the parameter `pick`;
  - lower-casing is ASCII only, where Python's is Unicode;
  - a JSON body of the test endpoint that is not a dictionary is not modelled;
  - a Java reply that is a JSON list or number is covered as a reply that is not an object; a `code` that is a float is not modelled;
  - the success messages, the Java back end's error texts and the httpx/SMTP exchanges are inputs or are left out.
- OAuthConfig: the configuration source's answer on each call is a `SourceAnswer` input, and an exception's text (`str(e)`) is the parameter `errorText`. The class-level template dictionary is one shared `TemplateTable` object.
- OAuthConfig: the twitter, google and yandex providers are wrappers over foreign OAuth libraries and are not part of this model.
- QqProvider:
  - HTTP replies and `json.loads` are inputs;
  - `base.py` is not part of this model, so its request helper is assumed not to raise the provider's own error types;
  - a `msg` that is a dictionary gives a None message;
  - lists inside JSON replies are not modelled;
  - a KeyError's text is modelled as the quoted key.
- TokenExpire:
  - the pop-up messages, `setTimeout` and `console` are not modelled;
  - a null router in redirectToLogin is only the `hasCurrentRoute` flag;
  - JavaScript's `.length` counts UTF-16 code units, while the model counts characters;
  - isLoggedIn is a boolean, where the source may return a falsy non-boolean;
  - query values that are arrays are not modelled;
  - the store users are plain fields, not store mutations.
- TimerRegistry: `Date.now()` is the parameter `now`, and the browser's timer ids are a counter.

## Findings

| source | as written | input that shows it | evidently intended | confidence | as-written member | corrected member |
|---|---|---|---|---|---|---|
| poetize-server/poetry-web/src/main/java/com/ld/poetry/controller/SitemapController.java:74 | `xForwardedFor.split(",")[0]` on a header made only of commas: `split` drops the trailing empty strings, the array is empty, and indexing it throws inside the handler's `try`, so the reply is 500 | X-Forwarded-For `,` with a sitemap that generates fine gives 500 instead of 200 | a header with no usable first element falls through to X-Real-IP and the remote address, and the sitemap is served | not executed | Sitemap.CommaOnlyForwardedForFails | Sitemap.GetSitemap |
| poetize-im-ui/src/utils/wsStateMachine.js:149-155 | getConnectionDuration subtracts lastConnectionTime from lastDisconnectTime whenever a disconnect was ever recorded, even while connected again | connect at 100, reconnect at 200, connect at 300, asked at 350: the result is -100 | while connected, the duration runs from the last connection to now (50) | not executed | WsStateMachine.ConnectionDurationNegativeWhileConnected | WsStateMachine.ConnectionDurationFixedNonNegative |
| poetize-server/poetry-web/src/main/java/com/ld/poetry/service/AsyncImageCompressService.java:108 | `CompletableFuture.allOf(...).join()` throws as soon as one file's compression failed, so the whole batch fails before the collecting loop's per-file catch can count the error | two files, the second failing to compress: the batch fails instead of reporting one success and one error | every file is tallied as a success or an error, and the batch result is returned | not executed | ImageCompress.OneFailureFailsTheBatch | ImageCompress.AsyncImageCompressService.BatchCompress |
