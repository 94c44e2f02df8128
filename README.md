# Telegram monitor: the monitoring pipeline in Dafny

This project models the core of a desktop Telegram monitor. A user account's client receives
updates: new, edited and deleted messages, reactions, chat actions and user updates. The monitor
turns each update into a record and writes it to an append-only SQLite store. It counts what it
handled and passes notifications to a Tk window. The window filters and colours those
notifications in a bounded log pane and offers a small command console. A settings object reads
the API credentials from the environment and from a JSON file, saves them back and validates them.

The model has one module per program part:

| file | module | models |
|---|---|---|
| `store.dfy` | `Storage` | `database.py`: the class `Database` with six tables held as sequences of rows, one auto-increment id per table, the six inserts with commit or rollback, `get_statistics` and `get_recent_events` |
| `monitor.dfy` | `Monitoring` | `monitor.py`: Telethon's objects as datatypes, the pure rules that turn an update into the store's dictionaries, and the class `Monitor` with its six counters, its store and the notifications sent to the window |
| `gui.dfy` | `Gui` | `gui.py`: the show/hide decision of `_on_event`, the tag whitelist and line cap of `_log`, the command history, command parsing and dispatch, the `filter`, `start`, `stop`, `clear` and `search` commands, in the class `MonitorWindow` |
| `config.dfy` | `Configuration` | `config.py`: the API-id parse rule, `load_from_file`, `save_to_file` and `validate`, in the class `Config` |
| `text.dfy`, `wrappers.dfy` | `Text`, `Wrappers` | the Python string operations the program relies on, and `Option` |

Things outside the program become parameters:

- the clock becomes `now` and `stamp`;
- the chat, sender and user objects Telethon fetches become `chat`, `sender` and `user`;
- the outcome of `download_media` becomes `downloadOk`;
- the size of the saved file becomes `fileSize`;
- the user lookup of the reaction handler becomes a `directory` map;
- the environment becomes `env`;
- the parsed contents of `config.json` become `data`;
- whether the window has a monitor object becomes `connected`.

Whether SQLite accepts a statement is not under the caller's control. Each insert chooses that
outcome nondeterministically, and its contract covers both outcomes.

The model keeps the program's defects rather than repairing them:

- **The counters run ahead of the rows.** Every handler increments its counter right after calling
  the insert, whatever the insert returned. `Monitor.Valid` states only that the counters never
  fall behind the rows.
- **Message inserts always fail.** `insert_message` binds 15 values to 16 placeholders (see
  Findings).
  - With `Database.bugCompatible` set, no message row is ever stored, and `Monitor.Valid` records
    this fact.
  - With the flag cleared, the corrected binding is used.
- **Chat actions are never shown.** `_handle_chat_action` reads a `chat_type` it never defines
  (monitor.py:469, 475). The NameError is swallowed at monitor.py:478, so a chat action is stored
  and counted but never passed to the window. `Monitor.HandleChatAction` has no `broadcasts` in its
  frame.
- **Forwards from a non-user peer fail.** For a message forwarded from a channel or group,
  `fwd_from.from_id.user_id` raises (monitor.py:159). At that point the media has already been
  downloaded and its row written. The message is then not stored, counted or shown.
- **The command history is never initialised.** `command_history` and `command_history_index` are
  never set in `__init__` (gui.py:21-59) or anywhere else in the class. Every non-blank console line
  therefore raises AttributeError at gui.py:750, before it is recorded, echoed or dispatched, and the
  Up and Down keys raise at gui.py:818 and 826 (see Findings).
  - With `MonitorWindow.historyInitialised` false, the window behaves as written: `ExecuteCommand`,
    `HistoryUp` and `HistoryDown` report the raise and change nothing.
  - With the flag set, the history starts at `[]` and index 0, the values the rest of the code
    evidently expects.

## Model

| member | source | states |
|---|---|---|
| Text.WordsSplitAtSpace | gui.py:763 | `str.split()` cuts at every white-space character: the words of `a + [c] + b` for a space `c` are the words of `a` followed by the words of `b` |
| Text.WordsEmptyIffBlank | gui.py:763-765 | `split()` gives no words exactly when the text is only white space |
| Text.StripSlice | gui.py:745 | `str.strip()` is the slice of the text that starts after its leading white space, and every character before or after that slice is white space |
| Text.StripEmptyIffBlank | gui.py:745-747 | a stripped command is empty exactly when the line is only white space |
| Text.Lower | gui.py:767 | `str.lower()` on ASCII: same length, and each character is its `LowerChar`: an upper-case letter becomes the letter 32 code points later, everything else is kept |
| Text.IntToDecimalDigits | monitor.py:524 | `str(i)` of an integer is a plain digit string exactly when `i >= 0` |
| Text.ParseNatToDecimal | config.py:29 | `int(str(n)) == n` for every natural number |
| Storage.StoredMessage | database.py:164 | a missing `text` is stored as `''`; every other field is stored as given |
| Storage.StoredReaction | database.py:196 | a missing `action` is stored as `'added'`; every other field is stored as given |
| Storage.StoredEvent | database.py:223 | missing `details` are stored as `{}`; every other field is stored as given |
| Storage.StoredGroup | database.py:302 | missing `details` are stored as `{}`; every other field is stored as given |
| Storage.MessageParamsAsWritten | database.py:156-172 | the tuple as written: 15 values; the first ten line up with their columns, and every later value sits one column early |
| Storage.MessageParams | database.py:149-155 | the corrected tuple: one value per named column, in column order |
| Storage.AsWrittenMessageBindingMismatch | database.py:149-172 | for every message, the number of values bound differs from the number of placeholders, and `is_forwarded` lands on `is_deleted`'s placeholder |
| Storage.ValidTableIds | database.py:31-129 | in a valid table the row ids are positive, strictly increasing and below the next id to hand out |
| Storage.NewIdIsLargest | database.py:173-174 | a new id is larger than every id already in its table |
| Storage.Database.constructor | database.py:23-129 | a new store has six empty tables |
| Storage.Database.InsertMessage | database.py:144-178 | with the as-written binding the insert always fails and returns None; on failure nothing changes (rollback); on success one row with the next id and the defaulted text is appended and its id returned; no other table is in the frame |
| Storage.Database.InsertReaction | database.py:180-204 | on failure nothing changes; on success one row with the defaulted action is appended under the next id, which is returned |
| Storage.Database.InsertEvent | database.py:206-231 | on failure nothing changes; on success one row with defaulted details is appended under the next id, which is returned |
| Storage.Database.InsertMedia | database.py:233-258 | on failure nothing changes; on success one row is appended under the next id, which is returned |
| Storage.Database.InsertContact | database.py:260-284 | on failure nothing changes; on success one row is appended under the next id, which is returned |
| Storage.Database.InsertGroupEvent | database.py:286-310 | on failure nothing changes; on success one row with defaulted details is appended under the next id, which is returned |
| Storage.Statistics | database.py:312-325 | exactly the keys messages, reactions, events and media, each the row count of its table; no contacts or groups |
| Storage.Database.GetStatistics | database.py:312-328 | the four counts, or `{}` when the query fails |
| Storage.MessageView | database.py:335-336 | one row per message, of kind `message`, with the message's date, chat title, sender username and text as its columns |
| Storage.ReactionView | database.py:338-339 | one row per reaction, of kind `reaction`, with the reaction's date, chat title `''`, the user's username and the reaction as its columns |
| Storage.EventView | database.py:341-342 | one row per event, of kind `event`, with the event's date, chat title, user username and event type as its columns |
| Storage.InsertByDate | database.py:343 | inserting into the newest-first order adds exactly that row |
| Storage.InsertByDateSorted | database.py:343 | inserting keeps the order newest-first |
| Storage.SortByDateDesc | database.py:343 | `ORDER BY date DESC`: newest first, and a permutation of its input |
| Storage.LimitCount | database.py:344-345 | `LIMIT`: at most `limit` rows; a negative limit means no limit |
| Storage.RecentEvents | database.py:330-347 | the union, newest first, with exactly `LimitCount(limit, total)` rows |
| Storage.RecentEventsSelectsNewest | database.py:334-345 | the rows returned come from the three tables only; all of them are returned when the limit allows; every row left out is no newer than every row returned |
| Storage.TakeSortedSplit | database.py:343-344 | cutting a newest-first sequence keeps the newest rows |
| Storage.ReturnedWhenNewer | database.py:334-345 | a row of the union is returned when the limit admits every row, and whenever it is strictly newer than some returned row |
| Storage.MessageRoundTrip | database.py:144-178 | a message row just stored is read back by the recent view as a `message` row with its date, chat title, sender username and (defaulted) text: present in the union, returned when the limit admits every row or when it is newer than a returned row |
| Storage.ReactionRoundTrip | database.py:180-204 | a reaction row just stored is read back as a `reaction` row with its date, `''`, the username and the reaction, under the same conditions |
| Storage.EventRoundTrip | database.py:206-231 | an event row just stored is read back as an `event` row with its date, chat title, username and event type, under the same conditions |
| Storage.KindsOfAll | database.py:335-342 | every row of the union is of kind message, reaction or event |
| Storage.Database.GetRecentEvents | database.py:330-350 | the recent view, or `[]` when the query fails |
| Monitoring.ClassifyChat | monitor.py:110-121 | user gives private, basic group gives group, channel gives channel or supergroup by its `broadcast` flag, anything else gives unknown; each as an if-and-only-if |
| Monitoring.ChatKindName | monitor.py:110-121 | the `chat_type` strings, and no two kinds share one |
| Monitoring.CategoryName | monitor.py:194 | the notification types message, message_edited, message_deleted and reaction |
| Monitoring.ChatTitle | monitor.py:107 | a user's title is its first name; any other chat with an empty or missing title becomes 'Unknown' |
| Monitoring.ClassifyMime | monitor.py:143-152 | prefix `video/` gives video; otherwise `audio/` gives audio; otherwise `image/` gives image; anything else gives document |
| Monitoring.MediaType | monitor.py:133-155 | photo exactly for a photo; some type exactly for a photo or a document that has a doc; a document's type comes from its MIME type, with a missing MIME type treated as `''` |
| Monitoring.ForwardFromId | monitor.py:158-159 | no forward id without a forward header or without `from_id`; the `user_id` of `from_id` when it has one; raises exactly when `from_id` is not a user |
| Monitoring.NewMessageRecord | monitor.py:158-179 | raises exactly when the forward id raises; otherwise not edited, not deleted, forwarded exactly when `fwd_from` is present, with the forward id `ForwardFromId` gives, the chat's id and `ChatTitle`, the sender's id, username and names, the message's id, text (`''` when missing), direction, media and date |
| Monitoring.EditedMessageRecord | monitor.py:211-249 | edited and not deleted, no media type, media path or forward id; forwarded exactly when `fwd_from` is present; the message's id, text (`''` when missing), direction and date, the chat's id and `ChatTitle`, and the sender's id, username and names |
| Monitoring.Tombstone | monitor.py:276-321 | the placeholder record of a deleted id: deleted, no sender fields, text `[УДАЛЕНО - ID: <id>]`, no media, not forwarded, the chat's id and `ChatTitle`, dated `now` |
| Monitoring.TombstonesAt | monitor.py:295-326 | tombstone `k` is the one built for deleted id `k`; with the function's length contract, one tombstone per deleted id, in batch order |
| Monitoring.ReactorUsername | monitor.py:368-375 | for a non-zero user id the lookup finds, the username it finds; otherwise (no id, id 0, failed lookup) None |
| Monitoring.ReactorRecordsAt | monitor.py:367-389 | record `j` of a result is the one built for its recent reactor `j`; with the function's length contract, one record per recent reactor, in order |
| Monitoring.ReactionRecords | monitor.py:363-389 | as many records as (result, recent reactor) pairs |
| Monitoring.ReactionRecord | monitor.py:366-384 | the record of one reactor: the update's message and chat ids, the reactor's user id, the username `ReactorUsername` finds, the emoticon or reaction text, action `added`, dated `now` |
| Monitoring.ReactionRecordsFields | monitor.py:376-384 | every record has action `added`, the message id and the chat id of the update, and the batch's date `now` |
| Monitoring.ReactionRecordAt | monitor.py:363-389 | the record of reactor `j` of result `i` is at position `PairCount(results[..i]) + j` |
| Monitoring.MissingReactorsContributeNothing | monitor.py:365 | results whose recent-reactor list is missing contribute no records |
| Monitoring.ActionFlags | monitor.py:418-440 | the eight chat-action flags |
| Monitoring.FirstTrue | monitor.py:418-440 | the position of the first true flag, with every flag before it false; none when all are false |
| Monitoring.ChatActionTypeIsFirstFlag | monitor.py:418-440 | the event type is named by the first true flag in the order joined, left, added, kicked, banned, title changed, photo changed, pinned; none when no flag is set |
| Monitoring.MemberActionIsFirstFlag | monitor.py:418-425 | a join, leave, add or kick flag is one of the first four and decides the type |
| Monitoring.ChatActionDetails | monitor.py:431-440 | a title change carries the new title, a pin carries the message id, and every other action carries `{}` |
| Monitoring.ChatActionRecord | monitor.py:413-452 | a record exactly when some flag is set, with that type, the chat's id and `ChatTitle`, the details, the user's id, username and first name, dated `now` |
| Monitoring.UserUpdateRecord | monitor.py:490-514 | always `user_updated`, no chat id or title, the user's id, username and first name, dated `now`, and exactly the four detail keys username, first name, last name and phone with the user's values |
| Monitoring.MediaFileNameInjective | monitor.py:524-529 | two captures in the same second get different file names unless they are of the same message and media type |
| Monitoring.NoUnderscoreInDecimal | monitor.py:524 | the decimal text of a message id holds no `_`, so the file name can be split again |
| Monitoring.IntToDecimalInjective | monitor.py:524 | different message ids have different decimal texts |
| Monitoring.MediaChatId | monitor.py:534-540 | the chat id of a media row prefers `channel_id`, then `user_id`, then `chat_id` |
| Monitoring.MediaRecord | monitor.py:543-552 | the media row: the message id, the type, the file name `<id>_<type>_<stamp>` (`.jpg` for photos), its path, the chat id, no MIME type, the file's size when it exists and 0 when it is missing, and the message's date |
| Monitoring.TextPreview | monitor.py:190 | a non-empty text is cut to its prefix of length `min(len, 50)`; an empty one becomes `[без текста]` |
| Monitoring.MessageBroadcastsAt | monitor.py:329-337 | notification `k` carries record `k`, with the given category and chat kind; with the function's length contract, one notification per record, in order |
| Monitoring.ReactionBroadcastsAt | monitor.py:392-401 | notification `k` is the reaction notification of record `k`; with the function's length contract, one per record, in order |
| Monitoring.Monitor.constructor | monitor.py:23-37 | all six counters 0, not running, nothing sent to the window |
| Monitoring.Monitor.GetStats | monitor.py:569-571 | a snapshot of the six counters |
| Monitoring.Monitor.Start | monitor.py:39-41 | sets the running flag |
| Monitoring.Monitor.Stop | monitor.py:573-575 | clears the running flag and changes nothing else |
| Monitoring.Monitor.SaveMedia | monitor.py:521-562 | a failed download returns no path and changes nothing; otherwise it returns the file's path, counts one media item, and the media row is either stored or not stored, whatever the insert returned |
| Monitoring.Monitor.RecordMessage | monitor.py:181-199 | insert, count one message whatever the insert returned, and notify the window if it is attached |
| Monitoring.Monitor.RecordReaction | monitor.py:387-401 | insert, count one reaction whatever the insert returned, and notify the window if it is attached |
| Monitoring.Monitor.HandleMessage | monitor.py:98-201 | handled only while `monitor_messages` is on (monitor.py:62-64, tested at each event): nothing happens when it is off or the chat is missing. Media are captured first: with saving on, a media type and a successful download, one media item is counted and the row `MediaRecord` builds is either added under the next media id or not added; otherwise the media table and its next id are unchanged. When the forward id raises, the media row stays but no message is stored, counted or shown. Otherwise one message is counted, at most that one row is added, and one notification is sent when a window is attached |
| Monitoring.Monitor.HandleEditedMessage | monitor.py:203-269 | handled only while `monitor_messages` is on (monitor.py:68-70, tested at each event): one edited record: counted, at most one row added, notified |
| Monitoring.Monitor.HandleDeletedMessage | monitor.py:271-340 | handled only while `monitor_messages` is on (monitor.py:74-76, tested at each event): messages grow by the batch size; the old rows are kept; the new rows are exactly the tombstones whose insert succeeded, in order; one notification per id |
| Monitoring.Monitor.StoreMessage | monitor.py:324-337 | one step of the deletion loop keeps the loop's account of rows and notifications |
| Monitoring.Monitor.HandleReactions | monitor.py:342-404 | handled only while `monitor_reactions` is on (monitor.py:80-82, tested at each event): reactions grow by the pair count; the old rows are kept; the new rows are exactly the records whose insert succeeded, in order; one notification per record |
| Monitoring.Monitor.RecordReactors | monitor.py:367-401 | the inner loop over one result's reactors: one count, at most one row and one notification per reactor |
| Monitoring.Monitor.StoreReaction | monitor.py:387-401 | one step of the inner loop keeps the loop's account of rows and notifications |
| Monitoring.Monitor.HandleChatAction | monitor.py:406-479 | handled only while `monitor_events` is on (monitor.py:86-88, tested at each event): no flag set means nothing is stored or counted. Otherwise one event is counted and at most its row is added. No notification is ever sent |
| Monitoring.Monitor.HandleUserUpdate | monitor.py:481-519 | handled only while `monitor_contacts` is on (monitor.py:92-94, tested at each event): a missing user stores nothing. Otherwise one `user_updated` event is counted under events (never contacts) and at most its row is added |
| Gui.InitialFilters | gui.py:42-56 | the twelve filter flags, all on |
| Gui.ChatFilterKey | gui.py:449 | supergroups are checked against the group flag; every other kind against its own name |
| Gui.LogTag | gui.py:430-431 | the tag is always in the whitelist, and it is the event type exactly when the event type is in the whitelist |
| Gui.EventTag | gui.py:440-493 | a hidden chat hides the event; a shown event always carries a whitelisted tag |
| Gui.MessageEvents | gui.py:454-464 | a message is shown exactly when its chat passes, messages are on and, for an outgoing one, own messages are on; tagged my_message or message by direction |
| Gui.RoutedEvents | gui.py:465-484 | deleted, edited, reaction, chat_event, status and media events are shown exactly when the chat passes and their flag is on, each with its tag |
| Gui.UnroutedEvents | gui.py:489-490 | any other event type is shown as info unless its chat is hidden |
| Gui.SupergroupFlagIgnored | gui.py:447-451 | the supergroup flag takes part in no decision |
| Gui.UnfilteredKindsPass | gui.py:447-451 | an empty chat kind, or one without a flag such as unknown, never hides an event |
| Gui.EventOf | monitor.py:193-198 | the window sees the monitor's category name and chat kind name |
| Gui.NotificationShown | gui.py:440-493 | a monitor notification is hidden by its chat kind exactly when that kind's flag is off; when shown, its tag follows its category and, for new messages, its direction |
| Gui.SplitLines | gui.py:932 | `split('\n')`: at least one piece, none holding a newline |
| Gui.JoinSplitLines | gui.py:932 | joining the pieces with newlines gives the text back |
| Gui.Tagged | gui.py:434 | each inserted line carries the entry's tag |
| Gui.LogEntry | gui.py:426-434 | at least one line, each under the whitelisted tag |
| Gui.LogEntryText | gui.py:426-434 | the entry's lines, joined with newlines, spell `[<stamp>] <message>` |
| Gui.AppendLog | gui.py:424-438 | below the cap the entry is appended; at the cap the first 199 lines go |
| Gui.LogStaysBelowCap | gui.py:437-438 | a pane below the cap stays below it while entries are single lines, and the entry is the last line |
| Gui.LastLogLine | gui.py:426-434 | a single-line entry becomes the pane's last line |
| Gui.ContentLines | gui.py:931-932 | the pane's text split at newlines: its lines, then two empty strings |
| Gui.CountMatches | gui.py:933 | never more matches than lines |
| Gui.CountMatchesZeroIff | gui.py:933-935 | no match is counted exactly when no line contains the needle, ignoring case |
| Gui.SearchReplyMessages | gui.py:935-943 | when some line matches, `Найдено совпадений: <count>` with a count of at least one; when none does, `Совпадений не найдено: '<needle>'`; both tagged info |
| Gui.SearchFindsItsEcho | gui.py:929-943 | when the command was typed as `search <needle>`, its echo is logged first, so the search finds at least that line |
| Gui.Pushed | gui.py:750-753 | the command becomes the last entry; a repeat of the last entry changes nothing; otherwise it is appended, dropping the oldest past 50; no two neighbours are equal and the cap holds |
| Gui.Dispatch | gui.py:770-812 | an unknown word is reported as typed; filter, search and spamtg receive the remaining words |
| Gui.KnownWords | gui.py:770-812 | a word is unknown exactly when it is not one of the fifteen command words |
| Gui.Aliases | gui.py:770-787 | `?`/help, cls/clear, stat/stats, pause/stop and resume/start dispatch identically |
| Gui.ParseCommand | gui.py:763-768 | no command exactly when the line has no words; otherwise the lower-cased first word names the command and the remaining words are its arguments |
| Gui.CommandWordIgnoresCase | gui.py:767 | lower-casing the first word again changes nothing |
| Gui.NonBlankHasWords | gui.py:763-765 | a line that is not only white space has a first word, so the second emptiness test never fires |
| Gui.FilterCommandEffect | gui.py:881-905 | with fewer than two arguments, an action other than on/off or an unknown key nothing changes; all sets every flag; a known key sets exactly that flag; the set of flags never changes |
| Gui.FilterReplies | gui.py:881-905 | the reply is an error exactly when there are too few arguments, the action is not on/off, or the key is neither all nor a flag |
| Gui.MonitoringAfter | gui.py:778-791 | stop leaves monitoring off; start turns it on exactly when it was on or a monitor exists; other commands leave it |
| Gui.SubmissionOf | gui.py:743-768 | a blank line is ignored; any other line raises exactly when the history was never initialised; otherwise it runs the command `ParseCommand` gives for the stripped line |
| Gui.AsWrittenNoCommandRuns | gui.py:746-750 | as written, no console line runs a command, and `help` raises |
| Gui.InitialisedNonBlankRuns | gui.py:743-768 | with the history initialised, every non-blank line runs the command its first word names |
| Gui.MonitorWindow.constructor | gui.py:21-59 | all filters on, an empty pane, an empty history at index 0, and the chosen `historyInitialised` |
| Gui.MonitorWindow.Log | gui.py:424-438 | the pane becomes `AppendLog` of the old pane |
| Gui.MonitorWindow.LogReplies | gui.py:424-438 | several `_log` calls in a row |
| Gui.MonitorWindow.OnEvent | gui.py:440-493 | shown exactly when `EventTag` gives a tag, and then the display text is logged under it; a hidden event leaves the pane untouched |
| Gui.MonitorWindow.PushHistory | gui.py:750-754 | the history becomes `Pushed`, stays valid, and the index is reset to its length |
| Gui.MonitorWindow.HistoryUp | gui.py:816-822 | raises and changes nothing while the history was never initialised; otherwise one entry back when the index is above 0, shown in the entry field; otherwise nothing changes; `0 <= index <= len` holds |
| Gui.MonitorWindow.HistoryDown | gui.py:824-834 | raises and changes nothing while the history was never initialised; otherwise one entry forward while below the last; otherwise the index goes to the length and the field is cleared; with an empty history nothing changes |
| Gui.MonitorWindow.SetAllFilters | gui.py:897-899 | every flag set to the value, no flag added or removed |
| Gui.MonitorWindow.HandleFilterCommand | gui.py:881-905 | the filters become `FilterUpdate` and the pane receives `FilterReplies` |
| Gui.MonitorWindow.RunCommand | gui.py:770-812 | clear empties the pane and logs one line; stop, start, search, filter and unknown commands log their replies; only stop and start change the monitoring flag; only filter changes the filters |
| Gui.MonitorWindow.Submit | gui.py:750-760 | history pushed, index reset, entry field cleared, command echoed as `> <command>` |
| Gui.MonitorWindow.ExecuteCommand | gui.py:743-814 | the outcome is `SubmissionOf` the entry field's text. A blank line, or any line while the history was never initialised, changes nothing. Otherwise the stripped line enters the history, the field is cleared, the line is echoed, and the command its first word names runs, with its effect on the pane, the filters and the monitoring flag |
| Configuration.ParseApiId | config.py:28-29 | a digit string becomes its value, anything else (the empty string included) becomes `""` |
| Configuration.ParseApiIdOfDecimal | config.py:29 | the decimal text of a natural number parses back to it |
| Configuration.EnvText | config.py:28-31 | `os.getenv(key) or ""` |
| Configuration.NormaliseId | config.py:62-63 | a string api_id goes through the digit rule; any other value is kept |
| Configuration.Loaded | config.py:59-63 | the api_id, hash and phone come from the file when present and are kept otherwise; the api_id is passed through `NormaliseId` either way, so it is never a non-empty string |
| Configuration.Saved | config.py:70-74 | exactly the keys api_id, api_hash and phone, with the api_id written as its `str` |
| Configuration.SaveLoadRoundTrip | config.py:59-74 | a save followed by a load restores the three settings exactly when the api_id is a non-negative number or `""`, whatever was loaded before |
| Configuration.LoadedIdIsNumericOrFalsy | config.py:62-91 | after a load a truthy api_id always converts with `int()` |
| Configuration.ErrorsDistinct | config.py:84-91 | the three error messages differ |
| Configuration.ErrorListFacts | config.py:82-92 | each of the three errors is listed exactly when its check fails, only those three appear, and they keep the order of the checks |
| Configuration.Config.constructor | config.py:27-48 | api_id by the digit rule from API_ID, hash and phone from the environment or `""`, every monitoring switch on, and an api_id that survives a save |
| Configuration.Config.LoadFromFile | config.py:53-65 | no readable object means nothing changes; otherwise the three settings become `Loaded` of the old ones |
| Configuration.Config.SaveToFile | config.py:67-78 | the object written is `Saved` of the settings, and loading it back restores them exactly when the api_id survives a save |
| Configuration.Config.Validate | config.py:80-92 | "API ID не указан" exactly when the api_id is falsy; "API HASH не указан" exactly when the hash is falsy; "API ID должен быть числом" exactly when a truthy api_id does not convert; nothing else, in that order |

## Left out

- The login-request sender (`spamtg`, gui.py:800-810 and 945-1314): it sends network requests. The model parses the command to `LoginRequests` and runs nothing; the replies its dispatch branch logs (the count-must-be-a-number error at gui.py:807, and the usage line and example at gui.py:809-810) are not modelled either, so `Gui.CommandReplies` gives no reply for it.
- auth.py, logger.py and main.py: the login handshake is a thin layer over the network client, the logger is logging plumbing, and main.py is an entry point.
- Widgets, dialogs, threads, the asyncio event loop and the periodic statistics refresh of gui.py: they are presentation and scheduling, not logic.
- `_export_data` and the reading and writing of `config.json`: both are file I/O. The file's parsed contents are the parameter `data` of `Config.LoadFromFile`, and `Config.SaveToFile` returns the object instead of writing it.
- The `asyncio.Lock` of database.py:20 and the interleaving of handlers: the lock only serialises concurrent writes, and the model runs handlers one after another.
- Telethon's fetches, the download, `Path.stat` and the clock: these are parameters.
- `self.logger.log_message` and the other logger calls in the handlers: they only write logs.
- `_monitor_user_statuses`, the `get_me` greeting and handler registration in `start`: the first does nothing, and the greeting and registration do I/O. The registered handlers read the global `config.monitor_*` switches at each event; the model reads them as the `Monitor`'s constant fields, set by its constructor, so a switch changed while the monitor runs is not modelled.
- Monitoring.Monitor.Start: does not model that `start()` registers all six handlers again each time it runs while `stop()` removes none (monitor.py:39-52, 573-575). After the window's stop and start (gui.py:707-736, 781-790) every update is handled, stored, counted and shown once per `start()` call; the model's handlers describe a single registration.
- Monitoring.Monitor.HandleDeletedMessage, Monitoring.Monitor.HandleReactions: the program reads the clock once per record (monitor.py:321, 384); the model takes one `now` for the whole batch, so every record of a batch carries the same date.
- The pointless `get_messages` call inside the deletion loop: its result is unused and its failure is swallowed.
- Session, log and media directory creation in config.py: file-system set-up.
- The display text of a notification (icons, direction, sender name): only the 50-character preview rule is modelled, as `Monitoring.TextPreview`.
- The ordering of a message's media row before its message row in time: the two live in different tables. `Monitoring.Monitor.HandleMessage` states instead that a failure after the capture keeps the media row and stores no message.
- Gui.MonitorWindow.ExecuteCommand: does not model the output of help, stats, status and export, or the `except` that logs an exception raised by a command. The `Submission`, with the command that ran, is returned to the caller instead.
- Gui.MonitorWindow.RunCommand: stop does not call the monitor's `stop()`, and start does not call the monitor's `start()` or schedule the statistics refresh. Only the window's own flag is modelled; `Monitor.Start` and `Monitor.Stop` model the monitor side.
- Gui.SearchReply: does not model scrolling to, and setting the insert mark on, the first match.
- Storage.Database.constructor: models opening a fresh database file only. The program always opens the same file (config.py:17) with `CREATE TABLE IF NOT EXISTS` (database.py:26-32), so a later run starts with the earlier rows and the ids carry on from them; `Monitor` accepts such a store through its `base` counts.
- Storage.Database.GetRecentEvents: `ORDER BY date DESC LIMIT ?` (database.py:343-344) leaves the order of rows with equal dates, and which of them survive the limit, to SQLite. The model fixes one such order, the one `Storage.InsertByDate` produces; `Storage.RecentEventsSelectsNewest` states what holds for every order.
- Text.IsDigit, Text.LowerChar: ASCII only. Python's `isdigit` and `lower` also cover other Unicode characters (`Text.IsSpace` is Python's full white-space set). A Unicode digit such as `²` would pass `isdigit` and then make `int()` raise, and that case is not modelled.
- Configuration.IntConvertible: `int()` also accepts `_` between digits; this is not modelled.
- Configuration.Json: JSON numbers with a fraction, arrays and objects are not modelled as setting values.
- Gui.AppendLog: the pane is modelled as complete lines. Tk's line index of `end-1c` is one more than their number, so the cap fires at 2000 complete lines.

## Findings

| source | as written | input that shows it | evidently intended | confidence | as-written member | corrected member |
|---|---|---|---|---|---|---|
| gui.py:21-59 | `__init__` never assigns `command_history` or `command_history_index`, so reading them at gui.py:750, 818 and 826 raises AttributeError | any non-blank console line, e.g. `help`; or pressing Up in the console | `command_history = []` and `command_history_index = 0` in `__init__` | not executed | Gui.AsWrittenNoCommandRuns | Gui.InitialisedNonBlankRuns |
| database.py:149-172 | `insert_message` names 16 columns and 16 placeholders but binds 15 values, leaving out `is_deleted`; the driver rejects every statement and the except branch returns None | any message, e.g. a new incoming text message: 15 values for 16 placeholders | one value per column, with `is_deleted` bound between `is_edited` and `is_forwarded` | not executed | Storage.MessageParamsAsWritten, Storage.AsWrittenMessageBindingMismatch | Storage.MessageParams |
