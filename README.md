# Claude session monitor, modelled in Dafny

This project models the core of the Claude session monitor in Dafny 4 and proves properties of that model.

The monitor has four parts:
- **The daemon** polls `ccusage` for billing blocks and keeps the monitoring data file current. It also raises rate-limited macOS notifications.
- **Three hooks** run inside Claude Code. Each appends one JSON event per call to an activity log.
- **The daemon's tracker** reads that log back, merges its events into one activity session per project, and cleans up old and completed sessions.
- **A client display and a smart wrapper** render the data, or hand over to the original monitor.

Around them sit several supporting pieces:
- a project-name cache with aliases and two cleanup policies;
- a log compressor;
- a small file manager with backups;
- pure helpers for billing dates, progress bars and formatting.

There is one Dafny module per source file:

| module | source file |
|---|---|
| `Tracker`, `TrackerSpec` | `session_activity_tracker.py` |
| `Daemon` | `claude_daemon.py` |
| `NotificationTracker` | `notification_tracker.py` |
| `HookLogParser` | `hook_log_parser.py` |
| `DataModels` | `data_models.py` |
| `DataCollector` | `data_collector.py` |
| `MemoryManager` | `memory_manager.py` |
| `ProjectModels` | `project_models.py` |
| `ProjectNameResolver` | `project_name_resolver.py` |
| `GitResolver` | `git_resolver.py` |
| `Utils` | `utils.py` |
| `PerformanceMetrics` | `performance_metrics.py` |
| `HookLogCompressor` | `hook_log_compressor.py` |
| `CcusageExecutor` | `ccusage_executor.py` |
| `DisplayManager` | `display_manager.py` |
| `FileManagement` | `file_manager.py` |
| `HookUtils` | `hooks/hook_utils.py` |
| `StopHook` | `stop_hook.py` |
| `NotificationHook` | `notification_hook.py` |
| `ActivityHook` | `activity_hook.py` |
| `SmartMonitor` | `claude_monitor_smart.py` |

Small helper modules hold the pieces of Python the core relies on:
- `Wrappers` (Option);
- `Json` (decoded values, truthiness, `dict.get`);
- `Text` (`strip` over Python's full whitespace set, `lower`);
- `Decimal` (`str(n)`, zero padding, thousands separators);
- `Numbers` (`int()`, `round(x, 2)`);
- `Paths` (`basename`, `dirname`, `join`);
- `Timestamps`;
- `StableSort` (Python's stable `sorted`);
- `Files` (the filesystem).

Modelling conventions:

- **Time.**
  - An instant is an `int` count of microseconds since the epoch.
  - Every `datetime.now()` and `time.time()` becomes a `now` parameter.
  - `isoformat`/`fromisoformat` are an `IsoCodec` parameter. Where a round trip is claimed, the codec must satisfy `RoundTrips`. `Timestamps.DecimalCodec` shows that such a codec exists.
- **JSON.**
  - A decoded document is a `Json.Value`.
  - `json.dumps`/`json.loads` are a `Codec` parameter. `decode` gives `None` where `json.loads` raises.
- **Files.**
  - The filesystem is a `Files.FileSystem` object whose `files` map sends a path to its lines and an optional modification time. Methods that touch files name it in `modifies`.
  - Write failures, `os.listdir` results and similar facts are parameters.
- **Classes.** Objects whose methods update fields are Dafny classes: `SessionActivityTracker`, `ClaudeDaemon`, `Tracker`, `Collector`, `Manager`, `ProjectInfo`, `ProjectCache`, `Resolver`, `Metrics`, `Compressor`, `Executor`, `Display`, `FileManager`, `HookLogger`. Each method states its new state in terms of the old one: through a function of the old state, or through a two-state predicate such as `ClaudeDaemon.CycleDone`.
- **Outside world.** Git, `ccusage` and its strategies, the smart status rule (`calculate_smart_status`, which no source file defines; see Left out), the notifier, `os.path.exists` on project markers and `is_daemon_running` are function-valued parameters (oracles).
- **Undefined constants.** Some constants the code imports are not defined in `src/shared/constants.py`: the hook log limits, the cache limits, the retention hours and the aggressive-cleanup factor. They are parameters of the constructors or functions that use them.
- **Status.** The status set is the union the code uses: `ACTIVE`, `WAITING`, `WAITING_FOR_USER`, `IDLE`, `INACTIVE`, `STOPPED`. The validator accepts only the three that `data_models.py` lists.
- **Notification types.** `NotificationType.TIME_WARNING` and `INACTIVITY_ALERT` share the value `"normal"`, so they are one enum member. The rate limiter therefore keys on two urgencies.
- **The activity record.** `ActivitySessionData` as declared has no `project_name` field, although the parser and the tracker use one. The model gives the record that field, which is the evident intent. Findings shows that the code as written never yields a single activity session.
- **A missing collector method.** `claude_daemon.py` calls `update_max_tokens_if_higher`, but `data_collector.py` does not define it. The model follows the code as written: the first checked session raises and the rest of that cycle's alerts are skipped.

## Model

| member | source | states |
|---|---|---|
| DataModels.CheckSession | src/shared/data_models.py:75-105 | a session passes validation exactly when its token counts and cost are non-negative, input plus output tokens equal the total, its id is not blank and an end time, if any, is after the start |
| DataModels.SessionRoundTrip | src/shared/data_models.py:39-63 | `from_dict(to_dict(s))` gives back every session `s`, given a timestamp codec whose parse inverts its rendering |
| DataModels.CheckActivity | src/shared/data_models.py:153-168 | an activity record passes validation exactly when its id is not blank, its status is one of the schema's statuses and an end time, if any, is after the start |
| DataModels.ActivityRoundTrip | src/shared/data_models.py:119-141 | `from_dict(to_dict(a))` gives back every activity record `a` |
| DataModels.FirstSessionViolation | src/shared/data_models.py:243-245 | the loop over `current_sessions` raises for no session exactly when every session validates |
| DataModels.FirstActivityViolation | src/shared/data_models.py:247-250 | the loop over `activity_sessions` raises for no record exactly when every record validates |
| DataModels.CheckMonitoring | src/shared/data_models.py:227-252 | monitoring data validates exactly when its counters and cost are non-negative, the billing period starts before it ends, and every session and every activity record validates |
| DataModels.SessionsToList | src/shared/data_models.py:188 | `current_sessions` is written as one dictionary per session, in order |
| DataModels.ActivitiesToList | src/shared/data_models.py:196 | `activity_sessions` is written as one dictionary per record, in order |
| DataModels.SessionsListRoundTrip | src/shared/data_models.py:188-202 | the written session list reads back as the same sessions in the same order |
| DataModels.ActivitiesListRoundTrip | src/shared/data_models.py:196-203 | the written activity list reads back as the same records in the same order |
| DataModels.MonitoringEmptyActivities | src/shared/data_models.py:196 | `activity_sessions` is written as `[]` exactly when the data has no activity list or an empty one |
| DataModels.MonitoringDictFields | src/shared/data_models.py:185-197 | every key `from_dict` reads is present in `to_dict(m)` and reads back as the field it was written from |
| DataModels.MonitoringRoundTrip | src/shared/data_models.py:185-215 | `from_dict(to_dict(m))` gives back `m`, except that an empty activity list comes back as `None` (`activity_sessions if activity_sessions else None`) |
| DataModels.CheckConfig | src/shared/data_models.py:287-319 | a configuration validates exactly when all intervals, alert thresholds and the monthly session count are positive, the billing day is in 1..31 and the time zone is a non-blank name the zone database knows |
| DataModels.DefaultConfigValid | src/shared/data_models.py:256-266 | the dataclass defaults pass validation whenever "Europe/Warsaw" is a known zone |
| DataModels.ConfigRoundTrip | src/shared/data_models.py:268-275 | `from_dict(to_dict(c))` gives back `c`, an empty dictionary gives the defaults, and a dictionary with a key that is not a field is refused (`cls(**data)` raises) |
| DataModels.CheckErrorStatus | src/shared/data_models.py:368-385 | an error status validates exactly when its failure count is non-negative, an error carries a non-empty message, and no error carries neither message nor code |
| DataModels.ErrorStatusRoundTrip | src/shared/data_models.py:332-356 | `from_dict(to_dict(e))` gives back every error status `e` |
| HookLogParser.ParseLogLine | src/daemon/hook_log_parser.py:28-64 | a line is accepted exactly when it is not blank, decodes to an object holding the four required fields, and has non-blank string `session_id` and `event_type`; the accepted record is the decoded object itself |
| HookLogParser.RewriteZulu | src/daemon/hook_log_parser.py:149-150 | a trailing `Z` is replaced by `+00:00`, anything else is left alone, and the result never ends in `Z` |
| HookLogParser.ParseTimestampIso | src/daemon/hook_log_parser.py:134-163 | an empty timestamp gives `None`; otherwise the result is whatever `fromisoformat` makes of the rewritten string, because both `strptime` fallbacks need a trailing `Z` that the rewrite has removed |
| HookLogParser.CreateActivitySessionSpec | src/daemon/hook_log_parser.py:66-132 | with `project_name` a field of the record (see Findings): an event with an unparsable timestamp gives no session; otherwise the session carries the event's project, id and type, is STOPPED with end time `ts` and start `ts - 1` for a stop event and ACTIVE from `ts` with no end otherwise, and keeps the event's `data` object as metadata |
| HookLogParser.CreatedSessionsValid | src/daemon/hook_log_parser.py:66-132 | every session `create_activity_session` returns passes `ActivitySessionData.validate_schema` |
| HookLogParser.LineSessions | src/daemon/hook_log_parser.py:200-214 | one line yields at most one session, none when blank, and what it yields validates |
| HookLogParser.LogSessions | src/daemon/hook_log_parser.py:198-214 | a log yields at most one session per line |
| HookLogParser.LogSessionsValid | src/daemon/hook_log_parser.py:198-214 | every session parsed from a log validates, and there are no more of them than non-blank lines |
| HookLogParser.LogSessionsStep | src/daemon/hook_log_parser.py:198-214 | reading one more line appends exactly that line's sessions, in file order |
| HookLogParser.LineSessionsStripped | src/daemon/hook_log_parser.py:200-214 | a non-blank line contributes the session built from its stripped text when both parsing and creation succeed, and nothing otherwise |
| HookLogParser.ParseLogFile | src/daemon/hook_log_parser.py:165-221 | a missing log yields no sessions; an existing one yields the sessions of its lines in order |
| HookLogParser.AsWrittenCreatesNothing | src/daemon/hook_log_parser.py:108-127 | as written, the constructor call passes `project_name`, which the dataclass does not declare, so every event gives `None` |
| HookLogParser.AsWrittenLogIsEmpty | src/daemon/hook_log_parser.py:165-221 | as written, every log parses to no sessions, whatever its lines |
| HookLogParser.AsWrittenDropsValidLine | src/daemon/hook_log_parser.py:192-208 | a line the intended parser turns into one session gives none as written |
| Tracker.PathSet | src/daemon/session_activity_tracker.py:92 | the set of processed files gains exactly the files of the list |
| Tracker.FilesSessionsStep | src/daemon/session_activity_tracker.py:89-93 | processing one more log appends exactly that log's sessions (none for a missing file) and adds it to the processed set |
| Tracker.SessionActivityTracker.constructor | src/daemon/session_activity_tracker.py:29-55 | a new tracker has no sessions, no refresh time, no recorded file times, no processed files and zero statistics |
| Tracker.SessionActivityTracker.ActiveSessions | src/daemon/session_activity_tracker.py:57-65 | the result holds exactly the stored sessions whose status is ACTIVE |
| Tracker.SessionActivityTracker.SessionsByStatus | src/daemon/session_activity_tracker.py:304-314 | the result holds exactly the stored sessions with the given status |
| Tracker.SessionActivityTracker.RecentSessions | src/daemon/session_activity_tracker.py:316-330 | the result holds exactly the stored sessions started no earlier than `hours` hours before now, with 24 hours by default |
| Tracker.SessionActivityTracker.SessionsForPeriod | src/daemon/session_activity_tracker.py:115-135 | the loop returns `InPeriod`: exactly the sessions overlapping the period, an open session counting as running until now, in stored order |
| Tracker.SessionActivityTracker.SessionById | src/daemon/session_activity_tracker.py:137-149 | `None` exactly when no session has the id; otherwise the first session with that id |
| Tracker.SessionActivityTracker.SessionByProject | src/daemon/session_activity_tracker.py:151-163 | `None` exactly when no session has the project; otherwise the first session of that project |
| Tracker.SessionActivityTracker.MergeSessions | src/daemon/session_activity_tracker.py:199-248 | the grouping loops compute `Merge`: one session per project in first-seen order, each built from its sorted events |
| Tracker.SessionActivityTracker.IsCacheValid | src/daemon/session_activity_tracker.py:340-367 | the verdict and the recorded file times are those of `CacheCheck`: invalid before the first refresh, invalid at the first stale file (recording its newer time), valid otherwise |
| Tracker.SessionActivityTracker.ReparseLogs | src/daemon/session_activity_tracker.py:89-93 | every discovered log is parsed in order, its sessions appended, and each file marked processed |
| Tracker.SessionActivityTracker.UpdateFromLogFiles | src/daemon/session_activity_tracker.py:67-113 | on a valid cache without force only the hit counter moves; otherwise the miss counter moves, every log is re-parsed and marked processed, and the merged result with a new refresh time and updated statistics replaces the list only when some event was parsed or the update was forced; the result is `True` |
| Tracker.SessionActivityTracker.ClearCache | src/daemon/session_activity_tracker.py:332-338 | the processed set, file times and refresh time are cleared while the sessions and statistics are kept |
| Tracker.SessionActivityTracker.CleanupOldSessions | src/daemon/session_activity_tracker.py:369-390 | the stored sessions become those started within the given (or the default) retention period, in order |
| Tracker.SessionActivityTracker.CleanupCompletedBillingSessions | src/daemon/session_activity_tracker.py:392-443 | when some session started more than 5 hours ago the list keeps only the recent ones; when none is recent and the log exists it is emptied and the file times and refresh time are cleared; nothing else changes |
| Tracker.ValidCacheKeepsSessions | src/daemon/session_activity_tracker.py:340-367 | after a refresh, with no file newer than its recorded time, the cache is valid and no file time is recorded |
| Tracker.BillingCleanupKeepsRecent | src/daemon/session_activity_tracker.py:411-426 | with no session outside the window the list is already the recent list; with no recent session every session is old |
| Tracker.EmptyBillingCleanupKeeps | src/daemon/session_activity_tracker.py:406-419 | with no session stored, the billing clean-up leaves the sessions, the files, the file times and the refresh stamp as they were |
| Tracker.StartedBeforeAll | src/daemon/session_activity_tracker.py:411-424 | when no session is recent, the old sessions are all of them |
| TrackerSpec.GroupOf | src/daemon/session_activity_tracker.py:213-217 | a project's group is no longer than the event list |
| TrackerSpec.GroupOfMembers | src/daemon/session_activity_tracker.py:213-217 | a project's group holds exactly the events of that project |
| TrackerSpec.GroupOfStep | src/daemon/session_activity_tracker.py:213-217 | one more event extends its own project's group at the end and no other |
| TrackerSpec.GroupKeys | src/daemon/session_activity_tracker.py:213-221 | the dictionary keys are exactly the projects having an event, each once |
| TrackerSpec.EventEntries | src/daemon/session_activity_tracker.py:243 | the `events` metadata lists one entry per sorted event, in order |
| TrackerSpec.MergeGroupFacts | src/daemon/session_activity_tracker.py:221-246 | a merged session takes its id and start from the earliest event (the first among equal starts), its event type from the latest (the last among equal starts), its status from the smart-status rule, an end time only when INACTIVE, and counts the group's events |
| TrackerSpec.MergeKeys | src/daemon/session_activity_tracker.py:221-246 | one merged session per key |
| TrackerSpec.MergeKeysAt | src/daemon/session_activity_tracker.py:221-246 | the i-th merged session is the merge of the i-th key's group |
| TrackerSpec.GroupKeysStep | src/daemon/session_activity_tracker.py:213-217 | one more event adds its project as a new last key exactly when it was not yet a key |
| TrackerSpec.MergeKeysStep | src/daemon/session_activity_tracker.py:221-246 | merging one more key appends exactly that key's merged session |
| TrackerSpec.MergeOnePerProject | src/daemon/session_activity_tracker.py:199-248 | the merge holds one session per project that has an event, and no two for the same project |
| TrackerSpec.MergeCounts | src/daemon/session_activity_tracker.py:236-244 | each merged session counts its project's events and starts no later than any of them |
| TrackerSpec.MergeRecentStop | src/daemon/session_activity_tracker.py:227-236 | a project whose latest event is a stop at most 30 seconds old merges to WAITING_FOR_USER with no end time |
| TrackerSpec.MergeOldStop | src/daemon/session_activity_tracker.py:227-236 | a project whose only event is a stop an hour or more old merges to INACTIVE, ended at that stop |
| TrackerSpec.WithStatus | src/daemon/session_activity_tracker.py:313-314 | the result holds exactly the sessions with the status |
| TrackerSpec.StartedSince | src/daemon/session_activity_tracker.py:382-385 | keeping the recent sessions never adds one |
| TrackerSpec.StartedBefore | src/daemon/session_activity_tracker.py:416-419 | selecting the old sessions never adds one |
| TrackerSpec.CutoffMembers | src/daemon/session_activity_tracker.py:411-419 | the recent list holds exactly the sessions started at or after the cutoff, the old list exactly those started before it |
| TrackerSpec.CutoffPartition | src/daemon/session_activity_tracker.py:411-419 | the two lists together account for every session, and there is no old session exactly when the recent list is the whole list |
| TrackerSpec.StartedSinceAppend | src/daemon/session_activity_tracker.py:382-385 | filtering a concatenation gives the concatenation of the filtered parts, so the relative order is kept |
| TrackerSpec.InPeriod | src/daemon/session_activity_tracker.py:115-135 | the result holds exactly the sessions overlapping the period |
| TrackerSpec.Discover | src/daemon/session_activity_tracker.py:165-186 | the only log ever discovered is the hook log file, and only when it exists |
| TrackerSpec.CheckFiles | src/daemon/session_activity_tracker.py:349-365 | the scan is valid exactly when no file is stale; a valid scan records nothing, an invalid one records at most the newer time of one file |
| TrackerSpec.CacheCheck | src/daemon/session_activity_tracker.py:340-367 | the cache is valid exactly when it has been refreshed and no file is stale; before the first refresh nothing is recorded |
| TrackerSpec.RecordedFileFresh | src/daemon/session_activity_tracker.py:356-358 | once a file's newer time is recorded, that file is no longer stale |
| Daemon.ScanStep | src/daemon/claude_daemon.py:255-284 | checking one more session, while none has raised, appends exactly that session's notifications |
| Daemon.ScanStops | src/daemon/claude_daemon.py:255-284 | once a session raises inside the loop, the sessions after it add nothing |
| Daemon.TimeWarningRule | src/daemon/claude_daemon.py:265-270 | for an active session with an end time, a time warning is sent exactly when the minutes remaining, truncated toward zero, lie in `(0, time_remaining_alert_minutes]`, and it carries that number |
| Daemon.InactivityRule | src/daemon/claude_daemon.py:272-281 | with `s` whole minutes since the start, an inactivity alert for `s - 60` minutes is sent exactly when `s >= 60`, `s` is a multiple of the interval and at least six intervals, and the session does not raise |
| Daemon.SkippedSessions | src/daemon/claude_daemon.py:258-259 | an inactive session or one without an end time is skipped without any notification |
| Daemon.NoAlertsWithoutMaxTokens | src/daemon/claude_daemon.py:262-284 | when the collector has no `update_max_tokens_if_higher`, the first checked session raises and no alert is ever sent |
| Daemon.ClaudeDaemon.constructor | src/daemon/claude_daemon.py:37-71 | a new daemon is not running, has no stop signal, no worker, no last collection and no notifications, and owns a fresh, empty activity tracker |
| Daemon.ClaudeDaemon.Start | src/daemon/claude_daemon.py:120-140 | starting a running daemon changes nothing; otherwise it becomes running, clears the stop signal and starts one worker whose last collection time is 0 |
| Daemon.ClaudeDaemon.Stop | src/daemon/claude_daemon.py:142-154 | stopping a stopped daemon changes nothing; otherwise it is no longer running and the stop signal is set |
| Daemon.ClaudeDaemon.CheckSession | src/daemon/claude_daemon.py:257-281 | one loop turn emits exactly that session's notifications and raises exactly when its rule says so |
| Daemon.ClaudeDaemon.CheckNotificationConditions | src/daemon/claude_daemon.py:248-284 | the notifications sent are those of the sessions in order, up to the first that raises |
| Daemon.ClaudeDaemon.Publish | src/daemon/claude_daemon.py:216-236 | on a successful collection the data is written, then the billing cleanup runs, then the alerts are checked, in that order; the data-file write is recorded as the `WriteData` effect, and with an empty tracker no file in `fs` (the hook logs) changes |
| Daemon.ClaudeDaemon.ReportFailure | src/daemon/claude_daemon.py:238-246 | after a failed collection an error notification is sent exactly when more than five failures in a row have been counted |
| Daemon.ClaudeDaemon.CollectCycle | src/daemon/claude_daemon.py:203-246 | `CycleDone`: a successful collection resets the failure count, stamps the success, writes, cleans up and checks alerts; a failed one adds its failure count, touches neither tracker nor files, and notifies only past five failures in a row |
| Daemon.ClaudeDaemon.Tick | src/daemon/claude_daemon.py:172-201 | while a worker runs and no stop was signalled, a collection happens exactly when the fetch interval has elapsed since the last one; it then has the whole effect `CycleDone` states, and its time is recorded; the daemon's tracker stays empty and no file in `fs` (the hook logs) changes, while each successful cycle's rewrite of the monitoring data file is the `WriteData` effect of `CycleDone` |
| DataCollector.ReplaceZ | src/daemon/data_collector.py:125-128 | `replace('Z', '+00:00')` leaves no `Z` anywhere and does not change a string without one |
| DataCollector.ParseBlock | src/daemon/data_collector.py:114-150 | a block that is not skipped has all required keys and token counts that `+` can add; it is poisoned (kept, but a `sum` of the totals raises) exactly when a token count or the cost is not a number; a parsed block carries its integer counts and string id, total tokens equal input plus output, no end time when `end_time` is missing or falsy, and is active exactly when it has no end or ended under five minutes ago |
| DataCollector.Kept | src/daemon/data_collector.py:64-70 | the sessions kept are exactly those of the blocks that parse, one per such block, in block order |
| DataCollector.KeptAppend | src/daemon/data_collector.py:64-70 | blocks listed later contribute their sessions later |
| DataCollector.ParseBlocks | src/daemon/data_collector.py:61-75 | the collection fails exactly when some block is not an object (the handler's `block.get` raises) or is poisoned (a `sum` raises); otherwise the sessions are exactly those of the blocks that parse, in block order, and every one's tokens add up |
| DataCollector.MaxTokens | src/daemon/data_collector.py:86 | the maximum bounds every session's total tokens, is 0 for no sessions and is attained otherwise |
| DataCollector.CollectedTotals | src/daemon/data_collector.py:28-101 | a successful collection comes from exit code 0, counts its sessions, bounds their tokens by the maximum (0 when there are none) and is stamped with the current time; no block of the output was fatal, and the sessions are exactly those of the blocks that parse, in order |
| DataCollector.DoubleCountedFailures | src/daemon/data_collector.py:45-112 | a non-zero exit code or undecodable output adds 2 to the failure count (once in its branch, once in the generic handler); a timeout adds 1 |
| DataCollector.Collector.constructor | src/daemon/data_collector.py:21-26 | a new collector has no success time and no failures |
| DataCollector.Collector.CollectData | src/daemon/data_collector.py:28-112 | a successful collection returns the data, resets the failures and stamps the time; a failure raises (`None`), adds its count and keeps the last success |
| DataCollector.Collector.ErrorStatusNow | src/daemon/data_collector.py:185-201 | `None` exactly when nothing failed; otherwise an error status with the failure count and last success, no code, which passes validation |
| DataCollector.Collector.CollectDataWithRetry | src/daemon/data_collector.py:152-183 | at most `max_retries` attempts with waits of `2^i` seconds after each failed one; the result is the first success, or the last failure after all attempts; with `max_retries <= 0` nothing is attempted and `raise None` fails |
| DataCollector.Pow2 | src/daemon/data_collector.py:178 | the back-off is at least one second |
| NotificationTracker.DefaultCooldowns | src/daemon/notification_tracker.py:50-54 | the default table has one entry per distinct type: the two "normal" types, which are one enum value, wait 600 s (the later dict entry wins) and ERROR waits 180 s |
| NotificationTracker.Live | src/daemon/notification_tracker.py:123-142 | cleanup keeps exactly the entries whose age does not exceed their type's cooldown, unchanged |
| NotificationTracker.Recorded | src/daemon/notification_tracker.py:90-109 | recording a send stamps the key with the current time and counts one more send (1 for a new key), leaving every other key alone |
| NotificationTracker.CleanupKeepsBlocks | src/daemon/notification_tracker.py:123-142 | cleaning up before deciding never changes the decision: every blocking entry survives cleanup |
| NotificationTracker.RecordedBlocks | src/daemon/notification_tracker.py:78-107 | right after a send is recorded, the same notification is blocked exactly when its cooldown is positive |
| NotificationTracker.RecordedIsolated | src/daemon/notification_tracker.py:74-99 | rate limiting is per (type, message) key: recording one key never changes whether another is blocked |
| NotificationTracker.ForcedNotBlocked | src/daemon/notification_tracker.py:202-215 | once its key is removed, a notification is not blocked at any time |
| NotificationTracker.Clip | src/daemon/notification_tracker.py:240-252 | `message[:100]` is a prefix of at most 100 characters, the whole message when it is that short |
| NotificationTracker.StatusOf | src/daemon/notification_tracker.py:217-260 | the status reports the type's cooldown, a non-negative remaining time that is zero exactly when allowed, "allowed"/"blocked" to match, and for a known key its send count, time since the last send and `max(0, cooldown - elapsed)` |
| NotificationTracker.StatusAgreesWithBlocks | src/daemon/notification_tracker.py:217-260 | the status report says allowed exactly when `should_send_notification` would allow, whether or not cleanup ran first |
| NotificationTracker.Tracker.constructor | src/daemon/notification_tracker.py:26-57 | a new tracker has an empty history and the given table, or the default table when none or an empty one is given |
| NotificationTracker.Tracker.Cooldown | src/daemon/notification_tracker.py:111-121 | the cooldown is the table's entry for the type, else the default cooldown |
| NotificationTracker.Tracker.CleanupExpiredEntries | src/daemon/notification_tracker.py:123-142 | the two loops leave exactly the unexpired history |
| NotificationTracker.Tracker.ShouldSendNotification | src/daemon/notification_tracker.py:59-88 | the history is cleaned up and the answer is true exactly when no entry for the key is younger than its cooldown |
| NotificationTracker.Tracker.RecordNotificationSent | src/daemon/notification_tracker.py:90-109 | the history becomes `Recorded` of the old one |
| NotificationTracker.Tracker.ClearHistory | src/daemon/notification_tracker.py:183-188 | the history is emptied |
| NotificationTracker.Tracker.SetCooldownPeriod | src/daemon/notification_tracker.py:190-200 | only the given type's cooldown changes, to the given value |
| NotificationTracker.Tracker.ForceAllowNotification | src/daemon/notification_tracker.py:202-215 | only this key is removed from the history, after which it is not blocked |
| NotificationTracker.Tracker.Status | src/daemon/notification_tracker.py:217-260 | the reported `is_allowed` agrees with the rate-limiting decision on the current history |
| NotificationTracker.Tracker.SetDynamicCooldown | src/daemon/notification_tracker.py:262-277 | only the base cooldown is stored; the escalation factor and ceiling have no effect |
| MemoryManager.Stats | src/shared/memory_manager.py:138-152 | the statistics report the entry count, the limit, the free slots `max(0, limit - size)` and the excess `max(0, size - limit)` |
| MemoryManager.StatsBalance | src/shared/memory_manager.py:138-152 | free slots and excess are never both positive, their difference is the headroom, and there is excess exactly when cleanup is needed |
| MemoryManager.SortedSplit | src/shared/memory_manager.py:96-104 | in a list sorted by last access, every entry after a split point was used no earlier than every entry before it |
| MemoryManager.LruKeepSpec | src/shared/memory_manager.py:79-120 | LRU cleanup leaves a cache within the limit untouched; otherwise it keeps exactly `max_entries` of the cache's own entries, kept and evicted together are the original entries, nothing evicted was used later than anything kept, and project names stay distinct |
| MemoryManager.LruSelect | src/shared/memory_manager.py:89-107 | the data `cleanup_cache` returns is the LRU selection, and it evicts exactly when the cache is over its limit |
| MemoryManager.PartitionMembers | src/shared/memory_manager.py:229-237 | an entry is cleanable exactly when it was last used before the retention cutoff, protected otherwise |
| MemoryManager.Partition | src/shared/memory_manager.py:229-237 | cleanable and protected entries together are exactly the cache's entries |
| MemoryManager.LastN | src/shared/memory_manager.py:251 | `s[-k:]` for a positive `k` is the suffix of length `min(k, len(s))` |
| MemoryManager.LastNSplit | src/shared/memory_manager.py:251 | a sequence is its prefix followed by its last `k` items |
| MemoryManager.SmartTarget | src/shared/memory_manager.py:215-222 | the target size of `smart_cleanup` never exceeds the limit |
| MemoryManager.SmartEvicts | src/shared/memory_manager.py:239-254 | when `smart_cleanup` evicts, the sorted cleanable entries split into an evicted prefix and a kept suffix whose length makes protected plus kept equal the target |
| MemoryManager.SmartKeepBounds | src/shared/memory_manager.py:209-254 | `smart_cleanup` never evicts a protected entry, changes nothing when the cache is within its limit or the protected entries already fill the target, and otherwise keeps exactly the target number of entries |
| MemoryManager.SmartKeepPermutes | src/shared/memory_manager.py:229-254 | what `smart_cleanup` keeps and evicts are the cache's own entries, each exactly once |
| MemoryManager.SmartKeepRecency | src/shared/memory_manager.py:246-254 | nothing `smart_cleanup` evicts was used more recently than anything it keeps |
| MemoryManager.SmartKeepDistinct | src/shared/memory_manager.py:254 | the kept entries still have distinct project names |
| MemoryManager.Split | src/shared/memory_manager.py:229-237 | the partitioning loop produces exactly the cleanable and protected entries, in cache order |
| MemoryManager.SmartSelect | src/shared/memory_manager.py:209-254 | the data `smart_cleanup` returns is the smart selection, and it saves exactly when that selection differs from the loaded cache |
| MemoryManager.Manager.constructor | src/shared/memory_manager.py:27-38 | the manager holds the given cache and limit and notes the creation time as the last cleanup |
| MemoryManager.Manager.CacheSize | src/shared/memory_manager.py:40-48 | the size is the number of entries the cache loads |
| MemoryManager.Manager.NeedsCleanup | src/shared/memory_manager.py:59-66 | cleanup is needed exactly when the size exceeds the limit, that is when the statistics show excess entries |
| MemoryManager.Manager.MemoryStatsNow | src/shared/memory_manager.py:138-152 | the statistics are those of the current size and limit |
| MemoryManager.Manager.CleanupCache | src/shared/memory_manager.py:79-120 | the LRU selection is returned; within the limit the cache file and cleanup time are untouched, otherwise the selection is saved and the time noted |
| MemoryManager.Manager.SmartCleanup | src/shared/memory_manager.py:200-265 | the smart selection at `now - retention hours` is returned and saved exactly when it changed the cache |
| ProjectModels.WithAlias | src/shared/project_models.py:31-39 | adding an alias keeps the root and name, keeps the old aliases as a prefix, and the aliases become the old ones plus the path |
| ProjectModels.WithAliasDistinct | src/shared/project_models.py:37-38 | adding aliases never creates a duplicate alias |
| ProjectModels.WithAliasTouches | src/shared/project_models.py:37-39 | the access time moves to now exactly when the alias is new, a known alias changes nothing, and adding the same alias twice is adding it once |
| ProjectModels.ProjectInfo.constructor | src/shared/project_models.py:20-29 | a new project is named after its root's basename, has no aliases and was accessed now |
| ProjectModels.ProjectInfo.FromRecord | src/shared/project_models.py:66-71 | the object `load` rebuilds holds exactly the stored root, name, aliases and time |
| ProjectModels.ProjectInfo.AddAlias | src/shared/project_models.py:31-39 | the object changes as `WithAlias` says |
| ProjectModels.Lookup | src/shared/project_models.py:144-145 | a dict lookup misses exactly when no key equals the name, and a hit is an entry of the dict |
| ProjectModels.IndexOf | src/shared/project_models.py:144-145 | the index is that of the first entry with the name, or the length when there is none |
| ProjectModels.Put | src/shared/project_models.py:71-107 | dict assignment keeps an existing key in its place and appends a new one; every other entry is kept |
| ProjectModels.PutLookup | src/shared/project_models.py:71-107 | after assignment the keys stay distinct, the name maps to the new value and every other key keeps its value |
| ProjectModels.LookupDistinct | src/shared/project_models.py:144-145 | with distinct keys a lookup finds the one entry of that name |
| ProjectModels.DistinctNamesSub | src/shared/project_models.py:83-89 | any selection of a dict's entries keeps the keys distinct |
| ProjectModels.FindByAlias | src/shared/project_models.py:121-134 | `find_project_by_alias` answers `None` exactly when no project lists the path, and otherwise the first project in dict order that lists it |
| ProjectModels.DecodeEncodeStrings | src/shared/project_models.py:67-87 | a list of strings written to JSON reads back unchanged |
| ProjectModels.DecodeRecord | src/shared/project_models.py:66-71 | a rebuilt project has the stored `git_root` and is named after its basename |
| ProjectModels.EncodeRecordFields | src/shared/project_models.py:85-89 | `save` writes `git_root`, `aliases` and `last_accessed` as ISO text |
| ProjectModels.DecodeEncodeRecord | src/shared/project_models.py:66-89 | a well-formed project written by `save` is rebuilt unchanged by `load` |
| ProjectModels.EncodeAll | src/shared/project_models.py:83-89 | `save` writes one member per project, in dict order, under the project's name |
| ProjectModels.DecodeAll | src/shared/project_models.py:64-72 | whatever `load` builds has distinct names and well-formed projects |
| ProjectModels.DecodeAllStops | src/shared/project_models.py:62-74 | once one member cannot be rebuilt the whole load gives up |
| ProjectModels.Loaded | src/shared/project_models.py:53-74 | a load, including the empty one after a missing file or a decoding error, has distinct names and well-formed projects |
| ProjectModels.DecodeEncodeAll | src/shared/project_models.py:64-89 | rebuilding what `save` wrote gives the same projects, in the same order, field for field |
| ProjectModels.SaveLoadRoundTrip | src/shared/project_models.py:53-119 | loading the file that `save` wrote gives back the saved dict |
| ProjectModels.ProjectCache.constructor | src/shared/project_models.py:45-51 | the cache is bound to its file |
| ProjectModels.ProjectCache.Load | src/shared/project_models.py:53-74 | `load` returns the decoding of the current file |
| ProjectModels.ProjectCache.Save | src/shared/project_models.py:76-119 | after `save` the file holds the encoding of the given dict |
| ProjectModels.ProjectCache.FindProjectByAlias | src/shared/project_models.py:121-134 | the answer is `FindByAlias` on the loaded data |
| ProjectModels.ProjectCache.AddAlias | src/shared/project_models.py:136-146 | an unknown project leaves the file untouched; otherwise the file holds the loaded data with that project aliased |
| ProjectNameResolver.FirstRoot | src/shared/project_name_resolver.py:84-86 | the index is that of the first project rooted at the path, or the length when there is none |
| ProjectNameResolver.CacheLookup | src/shared/project_name_resolver.py:69-89 | the lookup misses exactly when no project has the path as root or alias, and a hit names a project that has it |
| ProjectNameResolver.ScanRoots | src/shared/project_name_resolver.py:84-86 | the scan stops at the first project rooted at the path |
| ProjectNameResolver.RootBeforeAlias | src/shared/project_name_resolver.py:84-89 | a root match answers before any alias match, wherever the alias stands |
| ProjectNameResolver.AliasWhenNoRoot | src/shared/project_name_resolver.py:88-89 | without a root match the first project listing the path as an alias answers |
| ProjectNameResolver.UpdatedEntry | src/shared/project_name_resolver.py:91-114 | after an update the project is present, created from this root if new and with its old root otherwise; the directory is an alias exactly when it differs from the root or already was; no other project changes |
| ProjectNameResolver.UpdatedOthers | src/shared/project_name_resolver.py:103-114 | every other project keeps its place and its entry |
| ProjectNameResolver.UpdatedWellFormed | src/shared/project_name_resolver.py:105-111 | updating keeps every project named after the basename of its root |
| ProjectNameResolver.Resolve | src/shared/project_name_resolver.py:34-67 | an empty path resolves to "unknown" and saves nothing; a save happens only on a cache miss and contains the answered project; an empty answer comes only from a path ending in '/' |
| ProjectNameResolver.HitIgnoresGit | src/shared/project_name_resolver.py:54-57 | a cache hit answers the cached name, saves nothing, and does not depend on git |
| ProjectNameResolver.MissWithRoot | src/shared/project_name_resolver.py:59-64 | a miss with a git root answers the root's project name and saves the updated cache |
| ProjectNameResolver.MissWithoutRoot | src/shared/project_name_resolver.py:66-67 | a miss without a git root answers the directory's basename and saves nothing |
| ProjectNameResolver.OnlyEntryMentions | src/shared/project_name_resolver.py:91-114 | when the cache knew nothing of a directory, after the update only the resolved project's entry mentions it |
| ProjectNameResolver.ResolveStable | src/shared/project_name_resolver.py:34-114 | a directory first resolved through git resolves to the same name against the cache that was saved |
| ProjectNameResolver.Resolver.constructor | src/shared/project_name_resolver.py:24-32 | the resolver holds its cache and git oracle |
| ProjectNameResolver.Resolver.LookupInCache | src/shared/project_name_resolver.py:69-89 | the answer is `CacheLookup` on the loaded data |
| ProjectNameResolver.Resolver.UpdateCache | src/shared/project_name_resolver.py:91-114 | the file holds the loaded data after `Updated` |
| ProjectNameResolver.Resolver.ResolveProjectName | src/shared/project_name_resolver.py:34-67 | the name is that of `Resolve`, and the file is rewritten exactly when `Resolve` saves |
| GitResolver.ProjectNameFromGitRoot | src/shared/git_resolver.py:59-90 | the name is never empty: "unknown" for an empty root, "root" for slashes only, else the basename after trailing slashes are stripped |
| GitResolver.TrailingSlashInsensitive | src/shared/git_resolver.py:78-84 | a trailing slash does not change the name |
| GitResolver.LastComponent | src/shared/git_resolver.py:69-84 | a root ending in a slash-free component is named after that component |
| Utils.MakeDate | src/shared/utils.py:39-73 | building a date succeeds exactly for a valid calendar date, and gives that date |
| Utils.LastOfPreviousMonth | src/shared/utils.py:39-41 | stepping back from the first of the month gives the last day of the previous month, strictly earlier, and fails only in January of year 1 |
| Utils.PeriodStartSpec | src/shared/utils.py:24-44 | on or after the billing day the period began this month on that day; before it, last month on that day or that month's last day; the start is a valid date no later than the reference |
| Utils.NextRenewalSpec | src/shared/utils.py:47-73 | the renewal is the billing day of next month (January of next year after December) once this month's billing day is reached, else of this month; it falls on the billing day and strictly after the reference |
| Utils.BillingPeriodBrackets | src/shared/utils.py:24-73 | with a billing day every month has, the period start and the next renewal both exist and bracket the reference day |
| Utils.Filled | src/shared/utils.py:86-88 | the number of filled cells never exceeds the width |
| Utils.ProgressBarLayout | src/shared/utils.py:76-90 | the bar is `width` cells between brackets, the filled cells (the clamped percentage's share of the width, rounded down) first, then the empty ones |
| Utils.ProgressBarClamps | src/shared/utils.py:86 | percentages below 0 or above 100 draw like 0 or 100 |
| Utils.ProgressBarEmpty | src/shared/utils.py:76-90 | at 0% every cell is empty |
| Utils.ProgressBarFull | src/shared/utils.py:76-90 | at 100% every cell is filled |
| Utils.FormatTimedeltaSpec | src/shared/utils.py:93-111 | a negative duration reads "0h 00m"; otherwise the text gives the whole hours and the whole minutes left over, as two digits that read back as the minutes |
| Utils.ZeroPadMinutes | src/shared/utils.py:111 | `{minutes:02d}` for a minute count below 60 is two digits that read back as that count |
| Utils.SlicePrefix | src/shared/utils.py:298 | `s[:k]` follows Python's slice bounds, counting a negative bound from the end |
| Utils.TruncateStringFits | src/shared/utils.py:284-299 | a text within the limit is returned as is; a longer one, with a limit at least the suffix's length, is cut to exactly the limit and ends with the suffix |
| Utils.TruncateStringOverlong | src/shared/utils.py:296-299 | with a limit shorter than the suffix the result is longer than the text (see Findings) |
| Utils.TruncateClampedBound | src/shared/utils.py:284-299 | the corrected truncation is never longer than the text or the limit, is exactly the limit when it cuts, and agrees with the original whenever the limit fits the suffix |
| Utils.SafeDivideSpec | src/shared/utils.py:351-365 | division by zero gives the default; any other quotient multiplied by the denominator gives the numerator back |
| Utils.Percentage | src/shared/utils.py:368-383 | the percentage always lies in [0, 100] |
| Utils.PercentageSpec | src/shared/utils.py:368-383 | no positive total gives 0; a part within the total gives its exact share; a part past the total gives 100 and a non-positive part 0 |
| Utils.TimingBucketOrder | src/shared/utils.py:430-453 | the suggestion list depends on the quarter of the hour (minute 0 to 15, 16 to 30, 31 to 45, the rest) and later minutes never pick a more hopeful list |
| DisplayManager.DisplayProgressBarAgrees | src/client/display_manager.py:67-80 | within [0, 100] the display's bar is the shared bar |
| DisplayManager.DisplayProgressBarOverflows | src/client/display_manager.py:67-80 | the display's bar does not clamp: at 200% it has twice the width in filled cells, where the shared bar keeps its width |
| DisplayManager.DisplayFormatTimedeltaAgrees | src/client/display_manager.py:82-95 | on non-negative durations the display's rendering is the shared one; a negative one keeps its sign ("-1h 30m" for half an hour overdue) where the shared one reads "0h 00m" |
| DisplayManager.TokenUsagePercentageSpec | src/client/display_manager.py:105-118 | no limit gives 0; otherwise the exact share, which passes 100 once the limit is exceeded |
| DisplayManager.TimeProgressPercentage | src/client/display_manager.py:120-140 | time progress always lies in [0, 100] |
| DisplayManager.TimeProgressPercentageSpec | src/client/display_manager.py:120-140 | an empty or inverted session is complete; otherwise progress is 0 up to the start, 100 from the end, and the elapsed share in between |
| DisplayManager.FindActive | src/client/display_manager.py:142-155 | the answer is `None` exactly when no session is active, and otherwise the first active one |
| DisplayManager.SessionStatsSpec | src/client/display_manager.py:157-184 | used and left sessions add up to the allowance, and the remaining days share the sessions left evenly (all of them when no day remains) |
| DisplayManager.DropInactive | src/client/display_manager.py:315-316 | the filter keeps only sessions that are not inactive |
| DisplayManager.DropInactiveMembers | src/client/display_manager.py:315-316 | exactly the sessions that are not inactive survive the filter |
| DisplayManager.FilterActivitySessionsSpec | src/client/display_manager.py:302-322 | exactly `min(max_sessions_displayed, eligible)` sessions are shown, newest first, a sub-multiset of the eligible ones and all of them when they fit; the eligible sessions are all the given ones when inactive ones are shown, otherwise none shown is inactive; every eligible session left out started no later than every one shown |
| DisplayManager.SessionIdDisplaySpec | src/client/display_manager.py:337-338 | an id within the limit is shown whole; a longer one is cut to the limit and followed by "..." |
| DisplayManager.StatusIconSpec | src/client/display_manager.py:48-54 | the five configured statuses have their own icons and every other status, "WAITING" included, gets the fallback |
| DisplayManager.Display.constructor | src/client/display_manager.py:33-65 | the display stores the monthly allowance, shows up to ten sessions including inactive ones, and has not cleared the screen |
| DisplayManager.Display.BeginRender | src/client/display_manager.py:373-378 | the first render clears the screen and every later one moves the cursor to the top |
| DisplayManager.Display.RenderFullDisplay | src/client/display_manager.py:366-419 | the frame clears or moves as `BeginRender` says, and shows the first active session, the whole days left, the statistics over the period's whole days, and the filtered activity sessions |
| DisplayManager.Display.RenderDaemonOfflineDisplay | src/client/display_manager.py:457-466 | the offline screen clears or moves as `BeginRender` says |
| FileManagement.ReadFrom | src/shared/file_manager.py:83-100 | a missing or undecodable file reads as `{}`, and a decodable object reads as its members |
| FileManagement.WriteThenRead | src/shared/file_manager.py:33-100 | after a successful write the document reads back as the data written, whatever happened to the iCloud copy |
| FileManagement.BackedUpCopies | src/shared/file_manager.py:174-195 | a backup puts a copy of the document at its path plus the suffix and leaves the document as it was |
| FileManagement.Candidates | src/shared/file_manager.py:209-213 | every backup found is a listed file of the document's name ending in ".bak", with its real modification time |
| FileManagement.DropPrefix | src/shared/file_manager.py:219 | `s[k:]` for a non-negative `k` drops the first `k` items, or all of them |
| FileManagement.PathsOf | src/shared/file_manager.py:219-221 | the paths deleted are exactly those of the doomed backups |
| FileManagement.DoomedCount | src/shared/file_manager.py:216-219 | pruning deletes the surplus over `max_backups`, no more and no fewer |
| FileManagement.DoomedOldest | src/shared/file_manager.py:216-219 | pruning deletes only backups it found, and never one newer than a backup it keeps |
| FileManagement.PrunedKeepsOthers | src/shared/file_manager.py:197-227 | pruning never touches a file that is not a listed backup, and an abandoned clean-up touches nothing |
| FileManagement.CandidatesAbandoned | src/shared/file_manager.py:204-227 | one unreadable modification time abandons the whole clean-up, however long the listing |
| FileManagement.MergeDefaults | src/shared/file_manager.py:263-265 | the merged configuration has the stored keys and the defaults' keys, stored values winning |
| FileManagement.FileManager.constructor | src/shared/file_manager.py:18-31 | the manager holds the document path and the optional iCloud path |
| FileManagement.FileManager.SyncToIcloud | src/shared/file_manager.py:102-154 | the copy succeeds exactly when an iCloud path is configured and the copy does not fail, and then holds the data; otherwise nothing changes |
| FileManagement.FileManager.WriteData | src/shared/file_manager.py:33-81 | the result is true exactly when the document was written; the files change as `Written` says, the iCloud copy never affecting the result |
| FileManagement.FileManager.BackupFile | src/shared/file_manager.py:174-195 | the result is true exactly when the document exists and the copy succeeds |
| FileManagement.FileManager.CleanupOldBackups | src/shared/file_manager.py:197-227 | the files become `Pruned` of the old ones over the document's directory listing |
| FileManagement.FileManager.FindBackups | src/shared/file_manager.py:209-213 | the first loop finds exactly `Candidates` of the listing |
| FileManagement.FileManager.DeleteAll | src/shared/file_manager.py:219-224 | the second loop removes exactly the doomed paths, a missing one skipped |
| FileManagement.FileManager.LoadConfigWithDefaults | src/shared/file_manager.py:250-267 | the configuration is the stored data plus every default key the file lacks |
| FileManagement.FileManager.SaveConfig | src/shared/file_manager.py:269-289 | the result is whether the write succeeded; the backup is always attempted, and old backups are pruned to five only after a successful write |
| FileManagement.FileManager.WriteMonitoringData | src/shared/file_manager.py:312-328 | the data gains `last_file_update` as the ISO text of now, every other key kept, and is written as `WriteData` does |
| HookLogCompressor.EntriesAppend | src/shared/hook_log_compressor.py:143-154 | reading a log split in two reads the first part and then the second: entry order is the file's |
| HookLogCompressor.EntriesFromLines | src/shared/hook_log_compressor.py:143-154 | every entry read comes from a non-blank line that decodes to it |
| HookLogCompressor.Encoded | src/shared/hook_log_compressor.py:170-173 | the log is written as one compact JSON document per entry, in order |
| HookLogCompressor.CompactRoundTrip | src/shared/hook_log_compressor.py:145-173 | a faithful codec whose compact output has no line breaks and no surrounding blanks reads every written line back |
| HookLogCompressor.CompactLine | src/shared/hook_log_compressor.py:145-173 | one written line reads back as exactly its entry |
| HookLogCompressor.ReadBackWritten | src/shared/hook_log_compressor.py:131-176 | entries written by the compressor are read back unchanged and in order |
| HookLogCompressor.RecentSlice | src/shared/hook_log_compressor.py:68 | `entries[-k:]` for a positive `k` is the last `k` entries, or all of them |
| HookLogCompressor.KeptRecentUntouched | src/shared/hook_log_compressor.py:49-80 | a missing log, or one holding at most `k` entries, is left alone, and no file other than the log ever changes |
| HookLogCompressor.KeptRecentWrites | src/shared/hook_log_compressor.py:61-71 | a log holding more than `k` entries is rewritten with the lines of its last `k` entries |
| HookLogCompressor.KeptRecentReadBack | src/shared/hook_log_compressor.py:131-176 | the rewritten log reads back as exactly the last `k` entries of the old one, in order |
| HookLogCompressor.KeptRecentZero | src/shared/hook_log_compressor.py:63-71 | with a limit of zero, `entries[-0:]` keeps every entry and the log is rewritten with all of them |
| HookLogCompressor.DecodeLines | src/shared/hook_log_compressor.py:143-154 | the reading loop skips blank lines and lines that do not decode, keeping the rest in order |
| HookLogCompressor.Compressor.constructor | src/shared/hook_log_compressor.py:25-31 | the compressor holds the log path, limit, threshold and codec |
| HookLogCompressor.Compressor.CountLogEntries | src/shared/hook_log_compressor.py:109-129 | the count is the number of non-blank lines, 0 for a missing log |
| HookLogCompressor.Compressor.ShouldCompress | src/shared/hook_log_compressor.py:33-47 | compression is due exactly when the log exists and has at least the threshold of non-blank lines |
| HookLogCompressor.Compressor.ReadLogEntries | src/shared/hook_log_compressor.py:131-158 | the entries are the decoded non-blank lines in file order, none for a missing log |
| HookLogCompressor.Compressor.WriteLogEntries | src/shared/hook_log_compressor.py:160-176 | the log alone is replaced by one line per entry |
| HookLogCompressor.Compressor.KeepRecent | src/shared/hook_log_compressor.py:61-71 | the files become `KeptRecent` of the old ones |
| HookLogCompressor.Compressor.CompressLogFile | src/shared/hook_log_compressor.py:49-80 | keeps the last `MAX_HOOK_LOG_ENTRIES` entries when there are more; it succeeds because a modelled write cannot fail (see Left out) |
| HookLogCompressor.Compressor.ForceCompressToSize | src/shared/hook_log_compressor.py:178-211 | a target below one is refused and changes nothing; otherwise the last `target` entries are kept |
| HookLogCompressor.Compressor.ClearLogFile | src/shared/hook_log_compressor.py:213-227 | an existing log is emptied, a missing one is not created, and the call succeeds |
| PerformanceMetrics.AutoLogFrequency | src/shared/performance_metrics.py:112-116 | over `n` operations from zero the automatic log fires `n / interval` times, once every `interval` operations |
| PerformanceMetrics.Metrics.constructor | src/shared/performance_metrics.py:22-35 | a fresh tracker has counted nothing, logs every 100 operations and has a hit ratio of 0 |
| PerformanceMetrics.Metrics.HitRatio | src/shared/performance_metrics.py:59-69 | the ratio lies in [0, 1], is 0 before any operation, is within half a hundredth of hits over operations, and is 1 when nothing missed |
| PerformanceMetrics.Metrics.RecordCacheHit | src/shared/performance_metrics.py:37-40 | one more hit and one more operation; the result says whether the automatic log fires |
| PerformanceMetrics.Metrics.RecordCacheMiss | src/shared/performance_metrics.py:42-45 | one more miss and one more operation; the result says whether the automatic log fires |
| PerformanceMetrics.Metrics.CheckAutoLog | src/shared/performance_metrics.py:112-116 | the log is due exactly when the operation count is positive and a multiple of the interval |
| PerformanceMetrics.Metrics.Reset | src/shared/performance_metrics.py:71-76 | counters and clocks start over, the interval stays, and the ratio is 0 |
| PerformanceMetrics.Metrics.SetLogInterval | src/shared/performance_metrics.py:142-149 | the interval becomes the given one, never below one |
| CcusageExecutor.Command | src/daemon/ccusage_executor.py:62-124 | the argument vector is the program, then `blocks -j`, then `-s <date>` exactly when a non-empty date is given |
| CcusageExecutor.RunCommand | src/daemon/ccusage_executor.py:98-153 | a missing program, a failed process or undecodable output gives `{"blocks": []}`; otherwise the decoded standard output |
| CcusageExecutor.FallbackFromSpec | src/daemon/ccusage_executor.py:382-417 | the fallback result is `{"blocks": []}` exactly when no class other than the current one gives a dict with truthy `blocks`; otherwise it is the result of the first such class in order |
| CcusageExecutor.TriedSkipsCurrent | src/daemon/ccusage_executor.py:392-402 | the current strategy's class is never instantiated as a fallback, and only listed classes are |
| CcusageExecutor.FallbackStep | src/daemon/ccusage_executor.py:395-413 | one step of the fallback loop skips the current class, returns a usable result, or passes over an unusable one |
| CcusageExecutor.PrimaryWins | src/daemon/ccusage_executor.py:356-374 | a primary dict whose `blocks` have a length, and are truthy unless fallback is off, is returned unchanged |
| CcusageExecutor.ExecuteFailures | src/daemon/ccusage_executor.py:356-380 | every other primary outcome gives the fallback result with fallback and `{"blocks": []}` without: a raise, no `blocks` key, falsy blocks with fallback on, or blocks without a length, whose `len()` in the debug message raises |
| CcusageExecutor.NullBlocksWithoutFallback | src/daemon/ccusage_executor.py:366-380 | `{"blocks": null}` without fallback gives `{"blocks": []}`, not the primary's result |
| CcusageExecutor.TryInOrder | src/daemon/ccusage_executor.py:392-417 | the loop returns the fallback result and instantiates exactly the classes `Tried` lists |
| CcusageExecutor.Executor.constructor | src/daemon/ccusage_executor.py:326-344 | without a strategy a wrapper-script strategy is the primary, and fallback is as given |
| CcusageExecutor.Executor.ExecuteWithFallback | src/daemon/ccusage_executor.py:382-417 | the result is the fallback result over the three classes, skipping the primary's |
| CcusageExecutor.Executor.Execute | src/daemon/ccusage_executor.py:346-380 | the result is `ExecuteResult`: the primary's when accepted, else the fallback's or `{"blocks": []}`; fallbacks are instantiated only for an outcome not accepted with fallback enabled |
| CcusageExecutor.Executor.SetStrategy | src/daemon/ccusage_executor.py:419-427 | the primary strategy becomes the given one |
| CcusageExecutor.Executor.GetAvailableStrategies | src/daemon/ccusage_executor.py:429-436 | the names are the fallback classes' names, in the order they are tried |
| CcusageExecutor.AvailableStrategyNames | src/daemon/ccusage_executor.py:340-344 | the fallback order is wrapper script, direct subprocess, `os.system` |
| HookUtils.Stamped | hooks/hook_utils.py:41-44 | the logged record has the event's keys plus `timestamp`; the event's own values win, `timestamp` included |
| HookUtils.HookLogger.constructor | hooks/hook_utils.py:22-29 | the logger holds its log path |
| HookUtils.HookLogger.LogEvent | hooks/hook_utils.py:31-55 | the stamped event, as one compact JSON line, becomes the new last line of the log, which is created when missing |
| HookUtils.LoggedEventReadsBack | hooks/hook_utils.py:53-55 | the compressor reads a logged event back as the last entry, after everything logged before it |
| HookUtils.MarkedAncestorSpec | hooks/hook_utils.py:110-122 | the directory the walk finds holds a marker, is the start or one of its ancestors and is not `/`; a marked start is found itself |
| HookUtils.ProjectRootNameSources | hooks/hook_utils.py:72-125 | a non-blank git top level names the project; failing that the nearest marked directory; failing that the starting path's basename |
| HookUtils.FindProjectRoot | hooks/hook_utils.py:58-125 | `find_project_root` answers `ProjectRootName` for the given path, or the working directory |
| HookUtils.FirstMarker | hooks/hook_utils.py:114-117 | the marker loop finds a marker exactly when one of the fifteen names exists in the directory |
| HookUtils.ProjectNameCachedSpec | hooks/hook_utils.py:128-154 | the resolver is asked about the given path or the working directory, and only when it raises is the answer the path's basename, or "unknown" for an empty path |
| HookUtils.HookEvent | hooks/stop_hook.py:64-73 | the three hooks log the same layout: project, session, event type and a type-specific payload |
| HookUtils.LogFileFor | hooks/stop_hook.py:87-91 | the log file is `CLAUDE_ACTIVITY_LOG_FILE` when set and non-empty, else the hook's default |
| StopHook.DetermineStopType | hooks/stop_hook.py:36-47 | the stop type is "subagent_stop" exactly when `stop_hook_active` is present and truthy, else "stop" |
| StopHook.Payload | hooks/stop_hook.py:68-72 | the payload has exactly `stop_type`, `transcript_path` and `stop_hook_active` |
| StopHook.CreateStopEvent | hooks/stop_hook.py:50-73 | the event is a `stop` event named after the working directory's basename, with the input's session id or "unknown" |
| StopHook.MainSkips | hooks/stop_hook.py:76-84 | nothing is logged exactly when the input is not JSON or is falsy |
| StopHook.MainLogs | hooks/stop_hook.py:76-98 | an event is logged exactly when the input is a non-empty object |
| StopHook.MainLogsEvent | hooks/stop_hook.py:86-98 | a logged event is a `stop` event named after the working directory, written to the file the environment names when it names one |
| StopHook.EventIsLogRecord | hooks/stop_hook.py:50-73 | once stamped, the event passes the daemon's log-record checks whenever its session id is absent or a non-blank string |
| NotificationHook.Payload | hooks/notification_hook.py:52-56 | the payload has exactly `message`, `title` and `transcript_path` |
| NotificationHook.CreateActivityEvent | hooks/notification_hook.py:36-57 | the event is a `notification` event named after the working directory's basename, with the input's session id or "unknown" |
| NotificationHook.MainSkips | hooks/notification_hook.py:60-68 | nothing is logged exactly when the input is not JSON or is falsy |
| NotificationHook.MainLogs | hooks/notification_hook.py:60-82 | an event is logged exactly when the input is a non-empty object |
| NotificationHook.MainLogsEvent | hooks/notification_hook.py:70-82 | a logged event is a `notification` event named after the working directory, written to the file the environment names when it names one |
| NotificationHook.EventIsLogRecord | hooks/notification_hook.py:36-57 | once stamped, the event passes the daemon's log-record checks whenever its session id is absent or a non-blank string |
| ActivityHook.Payload | hooks/activity_hook.py:52-56 | the payload has exactly `tool_name`, `tool_parameters` and `transcript_path` |
| ActivityHook.CreateActivityEvent | hooks/activity_hook.py:36-57 | the event is an `activity` event named after the working directory's basename, with the input's session id or "unknown" |
| ActivityHook.MainSkips | hooks/activity_hook.py:60-68 | nothing is logged exactly when the input is not JSON or is falsy |
| ActivityHook.MainLogs | hooks/activity_hook.py:60-82 | an event is logged exactly when the input is a non-empty object |
| ActivityHook.MainLogsEvent | hooks/activity_hook.py:70-82 | a logged event is an `activity` event named after the working directory, written to the file the environment names when it names one |
| ActivityHook.EventIsLogRecord | hooks/activity_hook.py:36-57 | once stamped, the event passes the daemon's log-record checks whenever its session id is absent or a non-blank string |
| SmartMonitor.Remaining | claude_monitor_smart.py:137-140 | the leftover arguments are a subsequence of the arguments |
| SmartMonitor.RemainingMembers | claude_monitor_smart.py:118-140 | the leftover arguments are exactly those that are not wrapper flags |
| SmartMonitor.UseDaemonMode | claude_monitor_smart.py:165-179 | `--force-daemon` selects daemon mode, else `--force-direct` selects direct mode, else the detection decides |
| SmartMonitor.MainRoutes | claude_monitor_smart.py:142-194 | help wins, then `--daemon-info`; otherwise the daemon client runs exactly in daemon mode without `--test-alert`, and the original monitor gets every argument that is not a wrapper flag |
| SmartMonitor.MainNotices | claude_monitor_smart.py:169-176 | a warning is printed exactly when daemon mode is forced but not detected, a note exactly when direct mode is forced while the daemon runs |
| Decimal.GroupThousandsSpec | src/shared/utils.py:131-141 | `f"{tokens:,}"` for a non-negative count is the decimal digits with a comma at exactly every fourth place from the right |
| Decimal.FormatWithCommasSpec | src/shared/utils.py:131-141 | for a negative count the same grouping follows a minus sign |
| StableSort.SortDescendingSpec | src/client/display_manager.py:319 | `sorted(..., reverse=True)` keeps every element and orders them from the greatest key to the least |
| StableSort.DescendingPrefix | src/client/display_manager.py:319-322 | the first `k` of the descending sort are elements of the input, and nothing left out has a greater key than anything kept |
| Paths.Basename | src/shared/project_models.py:27 | `os.path.basename` is the longest slash-free suffix of the path, preceded by a slash whenever it is shorter than the path |

## Left out

- Threads, locks, events and signal handlers are not modelled: the daemon thread, the tracker's background worker, the `RLock`/`Lock` fields and `__del__`. The subprocess pool that `stop` shuts down is not modelled either. Each loop turn is an explicit call (`ClaudeDaemon.Tick`), and all methods run sequentially.
- The global tracker singletons are not modelled, and neither are `_setup_symlinks` and the thread `join` in `stop`.
- Logging, `print` output, ANSI colours and terminal control are not modelled. The `render_*` and `show_*` methods are reduced to the data they display (`DisplayManager.Frame`) and to the clear-or-move decision.
- The text of `isoformat`/`fromisoformat`, `strptime` and `ZoneInfo` is not modelled. Instants go through a codec parameter. The time-zone check in `ConfigData` is an oracle.
- `json.dumps`/`json.loads` are a codec parameter. Typed `from_dict` conversions refuse a field of the wrong JSON type (`None`), whereas Python would store the value and fail later.
- `os.path.normpath` is not modelled in `get_project_name_from_git_root`: a root containing `.` or `..` components is named by its plain last component.
- `os.path.abspath` and `os.getcwd()` are parameters (`absStart`, `cwd`).
- Temporary files, `fsync`, `chmod`, `makedirs` and atomic renames are not modelled. A write is one map update, or a failure given as a parameter.
- Daemon.ClaudeDaemon.Tick: the daemon's `write_monitoring_data` call (claude_daemon.py:218) is recorded as a `WriteData` effect holding the encoded data, not as an update of the file system `fs`, which holds the hook logs. `FileManagement.FileManager.WriteMonitoringData` models that write on its own.
- Read I/O errors other than a missing file are not modelled, and neither are `get_file_size`/`get_file_mtime` or the `expanduser` paths of `ConfigFileManager`/`DataFileManager`.
- Subprocesses are oracles: `git`, `ccusage`, the node lookup, environment building and the `os.system` shell string of the OS-system strategy. Timeouts and `time.sleep` are not modelled; the retry loop records the back-off it would sleep.
- Floating-point arithmetic is modelled as exact `real` arithmetic. This covers percentages, `safe_divide`, the time-progress ratio and the session averages.
- These floating-point reports are not modelled: costs, the tracker's `cache_hit_ratio` and `get_statistics`, `should_warn` (0.8 factor), `utilization_percent`, `get_cache_health_report`, `get_cleanup_summary`, `log_memory_status` and `optimize_memory`.
- These reporting methods are not modelled: `get_notification_stats`, `get_compression_stats`, `to_dict`, `get_performance_summary` and `log_performance`.
- These `utils.py` helpers are outside the modelled core: `format_currency`, `format_file_size`, `parse_date_string`, `validate_timezone`, `convert_timezone`, `is_macos`, `is_command_available`, `send_macos_notification`, `run_ccusage_command`, `clear_terminal`, `get_terminal_size`, `ensure_directory_exists`, `get_file_age_seconds` and `is_file_stale`.
- `random.choice` in `get_work_timing_suggestion` is not modelled; only the choice of list (`Utils.TimingBucket`) is.
- SmartMonitor.Remaining: argparse's `--` end-of-options marker is not modelled (a wrapper flag after it is still taken as a flag), and neither is the usage error for a wrapper flag given a value (`--force-daemon=x`).
- argparse's prefix abbreviations of long options (such as `--force-d`) are not modelled: a wrapper flag is recognised only when spelled out. The delegated monitor's and client's own behaviour is not modelled either.
- ProjectModels.DecodeRecord: some malformed cache documents make the whole load give up and yield `{}`. Python's `load` differs in each case:
  - a document that decodes to something other than an object: `data.items()` raises `AttributeError` out of `load`;
  - an entry that is not an object: `project_data['git_root']` raises `TypeError` out of `load`;
  - a non-string `git_root`: `os.path.basename` raises `TypeError` out of `load`;
  - an `aliases` value that is not a list, or a list holding non-strings: Python stores it as it is;
  - a `last_accessed` that is not a string, or does not parse: `fromisoformat` raises `TypeError` or `ValueError` out of `load`.
- DataCollector.ParseBlock: `SessionData` has an integer token count, a string id and a real cost, so some blocks that Python keeps have no model value, and the model skips them:
  - float or boolean token counts, such as `100.0`, which Python adds and counts, and the collection succeeds;
  - a boolean cost;
  - an `id` that is not a string, such as `7`, which the dataclass stores as it is.
  String or list token counts and non-numeric costs are modelled: Python keeps the block and the totals' `sum` then fails the collection (`Poisoned`). An `end_time` without a UTC offset makes `now - end_time` raise `TypeError` in Python, so the block is skipped; the time codec gives instants only, so the model keeps it.
- HookLogCompressor.Compressor.CompressLogFile: a modelled write cannot fail, so the method always returns `True`. Python returns `False` when `_write_log_entries` raises (hook_log_compressor.py:78-80). The same holds for the `except` branches of `force_compress_to_size` and `clear_log_file`.
- FileManagement.ReadFrom: a document that decodes to a JSON value other than an object reads as `{}`. Python's `read_data` returns that value as it is.
- MemoryManager.SmartTarget: the aggressive target is the exact `⌊7·max/10⌋`. Python computes `int(max * 0.7)` in binary floating point, and the model does not capture where the two could differ.
- PerformanceMetrics.Metrics.HitRatio: the contract bounds the ratio to within half a hundredth of hits over operations. It does not model the binary floating-point rounding of `round(x, 2)`.
- DataModels.ActivityRoundTrip: the round trip is over the record with `project_name` (see Findings). As declared, `to_dict` writes no `project_name` and `from_dict` reads none, so the model's `from_dict` refuses a dict written by the code as written.
- HookLogParser.CreateActivitySessionSpec: states the intended session. As written every call gives `None` (HookLogParser.AsWrittenCreatesNothing).
- HookLogParser.ParseLogFile: returns the intended sessions. As written every existing log yields `[]` (HookLogParser.AsWrittenLogIsEmpty).
- Tracker.SessionActivityTracker.UpdateFromLogFiles: rests on the intended parser. As written nothing is ever parsed, so the list changes only on a forced update, to `[]`.
- Tracker.SessionActivityTracker.MergeSessions: rests on `project_name` and on the smart status rule. As written, `session.project_name` would raise `AttributeError`, but no session ever reaches it.
- TrackerSpec.SmartStatus: `ActivitySessionData.calculate_smart_status`, called by `_merge_sessions`, is not defined in any source file. The model takes it as an oracle constrained only by the two cases the tracker's tests fix, `TrackerSpec.SmartMeetsTests`. `TrackerSpec.MergeGroup` uses it for the merged status.
- TrackerSpec.MergeRecentStop: the WAITING_FOR_USER rule (a latest stop at most 30 seconds old) comes only from the tests' expectations of that missing method, not from source code.
- TrackerSpec.MergeOldStop: the INACTIVE rule (a lone stop an hour or more old) comes only from the tests' expectations of that missing method, not from source code.
- StopHook.MainSkips (and the same lemma in the other two hooks): a truthy JSON input that is not an object is modelled as a crash (`Crashed`), because `.get` raises on it. The crash itself carries no detail.

## Findings

| source | as written | input that shows it | evidently intended | confidence | as-written member | corrected member |
|---|---|---|---|---|---|---|
| src/shared/utils.py:284-299 | `text[:max_length - len(suffix)] + suffix` once the text is longer than `max_length` | `truncate_string("abcdef", 2)`: the slice bound is -1, so the result is `"abcde..."` (8 characters, longer than the text) | the result never exceeds `max_length` (its docstring: "maximum length including suffix") | not executed | Utils.TruncateStringOverlong | Utils.TruncateClampedBound |
| src/daemon/hook_log_parser.py:108-127 | `ActivitySessionData(project_name=..., ...)`, though the dataclass (src/shared/data_models.py:108-117) declares no `project_name` field | any well-formed log line, such as `{"timestamp": "2025-01-01T00:00:00Z", "session_id": "s", "event_type": "stop", "project_name": "p"}`: the constructor raises `TypeError`, the handler returns `None`, and the log yields no sessions | `project_name` is a field of the activity record, as the parser, the tracker's grouping and the tests expect | not executed | HookLogParser.AsWrittenLogIsEmpty | HookLogParser.CreateActivitySessionSpec |
