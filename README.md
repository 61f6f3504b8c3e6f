# Omini ToolBox core, modelled in Dafny

Omini ToolBox is a Tauri desktop app. It has a React front end and a Rust back end. It keeps
WeChat mini-program credential profiles and generates batches of mini-program URL Links.
It also collects errors into a report.

This project models the logic underneath the screens, in three groups.

- **Credential-profile store.**
  - Modules `CredentialStore` and `AppComponent`.
  - The snapshot transitions `addApp`, `updateApp`, `deleteApp` and `setDefaultApp`, as written in `App.tsx` and `Settings.tsx`.
  - Trimmed-blank validation and append-at-end.
  - The default chosen on the first add through `||`. Here `null` and `""` are both "no default". Un-starring stores `""`.
  - Deletion clears the default only when it was the deleted id.
  - The App component commits its settings only after `save_settings` succeeds.
  - An invariant: unique ids, and a default that is `null`, `""` or an existing id. Every store operation preserves it as the handlers call it: adding assumes a fresh id, and `setDefaultApp` is reached through the star toggle of a stored profile. A loaded file is not checked.
- **Link batch.**
  - Modules `LinkBatch`, `UrlLinkTool` and `Backend`.
  - The row editor: add, remove but never the last row, and update one field.
  - The checks `generateUrlLinks` makes before invoking the back end, and its blank-path filter.
  - The clipboard text of `copyAllLinks`. Splitting that text at line breaks gives back the links.
  - In the Rust back end, the default for a missing settings file.
  - The access-token cache: memory first, then disk, then the endpoint. A token is reused only while it has more than 60 s left.
  - The expiry arithmetic, with `saturating_sub`.
  - The ordered item loop. Its first failed exchange aborts the whole batch.
- **Error aggregation.**
  - Modules `ErrorBoundary`, `ErrorPopup` and `Logger`.
  - The front end's append-only error log and its global handlers.
  - The `useError` guard.
  - The popup's send state machine. It clears the log only after a successful send, and only once the delayed step runs. Every successful send sets its own timer. The popup stays mounted while closed, so a later timer still clears whatever has been logged since.
  - The back-end logger: append, then keep the newest 100 entries, and routing by level.
  - Reading and clearing the log file.
  - The layout of the plain-text error report, numbered from 1.

Everything the core reads from outside is a parameter of the model:

- files, as a `FileState` (missing, unreadable, unparseable or holding a value);
- HTTP exchanges, as an `Exchange` (delivered, or failed at send, read or parse);
- outcomes of Tauri `invoke` calls, as a `Result`;
- the answer to `confirm`, as a boolean;
- the clock, as the current time;
- `crypto.randomUUID`, as a fresh id.

Stateful components are classes whose methods update their fields:

- `App`, `UrlLinkTool`, `ErrorProvider` and `ErrorPopup` on the front end;
- `TokenStore`, which holds the `TOKEN_CACHE` global and the token cache file;
- `ErrorLog`, which holds the log file and the console.

The pure transitions are functions. Lemmas state what the source promises about them.

The code behaves as follows, and the model follows it:

- Any send, read or parse failure on one item aborts the whole batch with an error (`src-tauri/src/lib.rs:280`, `:282`, `:286`). There are no partial results with per-item error messages.
- A missing `err_msg` in a link response becomes `"ok"`, not the empty string.
- No "not found" or validation errors are raised for unknown ids. `deleteApp` with an unknown id submits an unchanged profile list.
- `setDefaultApp("")` stores `""`, not `null`.

## Model

| member | source | states |
|---|---|---|
| CredentialStore.FindApp | src/App.tsx:176 | `find` by id yields nothing exactly when no profile has that id, and otherwise the first profile with it |
| CredentialStore.FindAppUnique | src/components/tools/UrlLinkTool.tsx:51 | with unique ids, looking up a profile's id yields that profile exactly when it is stored |
| CredentialStore.FindAppAppend | src/App.tsx:117 | lookup after appending one profile: earlier matches win, otherwise the appended profile matches its own id |
| CredentialStore.AddApp | src/pages/Settings.tsx:66-70 | the add handler returns early (reason Incomplete) exactly when a trimmed field is blank |
| CredentialStore.AddAppSpec | src/App.tsx:115-119 | old profiles untouched and in order, the new profile last with the form's fields, fresh id and time; the default becomes the new id when it was `null` or `""` and is kept otherwise; other snapshot fields copied |
| CredentialStore.AddAppResolves | src/App.tsx:107-119 | after adding under a fresh id, that id resolves to the new profile |
| CredentialStore.AddAppKeepsInvariant | src/pages/Settings.tsx:72-84 | adding under a fresh id preserves unique ids and a resolving default |
| CredentialStore.UnstarredThenAdd | src/App.tsx:118 | with an un-starred default (`""`), the next add makes the new profile the default |
| CredentialStore.UpdateApp | src/pages/Settings.tsx:91-96 | the update handler returns early when nothing is being edited (NotEditing) or a trimmed field is blank (Incomplete), and only then |
| CredentialStore.UpdateAppSpec | src/App.tsx:133-140 | same length and order; ids and creation times kept; only the edited id's name, appid and secret replaced; default, id set and other fields unchanged |
| CredentialStore.UpdateAppKeepsInvariant | src/pages/Settings.tsx:98-105 | editing preserves unique ids and a resolving default |
| CredentialStore.Without | src/App.tsx:152 | filtering never lengthens the list |
| CredentialStore.WithoutMembers | src/App.tsx:152 | the filter keeps exactly the profiles whose id differs from the deleted id |
| CredentialStore.WithoutExactlyOne | src/pages/Settings.tsx:117 | with unique ids, deleting the id at position k removes exactly position k, the rest keeping their order |
| CredentialStore.WithoutAbsent | src/pages/Settings.tsx:117 | deleting an id no profile has leaves the list unchanged |
| CredentialStore.UniqueSubsequence | src/App.tsx:152 | filtering keeps ids unique |
| CredentialStore.DeleteApp | src/pages/Settings.tsx:112-113 | the delete handler returns early (NotConfirmed) exactly when the user does not confirm |
| CredentialStore.DeleteAppSpec | src/App.tsx:150-154 | the id no longer resolves; the id set loses exactly that id; the default becomes `null` exactly when it was that id and is kept otherwise; other fields copied; exact single-position removal with unique ids; no change for an unknown id |
| CredentialStore.DeleteAppKeepsInvariant | src/pages/Settings.tsx:115-119 | deleting preserves unique ids and a resolving default |
| CredentialStore.SetDefaultApp | src/pages/Settings.tsx:124-130 | the default becomes exactly the given id, `""` included; profiles and other fields unchanged |
| CredentialStore.SetDefaultIdempotent | src/App.tsx:162-166 | setting the same default twice equals setting it once |
| CredentialStore.ToggleDefault | src/pages/Settings.tsx:263-266 | the star button stores `""` when the profile is the default and the profile's id otherwise, changing nothing else |
| CredentialStore.ToggleKeepsInvariant | src/App.tsx:605-608 | toggling the star of a stored profile preserves the invariant |
| AppComponent.App.constructor | src/App.tsx:53-68 | empty settings, no selection, empty form, nothing being edited |
| AppComponent.App.SelectedApp | src/App.tsx:176 | the selected profile exists exactly when a stored profile has the selected id, and it is that profile |
| AppComponent.App.LoadSettings | src/App.tsx:79-89 | on success the loaded snapshot is shown and a truthy default becomes the selection; on failure nothing changes |
| AppComponent.App.SaveSettings | src/App.tsx:91-99 | the in-memory settings become the new snapshot only when persisting succeeded; otherwise the previous settings remain |
| AppComponent.App.AddApp | src/App.tsx:101-124 | an incomplete form changes nothing and persists nothing; otherwise the add snapshot is persisted and committed on success, and the form is reset and hidden; the invariant is preserved for a fresh id |
| AppComponent.App.StartEdit | src/App.tsx:171-174 | the profile becomes the one being edited and the form holds its three fields |
| AppComponent.App.UpdateApp | src/App.tsx:126-145 | no-op when nothing is edited or the form is incomplete; otherwise the update snapshot is persisted and committed on success, editing ends and the form is reset; the invariant is preserved |
| AppComponent.App.DeleteApp | src/App.tsx:147-160 | nothing without confirmation; otherwise the delete snapshot is persisted and committed on success, and the selection is cleared exactly when it was the deleted id; the invariant is preserved |
| AppComponent.App.SetDefaultApp | src/App.tsx:162-169 | persists the snapshot with exactly that default, commits it on success, and selects the id in any case |
| AppComponent.App.ToggleDefault | src/App.tsx:605-608 | un-starring stores `""` and clears the selection; starring stores and selects the id; the invariant is preserved |
| LinkBatch.AddItem | src/components/tools/UrlLinkTool.tsx:53-55 | one more row, the old rows unchanged, the new last row blank |
| LinkBatch.DropPosition | src/App.tsx:184 | the index filter removes exactly the row at an in-range index and nothing otherwise |
| LinkBatch.RemoveItem | src/App.tsx:182-186 | with more than one row, exactly row `index` is removed; with one row or none, nothing changes; a non-empty list never becomes empty |
| LinkBatch.UpdateItem | src/App.tsx:188-192 | same length; every other row unchanged; in row `index` only the named field takes the value |
| LinkBatch.ValidItems | src/App.tsx:200 | every kept row has a non-blank trimmed path; never more rows than given |
| LinkBatch.ValidItemsAppend | src/components/tools/UrlLinkTool.tsx:75 | the filter distributes over concatenation, so the kept rows keep their original order |
| LinkBatch.ValidItemsEmptyIff | src/components/tools/UrlLinkTool.tsx:75-79 | nothing is kept exactly when every path is blank after trimming |
| LinkBatch.PlanGeneration | src/App.tsx:194-213 | no call exactly when no profile is selected, or when every path is blank; otherwise one call with the selected profile's appid and secret, the environment and exactly the non-blank-path rows in order |
| LinkBatch.Links | src/App.tsx:230 | the collected links are all non-empty and no more than the results |
| LinkBatch.LinksAppend | src/components/tools/UrlLinkTool.tsx:105 | the links of concatenated result lists are the links of each, in order |
| LinkBatch.LinksAround | src/components/tools/UrlLinkTool.tsx:105 | every non-empty link is kept, between the links of the results before and after it; an empty one is dropped |
| LinkBatch.LinksEmptyIff | src/components/tools/UrlLinkTool.tsx:105-106 | no links are collected exactly when every result's link is empty |
| LinkBatch.LinksFromResults | src/components/tools/UrlLinkTool.tsx:105 | every collected link is the link of some result |
| LinkBatch.CopyAllLinks | src/components/tools/UrlLinkTool.tsx:104-111 | nothing is copied exactly when no result has a link; otherwise the copied text is non-empty |
| LinkBatch.CopyAllLinksRoundTrip | src/components/tools/UrlLinkTool.tsx:105 | splitting the copied text at line breaks gives back exactly the non-empty links in result order, when no link contains a line break |
| UrlLinkTool.UrlLinkTool.constructor | src/components/tools/UrlLinkTool.tsx:45-49 | one blank row, no results, not loading, environment `"release"` |
| UrlLinkTool.UrlLinkTool.AddItem | src/components/tools/UrlLinkTool.tsx:53-55 | the rows gain one blank row at the end |
| UrlLinkTool.UrlLinkTool.RemoveItem | src/components/tools/UrlLinkTool.tsx:57-61 | the rows become the guarded removal, and never empty |
| UrlLinkTool.UrlLinkTool.UpdateItem | src/components/tools/UrlLinkTool.tsx:63-67 | the rows become the one-field update of row `index` |
| UrlLinkTool.UrlLinkTool.SetEnvVersion | src/components/tools/UrlLinkTool.tsx:154 | the environment becomes the selected value |
| UrlLinkTool.UrlLinkTool.GenerateEnabled | src/components/tools/UrlLinkTool.tsx:206 | the button is enabled exactly when not loading and a profile id is selected |
| UrlLinkTool.UrlLinkTool.GenerateUrlLinks | src/components/tools/UrlLinkTool.tsx:69-96 | follows the plan for the looked-up profile; without a call, results and loading are unchanged; with a call, loading ends false and results are replaced on success only |
| Backend.LoadSettings | src-tauri/src/lib.rs:98-112 | a missing file gives no profiles and no default; read and parse failures give their prefixed messages; otherwise the stored settings |
| Backend.SaturatingSub | src-tauri/src/lib.rs:218 | never below zero, never above the minuend, exact when no underflow |
| Backend.ExpiresAt | src-tauri/src/lib.rs:217-218 | the expiry lies between now and now plus the lifetime (7200 s when absent), and is 60 s before the lifetime ends when the lifetime is at least 60 s |
| Host.FailureText | src-tauri/src/lib.rs:202-213 | a failed exchange's message starts with the prefix of the stage that failed (send, read or parse) and ends with the error's own text; the same shape as the link loop's messages at lines 276-287 |
| Backend.Usable | src-tauri/src/lib.rs:170-179 | the freshness rule shared by both caches: same appid and more than 60 s before expiry |
| Backend.FreshTokenReusable | src-tauri/src/lib.rs:170 | a freshly stored token passes the freshness check at once exactly when its lifetime exceeds 120 s, which the default lifetime does |
| Backend.ReadTokenFile | src-tauri/src/lib.rs:139-147 | the disk cache is present exactly when the file holds an entry; any read or parse failure counts as no cache |
| Backend.SelectToken | src-tauri/src/lib.rs:160-246 | memory is used exactly when it holds the appid with more than 60 s left; then disk under the same rule; otherwise the endpoint's token with its computed expiry; a missing token gives "获取 token 失败: " with `errmsg` or "未知错误"; transport failures give their prefixed messages |
| Backend.TokenBelongsToAppid | src-tauri/src/lib.rs:169-190 | every token handed out is a fresh cache entry for the requested appid or the endpoint's own token |
| Backend.ResultFor | src-tauri/src/lib.rs:288-293 | path and query echoed; the link or `""`; the message or `"ok"` |
| Backend.Attempted | src-tauri/src/lib.rs:272-286 | the loop never issues more requests than there are items |
| Backend.Calls | src-tauri/src/lib.rs:263-278 | one request per item, in order, each with the same token and environment and the item's path and query |
| Backend.Batch | src-tauri/src/lib.rs:263-296 | the item loop as a function of the replies: a success has one result per item; what it holds and where it fails are stated by the three lemmas below |
| Backend.BatchAllDelivered | src-tauri/src/lib.rs:263-296 | when every exchange is delivered, the batch succeeds with one result per item in item order, after one request per item |
| Backend.BatchFirstFailure | src-tauri/src/lib.rs:272-286 | when exchange k is the first to fail, the batch fails with that exchange's message and no results, after k+1 requests |
| Backend.BatchOkShape | src-tauri/src/lib.rs:288-296 | the batch succeeds exactly when every exchange is delivered, and then has one result per item, in order, with path and query echoed and the defaults for missing fields |
| Backend.RunBatch | src-tauri/src/lib.rs:261-296 | the imperative loop returns the batch outcome and issues exactly the requests up to and including the first failure |
| Backend.TokenStore.constructor | src-tauri/src/lib.rs:57 | an empty memory cache over the given token file |
| Backend.TokenStore.GetWechatTokenCached | src-tauri/src/lib.rs:160-247 | returns the selected token or error; contacts the endpoint only when both caches miss, with a request carrying the appid and secret; a disk hit is installed in memory; a fetched token is stored in memory and, when the write succeeds, on disk; a refusal or transport failure touches neither cache |
| Backend.TokenStore.GenerateWechatUrllinks | src-tauri/src/lib.rs:251-297 | the token request, when made, carries the appid and secret; a token failure returns its error before any link request; otherwise the batch outcome, with requests carrying the obtained token; the memory and disk caches end as after `get_wechat_token_cached` |
| Backend.RepeatedBatchReusesToken | src-tauri/src/lib.rs:166-174 | a second batch for the same appid at the same instant, after the first obtained a token (from a cache, or fetched with a lifetime over 120 s), is served from the memory cache with no token request |
| Backend.GeneratedLinksFollowRows | src/components/tools/UrlLinkTool.tsx:83-89 | when the front end calls and the batch succeeds, there is one result per non-blank-path row, in row order, each with a non-blank path |
| Logger.RouteFor | src-tauri/src/logger.rs:74-78 | `"error"` goes to the error macro, `"warn"` to warn, any other level to info |
| Logger.Existing | src-tauri/src/logger.rs:52-56 | a missing, unreadable or unparseable log counts as empty |
| Logger.Retain | src-tauri/src/logger.rs:62-66 | at most 100 entries remain, and exactly 100 when there were more |
| Logger.RetainKeepsNewest | src-tauri/src/logger.rs:59-66 | after appending, the kept entries are the newest ones in order, ending with the new entry; below 100 nothing is dropped |
| Logger.RetainAppend | src-tauri/src/logger.rs:62-66 | trimming before an append and after it keeps the same entries as trimming once |
| Logger.RetainAppendMany | src-tauri/src/logger.rs:62-66 | the same holds for appending several entries |
| Logger.LogAllKeepsNewest | src-tauri/src/logger.rs:36-79 | any series of logs leaves exactly the newest 100 of everything logged, in order, with the last one logged at the end |
| Logger.GetErrorLogs | src-tauri/src/logger.rs:114-125 | an absent file gives an empty list; read and parse failures give their prefixed messages; success exactly when the file is absent or parses |
| Logger.EntryEndsInNewline | src-tauri/src/logger.rs:160-163 | every entry's text ends with a line break |
| Logger.EntryStartsWithNumber | src-tauri/src/logger.rs:160 | every entry's text opens with its number in decimal |
| Logger.EntriesAppend | src-tauri/src/logger.rs:159-164 | numbering runs on across a split of the list |
| Logger.OneBasedNumbering | src-tauri/src/logger.rs:159-160 | the entry at 0-based position k is listed under number k+1, between the entries before and after it |
| Logger.EntriesEndsInNewline | src-tauri/src/logger.rs:159-164 | a non-empty entry list ends with a line break |
| Logger.SectionText | src-tauri/src/logger.rs:157-166 | a section is empty exactly when its list is empty |
| Logger.SectionEndsBlank | src-tauri/src/logger.rs:165 | a non-empty section ends with a blank line |
| Logger.BlankIsNotNoErrors | src-tauri/src/logger.rs:180-182 | text ending in a blank line does not end with the no-errors line |
| Logger.ReportStartsWithHeader | src-tauri/src/logger.rs:151-154 | the report opens with the title, report time and system |
| Logger.ReportText | src-tauri/src/logger.rs:151-182 | the report text: header, the front-end then back-end sections, then the no-errors line when both lists are empty; its properties are the two lemmas around it |
| Logger.ReportNoErrorsIff | src-tauri/src/logger.rs:180-182 | the report ends with "没有记录的错误。" exactly when both lists are empty |
| Logger.AppendEntries | src-tauri/src/logger.rs:159-164 | the `for` loop appends exactly the entries numbered from 1 |
| Logger.AppendSection | src-tauri/src/logger.rs:157-166 | a section block appends exactly the section text, nothing for an empty list |
| Logger.BuildReport | src-tauri/src/logger.rs:151-182 | the imperative assembly produces exactly the report text |
| Logger.ErrorLog.constructor | src-tauri/src/logger.rs:30-34 | the log over `errors.json` in whatever state it is found, with an empty console |
| Logger.ErrorLog.LogError | src-tauri/src/logger.rs:36-79 | the file, when writable, holds the existing readable log plus the new entry, trimmed to the newest 100; a failed write leaves it; one console line routed by level |
| Logger.ErrorLog.LogFrontendError | src-tauri/src/logger.rs:101-104 | logs with level `"error"` and source `"frontend"` |
| Logger.ErrorLog.LogBackendError | src-tauri/src/logger.rs:107-110 | logs with level `"error"` and source `"backend"` |
| Logger.ErrorLog.ClearErrorLogs | src-tauri/src/logger.rs:128-136 | succeeds without change when the file is absent; otherwise removes it, or reports the removal failure and keeps it |
| Logger.ErrorLog.SendErrorReport | src-tauri/src/logger.rs:139-192 | malformed input and an unreadable log are errors with no report; otherwise success with the report built from both lists, whatever happens to the report file |
| ErrorBoundary.Stamp | src/components/ErrorBoundary.tsx:36-40 | the entry copies message, stack, source and level, and takes the fresh id and the current time |
| ErrorBoundary.FromErrorEvent | src/components/ErrorBoundary.tsx:60-67 | an uncaught error is recorded as a front-end error with the event's message and stack |
| ErrorBoundary.FromRejection | src/components/ErrorBoundary.tsx:69-76 | a rejection is recorded as a front-end error; its message is never empty, the reason's message when non-empty and "Unhandled Promise Rejection" otherwise |
| ErrorBoundary.UseError | src/components/ErrorBoundary.tsx:23-29 | yields the context exactly when there is a provider, and otherwise the error "useError must be used within ErrorProvider" |
| ErrorBoundary.AddAll | src/components/ErrorBoundary.tsx:41 | a series of appends keeps the old log as a prefix and adds the stamped entries in call order |
| ErrorBoundary.ErrorProvider.constructor | src/components/ErrorBoundary.tsx:33 | the log starts empty |
| ErrorBoundary.ErrorProvider.AddError | src/components/ErrorBoundary.tsx:35-43 | exactly one stamped entry is appended; earlier entries and their order are unchanged |
| ErrorBoundary.ErrorProvider.ClearErrors | src/components/ErrorBoundary.tsx:45-47 | the log becomes empty |
| ErrorBoundary.ErrorProvider.SendErrorReport | src/components/ErrorBoundary.tsx:49-56 | sends the address and the current log, passes the delivery outcome on (a failure is rethrown) and changes nothing |
| ErrorBoundary.ErrorProvider.HandleError | src/components/ErrorBoundary.tsx:60-67 | appends the stamped front-end error entry |
| ErrorBoundary.ErrorProvider.HandlePromiseRejection | src/components/ErrorBoundary.tsx:69-76 | appends the stamped rejection entry, whose message is non-empty |
| ErrorPopup.ErrorPopup.constructor | src/components/ErrorPopup.tsx:12-14 | empty address, not sending, status idle, no close timer pending |
| ErrorPopup.ErrorPopup.SetEmail | src/components/ErrorPopup.tsx:107 | the address becomes the typed value |
| ErrorPopup.ErrorPopup.SendEnabled | src/components/ErrorPopup.tsx:135 | send is enabled exactly when not sending and the trimmed address is non-empty |
| ErrorPopup.ErrorPopup.CloseEnabled | src/components/ErrorPopup.tsx:128 | the close button is enabled exactly when not sending |
| ErrorPopup.ErrorPopup.BeginSend | src/components/ErrorPopup.tsx:19-21 | a blank address changes nothing; otherwise sending starts with the status idle |
| ErrorPopup.ErrorPopup.FinishSend | src/components/ErrorPopup.tsx:22-35 | sending ends; success shows success and sets one more close timer; failure shows the error and sets none; the log is not touched |
| ErrorPopup.ErrorPopup.CloseTimerFires | src/components/ErrorPopup.tsx:25-30 | one pending timer fires: it clears the log, closes the popup, resets the status to idle and the address to `""`, and one fewer timer is pending; with none pending nothing changes |
| ErrorPopup.ErrorPopup.HandleSend | src/components/ErrorPopup.tsx:18-36 | a blank address changes no state and sends nothing; otherwise it sends the address and log, ends not sending, shows success with one more close timer pending, or shows the error |
| ErrorPopup.SendThenWait | src/components/ErrorPopup.tsx:18-36 | after a send and a timer firing, success leaves an empty log, a closed popup and a reset form; failure with no earlier timer pending keeps the log and the address |
| ErrorPopup.SecondTimerClearsLaterError | src/components/ErrorPopup.tsx:24-30 | two quick successful sends set two timers; the second still fires after the popup has closed and clears an error logged in between |
| Text.TrimStart | src/App.tsx:102 | drops exactly a leading run of ECMAScript whitespace |
| Text.TrimEnd | src/App.tsx:102 | drops exactly a trailing run of ECMAScript whitespace |
| Text.Trim | src/App.tsx:102 | the result neither starts nor ends with whitespace |
| Text.TrimIsMiddle | src/App.tsx:102 | the result is the stretch of the input between a blank start and a blank end, so only whitespace at the ends is removed |
| Text.TrimEmptyIffBlank | src/App.tsx:102 | `!s.trim()` holds exactly when the string is empty or all whitespace |
| Text.JoinEmptyIff | src/components/tools/UrlLinkTool.tsx:106 | joining non-empty parts gives `""` exactly when there are no parts |
| Text.SplitJoin | src/components/tools/UrlLinkTool.tsx:105 | splitting a join at its one-character separator gives the parts back when none contains it |
| Text.DecimalString | src-tauri/src/logger.rs:160 | the number's `{}` formatting is never empty |
| Text.DecimalDigits | src-tauri/src/logger.rs:160 | it is all digits, with no leading zero except for 0 |
| Text.DecimalRoundTrip | src-tauri/src/logger.rs:160 | reading the digits back gives the number |

## Left out

- Reading and writing files, HTTP requests to the WeChat endpoints, and serde JSON (de)serialisation are outcomes passed in. The same holds for the Tauri `invoke` bridge, `alert`, `confirm`, the clipboard, `console` and the `log` macros' output. `get_config_dir`, `get_logs_dir` and `init_logs` are not part of this model.
- `save_settings` is not modelled as code. Its success or failure is the `persisted` parameter of the App methods.
- `crypto.randomUUID`, `Date.now`, `Utc::now` and `SystemTime::now` are parameters. The "获取时间失败" error of `get_wechat_token_cached` is not modelled.
- The `Mutex`/`Lazy` locking of `TOKEN_CACHE` is left out. Its "锁获取失败" errors are not modelled, and the cache is a single-threaded field.
- Backend.Usable: the check uses unbounded `now + 60`. The `u64` overflow of that sum is not modelled, because Unix seconds are far below the bound.
- Backend.ExpiresAt: `now + expires_in.saturating_sub(60)` (`src-tauri/src/lib.rs:218`) is an unbounded sum. In `u64` it would wrap in a release build or panic in a debug build when the server sends a lifetime near 2^64; that overflow is not modelled.
- Backend.TokenStore.GetWechatTokenCached: the serialisation and write failures of `save_token_cache` are one `diskWriteOk` flag, because the source ignores them.
- Logger.ErrorLog.LogError: a failed `to_string_pretty` is folded into `writeOk`, because the source ignores both.
- Logger.ErrorLog.SendErrorReport: the report is returned rather than written to `error_report_<time>.txt`. The source ignores the write's failure and sends no e-mail, so `email` is unused.
- App and UrlLinkTool: the `copied` flag and its 2-second timer only drive the button label. They are left out.
- The suspension of `saveSettings` and `generateUrlLinks` at their `await` is not modelled. The invoked command's outcome is applied at once. App.tsx's copy of the link-tool state and handlers is the same code as UrlLinkTool.tsx and is modelled once, by the UrlLinkTool class.
- App.tsx's selector `onChange`, the theme buttons and section navigation only set plain state. The markup, ToolCard.tsx, Home.tsx and ComingSoon.tsx hold no logic and are left out.
- The module-level `triggerCallback` of ErrorPopup.tsx and its header and backdrop close buttons are left out. `onClose` appears only as the `open` flag reset by the delayed step.
- The bridge mismatches are not modelled. The front end passes `errors` where the command takes `errors_json`, and `logger.rs` is not declared as a module of `lib.rs`. The model takes the command's parsed input as given.
