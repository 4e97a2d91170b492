# ChatAlerts, modelled in Dafny

ChatAlerts is a Dalamud plugin for Final Fantasy XIV. A user-defined *alert* names:

- some text, either a literal string or a regular expression;
- the chat channels it listens to;
- whether it scans the sender or the message;
- how to highlight a hit (a foreground colour key and a glow colour key, each switched on before the hit and off after it);
- an optional sound, either a game sound effect or an audio file.

Every incoming chat line goes through a gate: the set of watched channels, or "all channels". The alerts then run over the line in list order. Each alert rewrites the payload list (the rich-text runs and formatting directives) by bracketing every hit with colour switches. At most one alert per line gets to start its sound.

The repository holds two generations of the plugin. Both are modelled.

- **The current plugin** (`ChatWatcher.cs`, `ChatAlerts/Alert.cs`, `ChatAlerts/AlertCache.cs`, `ChatAlerts/Gui/Interface.cs`):
  - `ChatWatcher` keeps the channel index and runs the pipeline.
  - `Alert` holds an alert's settings and owns an `AlertCache`.
  - `AlertCache` builds and releases the compiled regex and the two audio handles: the decoded file and the output device.
  - `Interface` is the configuration window. It moves and deletes alerts, toggles channels and adds new alerts.
- **The earlier plugin** (`Plugin.cs`, `Alert.cs`, `Config.cs`, `Gui/Interface.cs`):
  - `Plugin` keeps the channel index as a list and splices messages with its own loops. It always emits both colour switches, and it never rewrites the sender.
  - The alert manages its regex and audio handles itself.
  - `Config` applies the list actions and re-indexes after every change.

Modules, one concept each:

| file | module | what |
|---|---|---|
| wrappers.dfy | Wrappers | `Option` |
| chat.dfy | Chat | channel ids (`XivChatType` values), payloads, the text of a payload list |
| matching.dfy | Matching | the literal search (`string.IndexOf` with a culture-invariant comparison, modelled as exact or ASCII-case-folded character comparison), the regex oracle, `Find` and `Scan` |
| splice.dfy | Splice | what `ChatWatcher.HandleAlert` computes, as functions on values, with its properties |
| alerts.dfy | Alerts | `AlertCache`, `Alert`, the configuration's alert list |
| watcher.dfy | Watcher | `ChatWatcher`: the gate, `UpdateAlert`, `UpdateAllAlerts`, `CopySublist`, `HandleAlert`, `HandleMessage`, and the pipeline specification |
| lists.dfy | ListOps | `List<T>` operations on sequences and the row actions (delete, move up, move down) |
| channels.dfy | Channels | the channel checkbox: remove, re-add with Party/CrossParty coupling, sort |
| editor.dfy | Editor | the current and the earlier configuration window |
| legacy_splice.dfy | LegacySplice | what the earlier `Plugin.HandleMessage` loop computes for one alert |
| legacy.dfy | Legacy | the earlier `Alert`, `Plugin` and `Config` |

Each imperative piece of the source is a class or a method. The classes are `AlertCache`, `Alert`, `ChatWatcher`, `Interface`, `Plugin`, `Config` and the earlier `Alert`. The methods are the `HandleAlert` loops, `CopySublist`, and the index rebuild. Each such method is proved against a specification function, and the properties are lemmas about that function.

External services become parameters:

- the regex engine is a `Platform.compile` oracle;
- audio files are `canOpen`/`canInit` oracles;
- the game sound call and the replay of a custom sound are returned as `SoundEvent` values;
- saving the configuration is a `saveCount` counter.

The only assumption made about a compiled regex is that every hit it reports lies at or after the search position and inside the text (the `Regex` subset type).

## Model

| member | source | states |
|---|---|---|
| Matching.Fold | ChatAlerts/Alert.cs:59 | the case fold leaves no ASCII capital, changes only ASCII capitals, and maps a character to a lower-case ASCII letter exactly when it is an ASCII letter |
| Matching.SameCharIgnoringCase | ChatAlerts/Alert.cs:59 | ignoring case, two characters compare equal exactly when they are equal or are the two cases of one ASCII letter |
| Matching.IndexOf | ChatAlerts/Alert.cs:59-61 | `string.IndexOf(value, start)` reports -1 or a position at or after `start` where `value` fits inside the text |
| Matching.IndexOfLeftmost | ChatAlerts/Alert.cs:59-61 | IndexOf returns an occurrence under the chosen comparison with no occurrence before it, and -1 only when there is no occurrence at all |
| Matching.Find | ChatAlerts/Alert.cs:51-62 | one search (regex or literal) reports a hit in bounds and at or after the start; a literal hit is as long as the content |
| Matching.Scan | ChatWatcher.cs:82-101 | the search the corrected splice loop uses: every hit it reports is in bounds and has positive length |
| Matching.ScanRefinesFind | ChatAlerts/Alert.cs:51-62 | Scan finds nothing where Find finds nothing, and Find's own hit whenever that hit is not empty |
| Chat.TextOfAppend | ChatWatcher.cs:84-104 | the text of a concatenation is the concatenation of the texts |
| Splice.SpliceFromText | ChatWatcher.cs:84-104 | a rewritten text run reads exactly as the original from the scan position |
| Splice.SpliceFromNoEmpty | ChatWatcher.cs:84-104 | a rewritten run holds no empty text payload |
| Splice.SpliceFromUntouched | ChatWatcher.cs:84-104 | a rewritten run consists only of text and this alert's colour switches |
| Splice.SpliceAllText | ChatWatcher.cs:63-111 | rewriting every payload keeps the text of the whole list |
| Splice.SpliceAllUntouched | ChatWatcher.cs:63-111 | every payload that is neither text nor one of this alert's switches survives, in order |
| Splice.SpliceAllNoEmpty | ChatWatcher.cs:63-111 | a list without empty text runs gets none |
| Splice.MatchBeforeExists | ChatWatcher.cs:62-73 | the match flag after `n` payloads is set exactly when one of them is a text run in which the first `Match` from index 0 finds a hit, an empty hit included |
| Splice.HandleAlertPreserves | ChatWatcher.cs:57-114 | the result of one alert keeps the text, keeps the other payloads in order and adds no empty run; it matches iff the first `Match` of some text run finds a hit, an empty hit included, and without a match the list comes back unchanged |
| Alerts.AsPairRoundTrip | ChatAlerts/Alert.cs:51-62 | the (index, length) pair `Match` returns loses nothing: the hit reads back from it, the length is never negative, and a negative index means exactly that there was no hit |
| Alerts.AlertCache.constructor | ChatAlerts/AlertCache.cs:10-12 | a new cache holds no regex and no audio handles |
| Alerts.AlertCache.PlaySound | ChatAlerts/AlertCache.cs:17-26 | replays the cached file from its start and returns true exactly when both handles are present; otherwise it returns false and plays nothing |
| Alerts.AlertCache.DisposeAudio | ChatAlerts/AlertCache.cs:56-62 | both handles are released and cleared; the regex is untouched |
| Alerts.AlertCache.Dispose | ChatAlerts/AlertCache.cs:28-32 | the regex and both handles end up absent and every held handle is released |
| Alerts.AlertCache.UpdateRegex | ChatAlerts/AlertCache.cs:34-54 | the regex is kept iff the alert is a regex alert, the pattern compiles, and it does not match the empty input; the audio handles are untouched |
| Alerts.AlertCache.UpdateAudio | ChatAlerts/AlertCache.cs:64-86 | as written: without PlaySound and CustomSound both handles are released; otherwise the sound is ready iff the file opens and the device initialises, and on any failure both handles are absent; the old handles are released when the file name differs, and stay open when it is the same |
| Alerts.AlertCache.UpdateAudioReleasing | ChatAlerts/AlertCache.cs:64-86 | the same outcome as UpdateAudio, but the old handles are always released, so no handle leaks |
| Alerts.AlertCache.OpenAudio | ChatAlerts/AlertCache.cs:72-85 | the try block: new handles over the file when it opens and initialises, both absent when either step throws |
| Alerts.Alert.constructor | ChatAlerts/Alert.cs:10-31 | the field defaults: enabled, ignore case, highlight, foreground 500, glow 0, Sound02, no channels, empty content; a new alert cannot match |
| Alerts.Alert.StartSound | ChatAlerts/Alert.cs:33-43 | false without PlaySound; with CustomSound exactly the cache's PlaySound result; otherwise the game sound, and true |
| Alerts.Alert.Match | ChatAlerts/Alert.cs:51-62 | a regex alert reports the oracle's hit or (-1, 0); a literal alert reports the leftmost occurrence with the content's length, or (-1, 0) |
| Alerts.Alert.ScanMatch | ChatWatcher.cs:82-101 | the search of the corrected highlight loop, Match with zero-width hits passed over: every hit is in bounds and of positive length |
| Alerts.ScanAgreesWithMatch | ChatAlerts/Alert.cs:48-62 | ScanMatch and Match agree on every literal alert that can match and on every hit of positive length |
| Alerts.Alert.Update | ChatAlerts/Alert.cs:45-65 | the cache's regex becomes the accepted regex and the sound is ready iff it is enabled and the file opens; afterwards `CanMatch` holds iff the content is non-empty and a regex alert's pattern is accepted, and `SoundReady` holds iff the alert has no custom sound or its file opens and plays; uses the corrected audio update |
| Alerts.Alert.UpdateRegex | ChatAlerts/Alert.cs:67-68 | only the regex is rebuilt; the audio handles are untouched |
| Alerts.Alert.UpdateAudio | ChatAlerts/Alert.cs:70-71 | only the audio handles are rebuilt; the regex is untouched |
| Alerts.Alert.Dispose | ChatAlerts/Alert.cs:73-74 | the cache ends up empty |
| Alerts.ChatAlertsConfig.constructor | ChatAlertsConfig.cs:10 | the configuration holds the given alert list and has not been written yet |
| Alerts.ChatAlertsConfig.Save | ChatAlertsConfig.cs:12-13 | one more write of the configuration |
| Alerts.ReopenLeaks | ChatAlerts/AlertCache.cs:74-77 | running the audio update as written twice on the same file leaves handles open that the cache no longer holds |
| Alerts.ReopenReleases | ChatAlerts/AlertCache.cs:74-77 | the same two runs with the corrected update leave no handle open beyond the ones held |
| Watcher.Views | ChatWatcher.cs:122-125 | the pipeline's view of the alert list, one view per alert, in order |
| Watcher.SoundAtMostOnce | ChatWatcher.cs:121-134 | at most one sound per message, and the played flag is set exactly when one was started |
| Watcher.SoundIsFirstSoundTo | ChatWatcher.cs:121-135 | the sounds of the first `n` alerts are exactly the sound of the first alert that matches and has a sound to start |
| Watcher.SoundIsFirstSound | ChatWatcher.cs:121-135 | over the whole list: the one sound started is that of the first matching alert with a sound, and none when there is no such alert |
| Watcher.FirstSoundFires | ChatWatcher.cs:133-134 | the alert whose sound plays did match and has a sound |
| Watcher.FirstSoundIsFirst | ChatWatcher.cs:133-134 | every alert that matched before it had no sound to start |
| Watcher.StepKeepsText | ChatWatcher.cs:127-132 | one alert keeps the text of sender and message and adds no empty run |
| Watcher.PipelineKeepsText | ChatWatcher.cs:122-135 | all the alerts together keep the text of sender and message and add no empty run |
| Watcher.PipelineIdle | ChatWatcher.cs:122-125 | alerts that do not apply leave the line exactly as it came |
| Watcher.ListedChannelsExact | ChatWatcher.cs:31-32 | a channel is in the union of the first `n` lists iff one of them lists it |
| Watcher.ChatWatcher.constructor | ChatWatcher.cs:19-24 | after construction every alert is covered and the gate passes a channel iff some alert lists it or lists "all" |
| Watcher.ChatWatcher.ChannelLists | ChatWatcher.cs:31 | the alerts' channel lists, in order |
| Watcher.ChatWatcher.GateForFacts | ChatWatcher.cs:26-43 | a rebuilt gate covers every alert and passes exactly the channels some alert (enabled or not) listens to |
| Watcher.ChatWatcher.UpdateAlert | ChatWatcher.cs:37-43 | the alert is refreshed; the all-flag is set when the alert lists "all" and is never cleared; the watched set only grows, and only while the all-flag is off |
| Watcher.ChatWatcher.UpdateAllAlerts | ChatWatcher.cs:26-35 | after the rebuild the gate is exactly the one the alert list calls for, and every alert's regex is current |
| Watcher.ChatWatcher.UpdateNext | ChatWatcher.cs:31-32 | one round of the rebuild loop folds one more alert into the gate |
| Watcher.ChatWatcher.CopySublist | ChatWatcher.cs:51-55 | appends exactly `payloads[from..to]` in order, and nothing when `from >= to` |
| Watcher.ChatWatcher.HighlightRun | ChatWatcher.cs:77-104 | a run with a hit: the payloads since the last copy, then the run spliced |
| Watcher.ChatWatcher.SpliceText | ChatWatcher.cs:82-104 | the inner loop, started from the first `Match`, appends exactly the run's rewrite: each hit of positive length bracketed, then the remainder if non-empty |
| Watcher.ChatWatcher.AppendHit | ChatWatcher.cs:84-98 | one hit appends the pre-text if non-empty, the on switches of the non-zero colours, the hit, and the off switches |
| Watcher.ChatWatcher.HandleAlert | ChatWatcher.cs:57-114 | the result is exactly HandleAlertSpec: the match is decided by each text run's first `Match`; unchanged without a match, unchanged but matched without highlighting, otherwise every matching run rewritten |
| Watcher.ChatWatcher.HandleMessage | ChatWatcher.cs:116-136 | nothing happens unless the gate passes the channel; otherwise (and whenever the gate covers every alert) the result is the pipeline over the alerts in list order |
| Watcher.ChatWatcher.RunAlerts | ChatWatcher.cs:121-135 | the loop over the alerts computes the pipeline, with at most one sound |
| Watcher.ChatWatcher.ApplyAlert | ChatWatcher.cs:122-134 | one alert's turn is one pipeline step: filters, the sender or the message rewritten, and the sound on the first hit not yet followed by a sound |
| Watcher.ChatWatcher.GateTransparent | ChatWatcher.cs:118-125 | when the gate covers every alert, a message it turns away is one no alert would have touched |
| Watcher.NextIdxAsWritten | ChatWatcher.cs:86-101 | the loop as written searches again from the end of the last hit, and goes on exactly while there is a hit |
| Watcher.ZeroWidthLoopStalls | ChatWatcher.cs:82-101 | a lookahead regex passes the empty-input check, and on "a" the loop as written finds the empty hit at 0 again from position 0 |
| Watcher.ZeroWidthHitMatches | ChatWatcher.cs:69-75 | an alert whose only hit on "a" is empty still matches: without highlighting the run comes back as it was with the match reported, and with highlighting the corrected loop keeps the run's text |
| Watcher.ScanAlwaysAdvances | ChatWatcher.cs:82-101 | with Scan each round moves strictly forward, and the lookahead regex finds nothing on "a" |
| ListOps.IndexOf | ChatAlerts/Gui/Interface.cs:411-421 | `List.IndexOf` gives the first index holding the item, and -1 exactly when it is absent |
| ListOps.RemoveAtFacts | ChatAlerts/Gui/Interface.cs:415-425 | `RemoveAt` drops exactly the item at the index and keeps the others in order |
| ListOps.InsertFacts | ChatAlerts/Gui/Interface.cs:416-426 | `Insert` puts the item at the index and shifts the rest |
| ListOps.RemoveFacts | ChatAlerts/Gui/Interface.cs:405 | `Remove` takes out one copy of the item when present and changes nothing otherwise |
| ListOps.SwapPermutes | ChatAlerts/Gui/Interface.cs:409-428 | swapping two items keeps the length and the multiset |
| ListOps.ShiftUpSwaps | ChatAlerts/Gui/Interface.cs:409-418 | MoveUp at index ≤ 0 changes nothing, otherwise it swaps the alert with its predecessor |
| ListOps.ShiftDownSwaps | ChatAlerts/Gui/Interface.cs:419-428 | MoveDown at index < 0 or at the last index changes nothing, otherwise it swaps the alert with its successor |
| ListOps.ApplyActionCounts | ChatAlerts/Gui/Interface.cs:401-429 | moves keep the list's length and multiset; Delete takes out one copy of the alert |
| ListOps.ApplyActionWithin | ChatAlerts/Gui/Interface.cs:401-429 | no action brings in an alert the list did not hold |
| ListOps.RemoveAllCount | ChatAlerts/Gui/Interface.cs:265 | `RemoveAll` drops every copy of the removed channels and keeps every copy of the others |
| Channels.SortFacts | ChatAlerts/Gui/Interface.cs:273 | `Sort` orders the channel list and keeps its multiset |
| Channels.ToggleCounts | ChatAlerts/Gui/Interface.cs:263-273 | after a toggle the list is sorted; the channel (and CrossParty with Party) is listed once when checked and not at all when unchecked; every other channel is listed as often as before |
| Channels.ToggleParty | ChatAlerts/Gui/Interface.cs:265-270 | after toggling Party, Party and CrossParty are both listed or both absent |
| Channels.ToggleMembership | ChatAlerts/Gui/Interface.cs:263-273 | the toggled channel is listed iff checked, and unrelated channels keep their membership |
| Editor.Interface.constructor | ChatAlerts/Gui/Interface.cs:29-32 | a new window has no pending change, action or alert |
| Editor.Interface.ResetChange | ChatAlerts/Gui/Interface.cs:34-39 | clears the change flag, the action and the target alert |
| Editor.Interface.Request | ChatAlerts/Gui/Interface.cs:103-141 | a row button records its alert and its action |
| Editor.Interface.HandleActions | ChatAlerts/Gui/Interface.cs:394-430 | nothing happens without both an alert and an action; otherwise the change is marked, the list becomes the action applied to it, and a deleted alert's cache is emptied; a moved alert's cache is left unchanged |
| Editor.Interface.HandleChanges | ChatAlerts/Gui/Interface.cs:432-438 | applies the pending action, saves iff anything changed, then clears the pending state; a deleted alert's cache ends empty and a moved alert's cache is unchanged |
| Editor.Interface.ToggleChannel | ChatAlerts/Gui/Interface.cs:263-276 | the channel list becomes the toggle of the old one; the all-flag and the watched set become exactly what `UpdateAlert` makes of the new list; the alert's regex is the accepted one and its sound is ready iff the file opens; the gate keeps covering every alert |
| Editor.Interface.AddAlert | ChatAlerts/Gui/Interface.cs:375-392 | a new alert with the six default channels goes to the end of the list and the gate widens to cover it |
| Editor.DefaultAlert | ChatAlerts/Gui/Interface.cs:381-387 | the new alert lists Say, Shout, Yell, Party, Alliance and FreeCompany in that order, and has the field defaults |
| Editor.ActionKeepsWatcher | ChatAlerts/Gui/Interface.cs:394-430 | deleting or moving alerts keeps the gate covering every alert, and every cache owned and valid |
| Editor.EarlyInterface.constructor | Gui/Interface.cs:27-30 | a new window has no pending change, action or alert |
| Editor.EarlyInterface.ResetChange | Gui/Interface.cs:32-37 | clears the change flag, the action and the target alert |
| Editor.EarlyInterface.HandleActions | Gui/Interface.cs:351-387 | nothing happens without both an alert and an action; otherwise the change is marked, the list becomes the action applied to it, and a deleted alert's cache is emptied; a moved alert's cache is left unchanged |
| Editor.EarlyInterface.HandleChanges | Gui/Interface.cs:389-395 | applies the pending action, saves iff anything changed, then clears the pending state; a deleted alert's cache ends empty and a moved alert's cache is unchanged |
| Editor.EarlyInterface.ToggleChannel | Gui/Interface.cs:224-236 | the channel list becomes the toggle of the old one and the change is marked |
| Editor.EarlyInterface.AddAlert | Gui/Interface.cs:332-349 | the new alert with the six default channels is updated, then appended, and its regex is current |
| Legacy.LegacyRegexAdmitsMore | Alert.cs:37-46 | the earlier regex rule keeps every regex the current one keeps, and differs exactly on compiled patterns that match the empty input |
| Legacy.LegacyAlert.constructor | Alert.cs:11-32 | the earlier field defaults: enabled, ignore case, highlight, foreground 500, glow 0, SoundEffect2; no regex, no handles |
| Legacy.LegacyAlert.Dispose | Alert.cs:92-97 | both handles are released and cleared |
| Legacy.LegacyAlert.OpenAudio | Alert.cs:57-67 | new handles over the file when it opens and initialises, both absent when either step throws |
| Legacy.LegacyAlert.Update | Alert.cs:36-74 | the regex is kept iff the alert is a regex alert and the pattern compiles; the sound is ready iff it is enabled and the file opens; without PlaySound and CustomSound both handles are released; reopening the same file leaves the old handles open |
| Legacy.LegacyAlert.StartSound | Alert.cs:76-90 | false without PlaySound, or with CustomSound and no output device; otherwise it replays the file or plays the game sound, and returns true |
| Legacy.LegacyViews | Plugin.cs:114 | the earlier pipeline's view of the alert list, one per alert, in order |
| Legacy.LegacySenderKept | Plugin.cs:185-188 | the earlier pipeline never rewrites the sender |
| Legacy.LegacyStepKeepsText | Plugin.cs:119-188 | one earlier alert keeps the text of the message |
| Legacy.LegacyKeepsText | Plugin.cs:114-191 | all the earlier alerts together keep the text of the message |
| Legacy.LegacySoundAtMostOnce | Plugin.cs:113-190 | at most one sound per message, and the played flag is set exactly when one was started |
| Legacy.LegacyStepNeedsHit | Plugin.cs:185 | an alert without a hit in any text run leaves the message alone |
| Legacy.LegacyIdle | Plugin.cs:114 | alerts that do not apply leave the line exactly as it came |
| Legacy.AddMissingNoDup | Plugin.cs:105 | appending only missing channels keeps the watched list free of duplicates |
| Legacy.AddMissingMembers | Plugin.cs:105 | after appending, a channel is watched iff it was watched or is listed |
| Legacy.WatchedToFacts | Plugin.cs:102-106 | the watched list after `n` alerts has no duplicates and holds exactly the channels those alerts list |
| Legacy.Plugin.constructor | Plugin.cs:49-74 | initialisation rebuilds the index: every alert is refreshed and the gate is settled |
| Legacy.Plugin.ChannelLists | Plugin.cs:102 | the alerts' channel lists, in order |
| Legacy.Plugin.UpdateAlerts | Plugin.cs:99-109 | the index is cleared, every alert is updated, the all-flag is set iff some alert lists "all", and each listed channel is watched exactly once |
| Legacy.Plugin.RebuildAll | Plugin.cs:100-106 | the loop leaves the all-flag and the watched list the alert list calls for, and every regex current |
| Legacy.Plugin.UpdateNext | Plugin.cs:103-105 | one round updates one alert and folds its channels into the index |
| Legacy.Plugin.RefreshAt | Plugin.cs:103 | updating one alert makes its regex current and keeps the other alerts' state and every channel list |
| Legacy.Plugin.AppendMissing | Plugin.cs:105 | the channels not yet watched are appended in order |
| Legacy.Plugin.GateFacts | Plugin.cs:99-109 | the rebuilt index has no duplicates, its all-flag says whether some alert lists "all", and it watches exactly the listed channels |
| Legacy.Plugin.HandleMessage | Plugin.cs:111-192 | nothing happens unless the gate passes the channel; otherwise (and whenever the index is settled) the result is the earlier pipeline, with the sender unchanged |
| Legacy.Plugin.GateTransparent | Plugin.cs:112 | when the index is settled, a message the gate turns away is one no alert would have touched |
| Legacy.Plugin.RunAlerts | Plugin.cs:113-191 | the loop over the alerts computes the earlier pipeline, with at most one sound |
| Legacy.Plugin.RunLoop | Plugin.cs:114-191 | the loop leaves exactly the pipeline state after every alert |
| Legacy.Plugin.RunNext | Plugin.cs:114-190 | one round is one step of the earlier pipeline |
| Legacy.Plugin.ApplyAlert | Plugin.cs:115-190 | one alert's turn: filters, the payload loop, the message replaced only on a match by a non-sender alert, and the sound while none has played |
| Legacy.Plugin.SplicePayloads | Plugin.cs:118-183 | the payload loop builds exactly the earlier rewrite and raises the match flag exactly when some run has a hit |
| Legacy.Plugin.SpliceNext | Plugin.cs:119-182 | one payload: non-text kept, text runs rewritten by the regex or the literal loop |
| Legacy.Plugin.RegexRun | Plugin.cs:126-156 | a regex run: kept as it is without a hit; otherwise every hit (NextMatch moving past empty ones) bracketed, then the rest if non-empty |
| Legacy.Plugin.LiteralRun | Plugin.cs:158-182 | a literal run: each occurrence from the end of the previous one bracketed, the skipped text and the rest only if non-empty |
| Legacy.Plugin.AppendPiece | Plugin.cs:162-174 | one hit: the skipped text if non-empty, both colour switches (even key 0) when highlighting, the hit, both off switches |
| Legacy.Plugin.Dispose | Plugin.cs:34-47 | every alert's handles are released |
| LegacySplice.Low16Wraps | Plugin.cs:142-143 | the `(ushort)` cast wraps: colour keys 65536 apart give the same colour, key 65536 switches the colour off like key 0, and 65535 is kept |
| LegacySplice.LegacyKeptAppend | Plugin.cs:119-123 | the non-text payloads of a concatenation are those of the parts |
| LegacySplice.LegacyPieceFacts | Plugin.cs:162-174 | one hit's payloads read as the text from the last position to the hit's end, hold only text and switches, and have no empty run when the hit is not empty |
| LegacySplice.LegacyFromText | Plugin.cs:133-181 | a rewritten run reads exactly as the original |
| LegacySplice.LegacyFromKept | Plugin.cs:133-181 | a rewritten run holds only text and this alert's switches |
| LegacySplice.LegacyFromNoEmpty | Plugin.cs:161-181 | a literal rewrite of non-empty content adds no empty text run |
| LegacySplice.LegacyRunText | Plugin.cs:119-182 | each payload's rewrite keeps its text and its non-text payloads |
| LegacySplice.LegacyAllText | Plugin.cs:119-183 | the whole new list keeps the text and the non-text payloads, in order |
| LegacySplice.LegacyAllNoEmpty | Plugin.cs:158-182 | with a literal alert, a list without empty text runs gets none |
| LegacySplice.LegacyRunNoEmpty | Plugin.cs:158-182 | a literal rewrite of a non-empty run has no empty text payload |
| LegacySplice.LegacyMatchExists | Plugin.cs:151-176 | the match flag is set exactly when some text run has a hit |
| Legacy.LegacyConfig.constructor | Config.cs:22 | a new configuration has no alerts and no saves |
| Legacy.LegacyConfig.Save | Config.cs:31-33 | one more write of the configuration |
| Legacy.LegacyConfig.AddAlert | Config.cs:368-379 | the new alert with the six default channels is appended; it cannot search yet and has no sound |
| Legacy.LegacyConfig.ToggleChannel | Config.cs:162-170 | the channel list becomes the toggle of the old one and the change is marked |
| Legacy.LegacyConfig.HandleAction | Config.cs:381-405 | a change iff there is both an alert and an action; the list becomes the action applied to it, and a deleted alert's handles are released; a moved alert is left unchanged |
| Legacy.LegacyConfig.Commit | Config.cs:409-412 | a change saves once and re-indexes: the index is settled and every regex current |
| Legacy.LegacyConfig.Dispose | Config.cs:417-421 | every alert's handles are released |

## Definitions

These members have no contract of their own; the lemmas and methods named beside them state what they mean.

- `Watcher.ChannelSet` (`ChatWatcher.cs:42`): a channel list as a set; `Watcher.ListedChannelsExact` and `Watcher.ChatWatcher.UpdateAlert` use it.
- `Legacy.LegacyAlert.SearchPattern` (`Plugin.cs:116-117`): what the earlier handler searches with, nothing when the content is empty or a regex failed to compile; `Legacy.LegacyViews` and `Legacy.Plugin.SplicePayloads` use it.
- `Alerts.Alert.CanMatch` (`ChatAlerts/Alert.cs:48-49`): non-empty content and, for a regex alert, a compiled regex; `Alerts.Alert.Update` states when it holds.
- `Alerts.Alert.SoundReady` (`ChatAlerts/Alert.cs:45-46`): no custom sound, or the cache's sound is ready; `Alerts.Alert.Update` states when it holds.
- `Alerts.AlertCache.SoundReady` (`ChatAlerts/AlertCache.cs:14-15`): both audio handles are present; `Alerts.AlertCache.UpdateAudio` and `Alerts.AlertCache.PlaySound` state when it holds and what it enables.
- `Legacy.LegacyAlert.SoundReady` (`Alert.cs:34`): both audio handles are present; `Legacy.LegacyAlert.Update` states when it holds.
- `Splice.PieceShape` and `Splice.SpliceFromHit` (`ChatWatcher.cs:84-98`): proof helpers that unfold one hit of `Splice.SpliceFrom`.

## Left out

- Drawing: all ImGui layout, tooltips, fonts, the colour preview, and the `UIColor` sheet decoding into float RGBA. Alert names, the colour combos and the sound-effect chooser are plain field writes. The custom-sound inputs and the regex/case checkboxes (`ChatAlerts/Gui/Interface.cs:199-203, 215-219, 440-470`) are represented by `Alert.UpdateRegex` and `Alert.UpdateAudio`.
- The "All" checkbox ending the channel loop early (`Config.cs:173`, `ChatAlerts/Gui/Interface.cs:279-280`) only affects which checkboxes are drawn.
- Volume: a float that the file reader receives. It has no effect on the presence of the handles, so it is not modelled.
- Audio playback itself (NAudio `Stop`, `Position = 0`, `Play`) and the game's sound function: a started sound is a returned `SoundEvent`.
- Regex engine: the compiled pattern is an oracle whose hits lie in bounds. `new Regex` succeeding or throwing is `Platform.compile`. The earlier plugin's `NextMatch` is modelled as searching again from the end of a hit, one character further for an empty hit.
- Culture-invariant comparison: `InvariantCulture` (`ChatAlerts/Alert.cs:59`, `Plugin.cs:160`) is culture-sensitive; it is modelled as exact character comparison. `InvariantCultureIgnoreCase` is modelled as an ASCII case fold that preserves length. Unicode case mapping, ignorable characters and culture-specific equivalences are not modelled.
- Host wiring: event subscription, commands, the debug sound hook (`Plugin.cs:51-59`), logging, `ChatWatcher.Dispose` (event unsubscription), and `Config.Init` (references to the plugin and the host).
- Configuration persistence: `Save` is a counter, and the file format is not modelled.
- `SeString` construction: a message is its payload list, and `new SeString(payloads)` is the list itself.
- Concurrency: the host calls the plugin on one thread, so the model is sequential.
- Alerts.Alert.Update: uses `UpdateAudioReleasing`, the corrected audio update, rather than the source's `UpdateAudio`; see Findings. `Alerts.AlertCache.UpdateAudio` is the as-written one. The same holds for `Alerts.Alert.UpdateAudio`, and through them for the watcher's `UpdateAlert` and the windows.
- Watcher.ChatWatcher.HandleAlert: decides the match with `Match`, as written, but its highlight loop searches onwards with `ScanMatch` (zero-width hits passed over), the corrected loop; see Findings. On every literal alert and every hit of positive length the two agree (`Alerts.ScanAgreesWithMatch`).
- Legacy.LegacyAlert.Update: modelled as written, including the same-file leak (the last ensures states it). The model does not correct it.
- LegacySplice.LegacyAllNoEmpty: stated for literal alerts only. A regex hit of length zero is emitted as an empty text run (`Plugin.cs:145`), so no such promise holds for regex alerts.

Facts about the code that the model keeps as they are:

- `UpdateRegex`'s empty-input check (`ChatAlerts/AlertCache.cs:46-47`) rejects only patterns that match the empty input; `(?=.)` and `\b` pass it.
- The current `UpdateAudio` (`ChatAlerts/AlertCache.cs:74-79`) releases the old audio handles only when the file name changes.
- In the current plugin, deleting an alert or unchecking a channel never shrinks the gate. Only `UpdateAllAlerts`, at start-up, recomputes it. The earlier plugin re-indexes after every change (`Config.cs:409-412`).

## Findings

| source | as written | input that shows it | evidently intended | confidence | as-written member | corrected member |
|---|---|---|---|---|---|---|
| ChatWatcher.cs:82-101, ChatAlerts/AlertCache.cs:46-47 | the splice loop searches again from `idx.From + idx.Length`; the only guard against zero-width hits rejects patterns that match the empty input | a regex alert with pattern `(?=.)` on the text run "a": the pattern passes the guard, `Match("a", 0)` is (0, 0), `oldIdx` stays 0, and the loop never ends (each round appends an empty text payload) | every round moves past the hit and the loop ends: a zero-width hit, which has no text to bracket, is passed over by searching again one character further on (.NET `NextMatch` would report it and then resume one character on); whether the alert matched is still decided by the first `Match`, empty hits included | not executed | Watcher.ZeroWidthLoopStalls, Watcher.NextIdxAsWritten | Matching.Scan, Watcher.ScanAlwaysAdvances, Watcher.ChatWatcher.SpliceText, Watcher.ZeroWidthHitMatches |
| ChatAlerts/AlertCache.cs:74-79 | the old handles are disposed only when the stored file name differs from `SoundPath`; the new ones then overwrite the fields | an alert with PlaySound and CustomSound on "ping.wav" updated twice, for example by moving its volume slider (`ChatAlerts/Gui/Interface.cs:440-470`): the first reader and output device stay open and are no longer reachable | the handles the cache holds are released before new ones are opened | not executed | Alerts.ReopenLeaks, Alerts.AlertCache.UpdateAudio | Alerts.AlertCache.UpdateAudioReleasing, Alerts.ReopenReleases |

The earlier `Alert.Update` (`Alert.cs:50-57`) has the same condition and the same leak. `Legacy.LegacyAlert.Update` models it as written.
