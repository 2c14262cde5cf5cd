# NVDA Volume Adjustment: the audio-source engine in Dafny

This project models the engine of the NVDA Volume Adjustment add-on in Dafny. The engine lets a user step through the audio sources: first the output devices, then the running processes that own an audio session. It raises, lowers, mutes and unmutes the selected source, selects one of a device's channels, and announces what it did. The model covers these parts:

- `Configurations` (configuration.dfy): the persisted bookkeeping. It holds the hidden devices and hidden processes, and the list of sources the add-on muted, which behaves as a set.
- `Levels` (levels.dfy): the level arithmetic. Levels are reals in [0, 1], every step is taken on whole percentage points, and a partial mute scales the level down and back up.
- `Driver` (driver.dfy): the operating-system side, reduced to data. A volume handle is a master level, a native mute flag and the channel levels. A live session is a process name, a display name and a handle. An enumerated endpoint is an id, a friendly name and the handle its activation yields (null when activation fails).
- `Audio` (audiosource.dfy): `AudioSource` with its device and session kinds, as a class over such a handle. It covers stepping, max and min, mute and unmute, the channel operations and the channel average.
- `Devices` (devices.dfy): the device list of audiocore.py. It is built from the enumeration, with the default device first, and a default device is synthesised when none is listed.
- `Sessions` (sessions.dfy): looking up a process's session by substring (with two fallbacks), and the session's title.
- `Legacy` (legacy.dfy): the older device list and session object of core.py.
- `Plugin` (plugin.dfy): `GlobalPlugin`, the selector state machine. Its state is the cursor `_index`, `_previous` and `_process`. It covers following the focus, the next and previous gestures, the volume, mute and channel gestures, and the choice of output device. What the add-on says is appended to a ghost list of `Announcement` values.
- `Options` (options.dfy): the add-on's settings, passed around as a value.
- `Base`, `Strings`: the host-language behaviour the engine relies on. `Base` has floor modulo, negative list indexing, `list.index`, `list.remove` and `list(set(...))`. `Strings` has lower-casing (ASCII and Latin-1 capitals only), substring search, `str.replace` and dot splitting.

The driver's getters and setters become reads and writes of the handle class. A missing handle (null) makes every getter answer -1.0 or 0 channels and every setter do nothing, which is the effect of the `AttributeError`/`TypeError` handlers in the source.

## Model

| member | source | states |
|---|---|---|
| Base.FloorMod | addon/globalPlugins/volumeAdjustment/__init__.py:343 | The host `%` operator: the result lies in [0, b) for a positive divisor and in (b, 0] for a negative one, and is 0 for the divisor -1 |
| Base.FloorModStepBack | addon/globalPlugins/volumeAdjustment/__init__.py:343 | One step forward and then one step back modulo n return to the start, and so does the reverse order |
| Base.At | addon/globalPlugins/volumeAdjustment/__init__.py:187-192 | `s[k]`: None exactly when the index raises IndexError; otherwise the element, with negative indexes counted from the end |
| Base.IndexOf | addon/globalPlugins/volumeAdjustment/__init__.py:340-342 | `s.index(x)`: None exactly when x is absent (ValueError); otherwise a position holding x with no earlier occurrence |
| Base.IndexOfFirst | addon/globalPlugins/volumeAdjustment/__init__.py:340 | No position before `s.index(x)` holds x |
| Base.IndexOfNoDups | addon/globalPlugins/volumeAdjustment/__init__.py:340 | In a list without duplicates, `s.index(s[i])` is i |
| Base.RemoveFirstContents | addon/globalPlugins/volumeAdjustment/audiocore.py:148 | `list.remove` leaves a list without x unchanged; otherwise it removes exactly one occurrence (length minus one, multiset minus x) |
| Base.RemoveFirstMembers | addon/globalPlugins/volumeAdjustment/audiocore.py:148 | Removal adds no element and keeps every element other than x |
| Base.RemoveFirstNoDups | addon/globalPlugins/volumeAdjustment/audiocore.py:148 | In a list without duplicates, removal keeps it duplicate-free and leaves no x behind |
| Base.RemoveFirstSnoc | addon/globalPlugins/volumeAdjustment/audiocore.py:136-148 | Removing a name just appended (and absent before) gives back the original list |
| Base.Dedup | addon/globalPlugins/volumeAdjustment/__init__.py:163 | `list(set(s))`: no duplicates, and the same members as s |
| Strings.RemoveAllWithoutOccurrence | addon/globalPlugins/volumeAdjustment/audiocore.py:703 | `replace('.exe', '')` leaves a string without ".exe" unchanged |
| Strings.RemoveExeExtension | addon/globalPlugins/volumeAdjustment/audiocore.py:703 | `replace('.exe', '')` turns `stem.exe` into stem whenever stem itself holds no ".exe", dots included ("Microsoft.Photos.exe" becomes "Microsoft.Photos") |
| Strings.SplitDotsSingle | addon/globalPlugins/volumeAdjustment/core.py:142 | `split('.')` yields a single piece exactly when there is no dot |
| Strings.LastDotFindsDot | addon/globalPlugins/volumeAdjustment/core.py:142 | The last-dot search fails exactly when the name has no dot |
| Strings.LastDotIsLast | addon/globalPlugins/volumeAdjustment/core.py:142 | No dot follows the position found |
| Strings.DottedTitleShape | addon/globalPlugins/volumeAdjustment/core.py:142 | `' '.join(name.split('.')[:-1])` is "" for a name without a dot; otherwise it is the part before the last dot with its dots turned into spaces |
| Levels.Round | addon/globalPlugins/volumeAdjustment/audiocore.py:293 | `round(x)` is within half a unit of x |
| Levels.Truncate | addon/globalPlugins/volumeAdjustment/__init__.py:134 | `int(x)` truncates toward zero: within one unit of x, on the side of zero |
| Levels.PercentBounds | addon/globalPlugins/volumeAdjustment/audiocore.py:293 | A level in [0, 1] rounds to a whole percentage in 0..100 |
| Levels.StepUpRange | addon/globalPlugins/volumeAdjustment/audiocore.py:291-293 | A step up lands on a whole percentage in (0, 1], exactly `step` points above the rounded start unless clamped at 1 |
| Levels.StepDownRange | addon/globalPlugins/volumeAdjustment/audiocore.py:303-305 | A step down lands on a whole percentage in [0, 1), exactly `step` points below the rounded start unless clamped at 0 |
| Levels.StepUpThenDown | addon/globalPlugins/volumeAdjustment/audiocore.py:284-306 | Away from the clamp, a step up and a step down return to the rounded start, within half a point of the original level |
| Levels.StepDownThenUp | addon/globalPlugins/volumeAdjustment/audiocore.py:284-306 | Away from the clamp, a step down and a step up return to the rounded start |
| Levels.DownsFormula | addon/globalPlugins/volumeAdjustment/audiocore.py:303-305 | After k steps down the level is max(0, round(level·100) − k·step)/100 |
| Levels.DownsReachZero | addon/globalPlugins/volumeAdjustment/audiocore.py:303-305 | Repeated steps down reach exactly 0 within ceil(100/step) presses, which is where volume down turns into a mute |
| Levels.RestoreRange | addon/globalPlugins/volumeAdjustment/audiocore.py:366-368 | The unmute formula `min(1, round(level·100)/(100−p))` gives a level in [0, 1] |
| Levels.AttenuateRange | addon/globalPlugins/volumeAdjustment/audiocore.py:349 | A partial mute lowers a level in [0, 1] and keeps it non-negative |
| Levels.AttenuateThenRestore | addon/globalPlugins/volumeAdjustment/audiocore.py:349-368 | A partial mute followed by an unmute gives back the level within 1/(2·(100−p)) |
| Levels.RoundedRatio | addon/globalPlugins/volumeAdjustment/audiocore.py:366-368 | A level in [0, 1] scaled by q, rounded and divided by q again lies in [0, 1] and within 1/(2q) of the level, so the `min(1.0, …)` of the unmute never clamps |
| Levels.SumBounds | addon/globalPlugins/volumeAdjustment/audiocore.py:474-476 | The sum of n channel levels in [0, 1] lies in [0, n] |
| Levels.MeanBounds | addon/globalPlugins/volumeAdjustment/audiocore.py:474-476 | The mean of channel levels in [0, 1] lies in [0, 1] |
| Levels.MeanConstant | addon/globalPlugins/volumeAdjustment/audiocore.py:474-478 | Channels that all hold one level average to that level, so averaging twice changes nothing |
| Options.Defaults | addon/globalPlugins/volumeAdjustment/__init__.py:61-71 | The declared defaults respect the declared ranges of the step and the mute percentage; status, focus and duplicates are on; advanced and complete mute are off |
| Configurations.AddMutedTo | addon/globalPlugins/volumeAdjustment/audiocore.py:135-138 | `addMuted` as intended: a non-empty name ends up listed; the members are the old ones plus that name; no duplicates are introduced; an empty or listed name changes nothing |
| Configurations.AddMutedAsWrittenDropsFirstName | addon/globalPlugins/volumeAdjustment/audiocore.py:126-137 | As written, the first name added to a document without a "muted" key is stored as an empty list, while the intended version stores it |
| Configurations.AddMutedAsWrittenAgrees | addon/globalPlugins/volumeAdjustment/audiocore.py:135-137 | Once the key exists, the code as written and the intended version agree |
| Configurations.DelMutedFrom | addon/globalPlugins/volumeAdjustment/audiocore.py:147-153 | `delMuted`: an absent name leaves the document as it was; other names keep their membership; without duplicates the name is no longer listed |
| Configurations.AddThenDelMuted | addon/globalPlugins/volumeAdjustment/audiocore.py:128-153 | Adding an unlisted name and then deleting it restores the muted list |
| Configurations.Configuration.constructor | addon/globalPlugins/volumeAdjustment/audiocore.py:32-50 | A document without saved data: nothing hidden, no "muted" key |
| Configurations.Configuration.SetDevices | addon/globalPlugins/volumeAdjustment/audiocore.py:73-81 | The devices setter replaces the hidden devices and nothing else |
| Configurations.Configuration.SetProcesses | addon/globalPlugins/volumeAdjustment/audiocore.py:92-100 | The processes setter replaces the hidden processes and nothing else |
| Configurations.Configuration.IsChangedDevices | addon/globalPlugins/volumeAdjustment/audiocore.py:109 | True exactly when the sets of device ids differ; names are not compared |
| Configurations.Configuration.IsChangedProcesses | addon/globalPlugins/volumeAdjustment/audiocore.py:118 | False exactly when both lists have the same members, whatever their order and repetitions |
| Configurations.Configuration.AddMuted | addon/globalPlugins/volumeAdjustment/audiocore.py:128-138 | The stored list becomes the intended `addMuted` result; hidden devices and processes are untouched |
| Configurations.Configuration.DelMuted | addon/globalPlugins/volumeAdjustment/audiocore.py:140-153 | The stored list becomes the `delMuted` result; hidden devices and processes are untouched |
| Sessions.NamedSessions | addon/globalPlugins/volumeAdjustment/audiocore.py:660-662 | Every kept session has a process with a non-empty name, and no more sessions are kept than exist |
| Sessions.NamedSessionsMembers | addon/globalPlugins/volumeAdjustment/audiocore.py:660-662 | The kept sessions are exactly the live sessions with a named process |
| Sessions.FirstMatch | addon/globalPlugins/volumeAdjustment/audiocore.py:673 | The first session whose process name contains the query, compared after `Strings.Lower` (which folds ASCII and Latin-1 capitals only); None exactly when no session does |
| Sessions.FirstMatchUnique | addon/globalPlugins/volumeAdjustment/audiocore.py:673 | A first match is unique, so it is the index the search finds; with no match the search finds none |
| Sessions.SelectAudioSession | addon/globalPlugins/volumeAdjustment/audiocore.py:666-675 | The first session matching the name is chosen; when none matches, the first matching "nvda.exe"; when neither matches, the first session. The list must be non-empty because the last fallback is evaluated eagerly |
| Sessions.SelectFirstMatch | addon/globalPlugins/volumeAdjustment/audiocore.py:673 | The first session matching the query is the one selected |
| Sessions.SelectNvdaFallback | addon/globalPlugins/volumeAdjustment/audiocore.py:674 | With no match, the first session of "nvda.exe" is selected |
| Sessions.SelectFirstFallback | addon/globalPlugins/volumeAdjustment/audiocore.py:675 | With neither matching, the first session is selected |
| Sessions.SessionTitle | addon/globalPlugins/volumeAdjustment/audiocore.py:696-703 | The system-sounds resource reads "System Sound"; any other non-empty display name is kept; an empty one falls back to the process name with ".exe" removed, which is the process name itself when it holds no ".exe" |
| Sessions.SessionTitleOfExecutable | addon/globalPlugins/volumeAdjustment/audiocore.py:703 | A session without a display name whose process is `stem.exe`, with no other ".exe" in stem, is titled stem |
| Audio.AudioSource.Device | addon/globalPlugins/volumeAdjustment/audiocore.py:188-206 | A device source holds the id, name, handle and default flag given, channel 0 |
| Audio.AudioSource.Session | addon/globalPlugins/volumeAdjustment/audiocore.py:655-713 | A session source has the query as id, and the name, display name and handle of the session `selectAudioSession` chooses among the named ones |
| Audio.AudioSource.VolumeLevel | addon/globalPlugins/volumeAdjustment/audiocore.py:486-495 | -1.0 without a handle; a valid handle's level lies in [0, 1] |
| Audio.AudioSource.ChannelCount | addon/globalPlugins/volumeAdjustment/audiocore.py:510-519 | Sessions report -1; devices report the handle's channel count, 0 without a handle |
| Audio.AudioSource.ChannelLevel | addon/globalPlugins/volumeAdjustment/audiocore.py:521-534 | A non-negative result only for a device channel that exists, and for a valid handle exactly then (the missing-channel case modelled as -1.0) |
| Audio.AudioSource.SetChannel | addon/globalPlugins/volumeAdjustment/audiocore.py:241-250 | The stored channel is the number modulo the channel count, in [0, count) when count > 0 and 0 otherwise |
| Audio.AudioSource.SetVolumeLevel | addon/globalPlugins/volumeAdjustment/audiocore.py:498-507 | Writes the master level when there is a handle; mute flag and channels untouched |
| Audio.AudioSource.SetChannelVolumeLevel | addon/globalPlugins/volumeAdjustment/audiocore.py:536-549 | Writes one existing device channel, nothing else; nothing for sessions or missing channels |
| Audio.AudioSource.Mute | addon/globalPlugins/volumeAdjustment/audiocore.py:339-354 | Fails only in complete mode without a handle; on success the id is added to the muted list; complete mode sets the native flag, partial mode scales an unmuted level by (100−p)/100; afterwards the source reads muted |
| Audio.AudioSource.Unmute | addon/globalPlugins/volumeAdjustment/audiocore.py:356-373 | Fails exactly without a handle, leaving the list untouched; otherwise clears the native flag, restores a partially muted level, removes the id, and the source no longer reads muted |
| Audio.AudioSource.UnmuteIfMuted | addon/globalPlugins/volumeAdjustment/audiocore.py:289 | `self.isMuted and self.unmute()`: afterwards the level is the unmuted level and the source is not muted |
| Audio.AudioSource.VolumeUp | addon/globalPlugins/volumeAdjustment/audiocore.py:284-294 | Returns and writes `min(1, (round(level·100)+step)/100)` of the unmuted level, a whole percentage in (0, 1]; unmutes first |
| Audio.AudioSource.VolumeDown | addon/globalPlugins/volumeAdjustment/audiocore.py:296-306 | Returns and writes `max(0, (round(level·100)−step)/100)` of the unmuted level, a whole percentage in [0, 1); unmutes first |
| Audio.AudioSource.VolumeMax | addon/globalPlugins/volumeAdjustment/audiocore.py:308-316 | Unmutes, sets 1.0 and reports it (-1.0 without a handle) |
| Audio.AudioSource.VolumeMin | addon/globalPlugins/volumeAdjustment/audiocore.py:318-326 | Unmutes, sets 0.0 and reports it (-1.0 without a handle) |
| Audio.AudioSource.ChannelVolumeUp | addon/globalPlugins/volumeAdjustment/audiocore.py:407-422 | A negative channel level is returned unchanged and nothing is written; otherwise the channel goes one step up and only that channel changes |
| Audio.AudioSource.ChannelVolumeDown | addon/globalPlugins/volumeAdjustment/audiocore.py:424-439 | As channel up, one step down |
| Audio.AudioSource.ChannelVolumeMax | addon/globalPlugins/volumeAdjustment/audiocore.py:441-452 | Sets an existing channel to 1.0 and reports 1.0; -1.0 otherwise |
| Audio.AudioSource.ChannelVolumeMin | addon/globalPlugins/volumeAdjustment/audiocore.py:454-465 | Sets an existing channel to 0.0 and reports 0.0; -1.0 otherwise |
| Audio.AudioSource.SumChannels | addon/globalPlugins/volumeAdjustment/audiocore.py:474-476 | The loop over the channels computes their sum |
| Audio.AudioSource.FillChannels | addon/globalPlugins/volumeAdjustment/audiocore.py:477-478 | The loop writes the level into every channel and nothing else |
| Audio.AudioSource.ChannelVolumeAverage | addon/globalPlugins/volumeAdjustment/audiocore.py:467-479 | -1.0 and no change without channels; otherwise every channel is set to the mean of the old levels, which is returned and stays within [0, 1] |
| Devices.DefaultsOf | addon/globalPlugins/volumeAdjustment/audiocore.py:586-589 | The admitted endpoints with the default id, all flagged default |
| Devices.OthersOf | addon/globalPlugins/volumeAdjustment/audiocore.py:590-591 | The other admitted endpoints, none flagged default |
| Devices.ScannedShape | addon/globalPlugins/volumeAdjustment/audiocore.py:574-591 | The scan loop puts the default devices first (the last one seen at index 0), then the others in enumeration order |
| Devices.NameByIdMissing | addon/globalPlugins/volumeAdjustment/audiocore.py:606-618 | Without an endpoint of that id the name is a single space |
| Devices.NameByIdFirst | addon/globalPlugins/volumeAdjustment/audiocore.py:617-618 | Otherwise it is the friendly name of the first endpoint with that id |
| Devices.RegistryRaises | addon/globalPlugins/volumeAdjustment/audiocore.py:568-603 | The list lacks a default device exactly when `initialize` raised, which happens when the scan listed no default and the default endpoint's activation (outside any `try`) fails; the list is then the scanned one: the admitted endpoints with `advanced` on, empty otherwise |
| Devices.RegistryDefaultFirst | addon/globalPlugins/volumeAdjustment/audiocore.py:568-603 | When `initialize` returns, the list is non-empty and index 0 holds a device flagged default |
| Devices.RegistryWithoutAdvanced | addon/globalPlugins/volumeAdjustment/audiocore.py:569-603 | With `advanced` off the list is exactly the synthesised default device, or empty when its activation raises |
| Devices.RegistryOthers | addon/globalPlugins/volumeAdjustment/audiocore.py:586-591 | The list ends with the other admitted endpoints in enumeration order, and everything before them is flagged default |
| Devices.ScannedAdmitted | addon/globalPlugins/volumeAdjustment/audiocore.py:576-586 | Every scanned device comes from an endpoint that activated, has an id and a name, and is not hidden |
| Devices.UniqueDefault | addon/globalPlugins/volumeAdjustment/audiocore.py:586-603 | When at most one admitted endpoint has the default id, only index 0 is flagged default |
| Devices.DeviceRegistry.constructor | addon/globalPlugins/volumeAdjustment/audiocore.py:555-557 | The list starts empty |
| Devices.DeviceRegistry.AddMixer | addon/globalPlugins/volumeAdjustment/audiocore.py:575-591 | One endpoint: nothing when it is not admitted; otherwise a fresh device, put first when it has the default id and last otherwise |
| Devices.DeviceRegistry.ScanEndpoints | addon/globalPlugins/volumeAdjustment/audiocore.py:574-591 | The loop builds exactly the scanned list, of fresh device sources |
| Devices.DeviceRegistry.Initialize | addon/globalPlugins/volumeAdjustment/audiocore.py:559-604 | The list is rebuilt as the registry of the enumeration, the default endpoint and the hidden ids; `raised` is true exactly when the default endpoint's activation raises, and the scanned list is then left behind |
| Devices.DeviceRegistry.AddDefaultIfMissing | addon/globalPlugins/volumeAdjustment/audiocore.py:592-603 | Without a device flagged default, the synthesised default is put first; when its activation fails it raises and the list is kept; with a default the list is kept |
| Devices.DeviceRegistry.Length | addon/globalPlugins/volumeAdjustment/audiocore.py:627-632 | The number of devices listed |
| Devices.DeviceRegistry.Get | addon/globalPlugins/volumeAdjustment/audiocore.py:634-641 | `devices[index]`: None exactly when the index raises IndexError, else the listed device |
| Legacy.ActivatedDefaults | addon/globalPlugins/volumeAdjustment/core.py:94-96 | The activated endpoints with the default id, flagged default |
| Legacy.ActivatedOthers | addon/globalPlugins/volumeAdjustment/core.py:97-98 | The other activated endpoints, not flagged default |
| Legacy.LegacyExtendShape | addon/globalPlugins/volumeAdjustment/core.py:73-98 | The loop wraps the old list: the default devices in front (the last one seen first), the old list untouched, then the others in order; failed activations are skipped |
| Legacy.RepeatedInitializeDuplicates | addon/globalPlugins/volumeAdjustment/core.py:68-98 | The list is never cleared: a second `initialize` over the same enumeration doubles it |
| Legacy.LegacyDevices.constructor | addon/globalPlugins/volumeAdjustment/core.py:68-71 | No devices and no default id yet |
| Legacy.LegacyDevices.Initialize | addon/globalPlugins/volumeAdjustment/core.py:73-98 | The loop extends the current list as the extension function describes |
| Legacy.LegacyDevices.Get | addon/globalPlugins/volumeAdjustment/core.py:100-114 | `devices[index]` over exactly the stored list: None exactly when it raises IndexError, negative indexes counted from the end |
| Legacy.LastExactIndex | addon/globalPlugins/volumeAdjustment/core.py:150-153 | The last live session whose process name equals the name; None exactly when there is none |
| Legacy.LegacySession.constructor | addon/globalPlugins/volumeAdjustment/core.py:120-126 | Holds the name, and no volume interface yet |
| Legacy.LegacySession.GetVolume | addon/globalPlugins/volumeAdjustment/core.py:144-154 | A cached interface is returned as it is; otherwise the last exact match is looked up and cached (null when there is none) |
| Plugin.VisibleProcesses | addon/globalPlugins/volumeAdjustment/__init__.py:160-162 | Only non-empty names of processes that are not hidden, at most one per live session |
| Plugin.VisibleProcessesMembers | addon/globalPlugins/volumeAdjustment/__init__.py:160-162 | Every named, non-hidden session's process is listed, and every listed name is such a process |
| Plugin.AllSessions | addon/globalPlugins/volumeAdjustment/__init__.py:160-163 | The same members as the visible processes; no duplicates when `duplicates` is on; exactly them otherwise |
| Plugin.NextIndex | addon/globalPlugins/volumeAdjustment/__init__.py:297 | From -1 or more, the next cursor is in range, or 0 |
| Plugin.PrevIndex | addon/globalPlugins/volumeAdjustment/__init__.py:313 | The previous cursor is in range; from 0 or below it is the last source |
| Plugin.NextCycle | addon/globalPlugins/volumeAdjustment/__init__.py:297 | Pressing next once per source comes back to the start |
| Plugin.NextPrevInverse | addon/globalPlugins/volumeAdjustment/__init__.py:297-313 | Next and previous undo each other on every valid cursor |
| Plugin.FirstContaining | addon/globalPlugins/volumeAdjustment/__init__.py:294 | The first session name containing the process; None exactly when none does |
| Plugin.FocusPositionFirst | addon/globalPlugins/volumeAdjustment/__init__.py:292-296 | The focus position is the device count plus the position of the first session containing the process; with none (and no empty name) the lookup raises |
| Plugin.CursorRange | addon/globalPlugins/volumeAdjustment/__init__.py:291-314 | From a valid cursor or -1, next and previous land on a source; with no sources next gives 0 |
| Plugin.NextFromFocus | addon/globalPlugins/volumeAdjustment/__init__.py:292-313 | Following the focus, next and previous move from the first session containing the process |
| Plugin.NeitherFromFocus | addon/globalPlugins/volumeAdjustment/__init__.py:292-313 | With no session containing the process, next lands on the first session (0 without sessions) and previous on the last source |
| Plugin.PickProcessChoice | addon/globalPlugins/volumeAdjustment/__init__.py:186-192 | The slot under the cursor, else the last session, else the undefined application, which is chosen exactly when there are no sessions |
| Plugin.OutputDeviceNames | addon/globalPlugins/volumeAdjustment/__init__.py:335-338 | Only the first entry may change: an empty one, or the mapper's own name, reads as the sound mapper |
| Plugin.SelectOutputDevice | addon/globalPlugins/volumeAdjustment/__init__.py:335-343 | The device chosen is listed; counting starts from 0 when the configured device is not listed |
| Plugin.SelectOutputDeviceAt | addon/globalPlugins/volumeAdjustment/__init__.py:339-343 | For distinct names, selecting from the k-th listed device yields the device `step` places on, modulo the list length |
| Plugin.SelectOutputDeviceBack | addon/globalPlugins/volumeAdjustment/__init__.py:339-343 | For distinct names, selecting the next and then the previous device comes back to the configured one, and conversely |
| Plugin.FocusAsWrittenNeverMisses | addon/globalPlugins/volumeAdjustment/__init__.py:115-126 | As written, an application without a session is still reported found, and a process not matching it is selected |
| Plugin.FocusedProcess | addon/globalPlugins/volumeAdjustment/__init__.py:115-126 | As intended: None exactly when no named session matches the application; otherwise a matching non-empty process name |
| Plugin.FocusedProcessAgrees | addon/globalPlugins/volumeAdjustment/__init__.py:120-125 | Where the application does play sound, the intended and the written lookups select the same process |
| Plugin.GlobalPlugin.constructor | addon/globalPlugins/volumeAdjustment/__init__.py:75-81 | Cursor 0, no process, no previous title, nothing said |
| Plugin.GlobalPlugin.EventGainFocus | addon/globalPlugins/volumeAdjustment/__init__.py:105-107 | With focus following on, the cursor becomes -1 and the previous title the undefined application; otherwise nothing changes |
| Plugin.GlobalPlugin.SelectProcessInFocus | addon/globalPlugins/volumeAdjustment/__init__.py:110-126 | Found exactly when the application has a matching session, whose process is then selected; otherwise "not playing" is said and the process is kept |
| Plugin.GlobalPlugin.AnnounceDevice | addon/globalPlugins/volumeAdjustment/__init__.py:179-198 | Says the device's name (with the default prefix) and, when status reports are on, its mute state or level |
| Plugin.GlobalPlugin.SelectSession | addon/globalPlugins/volumeAdjustment/__init__.py:185-198 | Picks the process for the cursor, records it as the previous one, and says its session's title and status |
| Plugin.GlobalPlugin.SelectAudioSource | addon/globalPlugins/volumeAdjustment/__init__.py:173-198 | The device half or the session half, by whether the cursor is on a device |
| Plugin.GlobalPlugin.GetAudioSource | addon/globalPlugins/volumeAdjustment/__init__.py:200-215 | A device slot yields that device and resets the previous title; otherwise the process's session, whose title is said only when its name differs from the previous one |
| Plugin.GlobalPlugin.ScriptVolumeUp | addon/globalPlugins/volumeAdjustment/__init__.py:219-226 | Without a valid cursor and without a session of the focused application, says "not playing" and changes nothing else: cursor, process, previous title, configuration and every volume handle are as before; otherwise the source under the cursor (a device, or the selected process's session) has its handle set to the step up of its unmuted level, unmuted, with channels untouched; the id leaves the muted list exactly when the source was muted and has a handle; the new level is said last; on success the selected process is the focused application's (after the focus lookup) or the old one, the previous title is reset on a device slot and is the session's name otherwise, the hidden lists and every other volume handle are unchanged |
| Plugin.GlobalPlugin.VolumeUpSelected | addon/globalPlugins/volumeAdjustment/__init__.py:224-226 | Past the focus check: the source under the cursor is stepped up as in `script_volumeUp`, with the same new handle state and muted list, and the level is said last; the previous title is reset on a device slot and is the session's name otherwise; the hidden lists and every other volume handle are unchanged |
| Plugin.GlobalPlugin.StepUpSource | addon/globalPlugins/volumeAdjustment/__init__.py:226 | `volumeUp` then the announcement: the level is the step up of the unmuted level; the handle holds it, unmuted, channels untouched; `unmute` drops the id from the muted list exactly when the source was muted and has a handle; hidden lists untouched; the level is said |
| Plugin.GlobalPlugin.ScriptVolumeDown | addon/globalPlugins/volumeAdjustment/__init__.py:230-243 | Without a valid cursor and without a session of the focused application, says "not playing" and changes nothing else: cursor, process, previous title, configuration and every volume handle are as before; otherwise the handle gets the step down of the unmuted level, natively muted exactly when the level reached zero in complete mode, channels untouched; the muted list loses the id when `volumeDown` unmuted and gains it again when the zero level was muted; the level, or "muted" at zero, is said last; on success the selected process is the focused application's (after the focus lookup) or the old one, the previous title is reset on a device slot and is the session's name otherwise, the hidden lists and every other volume handle are unchanged |
| Plugin.GlobalPlugin.VolumeDownSelected | addon/globalPlugins/volumeAdjustment/__init__.py:234-243 | Past the focus check: the source under the cursor is stepped down, muted at zero, with the handle state, muted list and announcement of `script_volumeDown`; the previous title is reset on a device slot and is the session's name otherwise; the hidden lists and every other volume handle are unchanged |
| Plugin.GlobalPlugin.StepDownSource | addon/globalPlugins/volumeAdjustment/__init__.py:237-243 | `volumeDown`, and `mute` at zero: the handle holds the step down of the unmuted level, natively muted exactly at zero in complete mode, channels untouched; the muted list is the `delMuted` of the unmute followed by the `addMuted` of the mute at zero (skipped only when a complete mute has no handle); a level above zero is said, else "muted", and the source then reads muted |
| Plugin.GlobalPlugin.ScriptMute | addon/globalPlugins/volumeAdjustment/__init__.py:269-282 | Without a valid cursor and without a session of the focused application, says "not playing" and changes nothing else: cursor, process, previous title, configuration and every volume handle are as before; otherwise a muted source is unmuted (its handle gets the unmuted level and loses the native flag, and the id leaves the muted list) and its level said, and an unmuted one is muted (complete mode sets the native flag, partial mode scales the level by (100−p)/100, and the id joins the muted list) and "muted" said; on success the selected process is the focused application's (after the focus lookup) or the old one, the previous title is reset on a device slot and is the session's name otherwise, the hidden lists and every other volume handle are unchanged |
| Plugin.GlobalPlugin.MuteSelected | addon/globalPlugins/volumeAdjustment/__init__.py:273-282 | Past the focus check: the source under the cursor is toggled, with the handle state, muted list and announcement of `script_mute`; the previous title is reset on a device slot and is the session's name otherwise; the hidden lists and every other volume handle are unchanged |
| Plugin.GlobalPlugin.ToggleMute | addon/globalPlugins/volumeAdjustment/__init__.py:276-282 | The mute state read before acting decides: a muted source gets its unmuted level back on an unmuted handle, leaves the muted list (when it has a handle), no longer reads muted, and its level is said; an unmuted one is muted natively or by scaling its level, joins the muted list (unless a complete mute has no handle), reads muted, and "muted" is said; channels and hidden lists untouched |
| Plugin.GlobalPlugin.ScriptNext | addon/globalPlugins/volumeAdjustment/__init__.py:286-298 | The cursor becomes the next source (resolving -1 from the focus) and that source is announced |
| Plugin.GlobalPlugin.MoveNext | addon/globalPlugins/volumeAdjustment/__init__.py:291-297 | The cursor move of next, nothing else changed |
| Plugin.GlobalPlugin.ScriptPrev | addon/globalPlugins/volumeAdjustment/__init__.py:302-314 | The cursor becomes the previous source (resolving -1 from the focus) and that source is announced |
| Plugin.GlobalPlugin.MovePrev | addon/globalPlugins/volumeAdjustment/__init__.py:307-313 | The cursor move of previous, nothing else changed |
| Plugin.GlobalPlugin.ScriptStepChannel | addon/globalPlugins/volumeAdjustment/__init__.py:407-439 | Aborts without a focused session; a source without channels says "not supported"; otherwise the next or previous channel, modulo the count, is selected and announced; no other device's channel changes; on success the selected process is the focused application's (after the focus lookup) or the old one, and the previous title is reset on a device slot and is the session's name otherwise |
| Plugin.GlobalPlugin.StepChannelOf | addon/globalPlugins/volumeAdjustment/__init__.py:414-421 | Without channels, "not supported" and no change; otherwise the channel moves by one modulo the count, and its number and status are said |

## Left out

- Driver calls (endpoint and session enumeration, activation, `GetId`, `Process.name()`) are inputs. The enumeration is a sequence of `Mixer` records, the live sessions are a sequence of `LiveSession` records, the default endpoint's id and handle are parameters (a null handle is an activation that fails, which `initialize` does not catch), and an enumeration failure is an empty sequence.
- The focused application's name (`getFocusObject().appModule.appName`) is a parameter of the gestures.
- The settings (`config.conf[addonName]`) are a `Settings` value passed in.
- `Configuration.load` and `save` read and write a JSON file. That is I/O, so the in-memory document is the model.
- `VAAudioDevices.scan` and `terminate` run work on a thread. The model calls `initialize` synchronously, and there is no concurrency.
- Floating point: levels are Dafny reals, and `round` rounds halves upwards rather than to even.
- Text is not modelled: the wording and translation of messages, and `ui.message`. Announcements are values of a datatype.
- `AllSessions`: `list(set(...))` has no defined order in the source; the model keeps each name's first occurrence.
- Audio.AudioSource.ChannelLevel: a channel index the driver rejects raises a COM error in the source; the model answers -1.0 there and writes nothing.
- Plugin.SelectOutputDevice: requires a non-empty list of output device names. On an empty list the source raises IndexError at `devices[0]` (__init__.py:337); that error path is not modelled.
- Strings.Lower: folds only the ASCII capitals and the Latin-1 capitals U+00C0 to U+00DE, while `str.lower()` folds every Unicode capital. The case-insensitive lookups built on it are weaker in the same way: Sessions.Matches, Sessions.FirstMatch, Sessions.SelectAudioSession, Audio.AudioSource.Session, Plugin.FocusedProcess and Plugin.GlobalPlugin.SelectProcessInFocus.
- Sessions.FirstMatch: compares process names after `Strings.Lower`, so two names that differ only in a capital outside ASCII and Latin-1 are treated as different, unlike `name.lower()` in the source.
- `AudioSession` in __init__.py: the name imported at __init__.py:26 is the class audiocore.py imports from pycaw (audiocore.py:18-19), not the add-on's own `VAAudioSession` (audiocore.py:652). The model reads `AudioSession(...)` at __init__.py:120, 170, 194 and 211 as `VAAudioSession(...)`, the class whose `selectAudioSession`, `name` and `title` those lines use. As written, the calls would pass a process name where pycaw's class expects a session control; what happens then is decided by pycaw, which is not part of this model. The second row under "## Findings" rests on this reading.
- Sessions.SelectAudioSession: with no session that has a named process, the source raises IndexError. The model requires at least one such session, and so do the members that build a session source.
- A session whose process or display name is missing appears as `None` or an empty string. The two cases are merged where the source treats them alike.
- `setOutputDevice`, `script_nextOutputDevice`/`script_prevOutputDevice`, `script_switchTo`, `bindSwitchingMethods` and `switchingMethodsFactory` re-initialise the synthesizer and bind scripts dynamically. That is host plumbing; only the choice of device (`selectOutputDevice`) is modelled.
- `script_volumeMax`/`script_volumeMin` and the channel-volume scripts are not modelled as gestures. The `AudioSource` operations they call are modelled. `script_volumeMax`/`script_volumeMin` differ from `script_volumeUp` only in the operation called. The channel-volume scripts also say "not supported" instead of a level when the operation returns a negative level (__init__.py:451-453, 466-468, 481-483, 496-498, 511-513); that branch is not modelled.
- `unmuteAllAudioSources` and `terminate` are not modelled.
- The core.py `AudioDevice` accessor class is represented by the `DeviceView` record, and `AudioSession.title` by `DottedTitle`.

## Findings

| source | as written | input that shows it | evidently intended | confidence | as-written member | corrected member |
|---|---|---|---|---|---|---|
| addon/globalPlugins/volumeAdjustment/audiocore.py:135-137 | `self.muted.append(name)` appends to the list the getter returned; `self._data["muted"] = self.muted` calls the getter again. Without a "muted" key each call returns a new empty list, so `[]` is stored | a freshly loaded document `{"version": 0}` and `addMuted("nvda.exe")`: the stored list is `[]` | the name is stored, giving `["nvda.exe"]` | not executed; high | Configurations.AddMutedAsWrittenDropsFirstName | Configurations.AddMutedTo |
| addon/globalPlugins/volumeAdjustment/__init__.py:120-125 | Reading `AudioSession` as `VAAudioSession` (see "## Left out"), `AudioSession(appName).name` is never empty: only sessions with a named process are kept, and `selectAudioSession` always returns one of them (falling back to nvda.exe or the first) | live sessions of "nvda.exe" only, focused application "notepad": `_process` becomes "nvda.exe" and the gesture adjusts NVDA, instead of saying that notepad is not playing any sound | the application is found only when one of its sessions matches | not executed; medium | Plugin.FocusAsWrittenNeverMisses | Plugin.FocusedProcess |
