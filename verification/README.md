# wheat-esp-tools: scan, preference and launcher logic in Dafny

This project models the modellable logic of the wheat-esp-tools desktop
application, a Tauri program for flashing and talking to ESP
microcontrollers:

- **Bluetooth LE advertisement scan** (`ble_scan.dfy`, module `BleScan`):
  choosing the first adapter, building a `BleDevice` record from a
  peripheral's property snapshot, and the scan loop. The loop polls the stop
  channel before every adapter event and leaves on a stop request or an
  abandoned channel. It handles only the four advertisement event kinds and
  skips failed lookups. It removes the stop listener exactly once. The
  adapter stream is a sequence of `Tick`s. Each tick holds the stop-channel
  poll result, the event, and the result of looking the peripheral up.
- **Host commands** (`host_commands.dfy`, module `HostCommands`): the
  serial-port name list and the file description with its file-name
  fallback and metadata-error fallback. File names follow the component
  rules of Rust's `Path::file_name` for `/`-separated paths.
- **Preference store** (`preference.dfy`, module `Preference`): language,
  theme mode and system scheme. Local storage is a `map<string, string>`.
  The media query is an optional input. The store is an immutable value,
  and each setter returns a new one.
- **Command launcher** (`cli.dfy`, module `Cli`): empty-argument removal,
  the fallback candidate list, and trying candidates in order until one
  spawns. Spawn outcomes are an input `seq<bool>` with one entry per
  candidate.

`wrappers.dfy` (module `Wrappers`) holds the `Option` and `Result` types.

`src/utils/serial.ts` invokes `serial_assistant_*` commands that the back
end never registers (`src-tauri/src/main.rs:279-287`), so there is no
serial session code to model. Adapter errors fail the scan command only
during setup (`src-tauri/src/main.rs:55-75`). Inside the loop, a failed
peripheral lookup or properties request only skips that event
(`src-tauri/src/main.rs:101-106`, `src-tauri/src/main.rs:131`). Once the loop runs, it ends only on a stop, an abandoned channel, or
the end of the event stream.

## Model

| member | source | states |
|---|---|---|
| BleScan.GetCentral | src-tauri/src/main.rs:40-49 | The first adapter is chosen. An empty list fails with "no bluetooth adapter found". A listing failure is reported with its message. Any adapter returned is in the list. |
| BleScan.ServiceDataMap | src-tauri/src/main.rs:115-119 | The record's service-data table has exactly the advertised UUIDs as keys. Each UUID maps to the payload of its last entry in iteration order. |
| BleScan.ServiceDataMapOfDistinct | src-tauri/src/main.rs:115-119 | For a table with distinct UUIDs, as the adapter's hash map always is, every entry's payload is kept under its UUID. |
| BleScan.Build | src-tauri/src/main.rs:108-125 | The address is the peripheral id. `local_name` is the advertised name, or "" when there is none. `rssi` is the reported value, or 0 when there is none. Manufacturer data and services are carried over. `adv` is as long as all service-data payloads together. |
| BleScan.Flatten | src-tauri/src/main.rs:120-124 | `adv` is the payloads concatenated in iteration order. Its length is the sum of the payload lengths. |
| BleScan.AdvHoldsEachPayload | src-tauri/src/main.rs:120-124 | `adv` is the concatenation in iteration order. Each payload sits in `adv` right after the payloads that come before it. |
| BleScan.Handle | src-tauri/src/main.rs:94-135 | An event yields a record exactly when it is DeviceDiscovered, ManufacturerData, ServiceData or Services and the properties lookup succeeded. The record is built from that snapshot under the event's id. |
| BleScan.CollectedFromFoundLookups | src-tauri/src/main.rs:94-134 | Every record that is produced comes from an advertisement event whose lookup found properties. Connect, disconnect and other events, and failed lookups, produce none. |
| BleScan.CancelIndex | src-tauri/src/main.rs:86-93 | Index of the poll where the loop stops: a poll that saw a stop or a disconnected channel, or the end of the stream. |
| BleScan.EmptyBeforeCancel | src-tauri/src/main.rs:86-92 | Every poll before that index found the channel empty, so it is the first stop. |
| BleScan.Scan | src-tauri/src/main.rs:85-138 | The loop emits exactly the records of the events handled before the first stop. Nothing is handled at or after the poll that saw the stop. |
| BleScan.NothingAfterCancel | src-tauri/src/main.rs:85-93 | Once a stop is seen at some event, the loop has stopped there or earlier. It emits only what the earlier events yield. Events after that point change nothing. |
| BleScan.ScanBeforeCancel | src-tauri/src/main.rs:85-135 | Up to the first stop, every event is handled: a run over such a prefix emits everything that prefix yields. |
| BleScan.ScanPrefix | src-tauri/src/main.rs:85-138 | Records stream out in order: a run over the first part of a stream emits a prefix of what the full run emits. |
| BleScan.CancelAfterFirstEvent | src-tauri/src/main.rs:85-135 | If a stop arrives after the first event, the scan emits that event's record (if it yields one) and nothing more. |
| BleScan.RunScan | src-tauri/src/main.rs:80-142 | The loop with the `listener_active` flag emits the same records as the scan. It ends as cancelled exactly when some poll saw a stop or a disconnected channel. It removes the stop listener exactly once, whether it was cancelled or the stream ended. |
| BleScan.StartBleAdvertisementScan | src-tauri/src/main.rs:52-144 | The command succeeds exactly when manager creation, the adapter pick, subscription and scan start all succeed. The first failing step decides the error: "failed to create bluetooth manager: ", the adapter pick's message, "failed to subscribe bluetooth events: " or "failed to start bluetooth scan: ", each followed by the underlying message. A failure emits no records and removes no listener. On success the scan's records are emitted and the listener is removed once. |
| HostCommands.SerialPortList | src-tauri/src/main.rs:151-160 | One name per enumerated port, in order. An enumeration error gives an empty list. |
| HostCommands.FileName | src-tauri/src/main.rs:212-216 | A file name, when there is one, is a single non-empty component other than `.` and `..`. |
| HostCommands.FileNameOfPlainName | src-tauri/src/main.rs:212-216 | A path that is a single plain name is its own file name. |
| HostCommands.FileNameOfJoin | src-tauri/src/main.rs:212-216 | The file name of `dir/name` is `name`, whatever `dir` is. |
| HostCommands.FileNameIgnoresTrailingSeparator | src-tauri/src/main.rs:212-216 | A trailing `/` does not change the file name. |
| HostCommands.FileNameOfParentIsNone | src-tauri/src/main.rs:212-216 | A path ending in `..` has no file name, so the whole path is used. |
| HostCommands.FileNameSkipsNonComponent | src-tauri/src/main.rs:212-216 | Appending a final empty or `.` piece to a path, as in `a/` or `a/.`, does not change its file name. |
| HostCommands.FileNameOfEmptyAndRoot | src-tauri/src/main.rs:212-216 | The empty path and the root have no file name, so the whole path is used. |
| HostCommands.GetFileInfo | src-tauri/src/main.rs:210-243 | The name is the last path component, or the whole path when there is none. On a metadata error, `is_dir` and `is_file` are false and `len` and `create_time` are 0. Otherwise the metadata fields are carried over. |
| Preference.InitialLanguage | src/stores/Preference.ts:7-10 | The language is English exactly when the stored text is exactly "en". Otherwise, including when nothing is stored, it is Chinese. |
| Preference.InitialTheme | src/stores/Preference.ts:12-18 | The stored mode is used when its text is light, dark or system. Otherwise the mode is dark. |
| Preference.InitialSystemTheme | src/stores/Preference.ts:20-25 | Always a concrete scheme. Dark when there is no window or media query. Otherwise dark exactly when the query matches. |
| Preference.Init | src/stores/Preference.ts:27-32 | The store's initialiser writes nothing to storage. Its fields are the initial language, theme mode and system scheme. |
| Preference.Resolved | src/stores/Preference.ts:33-36 | `resolvedTheme` is never `system`. It is the system scheme in system mode and the chosen mode otherwise. |
| Preference.SetLanguage | src/stores/Preference.ts:38-41 | Sets the language. Stores its text under "language". Changes no other field and no other storage key. |
| Preference.SetThemeMode | src/stores/Preference.ts:42-45 | Sets the theme mode. Stores its text under "themeMode". Changes no other field and no other storage key. |
| Preference.SetSystemTheme | src/stores/Preference.ts:46-48 | Sets only the system scheme and leaves storage untouched. |
| Preference.LanguageRoundTrip | src/stores/Preference.ts:38-41 | Reading the initial language back after `setLanguage(l)` gives `l`. |
| Preference.ThemeModeRoundTrip | src/stores/Preference.ts:42-45 | Reading the initial theme back after `setThemeMode(m)` gives `m`. |
| Preference.SettersKeepOtherField | src/stores/Preference.ts:38-45 | Setting the language leaves the theme read from storage unchanged, and the other way round. |
| Preference.InitPersisted | src/stores/Preference.ts:27-32 | A freshly created store's language and theme mode are what its storage yields. |
| Preference.ApplyPersisted | src/stores/Preference.ts:37-49 | Every action keeps the language and theme mode in step with what storage yields. |
| Preference.ReloadRestoresPreferences | src/stores/Preference.ts:7-49 | After any sequence of actions, re-creating the store from the storage left behind restores the language and theme mode. |
| Cli.DropEmpty | src/utils/cli.ts:13 | The arguments contain no "". Every non-empty argument occurs as often as in the input. |
| Cli.DropEmptyAppend | src/utils/cli.ts:13 | Filtering commutes with concatenation, so the original order is kept. |
| Cli.DropEmptyKeepsNonEmpty | src/utils/cli.ts:13 | Arguments without "" pass through unchanged, so filtering twice equals filtering once. |
| Cli.Candidates | src/utils/cli.ts:8-14 | The first candidate is always the name itself. "esptool.py" gets the three esptool programs. Any other name gets only itself. |
| Cli.FirstSpawned | src/utils/cli.ts:32-36 | Index of the first candidate that spawns, with all earlier ones failing, or the list length when none spawns. |
| Cli.SpawnAt | src/utils/cli.ts:16-40 | Candidates are tried in order from the given index, each once, with the same arguments. A success stops the run. The next candidate is tried only while it is inside the list. The error is reported exactly when every remaining candidate fails. |
| Cli.Execute | src/utils/cli.ts:12-43 | The number of attempts is the index of the first success plus one, or the list length when all fail. Attempt i runs candidate i with the filtered arguments. The error is reported exactly when no candidate spawns. |
| Cli.FirstCandidateStarts | src/utils/cli.ts:32-42 | When the first candidate spawns, there is exactly one attempt and no error. |
| Cli.EsptoolAllFail | src/utils/cli.ts:8-43 | When all esptool programs fail, the three are tried in order with the filtered arguments and the error is reported. |

## Left out

- The serial session layer: open, read loop, write loop, registry and teardown. No code in the repository implements it. `src/utils/serial.ts` only invokes commands the back end does not register.
- Bluetooth manager, adapter and event-stream calls, and `await`. Their outcomes are inputs: a `ScanSetup` for the setup steps and a `Tick` sequence for the loop.
- Window `listen`, `unlisten` and `emit`. Listener removal is counted. Emitted records are collected in a sequence.
- BleScan.Build: assumes serialising the record to JSON always succeeds. That holds for its field types. An ignored emit failure still counts the record as emitted.
- Peripheral ids and service UUIDs are represented by their string forms. Their `to_string` conversions are not modelled.
- `greet`, `get_current_dir`, `open_file_in_explorer`, `open_directory_in_explorer`, and the start-up directory and chip-list seeding are left out. They are string formatting or operating-system and file-system I/O.
- HostCommands.GetFileInfo: takes the creation time as an already-extracted number of seconds. Reading it from platform timestamps is left out.
- HostCommands.FileName: models `/`-separated paths only. Windows drive prefixes and `\` separators are not modelled.
- Preference: the persisted-state plugin is left out. The store opts into it itself with `persist: true` (`src/stores/Preference.ts:50`), and `src/main.ts:8-10` registers it. Its state is a JSON snapshot, and parsing and merging arbitrary JSON is not modelled. The rows for `Init`, `SetLanguage`, `SetThemeMode`, `SetSystemTheme` and the reload lemmas describe only the store's own initialiser and action bodies. With the plugin, every state change, `setSystemTheme` included, also saves the whole state under the key "preference". Creating the store also restores all three fields from that key when it is present. That overrides the `getInitial*` results, so a stale saved `systemTheme` replaces the media query's answer until `setSystemTheme` is called.
- Preference.SetSystemTheme: leaves the modelled storage keys untouched; the plugin's save of the whole state under "preference" is not part of this model.
- The browser's media query is an optional boolean input.
- Cli.Candidates: models the fallback table lookup over its one own key. Names that match inherited object properties such as "toString" are not modelled.
- Cli.Execute: the asynchronous spawns are modelled as a sequence of outcomes, one per candidate. Forwarding of stdout, stderr, close and command error events, and the terminal output, is left out.
- `src/db/db.ts` (an IndexedDB wrapper) and the rest of `src/main.ts` (application bootstrap and DOM attributes) are left out.
