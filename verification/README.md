# ESP32 flasher page: firmware selection, serial session and remote list

A Dafny model of the logic in `app.js`, the script of a web page that flashes
firmware onto an ESP32 over WebSerial and keeps a list of infrared remote
codes in local storage. Four parts of the script carry behaviour worth
stating:

- **Firmware selection** (`getSelectedFirmware`, `updateBuildOptions`): a
  non-blank custom URL wins with the name "Custom" and flash address "0x0";
  otherwise the build drop-down's value is parsed as an integer (NaN gives 0)
  and used as a position in the selected device's build list. The drop-down
  values are the positions written in decimal, so every entry resolves back
  to its own build.
- **Serial session** (`connect`, `flashFirmware`, `disconnect`, with
  `setStatus` and `setProgress` as fields): a `Session` record of the three
  handles (port, transport, loader), the chip label, the status line and its
  warning flag, the enabled state of the flash and disconnect buttons, the
  progress shown and the last alert. Each operation is one step function; the
  browser's and the engine's results are its parameters.
- **Remote list** (`saveRemote`, the remove button handler, `clearRemotes`):
  operations on the stored list, with an absent storage key read as the
  empty list and JavaScript's `splice` semantics for removal.
- **Catalog load** at start-up, only for what it does to the session: a
  failed load leaves an empty catalog and a warning status.

The JavaScript built-ins the logic depends on are modelled in `js_text.dfy`:
`String.prototype.trim`, `Number.parseInt(s, 10)` (leading white space, one
optional sign, the longest digit run; NaN as `None`) and `String(n)` for
non-negative integers, with the round trip `parseInt(String(n), 10) == n`
proved.

Files: `options.dfy` (Option), `js_text.dfy` (module `JsText`),
`firmware.dfy` (module `Firmware`), `session.dfy` (module `Session`),
`remotes.dfy` (module `Remotes`).

### Behaviour worth knowing

- A failed `connect` releases nothing and clears nothing. Handles assigned
  before the failing step stay assigned, handles not reached keep their old
  values, and the chip label is unchanged.
  With a previous connection held, what is left depends on the failing
  step. A failed port request keeps the old, coherent handles. A failure
  at opening the port or building the transport leaves the new port next
  to the old transport and loader (`FailedReconnectLeavesStaleHandles`).
  A failure at building the loader leaves the new port and transport next
  to the old loader. A failed handshake leaves a coherent new set of
  handles while the chip label still names the old chip
  (`FailedHandshakeKeepsOldChip`). In every case the flash button stays
  enabled.
- `disconnect` runs both teardown calls in one `try`. A transport disconnect
  that throws skips the port close.
- A flash whose download fails shows 0%, because progress is reset before
  the download starts.
- A completed flash raises the alert "Flash voltooid!".
- A negative or NaN remove index is not ignored: `splice` counts a negative
  start from the end and treats NaN as 0. Only an index at or past the end
  removes nothing. The page itself only produces in-range indices.

## Model

| member | source | states |
|---|---|---|
| JsText.Trim | app.js:82 | the trimmed text is a slice of the input with only white space around it and none at its ends; it is empty exactly when the input is all white space |
| JsText.TrimUnique | app.js:82 | any slice with only white space outside it and none at its own ends is the slice `trim` returns |
| JsText.NatToString | app.js:57 | `String(i)` is a non-empty digit string without a leading zero whose decimal value is `i` |
| JsText.ParseIntOfNumeral | app.js:91 | white space, an optional sign, a digit run and a tail not starting with a digit parse as the signed value of the run |
| JsText.ParseIntNoDigits | app.js:91 | text with no digit after its white space and sign parses as NaN |
| JsText.NumeralRoundTrip | app.js:91 | `parseInt(String(n), 10) == n` for every non-negative `n` |
| JsText.NumeralInjective | app.js:57 | distinct positions get distinct `String` values |
| Firmware.Resolve | app.js:81-94 | a non-blank custom URL gives {"Custom", trimmed URL, "0x0"}; otherwise a build exists exactly when the device is in the catalog and the parsed index (NaN as 0) is in range, and it is the build at that index |
| Firmware.CustomUrlWins | app.js:82-89 | with a non-blank custom URL the result does not depend on catalog, device or build value |
| Firmware.BuildOptions | app.js:51-61 | one drop-down entry per build of the device, labelled with the build's name, whose value is the position written in decimal and parses back to it |
| Firmware.OptionsResolveBack | app.js:51-94 | with a blank custom URL, choosing drop-down entry `i` resolves to build `i` of the device |
| Firmware.OptionValuesDistinct | app.js:55-59 | no two drop-down entries of a device share a value |
| Firmware.NonNumericBuildIsFirst | app.js:91-93 | a build value without a number selects the same build as "0", which exists exactly when the device has a build |
| Firmware.EmptyBuildIsFirst | app.js:91-93 | an empty build drop-down (value "") selects the same build as "0" |
| Session.Connect | app.js:207-236 | without WebSerial only the status becomes the "WebSerial niet ondersteund" warning; each handle obtained before a failure is assigned and the rest keep their old values; a failure shows the "Verbinding mislukt" warning with chip label and buttons unchanged; a completed handshake shows the chip, "Verbonden" and enables flash and disconnect with consistent handles; progress and alert never change |
| Session.ConnectFromNothingIsCoherent | app.js:213-227 | from a session holding no handles, every connect outcome leaves the transport over the held port and the loader over the held transport |
| Session.FailedReconnectLeavesStaleHandles | app.js:213-235 | a connect that fails at opening while a connection is held leaves the new port next to the old transport and loader, with flashing still enabled |
| Session.FailedHandshakeKeepsOldChip | app.js:213-235 | a reconnect whose handshake fails holds a coherent new set of handles while the chip label still names the old chip and flashing stays enabled |
| Session.Disconnect | app.js:268-286 | always ends with no handles, chip "-", status "niet verbonden" and both buttons disabled; closes the transport if held, then the port if held unless the transport disconnect threw |
| Session.DisconnectIgnoresTeardownErrors | app.js:269-278 | the resulting session is the same whichever teardown calls throw |
| Session.DisconnectIdempotent | app.js:268-286 | a second disconnect calls nothing and changes nothing |
| Session.DisconnectAfterFailedConnect | app.js:207-286 | after a failed connect from an empty session, disconnect closes the transport obtained and, unless its disconnect throws, the port obtained |
| Session.Flash | app.js:238-266 | only progress and the alert ever change; no firmware gives "Geen firmware geselecteerd" and nothing else; a failed download gives 0% and "Flash mislukt: …" and no write; the engine is asked to write the downloaded image at the firmware's address exactly when firmware, image and loader are there; "Flash voltooid!" exactly when that write completes, and then progress is 100; a missing engine gives "Flash mislukt: " with the host's error at 0%; a write that throws gives "Flash mislukt: " with its message and leaves the last reported percentage (0 when none) |
| Session.FlashSuccessIgnoresReports | app.js:253-260 | a completed write ends the same whatever fractions the engine reported |
| Session.FlashForgetsEarlierAttempts | app.js:245-265 | with resolved firmware, the outcome does not depend on the progress or alert an earlier attempt left |
| Session.RetryAfterFailedFlash | app.js:238-266 | flashing after any flash of resolved firmware is the same as flashing the original session |
| Session.ConnectAndFlashScenario | app.js:207-266 | one device with one build at "0x1000", connect and flash completing: connected, chip shown, "Verbonden", 100%, "Flash voltooid!", and the image written at "0x1000" |
| Session.LoadCatalog | app.js:63-79 | a loaded catalog is used and nothing else changes; a failed load gives an empty catalog and the "Geen firmware catalog" warning, and only the status changes |
| Session.FailedLoadResolvesOnlyCustom | app.js:71-94 | after a failed catalog load, a selection resolves exactly when the custom URL is not blank |
| Remotes.Frequency | app.js:172 | the parsed frequency when it is a non-zero integer, else 33; never 0 |
| Remotes.Save | app.js:158-187 | a blank trimmed name or code alerts "Naam en code zijn verplicht" and changes nothing; otherwise the list grows by one with the new entry first and the old list after it, the entry holding trimmed name, code and protocol, the untrimmed device type and brand, the parsed frequency and the broadcast flag, and the form is reset to device type "tv", empty text fields and no broadcast, keeping only the frequency |
| Remotes.RepeatedSaveAddsOnce | app.js:158-187 | saving again right after any save is refused with the "Naam en code zijn verplicht" alert and changes neither the list nor the form, so a second press never adds a duplicate |
| Remotes.SpliceStart | app.js:131 | `splice`'s start position: in-range starts as given, past-the-end clamped to the end, negative counted from the end and clamped to the front |
| Remotes.Splice | app.js:131 | when the start is inside the list, exactly the element there is removed and the others keep their order (also as multisets); otherwise the list is unchanged |
| Remotes.RemoveClicked | app.js:127-134 | the handler always writes a list back, at most one entry shorter |
| Remotes.RemoveButtonRemovesItsEntry | app.js:122-134 | the remove button of entry `i` removes exactly entry `i` |
| Remotes.RemovePastEndKeepsList | app.js:129-132 | an index at or past the end removes nothing |
| Remotes.RemoveMinusOneRemovesLast | app.js:129-131 | index "-1" removes the last entry, as `splice` counts negative starts from the end |
| Remotes.RemoveNonNumericRemovesFirst | app.js:129-131 | an index without a number parses as NaN, which `splice` takes as 0, so the first entry is removed |
| Remotes.RemoveUndoesSave | app.js:127-177 | removing entry 0 right after an accepted save gives back the list from before the save |
| Remotes.Clear | app.js:199-205 | a confirmed clear removes the key, so the list reads empty; an unconfirmed one changes nothing |
| Remotes.SaveAfterClear | app.js:166-204 | saving after a confirmed clear gives the new entry alone |
| Remotes.ClearIdempotent | app.js:199-205 | clearing twice is clearing once |

## Left out

- DOM construction and rendering: `renderFirmwareOptions`, the markup of `updateRemoteList`, `setIrEnabled`. They are view code. The device drop-down is taken to hold catalog keys.
- `exportRemotes`, the `fetch` and JSON parsing of `loadFirmwareCatalog`, and the JSON round trip of local storage. These are browser I/O. The loaded catalog is a parameter, and storage is taken to hold back what was written.
- WebSerial and the flashing engine (handshake, write protocol, transport, the 115200 baud rate). They are foreign code. Only their results are modelled, as parameters.
- `setProgress` rounding (`Math.round`) and floating point. Progress is the real percentage passed to the label, each engine fraction times 100.
- `createdAt` and `console.error`. They are a clock and logging. `confirm` is a boolean parameter; `alert` is a recorded value.
- The error the host raises when `esploader` is null and a flash is attempted. Its text is host-specific, so it is a parameter (`engineMissing`).
- Overlapping asynchronous calls of connect, flash and disconnect. The code does not guard them; each operation is one atomic step here.
- `parseInt` values beyond exact double precision and catalog keys inherited from `Object.prototype`. Integers are unbounded and the catalog is a plain map.
- Remotes.RemoveClicked: its own contract only bounds the length of the result. What it removes is stated by RemoveButtonRemovesItsEntry, RemovePastEndKeepsList, RemoveMinusOneRemovesLast and RemoveNonNumericRemovesFirst.
