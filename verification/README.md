# KaRadio32 integration: a Dafny model

This project models the logic of the KaRadio32 Home Assistant integration. It has two parts:

- **The device client `Karadio32Api`.** The radio answers plain-text HTTP GET requests. Each request carries one query parameter. The client turns these into operations:
  - `setup_check` and `version` send `version`.
  - `info` parses the `infos` answer into a dictionary.
  - `source_list` scans `list=0`, `list=1`, ….
  - `start`, `stop` and `play` send commands.
  - `set_volume` clamps the level and scales it to 0..255.
- **The media-player entity `Karadio32`.** It keeps four attributes: state, source, volume level and media title. It also keeps a source list fixed at construction.
  - Its commands update an attribute and forward one request.
  - `async_update` reads the `infos` dictionary and overwrites the attributes in a fixed order.

How the parts of the system are represented:

- **Session and device.** The HTTP session (with its timeout) and the device behind it are one total function `respond`. It maps a request (`Query`) to the body of the answer, or to `None` when the request failed, which is what `_request` returns.
- **Sent requests.** Every request the client sends is appended to a ghost `log`. `Param` gives the query parameter a request carries on the wire.
- **Exceptions.** An exception that escapes an operation is an error value: `Result.Failure` or `Outcome.Fail`.

The files:

- `wrappers.dfy`: `Option`, `Result` and `Outcome`.
- `builtins.dfy`: the Python built-ins the code relies on:
  - `str.strip`, `lstrip` and `rstrip` with a character set (the whitespace set of `str.isspace`)
  - `str.split` with one separator, unbounded and at most once
  - `str(int)` and `int(str)`
  - `list.index`
  - list subscription with negative indices
- `client.dfy`: the client class `Api` and the functions that specify its operations.
- `client_lemmas.dfy`: the properties of the host, the `infos` parser, the station scan and the request parameters.
- `media_player.dfy`: the entity class `Karadio32`, the specification `ApplyInfo` of `async_update`, and its properties.

Two behaviours of the code are worth stating up front:

- `info`, `version` and `source_list` raise when a request fails: they call `.strip()` on the `None` that `_request` returns, so a failed request never yields an empty or partial result.
- `async_update` raises `IndexError` when `num` is out of range of the source list. The source is left as it was, but volume, title and state have already been overwritten. A negative `num` is not out of range: it counts from the end of the list.

## Model

| member | source | states |
|---|---|---|
| Builtins.RStripSpec | custom_components/karadio32/karadio32.py:16 | rstrip leaves the longest prefix that does not end in a stripped character, and only stripped characters follow it |
| Builtins.LStripSpec | custom_components/karadio32/karadio32.py:35 | lstrip leaves the longest suffix that does not start with a stripped character, and only stripped characters precede it |
| Builtins.StripSpec | custom_components/karadio32/karadio32.py:35-37 | strip removes a run of the set from each end and nothing else; a string whose ends are not in the set is unchanged |
| Builtins.Split | custom_components/karadio32/karadio32.py:35 | split("\n") gives at least one piece; no piece contains the separator; joining the pieces with it rebuilds the text |
| Builtins.SplitOnce | custom_components/karadio32/karadio32.py:36 | split(":", 1) fails exactly when there is no ':'; otherwise the first piece has no ':' and piece + ':' + rest is the line |
| Builtins.ParseIntSpec | custom_components/karadio32/media_player.py:87 | int(s), as applied to vol here and to num on line 92, succeeds exactly when s is an optionally signed numeral (digits, single `_` between digits) once surrounding whitespace is stripped (the `str.isspace` set without the separators U+001C..U+001F, which `int()` rejects); its value is the digits read in order, negated after a '-' |
| Builtins.ParseIntOfString | custom_components/karadio32/media_player.py:87-92 | int(str(i)) == i for the model's str() and int(), negative integers included; the values the client sends and the radio reports back (station ids, volumes 0..255) are far inside Python's 4300-digit conversion limit |
| Builtins.IndexOf | custom_components/karadio32/media_player.py:79 | list.index fails exactly when the item is absent; otherwise it gives the first position holding the item |
| Builtins.Subscript | custom_components/karadio32/media_player.py:92 | list[i] is defined exactly for -len <= i < len, and is then the element at i modulo len |
| Karadio32Client.Api.constructor | custom_components/karadio32/karadio32.py:12-16 | the host is the URL with its trailing slashes removed; nothing has been sent |
| Karadio32Client.Api.Request | custom_components/karadio32/karadio32.py:18-27 | one request is sent and logged; its result is the transport's answer, None when it failed |
| Karadio32Client.Api.SetupCheck | custom_components/karadio32/karadio32.py:29-30 | sends version and raises exactly when that request fails |
| Karadio32Client.CollectEntries | custom_components/karadio32/karadio32.py:35-37 | the loop over the lines computes the left-to-right parse, stopping at the first line without ':' |
| Karadio32Client.Api.Info | custom_components/karadio32/karadio32.py:32-38 | sends infos once; fails when the request fails, otherwise gives the parse of the answer's lines |
| Karadio32Client.Api.List | custom_components/karadio32/karadio32.py:40-41 | sends list=i once and returns the answer |
| Karadio32Client.Api.SourceList | custom_components/karadio32/karadio32.py:43-51 | the loop's result is the scan's result, and the requests it sends are exactly the scan's list queries in order |
| Karadio32Client.Api.Version | custom_components/karadio32/karadio32.py:53-54 | sends version; fails when the request fails, otherwise gives the stripped answer |
| Karadio32Client.Api.Start | custom_components/karadio32/karadio32.py:56-57 | sends exactly one start request and never fails |
| Karadio32Client.Api.Stop | custom_components/karadio32/karadio32.py:59-60 | sends exactly one stop request and never fails |
| Karadio32Client.Api.Play | custom_components/karadio32/karadio32.py:62-63 | sends exactly one play request for the station id and never fails |
| Karadio32Client.Api.SetVolume | custom_components/karadio32/karadio32.py:65-67 | sends exactly one volume request carrying VolumeLevel of the input |
| Karadio32Client.Clamp | custom_components/karadio32/karadio32.py:66 | the level lies in [0, 1], equals an input already in [0, 1], and is the point of [0, 1] nearest to the input |
| Karadio32Client.RoundHalfEven | custom_components/karadio32/karadio32.py:67 | the printed integer is within 1/2 of the value, and even when exactly 1/2 away |
| Karadio32Client.VolumeLevel | custom_components/karadio32/karadio32.py:65-67 | the sent level is in 0..255 and within 1/2 of 255 times the clamped input |
| Karadio32ClientProofs.HostNormalisation | custom_components/karadio32/karadio32.py:16 | the host is a prefix of the URL, does not end in '/', only '/' follows it, and normalising it again changes nothing |
| Karadio32ClientProofs.HostUnique | custom_components/karadio32/karadio32.py:16 | any prefix that does not end in '/' and is followed only by '/' is the stored host |
| Karadio32ClientProofs.HostIgnoresTrailingSlash | custom_components/karadio32/karadio32.py:16 | a URL with one more trailing slash gives the same host |
| Karadio32ClientProofs.ParseLinesAssigns | custom_components/karadio32/karadio32.py:35-37 | on lines that all contain ':', the parse assigns their entries in order, a later key overwriting an earlier one |
| Karadio32ClientProofs.ParseLinesFailure | custom_components/karadio32/karadio32.py:35-37 | the parse succeeds exactly when every line has a ':', and otherwise fails naming the first line without one |
| Karadio32ClientProofs.InfoFailure | custom_components/karadio32/karadio32.py:34-37 | the same for info's answer after stripping newlines and splitting into lines |
| Karadio32ClientProofs.InfoOfBlankFails | custom_components/karadio32/karadio32.py:35-36 | an answer of newlines only, the empty answer included, is the single line "" and fails |
| Karadio32ClientProofs.EntryAt | custom_components/karadio32/karadio32.py:36-37 | entry i of the parsed entries is what line i reads as |
| Karadio32ClientProofs.InfoKeys | custom_components/karadio32/karadio32.py:35-38 | the dictionary's keys are the stripped keys of the lines, and only those |
| Karadio32ClientProofs.InfoValueOfLastLine | custom_components/karadio32/karadio32.py:35-38 | a key's value is the stripped value of the last line carrying that key |
| Karadio32ClientProofs.LineEntryCut | custom_components/karadio32/karadio32.py:36-37 | a line is cut at its first ':', so a value may contain ':', and both halves are whitespace-stripped |
| Karadio32ClientProofs.LineEntryOfFormat | custom_components/karadio32/karadio32.py:36-37 | a "key: value" line with a trimmed key free of ':' and newline and a trimmed value free of newline reads back as (key, value) |
| Karadio32ClientProofs.InfoRoundTrip | custom_components/karadio32/karadio32.py:35-38 | a non-empty sequence of printed "key: value" lines parses back to the same assignments in order (an empty answer is rejected, see InfoOfBlankFails) |
| Karadio32ClientProofs.InfoMapRoundTrip | custom_components/karadio32/karadio32.py:35-38 | printing each entry of a non-empty dictionary once, in any order, parses back to that dictionary |
| Karadio32ClientProofs.NamedRun | custom_components/karadio32/karadio32.py:45-50 | the run of stations answering with a name from index i on, ending at the limit or at a station without a name |
| Karadio32ClientProofs.ScanRun | custom_components/karadio32/karadio32.py:45-51 | the scan adds the names of the run, and fails instead when the request after the run failed |
| Karadio32ClientProofs.ScanQueriesRun | custom_components/karadio32/karadio32.py:45-50 | the scan sends list=i, list=i+1, … for the run and the station that ended it |
| Karadio32ClientProofs.SourceListNames | custom_components/karadio32/karadio32.py:43-51 | source_list returns the names of stations 0, 1, … up to the first without a name, and raises when the request for that station failed |
| Karadio32ClientProofs.SourceListEntries | custom_components/karadio32/karadio32.py:43-51 | every returned name is non-empty and is the stripped answer for its own index; there are at most 254 |
| Karadio32ClientProofs.SourceListQueries | custom_components/karadio32/karadio32.py:43-51 | source_list sends list=0, list=1, … in order, between 1 and 254 requests |
| Karadio32ClientProofs.ParamRoundTrip | custom_components/karadio32/karadio32.py:29-67 | each request's parameter (version, infos, list=str(i), start, stop, play=str(n), volume=str(n)) reads back as that request under ReadParam, a reader standing for the radio's side (the client has none) |
| Karadio32ClientProofs.ParamInjective | custom_components/karadio32/karadio32.py:29-67 | two requests that send the same parameter are the same request |
| Karadio32ClientProofs.VolumeParamSent | custom_components/karadio32/karadio32.py:65-67 | set_volume's parameter is volume with an integer in 0..255 within 1/2 of 255 times the clamped level |
| MediaPlayer.StateFor | custom_components/karadio32/media_player.py:89-91 | the state is paused exactly when sts is "0" |
| MediaPlayer.StationOf | custom_components/karadio32/media_player.py:73-79 | with no source list, index() fails; otherwise it succeeds exactly when the source is listed, giving its first position |
| MediaPlayer.Karadio32.constructor | custom_components/karadio32/media_player.py:40-59 | the unique id is "KaRadio32-" plus the client's host; the source list is adopted only when given and non-empty; all attributes start absent |
| MediaPlayer.Karadio32.MediaStop | custom_components/karadio32/media_player.py:69-71 | sends stop, then sets the state to paused and nothing else |
| MediaPlayer.Karadio32.MediaPlay | custom_components/karadio32/media_player.py:73-75 | when the current source is listed, sends play with its first position and sets playing; otherwise raises, sending nothing and changing nothing |
| MediaPlayer.Karadio32.SelectSource | custom_components/karadio32/media_player.py:77-79 | sets the source first, then sends play with its first position, or raises without sending when it is not listed |
| MediaPlayer.Karadio32.SetVolumeLevel | custom_components/karadio32/media_player.py:81-83 | stores the raw, unclamped level and sends the clamped, scaled level |
| MediaPlayer.Karadio32.Update | custom_components/karadio32/media_player.py:85-93 | sends infos once; when info raises, nothing changes; otherwise the attributes and outcome are those of ApplyInfo |
| MediaPlayer.UpdatedReadings | custom_components/karadio32/media_player.py:87-91 | with vol, tit and sts readable and int(vol)/255 within float range, the volume is int(vol)/255, the title is tit verbatim, and the state is paused exactly for "0", even when the source lookup then fails |
| MediaPlayer.UpdateWithoutReadings | custom_components/karadio32/media_player.py:86-88 | without readable vol, tit and sts the update raises; with vol missing, not an integer, or so large that int(vol)/255 raises OverflowError (the quotient reaching 2^1024 - 2^970 in magnitude), it changes nothing |
| MediaPlayer.UpdatedSource | custom_components/karadio32/media_player.py:92 | the update completes exactly when all readings are present, int(vol)/255 does not overflow, and num indexes the source list, a negative num counting from the end; only then does the source change |
| MediaPlayer.UpdateOutOfRange | custom_components/karadio32/media_player.py:92 | a num outside the list raises the index error for that num |
| MediaPlayer.SelectedStationReportedBack | custom_components/karadio32/media_player.py:77-92 | when the radio reports back the station id that select_source sent, the update shows the selected source again |
| MediaPlayer.VolumeReportedBack | custom_components/karadio32/media_player.py:81-87 | when the radio reports back the level set_volume sent, the update reads it as the clamped level to within 1/510 |

## Left out

- The aiohttp session, `asyncio.timeout` and the HTTP exchange. They are the transport function `respond`, which also stands for the device: the device's answer is a fixed function of the request.
- Logging. This covers the log call in `_request`, the one in `async_update`, and the `_LOGGER.info` in `Karadio32Api.__init__`.
- Concurrency between polling and commands. Every operation runs to completion, one at a time.
- Karadio32Client.RoundHalfEven: models `f"{255 * level:.0f}"` on the exact real value. Binary floating-point rounding of `255 * level` before formatting is not modelled.
- MediaPlayer.ApplyInfo: the volume `int(vol) / 255` is the exact real quotient, not the nearest binary float. Its OverflowError is modelled: it is raised exactly when that float would be infinite.
- Builtins.ParseInt: accepts ASCII digits only. `int()` also reads other Unicode decimal digits, which are not modelled.
- Builtins.ParseInt: has no length limit. From Python 3.11 on (which `asyncio.timeout` requires), `int(s)` raises ValueError on a decimal numeral of more than 4300 digits (`sys.get_int_max_str_digits`), so a `num` that long makes `async_update` raise `ValueError` where the model reads the number, and a `vol` that long raises `ValueError` where the model reports the OverflowError of the division.
- Builtins.IntToString: has no length limit. `str(i)` in `list` and `play` raises ValueError for an integer of more than 4300 digits. The model's `Play` sends such a request; `source_list` only ever sends 0..253.
- `Karadio32.__init__`: the `supported_features` flags and `_attr_volume_step` are not modelled. They are constants for the host's user interface and take part in none of the modelled operations.
- `device_info`, `async_setup_entry`, `async_setup_platform`, the platform schema and `SCAN_INTERVAL` are not modelled. They are host-platform scaffolding.
- `config_flow.py` and `__init__.py` are not part of this model. They hold the configuration UI and the host's registration wiring.
- The `TIMEOUT` constant lives in `const.py`, which is not part of this model. The timeout is folded into the transport's `None` answer.
