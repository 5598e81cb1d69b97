# Video downloader: quality catalogue and client session

A web page takes a video URL, asks a Flask backend for the qualities the video
can be downloaded in, lets the user pick one, and asks the backend to download
it. This project models the sequential logic on both sides and proves what it
promises.

- **Server (app.py).**
  - `get_best_format` picks the best format for a requested quality.
  - The format processing of `get_video_info` builds the quality catalogue: the
    best audio-only format, plus the first format of each height tier
    (2160p, 1440p, 1080p, 720p, 480p), sorted in that order with audio last.
  - `download_video` builds the set of available qualities for its error message.
  - Both endpoints validate their JSON fields.
  - The extractor (`yt_dlp`) is a parameter: a function from URL to either a
    format list or an error message.
- **Client (script.js).**
  - The `state` object and its handlers are the class `Session.Session`. Each async
    handler is split at its `await` into a click half and a settle half, so other
    handlers may run in between, as they can in the browser.
  - The notification queue is the class `Notifications.Notifier`. It has an
    explicit `Tick` in place of the 250 ms timer, and a pure specification
    `Drain` that the class is proved against.
  - `extractYoutubeId` is modelled only as the shape of a non-null result.

Modules:
- `Common` — `Option` and `Result`.
- `Formats` — format records and the picker. Python's `dict.get` is the datatype
  `Field` = `Absent | Null | Present(v)`, so a missing key and `None` stay apart.
- `QualityCatalogue` — the catalogue as a declarative reference (`Catalogue`), and
  the source's loop (`BuildCatalogue`) proved equal to it. Also the
  available-qualities loop.
- `Endpoints` — `video_info` and `download_video` up to the download itself.
- `Notifications` and `Session` — the client.
- `Text` — `String.prototype.trim` and the video-id shape.

Behaviour of the code that the model keeps as written:
- Quality selection is not guarded by `isProcessing` and has no not-loaded
  error (script.js:100-110).
- A click while busy returns silently, with no notification (script.js:62,
  script.js:113). `handleDownload` checks busy first, then the selection, then
  the URL (script.js:113-123).
- A format 1000 pixels high is listed by the catalogue as 720p. Asking the picker
  for "720p" still finds nothing, because the picker needs an exact height of 720
  (`QualityCatalogue.ListedTierNotPickable`). This is kept as the code has it.

## Model

| member | source | states |
|---|---|---|
| Formats.Bucket | app.py:121-132 | no tier exactly below 480; otherwise a video tier whose threshold the height reaches, and the highest such tier |
| Formats.BucketMonotone | app.py:121-132 | a greater height never lands in a lower tier |
| Formats.FirstMax | app.py:52 | Python `max` over a filtered list: None iff nothing passes the filter; otherwise an element with the greatest key, and every earlier candidate's key is strictly smaller (ties go to the first) |
| Formats.RemoveAll | app.py:58 | `replace('p', '')` keeps exactly the characters other than 'p', each as often as in the input, and never grows the string |
| Formats.RemoveAllAppend | app.py:58 | removing 'p' from a concatenation removes it from each part, so the kept characters stay in their input order |
| Formats.ParseInt | app.py:58 | Python's `int` on an optional sign and ASCII digits: it succeeds iff what follows the sign is a non-empty run of digits, at most 4300 of them; any other literal raises the invalid-literal ValueError, and a valid one of more than 4300 digits the digit-limit ValueError with its count |
| Formats.DecimalString | app.py:58 | `str` of a natural number: non-empty decimal digits, with no leading zero, whose value is the number |
| Formats.ParseDecimal | app.py:58 | `int(str(n)) == n` and `int('-' + str(n)) == -n` for every n of at most 4300 digits |
| Formats.HeightOfLabel | app.py:58 | digits followed by 'p', at most 4300 of them, parse back to the value of the digits |
| Formats.OverlongQualityRejected | app.py:58 | a quality of more than 4300 digits followed by 'p' makes the picker raise the digit-limit ValueError |
| Formats.TrailingCharInvalid | app.py:58 | digits followed by another character than a digit or 'p', then 'p', make the picker raise the invalid-literal ValueError, however many digits there are |
| Formats.RequestedHeightOfLabel | app.py:58 | each video tier's label asks the picker for exactly that tier's threshold height |
| Formats.LabelInjective | app.py:150 | distinct tiers have distinct labels |
| Formats.GetBestFormat | app.py:45-74 | "audio" gives None iff no format is audio-only, else the first audio-only format of greatest abr; any other quality raises iff `int` refuses it after removing 'p' (with `ParseInt`'s ValueError text, the 4300-digit limit included), gives None iff no format with both streams has exactly that height, else the first such format of greatest tbr |
| QualityCatalogue.FirstWhere | app.py:134-135 | None iff no format passes; otherwise the index of the first format that passes |
| QualityCatalogue.EntryFor | app.py:94-147 | the entry for a tier carries that tier's label |
| QualityCatalogue.EntryForMeaning | app.py:94-147 | the audio entry exists iff some format is audio-only, and is built from the first audio-only format of greatest abr; a video tier's entry exists iff some format with both streams falls in the tier, and is built from the first such format with its height |
| QualityCatalogue.CollectFacts | app.py:134-147 | collecting tiers in increasing rank gives each label at most once, sorted, and exactly the entries those tiers call for |
| QualityCatalogue.CatalogueShape | app.py:91-151 | the catalogue is strictly sorted 2160p < 1440p < 1080p < 720p < 480p < audio; every entry is the one its tier calls for; a tier is listed iff some input format backs it |
| QualityCatalogue.Insert | app.py:151 | inserting into a list sorted by rank keeps it sorted and adds exactly one element |
| QualityCatalogue.SortByRank | app.py:150-151 | `list.sort` by `quality_order`: the result is sorted by rank and is a permutation of the input |
| QualityCatalogue.RankedPermutationUnique | app.py:150-151 | two rank-sorted permutations of the same entries are equal when one has no rank twice, so the sorted catalogue does not depend on the order of the scan |
| QualityCatalogue.ScanOutcome | app.py:116-147 | the scan over the formats raises iff a format with both streams has a None height; otherwise, once sorted, it is the catalogue |
| QualityCatalogue.BuildCatalogue | app.py:91-151 | the source's loop: an error with the TypeError text iff a format with both streams has a None height; otherwise exactly the reference catalogue |
| QualityCatalogue.OfferedSet | app.py:203-213 | a tier is in the set iff some format backs it |
| QualityCatalogue.AvailableQualities | app.py:203-213 | the source's loop: an error with the TypeError text iff a format with both streams has a None height; otherwise the tiers of formats with both streams at height 480 or more, plus audio iff some format is audio-only |
| QualityCatalogue.OfferedSetIsCatalogueLabels | app.py:203-213 | the available set holds exactly the tiers the catalogue lists |
| QualityCatalogue.ListedTierNotPickable | app.py:62-65 | a tier backed only by formats above its threshold is listed by the catalogue, yet the picker returns None for its label |
| Endpoints.VideoInfo | app.py:168-182 | a missing or empty URL is rejected before the extractor is called; an extractor error is passed on; otherwise the result of `BuildCatalogue` |
| Endpoints.DownloadVideo | app.py:184-256 | a missing or empty URL or quality is rejected first; extractor and picker errors are passed on; no pick gives the TypeError on a None height, else "not available" with the sorted available labels; a pick without 'format_id' raises KeyError; otherwise the picked format, with format spec 'bestaudio/best' and mp3 extraction iff the quality is "audio" |
| Endpoints.LexOrderSorted | app.py:216 | the six labels in the order Python's `sorted` puts them are strictly increasing as strings |
| Endpoints.LabelsIn | app.py:216 | keeps exactly the labels of tiers in the set, each the label of some listed tier |
| Endpoints.SortedLabels | app.py:216 | `sorted(list(available_qualities))`: a tier's label is in the result iff the tier is in the set, the result holds nothing else, and it is in strictly increasing string order |
| Endpoints.ListRepr | app.py:216 | `repr` of a list of strings: text between '[' and ']', which is "[]" iff the list is empty |
| Endpoints.ListReprInjective | app.py:216 | for items without quotes, two reprs are the same text iff the lists are equal |
| Endpoints.NotAvailableIdentifies | app.py:215-217 | for one requested quality, two "not available" messages are the same text iff they list the same set of tiers |
| Endpoints.NotAvailableNamesCatalogue | app.py:215-217 | the "not available" message names exactly the tiers the catalogue lists |
| Notifications.EnqueueKeepsOrder | script.js:230-244 | posting keeps the queue consistent and appends the notification to the log (shown, then pending) |
| Notifications.AdvanceKeepsOrder | script.js:233-241 | a drain step shows at most one notification, the head; it drops only that notification from the queue and keeps the log |
| Notifications.IdleEnqueueShows | script.js:232-242 | posting while idle shows the notification at once and arms the timer |
| Notifications.DrainingEnqueueWaits | script.js:231-232 | posting while a drain is armed only appends |
| Notifications.AdvanceStopsWhenEmpty | script.js:234-240 | a step disarms the timer iff it finds the queue empty |
| Notifications.DrainEmptiesQueue | script.js:233-241 | with no new posts, queue length plus one ticks show the whole queue in order and leave the drain idle |
| Notifications.RunIsFifo | script.js:230-244 | in any interleaving of posts and ticks, the shown notifications followed by the pending ones are exactly the posted ones, in posting order |
| Notifications.ShownIsPrefixOfPosted | script.js:230-244 | from idle, the notifications shown are a prefix of those posted |
| Notifications.Notifier.constructor | script.js:200-203 | the queue starts empty and idle |
| Notifications.Notifier.Process | script.js:233-241 | the class's step equals the specification's `Advance` and leaves the queue consistent |
| Notifications.Notifier.Show | script.js:230-244 | the class's `show` equals the specification's `Enqueue` and leaves the queue consistent |
| Notifications.Notifier.Tick | script.js:237 | a timer firing is one `Advance` and leaves the queue consistent |
| Text.TrimStart | script.js:64 | the result is a suffix of the input, the dropped prefix is all whitespace, and the result does not start with whitespace |
| Text.TrimEnd | script.js:64 | the result is a prefix of the input, the dropped suffix is all whitespace, and the result does not end with whitespace |
| Text.Trim | script.js:64 | `trim` leaves no whitespace at either end of the result and never lengthens the string |
| Text.TrimIsSlice | script.js:64 | the trimmed string is a slice of the input with only whitespace cut from either side of it |
| Text.TrimEmpty | script.js:64-68 | the trimmed URL is empty iff the input is all whitespace |
| Text.TrimIdempotent | script.js:64 | trimming twice is trimming once |
| Text.ExtractYoutubeId | script.js:193-196 | a non-null result is 11 characters, none of them `"`, `&`, `?`, `/` or whitespace, and it occurs in the URL |
| Session.Session.constructor | script.js:29-34 | nothing selected, no video, not busy, and every option neither active nor unavailable |
| Session.Session.PlayClick | script.js:61-79 | ignored while busy; a blank input gives one error and no request, and the state is unchanged; otherwise the session turns busy, shows the loading notice and requests the trimmed URL |
| Session.Session.UpdateQualityOptions | script.js:177-191 | the selection is cleared; each option becomes inactive and is unavailable iff no format carries its quality |
| Session.Session.LoadSettled | script.js:81-97 | on success the URL and answer are stored, options refreshed and success shown; on failure the URL, video, selection and options are unchanged and the error, or the default text, is shown; busy is cleared either way |
| Session.Session.SelectQuality | script.js:100-110 | an unavailable option gives an error and changes no flag and no selection; otherwise exactly that option is active and its quality is selected and announced |
| Session.Session.DownloadClick | script.js:112-140 | checks busy (silent), then an empty selection, then an empty URL, each without a request; otherwise turns busy and requests the selected quality of the loaded URL |
| Session.Session.DownloadSettled | script.js:142-158 | on success the target is the API base followed by the returned path; on failure no target and the error, or the default text, is shown; busy is cleared and the video and selection are kept |
| Session.SelectedQualityOffered | script.js:100-110 | in any valid state a selected quality belongs to the loaded video's qualities |

## Left out

- Flask routing, static serving, file serving, CORS and HTTP status codes: a rejected request is an `Err` with its message.
- `yt_dlp` itself (`extract_info` with and without download): the extractor is a function parameter; the download and the returned `download_path` are not modelled on the server.
- `cleanup_old_downloads`, uuid file names, the download directory and logging: file system and clock side effects.
- The audio post-processor options (mp3, 192): configuration only; the plan records that audio is extracted.
- Pass-through catalogue fields `ext`, `format_note` and `filesize`, and the `title`, `duration`, `thumbnail`, `webpage_url` and `extractor` fields: copied values that no decision depends on.
- Endpoints.DownloadVideo: a picked format that is an empty dictionary is falsy in Python and would be reported as not available; formats always carry keys, so this case is not modelled.
- Formats.ParseInt: `int()` also accepts surrounding whitespace, underscores between digits and non-ASCII digits; only an optional sign followed by ASCII digits is modelled. The 4300-digit limit is the default of Python 3.11 and later (also 3.10.7 and 3.9.14), and the order of the checks is that of Python 3.12 and later: the literal first, then its length. Python 3.11 and the 3.10.7 and 3.9.14 backports measure the leading run of digits first, so there more than 4300 digits followed by another character raise the digit-limit error instead; that order, a Python without the limit, and a different `PYTHONINTMAXSTRDIGITS` are not modelled.
- Formats.InvalidLiteral: Python's `repr` switches to double quotes for strings holding a single quote, and escapes backslashes, line breaks, tabs and other non-printable characters (a quality "7\n2p" shows `'7\n2'` with a backslash and an `n`); the message writes such characters as they are. The cut to 200 characters is modelled.
- Endpoints.ListRepr: the same `repr` simplification; tier labels never need escaping.
- Heights other than integers and bitrates other than numbers (a string height, say), JSON bodies that are not objects, and request fields that are not strings: the model takes typed records. A falsy non-string `url` or `quality` (0, false, [], {}) is rejected by app.py:173 and app.py:192 like an empty one, and a truthy non-string quality such as 720 passes them and makes `quality.replace` raise AttributeError at app.py:58, whose text app.py:254-256 returns; neither is modelled.
- QualityCatalogue.SortByRank: stability is not stated, because the list it sorts never holds two entries of one tier.
- Session.Session.DownloadSettled: a successful answer without `download_path` makes the page navigate to the API base followed by "undefined"; answers are modelled with their path.
- Text.ExtractYoutubeId: the regular expression's `{11}` counts UTF-16 code units, while the model counts Unicode scalar values, so an id holding a character outside the Basic Multilingual Plane is not modelled.
- Session.Session.LoadSettled: a successful answer without a `formats` list makes `updateQualityOptions` throw after the URL and video are already stored; answers are modelled with their quality list.
- The DOM work: element creation, styles, the spinner, the disabled buttons, `handleVideoDisplay`, the platform buttons and `debounce`.
- The 3000 ms removal of a shown notification and real timer durations: a shown notification stays in the `shown` log, and the timer is the explicit `Tick`.
- `fetch` and JSON parsing: each request's outcome is a `Response` parameter of the settle half.
- The regular expression search of `extractYoutubeId`: where the match starts is a parameter, and only the result's shape is stated.
- config.js: the API base is a constructor parameter.
- The `data-quality` attribute of an option is taken as a string; a missing attribute (null) is not modelled.
- The page markup (index.html) is not part of this model: the options are assumed to start neither active nor unavailable, so in the model any quality can be selected before the first load. In the page the options sit in the download section, which is only made visible at script.js:89.
