# Roblox asset downloader: the decision layer of `main.js`

The page has one form with a URL field, an asset type selector and a submit
button. On a click, `processOptions` trims the URL and runs four input checks
in a fixed order. It then asks a relay for a document:
- for a sound, the sound info XML, addressed by the asset ID in segment 4 of
  the URL;
- for every other type, the asset's HTML page.

`parseXML` or `parseHTML` turns that document into a download URL and a file
name. `downloadAsset` fetches the file, saves it and reports the download
for the page's statistics. Every way the flow can end re-enables the submit
button. A success does so after a 1500 ms timer.

Reporting the download encodes the stored URL and the type with `btoa`,
inside the same `try` as the download (main.js:249, 328). `btoa` throws on
any character above U+00FF. For such a URL, the file is saved, and then the
flow ends like a failed download: it shows "Download failed: " with the
error's message and re-enables the button at once, with no timer.

The model has six modules:

- `Wrappers`: `Option` and `Result`.
- `JsStrings`: the JavaScript string operations the flow depends on, with
  their ECMAScript meaning:
  - `split` keeps empty pieces;
  - indexing past the end gives `undefined`;
  - `trim` removes the ECMAScript whitespace and line-terminator set;
  - `indexOf`;
  - the regex replacement `/[^a-zA-Z0-9]/g → '_'`;
  - `${n}` for a clock value.
- `AssetTypes`: the selector's value as a datatype. Values outside the seven
  types and the placeholder are kept as `Other(value)`.
- `Validation`: the input checks of `processOptions`.
- `AssetNaming`: the pure decisions.
  - The sound asset ID and the sound info URL.
  - The sound file name.
  - The download URL and file name that `parseHTML` chooses for each type.
    This includes `ResolvePageDownload`, an imperative method that reassigns
    `downloadUrl` and `fileName` step by step as the source does, proved equal
    to the functional plan.
- `DownloadFlow`: the flow as a whole, in two forms.
  - `Run` is a specification function. It maps the raw URL, the selected type
    and the relay's answers (an `Environment`) to the requests the page sends
    and the way the flow ends.
  - `Downloader` is a class holding the page state that the handlers update
    in place: the button's `disabled` flag and text, whether the loading
    message hides the button, the stored `originalURL`, the error on show,
    the requests sent, the files saved and the pending timer. It has one
    method per handler. Each method's `ensures` ties the new state to `Run`
    or to one of its steps (`AfterFetch`, `AfterSoundXml`, `AfterPage`,
    `AfterPlan`).

The page's inputs are parameters:
- A fetched document is a `Page` that records what the DOM lookups find
  (`Option<string>` for each):
  - the `<Content>` text;
  - the name element's text;
  - the decal image's `src`;
  - the plugin link's `href`.
- Each relay answer is a `Response`: `Fulfilled(body)`, `NotOk(statusText)`
  (`response.ok` false) or `Rejected(reason)` (`fetch` threw).
- `Date.now()` is a `nat`.
- The message of the error `btoa` throws is a string
  (`Environment.btoaError`), since its wording is the browser's.

The asset ID is exactly `url.split('/')[4]`; it is not checked to be numeric.
For a sound, a URL without an ID is refused before any request. For
accessory, clothing, mesh and model, it is refused by `parseHTML`, after the
page has been fetched.

Lemmas that only unfold a definition for a larger proof have no row below:
`RunFetches`, `RunWithoutTarget`, `PageRejected`, `PageAccepted`,
`PaddedTrim`, `PaddingKeepsCore`, `TrimOfPadded`, `LibraryPartsJoin` and
`LibraryPartsPlain`.

## Model

| member | source | states |
|---|---|---|
| `JsStrings.Split` | main.js:71 | `split` always yields at least one piece |
| `JsStrings.SplitHasNoSeparator` | main.js:71 | no piece of `split('/')` contains `/` |
| `JsStrings.JoinSplit` | main.js:71 | joining the pieces of a split with the separator gives back the string |
| `JsStrings.SplitJoin` | main.js:71 | splitting a join of separator-free pieces gives back the pieces |
| `JsStrings.At` | main.js:194 | array indexing is defined exactly below the length and then yields that element; past the end it is `undefined` |
| `JsStrings.SkipBlanks` | main.js:32 | the first non-whitespace index at or after `i`, with only whitespace skipped |
| `JsStrings.SkipBlanksBack` | main.js:32 | the end of the last non-whitespace character, with only whitespace skipped |
| `JsStrings.Trim` | main.js:32 | `trim()` is empty iff the string is all whitespace, and otherwise starts and ends with a non-whitespace character |
| `JsStrings.TrimCore` | main.js:32 | `trim()` is a contiguous piece of the string with only whitespace before and after it |
| `JsStrings.TrimIdempotent` | main.js:172 | trimming twice is trimming once |
| `JsStrings.IndexOfFrom` | main.js:59 | `indexOf` is -1 iff there is no occurrence from `from` on; otherwise it is an occurrence and no earlier one exists |
| `JsStrings.ContainsIff` | main.js:59 | `indexOf(t) !== -1` iff `t` occurs at some index |
| `JsStrings.EndsWithContains` | main.js:94 | a message that ends with a text contains it |
| `JsStrings.Sanitize` | main.js:129 | the regex replacement keeps the length, keeps each `[a-zA-Z0-9]` character in place and turns every other one into `_` |
| `JsStrings.SanitizeCharset` | main.js:129 | the replacement's output holds only `[a-zA-Z0-9_]` |
| `JsStrings.SanitizeIdempotent` | main.js:129 | the replacement applied twice is applied once |
| `JsStrings.SanitizeFixedPoints` | main.js:129 | the replacement leaves a string unchanged iff it already holds only `[a-zA-Z0-9_]` |
| `JsStrings.DigitChar` | main.js:170 | a digit value's character is a digit of that value |
| `JsStrings.DecimalString` | main.js:170 | `${Date.now()}` is a non-empty string of digits without a leading zero |
| `JsStrings.DecimalRoundTrip` | main.js:170 | reading the decimal rendering back gives the number |
| `AssetTypes.KindOf` | main.js:33 | the kind read from the selector maps back to the selector's exact string |
| `AssetTypes.KindOfCanonical` | main.js:33 | every kind read from the selector is canonical |
| `AssetTypes.KindOfValueOf` | main.js:33 | reading back a canonical kind's string gives the kind |
| `AssetTypes.KindOfInjective` | main.js:33 | different selector strings give different kinds, so the source's string comparisons are kept |
| `Validation.Validate` | main.js:32-63 | input is accepted iff the URL is not all whitespace, a type is selected and the trimmed URL contains `roblox.com`; the accepted value is the non-empty trimmed URL |
| `Validation.ValidationOrder` | main.js:44-63 | for each failing input, the message of the first failing check in source order: both missing, URL missing, type unselected, no `roblox.com` |
| `Validation.BlankUrlIsMissing` | main.js:44-53 | a whitespace-only URL is treated exactly like an empty one and is refused |
| `Validation.SurroundingWhitespaceIgnored` | main.js:32 | whitespace around an accepted URL is dropped: the padded input gives the same result |
| `AssetNaming.AssetId` | main.js:71-72 | the ID exists iff segment 4 is present and non-empty, and is then exactly segment 4; it contains no `/` |
| `AssetNaming.SoundInfoUrl` | main.js:71-74 | no ID gives "Could not parse Asset ID from URL."; otherwise the target is `https://www.roblox.com/asset/?id=` followed by segment 4 |
| `AssetNaming.SoundFileName` | main.js:127-130 | a sound's name ends with `.ogg`, and is `sound.ogg` when segment 5 is absent or empty |
| `AssetNaming.SoundFileNameShape` | main.js:128-129 | with segment 5 present, the name is as long as the segment plus `.ogg`; its stem holds only `[a-zA-Z0-9_]`, keeps each alphanumeric character in place and has `_` for every other one |
| `AssetNaming.XmlPlan` | main.js:123-133 | a plan exists iff the `<Content>` tag exists; it downloads the tag's text under the sound file name |
| `AssetNaming.BaseName` | main.js:167-173 | the trimmed text of the name element, or, with no name element, the type's string and `_` followed by exactly the decimal rendering of the clock |
| `AssetNaming.TypeSuffix` | main.js:183-198 | the suffix is empty exactly for a type that is neither a sound nor one of the six page types |
| `AssetNaming.PageDownloadUrl` | main.js:176-199 | a type outside the six gives an empty download URL; the four ID types get a URL iff segment 4 is present and non-empty |
| `AssetNaming.PagePlan` | main.js:161-203 | a plan exists only for one of the six page types and always has a non-empty download URL |
| `AssetNaming.ResolvePageDownload` | main.js:161-203 | the step-by-step reassignment of `downloadUrl` and `fileName` computes the page plan |
| `AssetNaming.DecalPlan` | main.js:178-184 | a decal without an image fails with its message; one with an empty `src` fails with "Could not determine a download URL."; otherwise it downloads the image's `src` under a `.png` name |
| `AssetNaming.PluginPlan` | main.js:185-191 | a plugin without a link fails with its message; one with an empty `href` fails with "Could not determine a download URL."; otherwise it downloads the link's `href` under a `.rbxm` name |
| `AssetNaming.AssetIdPlan` | main.js:192-199 | accessory, clothing, mesh and model fail without an ID. With one, they download `https://assetdelivery.roblox.com/v1/asset/?id=` plus segment 4 under a `.rbxm` name, or `.rbxm.png` for clothing |
| `AssetNaming.UnknownTypeFails` | main.js:192-203 | any type outside the six leaves the download URL empty, so the plan fails with "Could not determine a download URL." |
| `AssetNaming.PlanFileName` | main.js:161-203 | every plan belongs to one of the six page types, has a non-empty download URL, and names its file as the base name followed by the type's suffix |
| `DownloadFlow.FetchTarget` | main.js:69-82 | a document URL exists iff the type is not a sound or segment 4 is present and non-empty. For a sound it is the sound info endpoint followed by segment 4; otherwise it is the URL itself; the error is "Invalid Sound URL. Could not parse Asset ID from URL." |
| `DownloadFlow.Run` | main.js:31-262 | a flow sends at most two requests, the document first and then the file, and a file is saved only after both were sent |
| `DownloadFlow.AfterFetch` | main.js:90-110 | after the document request, at most the file request follows, only once the document was fetched; a file is saved iff that request was sent and answered with a body |
| `DownloadFlow.AfterSoundXml` | main.js:117-140 | the file request is sent iff the `<Content>` tag exists, and it asks for that tag's text; otherwise the flow fails with the off-sale message |
| `DownloadFlow.AfterPage` | main.js:205-217 | the file request is sent iff the page yields a plan, and it asks for the plan's download URL |
| `DownloadFlow.AfterPlan` | main.js:226-261 | exactly one file request is sent. The flow fails without a file iff the relay sends no body. Otherwise the file is saved under the plan's name with the body's bytes, and the flow succeeds iff the URL and type are Latin-1. If not, it shows "Download failed: " with `btoa`'s error |
| `DownloadFlow.InvalidInputSendsNothing` | main.js:43-63 | input that fails a check ends the flow with that check's message and no request |
| `DownloadFlow.SoundFetchedById` | main.js:69-78 | a valid sound URL without a segment-4 ID fails with "Invalid Sound URL. Could not parse Asset ID from URL." and sends nothing; with one, the first request is for the sound info URL with exactly that ID |
| `DownloadFlow.FetchStatusReported` | main.js:93-109 | a document request answered without `ok` fails with "Failed to fetch asset data: Network error: " and the status text, sends nothing more and saves nothing |
| `DownloadFlow.DownloadStatusReported` | main.js:229-261 | a file request answered without `ok` fails with a message that carries the status text, with no retry |
| `DownloadFlow.UnknownTypeNeverDownloads` | main.js:192-203 | a type outside the seven never sends a file request; once its page is fetched, the flow fails with the missing-download-URL message |
| `DownloadFlow.ReportFailsAfterSave` | main.js:240-260 | once the file request is answered with a body, the file is saved, and the flow succeeds iff the trimmed URL and the type's string are Latin-1; otherwise it shows "Download failed: " with `btoa`'s error |
| `DownloadFlow.SavedUnderTypeSuffix` | main.js:127-198 | a saved file holds the bytes of the file response, and its name ends with its type's suffix (`.ogg`, `.png`, `.rbxm`, `.rbxm.png`) |
| `DownloadFlow.Downloader.constructor` | main.js:6-17 | the page loads with the button shown and enabled, no error and nothing sent or saved |
| `DownloadFlow.Downloader.EnableSubmitButton` | main.js:267-270 | enables the button and restores its label; nothing else changes |
| `DownloadFlow.Downloader.ShowError` | main.js:274-276 | shows exactly the given message |
| `DownloadFlow.Downloader.ShowLoadMsg` | main.js:282-285 | the loading message appears and hides the button |
| `DownloadFlow.Downloader.HideLoadMsg` | main.js:287-290 | the loading message goes and the button is shown |
| `DownloadFlow.Downloader.Begin` | main.js:31-65 | stores the trimmed URL and disables the button. A failed check leaves its message on show and the button enabled and shown; otherwise the flow is busy behind the loading message |
| `DownloadFlow.Downloader.ProcessOptions` | main.js:31-83 | the corrected handler: its requests are those of `Run`, and it ends in `Run`'s outcome. On a failure, the error is on show and the button enabled and shown, with the file saved if one came back; on success, the file is saved and the timer pending |
| `DownloadFlow.Downloader.ProcessOptionsAsWritten` | main.js:31-83 | the handler as written: the same requests, but a sound URL without an ID leaves the button enabled yet hidden behind the loading message, with no timer pending |
| `DownloadFlow.Downloader.RejectSoundUrlAsWritten` | main.js:75-78 | the catch block as written: error on show, button enabled, loading message still up |
| `DownloadFlow.Downloader.RejectSoundUrl` | main.js:75-78 | the corrected catch block: error on show, button enabled and shown |
| `DownloadFlow.Downloader.FetchContents` | main.js:90-110 | records the document request, then ends as `AfterFetch` says: a non-`ok` or rejected fetch shows its message and re-enables the button |
| `DownloadFlow.Downloader.ParseXml` | main.js:117-140 | a missing `<Content>` tag shows the off-sale message and re-enables the button; otherwise it downloads the tag's text under the sound file name |
| `DownloadFlow.Downloader.ParseHtml` | main.js:148-218 | a failed plan shows the parse message and re-enables the button; otherwise it downloads the plan |
| `DownloadFlow.Downloader.DownloadAsset` | main.js:226-262 | records the file request. A body is saved as the file, then the timer starts if the stored URL and the type can be encoded by `btoa`; otherwise `btoa`'s error is shown and the button re-enabled. A failed request shows its message and re-enables the button |
| `DownloadFlow.Downloader.FireTimer` | main.js:251-254 | the success timer hides the loading message and re-enables the button |
| `DownloadFlow.Downloader.Click` | main.js:8-10 | the click handler with the invalid sound URL path corrected: whatever the input and the relay's answers, the click ends with the button enabled and shown, the trimmed URL stored and `Run`'s requests. Its error is on show unless it succeeded, and its file is saved whenever one came back |
| `DownloadFlow.LibraryUrlAccepted` | main.js:44-63 | `https://www.roblox.com/library` passes every input check as a sound |
| `DownloadFlow.HostUrlAccepted` | main.js:59-63 | a URL without surrounding whitespace that contains `roblox.com` is accepted for any selected type |
| `DownloadFlow.LibraryUrlHasNoId` | main.js:71-72 | that URL splits into exactly those four pieces, so it has no segment 4 |
| `DownloadFlow.Downloader.ClickAsWritten` | main.js:8-10 | the click handler as written, timer included: the button always ends enabled with `Run`'s requests, error and saved file, and it stays hidden behind the loading message exactly for an accepted sound URL without an ID |
| `DownloadFlow.SoundUrlWithoutIdHidesButton` | main.js:65-78 | as written, a click with that URL leaves the button enabled but hidden, with no timer pending to show it again |

## Left out

- DOM parsing and the CSS selectors (`DOMParser`, `querySelector`, `getElementsByTagName`) are not modelled. Each lookup is an `Option<string>` input of the `Page` record, because the selectors are browser code.
- `fetch` and `encodeURIComponent` are not modelled. A recorded request carries the URL handed to `fetchContents` or `downloadAsset`, before percent-encoding and the relay prefix `https://api.robloxasset.com/fetch?url=` or `/download?url=` are added. The relay is network I/O.
- `response.text()` and `response.blob()` are not modelled, so a body read that fails is not represented. A `Fulfilled` response is already the body.
- The blob URL and the temporary anchor that save the file are not modelled. A saved file is recorded as its name and bytes, because this is browser I/O.
- The download statistics are left out, except for `btoa`'s throw: `getDownloadAmount`, the request `submitDownloadAmount` sends, and the five-second polling of `updateDownloadAmount`. They report to a server, and the request's answer does not affect the flow. `btoa` throwing does affect it, so `DownloadAsset` and `AfterPlan` model it. `updateDownloadAmount` is called but never defined.
- The texts of the loading message and `changeLoadMsg` are not modelled, and neither is `console` logging. These only affect the display. Whether the loading message is up is modelled, because it hides the button. The error on show is modelled too: `showError` sets it, and `hideError` clears it in `Begin`.
- `Date.now()` is a parameter (`Environment.now`), because it reads the clock.
- The asynchronous ordering is not modelled. A flow runs to its end before the next click, as the disabled button ensures. Clicks during the 1500 ms timer are not modelled.
- `JsStrings.Sanitize`: JavaScript strings are UTF-16. A character outside the Basic Multilingual Plane is two code units, so the regex makes two underscores of it. The model's characters are Unicode scalar values, so it makes one.
- The selector's value is read into `AssetKind` by `AssetTypes.KindOf`. This loses nothing, as `KindOfInjective` shows.

## Findings

| source | as written | input that shows it | evidently intended | confidence | as-written member | corrected member |
|---|---|---|---|---|---|---|
| main.js:65-78 | when a sound URL has no asset ID in segment 4, the `catch` block shows the error and re-enables the button but never calls `hideLoadMsg`. `showLoadMsg` on line 65 hid the button, so it stays hidden and cannot be clicked again | type `sound`, URL `https://www.roblox.com/library` | hide the loading message, as every other failure path does (lines 107, 137, 215, 259) | not executed | `DownloadFlow.SoundUrlWithoutIdHidesButton` | `DownloadFlow.Downloader.RejectSoundUrl` |
