# Barcode ledger

A barcode scanner app in two variants: a React Native screen (`App.tsx`) and a Next.js page (`app/page.tsx`). Both keep a **ledger**: an ordered list of scanned records `{id, type, data, timestamp}`. A decode from the camera appends a record only when no record already has the same `data`. The whole list is stored as one JSON text under the key `"barcodes"`: in the device's key-value store on mobile, and in the browser's `localStorage` on the web. The user can delete one record by id, delete them all, or copy every payload to the clipboard, one per line.

This Dafny project models that core in four modules:

- `Ledger` holds the record type and the list operations the two variants share. These are pure functions:
  - the duplicate test (`some`), the dedup-append and the id filter;
  - the payload export (`map` and `join("\n")`).

  Lemmas state what the operations keep: uniqueness of `data`, order, idempotence, and the line split that undoes the export when no payload contains a line feed (when one does, the copied text cannot tell it from two records).
- `Json` models the text each variant writes. It has the serialisation `JSON.stringify` produces for a list of records, and a parser for it. The parser is proved to invert the serialisation exactly.
- `Mobile.App` is a class holding the screen's state. Its fields are:
  - `barcodes`, `scanned`, `isScanning` and `hasPermission`;
  - the store, as a map from key to text.

  Its methods are the handlers. `scanned` and `isScanning` form the camera gate.
- `Web.Home` is a class holding the page's state: `barcodes`, `isScanning` and `storage` (the browser's `localStorage`, as a map from key to text). Its methods are the handlers.

Whether a store read or write succeeds is a method parameter (`readOk`, `writeOk`) in both variants. So are the id (`Date.now()`) and the timestamp (`toLocaleString()`) of a new record. Ids are not assumed to be unique. Each handler runs to completion before the next one starts.

The two variants differ in ways the contracts spell out:

- **Write failures.** On mobile the state is updated first and the store write is fire-and-forget, so a failed write leaves memory ahead of the store with a "Failed to save" alert. On the web `localStorage.setItem` runs first, so a write that throws changes neither the store nor the list, and no toast appears (`StorageError`).
- **Empty stored text.** The mobile load parses any stored value that is not `null`, so an empty text fails to parse and raises "Failed to load". The web load skips a falsy value, so an empty text is ignored.
- **Scanner gate.** The mobile camera callback is detached (`scanned`) after each decode until "Scan Again" or a new scan. The web scanner reports every decode while its card is open, so a repeated decode shows the duplicate toast.

## Model

| member | source | states |
|---|---|---|
| Ledger.AnyWithData | App.tsx:49 | true exactly when some record in the list has the given `data` |
| Ledger.Scanned | App.tsx:49-58 | the result keeps the old list as a prefix and is at most one longer; it is longer exactly when the payload was absent, and the added last record is the scanned one; afterwards the payload is present |
| Ledger.UniqueAppend | app/page.tsx:39-47 | appending a record keeps `data` unique exactly when the list was unique and lacked that payload |
| Ledger.ScannedUnique | App.tsx:49-57 | dedup-append preserves uniqueness of `data` |
| Ledger.ScannedTwice | App.tsx:49 | a second scan of the same payload (any id, type or time) changes nothing |
| Ledger.ScanAllUnique | app/page.tsx:39-48 | any sequence of scans from a unique list leaves it unique |
| Ledger.ScanAllExtends | App.tsx:57 | a sequence of scans only appends: the old list stays a prefix and at most one record is added per scan |
| Ledger.ScanAllCovers | App.tsx:49-58 | after a sequence of scans every scanned payload is in the list |
| Ledger.ScanAllOrder | app/page.tsx:47 | the appended records are a subsequence of the scans, in scan order |
| Ledger.WithoutId | App.tsx:85 | the filter is no longer than its input and keeps exactly the records whose id differs |
| Ledger.WithoutIdConcat | app/page.tsx:72 | filtering by id works piecewise over concatenation, so order is kept |
| Ledger.WithoutIdUnchanged | App.tsx:85 | deleting by id leaves the list unchanged exactly when no record has that id |
| Ledger.WithoutIdIdempotent | app/page.tsx:72 | deleting the same id twice equals deleting it once |
| Ledger.WithoutIdUnique | App.tsx:85 | delete-by-id preserves uniqueness of `data` |
| Ledger.Payloads | App.tsx:113 | one payload per record |
| Ledger.JoinLines | App.tsx:113 | JavaScript's `join("\n")`: the empty list gives the empty text; the text starts with the first part, followed by a line feed when more parts come; `SplitLines` undoes it for a non-empty list of newline-free parts (`SplitJoin`) and it undoes `SplitLines` (`JoinSplit`) |
| Ledger.SplitLines | App.tsx:113 | splitting on newlines yields at least one line |
| Ledger.JoinSplit | App.tsx:113 | joining the lines of a text with `"\n"` gives the text back |
| Ledger.SplitJoin | app/page.tsx:99 | for a non-empty list of lines none of which contains a line feed, splitting their join gives the lines back |
| Ledger.CopyAll | App.tsx:107-113 | "No Barcodes" exactly for the empty list; a single record copies its payload alone |
| Ledger.CopyAllLines | app/page.tsx:89-99 | for a non-empty list in which no payload contains a line feed, the copied text splits back into the payloads in list order |
| Ledger.CopyAllMerges | App.tsx:113 | a record whose payload is two lines joined by a line feed copies to the same text as two records holding those lines, whatever follows them |
| Json.Encode | App.tsx:39 | the stored text is a bracketed array |
| Json.Decode | app/page.tsx:27-28 | the empty text does not parse |
| Json.Expect | app/page.tsx:28 | a match means the text is the literal followed by the returned remainder, and whenever the text is the literal followed by some remainder, that remainder is returned |
| Json.HexDigitValue | App.tsx:39 | a `\u00xx` digit reads back as the value written |
| Json.ParseEscape | App.tsx:30 | the characters of an escaped string parse back up to the closing quote |
| Json.ParseQuote | App.tsx:30 | a quoted string parses back with the text after it untouched |
| Json.ParseEncodeRecord | app/page.tsx:28 | a serialised record parses back to the same record |
| Json.ParseEncodeItems | app/page.tsx:28 | a serialised non-empty list parses back to the same list |
| Json.DecodeEncode | App.tsx:30-39 | parsing the stored text of any list gives that list back |
| Json.UnescapeSound | app/page.tsx:28 | an accepted escape is the one the serialiser writes for that character |
| Json.ParseCharsSound | app/page.tsx:28 | accepted string characters are exactly the serialisation of what they yield |
| Json.ParseRecordSound | App.tsx:30 | an accepted record is exactly the serialisation of the record it yields |
| Json.ParseItemsSound | App.tsx:30 | an accepted list body is exactly the serialisation of the list it yields |
| Json.DecodeSound | app/page.tsx:28 | a text that parses is the serialisation of its parse |
| Json.DecodeExactly | App.tsx:29-30 | a text parses to a list exactly when it is that list's serialisation |
| Json.EncodeInjective | app/page.tsx:33 | different lists are stored as different texts |
| Mobile.App.constructor | App.tsx:11-14 | empty list, scanner hidden and armed, permission pending, store as found |
| Mobile.App.CurrentScreen | App.tsx:118-160 | "Requesting camera permission" exactly while the answer is pending; "No access to camera" exactly when it was refused; the camera view, with its callback attached exactly when `scanned` is clear, exactly when permission was granted and scanning is on; the list exactly when permission was granted and scanning is off |
| Mobile.App.Accepting | App.tsx:134-138 | the decode callback is attached exactly when the rendered screen is the camera view with `scanned` clear |
| Mobile.App.LoadBarcodes | App.tsx:26-35 | a failed read or a stored text that does not parse raises "Failed to load" and keeps the list; no stored value keeps the list silently; otherwise the list becomes the parse and agrees with the store |
| Mobile.App.Mount | App.tsx:16-24 | records the permission answer, then loads as above |
| Mobile.App.SaveBarcodes | App.tsx:37-43 | the store holds the serialised list after a write that succeeds; a failed write leaves it and raises "Failed to save" |
| Mobile.App.HandleBarCodeScanned | App.tsx:45-71 | `scanned` is set; the list becomes the dedup-append; a duplicate writes nothing and raises only the duplicate alert; a new payload is written through, with "Barcode Detected" and, on a failed write, "Failed to save"; uniqueness and store agreement are kept |
| Mobile.App.OnBarCodeScanned | App.tsx:134-138 | a decode reaches the handler only while permitted, on the scanner view and not yet scanned; otherwise nothing changes; afterwards the callback is detached |
| Mobile.App.ScanAgain | App.tsx:148 | clears `scanned`, so the callback is attached exactly when the view is shown with permission |
| Mobile.App.BackToList | App.tsx:153 | leaves the scanner view, detaching the callback |
| Mobile.App.StartScanning | App.tsx:208-213 | shows the scanner view armed; the callback is attached exactly when permission was granted |
| Mobile.App.DeleteBarcode | App.tsx:78-91 | cancelled: nothing changes; confirmed: the list keeps exactly the records with another id and is written even when none matched; uniqueness is kept |
| Mobile.App.DeleteAllBarcodes | App.tsx:93-105 | cancelled: nothing changes; confirmed: the list is empty and the empty list is written |
| Mobile.App.CopyAllBarcodes | App.tsx:107-116 | the outcome is `Ledger.CopyAll` of the list: "No Barcodes" exactly for an empty list; otherwise the payloads in order joined by newlines |
| Web.Home.constructor | app/page.tsx:20-21 | empty list, scanner closed, storage as found |
| Web.Home.LoadSaved | app/page.tsx:24-30 | a read that throws fails (`ok` false) and keeps the list; an absent or empty stored value keeps the list; any other replaces it by its parse, or fails (`ok` false) when the parse throws; a successful load agrees with the store |
| Web.Home.SaveBarcodes | app/page.tsx:32-35 | a write that succeeds gives the same list to the store and the state; a failed write changes neither |
| Web.Home.HandleBarCodeScanned | app/page.tsx:37-61 | a duplicate changes neither list nor store and shows "Duplicate Barcode"; a new payload is appended at the end, written, and shows "Barcode Detected"; a failed write changes nothing; uniqueness and store agreement are kept |
| Web.Home.OnScanSuccess | app/page.tsx:124-134 | decodes reach the handler only while the scanner card is open, every one of them; with the card open the list becomes the dedup-append on a successful write, a duplicate leaves the store unchanged and shows "Duplicate Barcode", and a new payload writes the serialised list under the key and nothing else |
| Web.Home.StartScanning | app/page.tsx:132 | opens the scanner card |
| Web.Home.CloseScanner | app/page.tsx:127 | closes the scanner card |
| Web.Home.DeleteBarcode | app/page.tsx:71-79 | the list keeps exactly the records with another id and is written even when none matched; uniqueness and store agreement are kept |
| Web.Home.DeleteAllBarcodes | app/page.tsx:81-87 | both list and store hold the empty list |
| Web.Home.CopyAllBarcodes | app/page.tsx:89-106 | the outcome is `Ledger.CopyAll` of the list: "No Barcodes" exactly for an empty list; otherwise the payloads in order joined by newlines |
| Web.Reload | app/page.tsx:24-35 | a page loaded over a store in agreement with an earlier page shows the same list, in order |

## Left out

- Camera decoding, the permission prompt and the scanner wrappers are foreign libraries. A decode is a method call with `format` and `data`, and the permission answer is a parameter of `Mobile.App.Mount`. component/barcode-scanner.tsx is not part of this model beyond its callback.
- Toasts, alerts and clipboard writes are returned as values: `Alert`, `Toast`/`Outcome` and `CopyOutcome`. The alert buttons "Scan Again" and "Back to List" are the methods `ScanAgain` and `BackToList`.
- `copyToClipboard` for a single record (App.tsx:73-76, app/page.tsx:63-69) only writes the given text to the clipboard and shows a toast, so it has no ledger logic to model.
- Rendering and styles are not modelled beyond which screen the mobile component shows (`Mobile.App.CurrentScreen`). That leaves out the web "Copy All" and "Clear All" buttons being disabled on an empty list (app/page.tsx:113, 117), which makes the web "No Barcodes" branch unreachable from the page.
- `Date.now()` and `toLocaleString()` are wall-clock reads, so the id and timestamp are parameters. Nothing makes ids unique.
- Asynchronous ordering is not modelled: the awaited store calls, React's batched state updates and handler closures seeing an older `barcodes`. Each handler runs to completion on the current state.
- Json.Decode accepts only the layout `JSON.stringify` writes: the keys `id, type, data, timestamp` in that order, no whitespace, and escapes in their canonical form. `JSON.parse` accepts more: whitespace, other key orders, extra keys, `\/`, upper-case or other `\u` escapes, and values that are not arrays of records. For a text written by these apps the two agree. Any other text counts as a parse failure here.
- The copied text is ambiguous for payloads that contain a line feed (QR codes can hold several lines): App.tsx:113 and app/page.tsx:99 join with the same character, so one such record and two records copy alike (`Ledger.CopyAllMerges`). The model keeps this as written; `Ledger.CopyAllLines` holds only when no payload contains a line feed.
- Strings are sequences of Unicode scalar values, so UTF-16 surrogate pairs and their escaping are not modelled.
- Mobile.App.LoadBarcodes: a store read that throws is modelled as `readOk == false`. A store that is unavailable is not otherwise modelled.
- Web.Home.LoadSaved: the exceptions `localStorage.getItem` (app/page.tsx:26, when the browser blocks storage) and `JSON.parse` (app/page.tsx:28) throw are not caught by the page; a throwing read is modelled as `readOk == false`. With no error boundary, React then stops rendering the page altogether. The model instead returns `ok == false` with the list unchanged and lets the page go on: later scans and deletes would then overwrite the unparsable stored text, which the page as written never reaches.
- Behaviours of the code the model keeps as they are:
  - a duplicate scan reports only "Duplicate Barcode" and nothing about the record already holding that payload (App.tsx:66-69, app/page.tsx:55-59);
  - delete-by-id has no "not found" outcome and writes the store even when no record matched (App.tsx:85-87, app/page.tsx:72-73);
  - the web load does not catch a `JSON.parse` failure (app/page.tsx:28).
