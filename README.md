# utiluti: the `manage` and `app types` commands in Dafny

utiluti is a macOS command-line tool that reads and changes which application handles a
uniform type identifier (UTI) or a URL scheme. This project models and proves the two pieces
of it that hold logic of their own.

- **`utiluti manage`** (`Manage`, in `manage.dfy`) reads a dictionary of associations, then
  hands each association to Launch Services.
  - **Where the dictionaries come from.** With no file option, it reads the managed
    preference domains `com.scriptingosx.utiluti.type` and `com.scriptingosx.utiluti.url`.
    Unmanaged keys are added when `--include-unmanaged` is given. With `--type-file` and/or
    `--url-file`, it reads only the files it is given.
  - **Load failures.** Each failure has its own exit code: 3 when a domain cannot be opened,
    7 when a file is missing (after printing `no file at <path>`), and 4 when a file is not a
    dictionary. A failure stops the run before any later entry or scope is applied.
  - **Applying entries.** Entries whose value is not a string are skipped, with a notice in
    verbose mode. Every other entry makes one registry call and prints `set … for …` or
    `ERROR: cannot set … for … (error <status>)`. A failing entry never stops the loop.
- **`utiluti app types <app-identifier>`** (`AppTypes`, in `app_types.dfy`) reads an app's
  `CFBundleDocumentTypes`.
  - It keeps the entries that have a string name, a string role and a string array of
    content types.
  - It prints each of their content types in order. In verbose mode each line also carries
    the entry's name and role.
  - When the app, its bundle, its information dictionary or the document-type array cannot
    be obtained, it exits with code 7.

Both commands print as they loop. The model records what they print as a sequence of lines.
It records the calls `manage` makes to the Launch Services registry as a sequence of `Call`
values. The registry itself is a parameter: a function from (scope, bundle identifier, key)
to an `OSStatus`, where 0 means success.

Swift leaves the order of a dictionary's entries unspecified. `Manage.IterationOrder`
therefore picks any order, and everything proved about a dictionary's run holds for every
order (`Manage.Applied` quantifies over all enumerations).

Giving either file option means only the given files are read: a scope without a file is
not read from its preference domain (`Sources/utiluti/ManageCommand.swift:93-104`).
`Manage.TypeFileAloneSkipsUrls` states the consequence: with only `--type-file`, no URL
scheme is ever set.

Supporting modules:

- `Base` holds `Option` and `Outcome`. An `Outcome` is either a normal return or a thrown
  `ExitCode`.
- `Seqs` holds the sequence combinators `FlatMap`, `Map` and `Filter`, with their
  distribution, membership and permutation lemmas.
- `Decimal` holds the decimal text of the status printed in error lines.

## Model

| member | source | states |
|---|---|---|
| Manage.IterationOrder | Sources/utiluti/ManageCommand.swift:51 | iterating a dictionary visits every (key, value) pair exactly once, in some order |
| Manage.Manage | Sources/utiluti/ManageCommand.swift:50-83 | the lines printed and the calls made are exactly those of visiting the dictionary's entries in some order (`Applied`), for both `manageTypes` and `manageURLs` |
| Manage.NonStringEntrySkipped | Sources/utiluti/ManageCommand.swift:52-55 | an entry whose value is not a string causes no registry call; its only line is the skip notice, printed exactly when verbose is set |
| Manage.StringEntryAppliedOnce | Sources/utiluti/ManageCommand.swift:58-63 | a string entry causes exactly one call, with the value as bundle identifier and the key as type or scheme; it prints exactly one line, a set line for status 0 and otherwise an error line carrying the status |
| Manage.EntryHandledAlone | Sources/utiluti/ManageCommand.swift:51-64 | with distinct keys, the lines and calls about an entry's key are exactly what that entry produces on its own, wherever it stands in the order: no other entry stops the loop or touches that key |
| Manage.ReportCounts | Sources/utiluti/ManageCommand.swift:51-64 | one call and one set-or-error line per string entry; one line per entry in verbose mode, one per string entry otherwise |
| Manage.AllAcceptedNoErrors | Sources/utiluti/ManageCommand.swift:59-63 | when the registry answers 0 to every call, no error line is produced |
| Manage.AllAcceptedNoErrorText | Sources/utiluti/ManageCommand.swift:59-63 | when the registry answers 0 to every call, no printed line starts with `ERROR: ` |
| Manage.Render | Sources/utiluti/ManageCommand.swift:54-62 | the printed text of a line: `skipping non-string value '<value>' for <key>`, `set <bundle> for <key>` or `ERROR: cannot set <bundle> for <key> (error <status>)`; set, error and skip lines start with `set `, `ERROR: ` and `skipping ` respectively, so the printed text identifies its kind (both directions) |
| Manage.EntryLines | Sources/utiluti/ManageCommand.swift:52-63 | one iteration's output: for a non-string value, one skip line for the key in verbose mode and nothing otherwise; for a string value, exactly one line about that key and bundle identifier, a set line exactly when the registry answers 0, otherwise an error line carrying the registry's status |
| Manage.EntryCalls | Sources/utiluti/ManageCommand.swift:52-58 | one iteration makes one registry call for a string value, in the dictionary's scope with the value as bundle identifier and the key as type or scheme, and none for any other value |
| Manage.LoadSource | Sources/utiluti/ManageCommand.swift:88-101 | reading a domain fails (code 3) exactly when the domain cannot be opened, and otherwise yields the domain dictionary; reading a file fails exactly when it is missing (code 7) or not a dictionary (code 4), and otherwise yields its dictionary |
| Manage.OrderIrrelevant | Sources/utiluti/ManageCommand.swift:51 | two visiting orders of the same entries, with the same registry answers, print the same lines and make the same calls, as multisets |
| Manage.CallsDistinct | Sources/utiluti/ManageCommand.swift:51-58 | with distinct keys, no two calls are about the same key |
| Manage.EnumerationFacts | Sources/utiluti/ManageCommand.swift:51 | an enumeration of a dictionary has distinct keys, lists only its pairs, lists every key, and has its size |
| Manage.AppliedCalls | Sources/utiluti/ManageCommand.swift:50-83 | in any order, a call is made exactly for each string entry of the dictionary, in its scope and with its value, and never twice for one key; the number of lines is the dictionary's size in verbose mode and the number of calls otherwise |
| Manage.AppliedCall | Sources/utiluti/ManageCommand.swift:58 | every call of a dictionary's run sets a string entry of that dictionary |
| Manage.CallsOfEnumeration | Sources/utiluti/ManageCommand.swift:51-58 | the calls of an enumeration are exactly the dictionary's string entries (both directions) |
| Manage.AppliedUpToOrder | Sources/utiluti/ManageCommand.swift:50-83 | two runs over the same dictionary, with the same registry answers, differ at most in the order of their lines and calls |
| Manage.DomainDictionary | Sources/utiluti/ManageCommand.swift:45-47 | a key is loaded from a domain exactly when it has a stored value and is managed, or is non-global with `--include-unmanaged`; its value is the stored value |
| Manage.LoadDomain | Sources/utiluti/ManageCommand.swift:41-48 | loading fails with exit code 3 exactly when the domain cannot be opened, printing nothing; otherwise it yields the domain dictionary |
| Manage.DictionaryFromDefaults | Sources/utiluti/ManageCommand.swift:41-48 | builds the key set step by step (managed keys, then the union with non-global keys) and agrees with `LoadDomain` |
| Manage.UnmanagedOnlyAdds | Sources/utiluti/ManageCommand.swift:45-46 | `--include-unmanaged` only adds entries: every entry loaded without it is loaded with it, with the same value |
| Manage.LoadFile | Sources/utiluti/ManageCommand.swift:29-39 | a missing file fails with code 7 after printing `no file at <path>`, whatever it would contain; an existing file that is not a dictionary fails with code 4; otherwise the whole dictionary is loaded |
| Manage.Plan | Sources/utiluti/ManageCommand.swift:86-104 | with no file option, both domains are read, types first; otherwise only files are read, each in its own option's scope, types before URL schemes, one source per option given |
| Manage.ManageSource | Sources/utiluti/ManageCommand.swift:95-98 | one `try dictionary(...)` followed by one `try await manage...(...)`: a load failure throws its code and message with no call; otherwise the loaded dictionary is applied |
| Manage.Run | Sources/utiluti/ManageCommand.swift:85-105 | the run loads and applies the planned sources in order, stopping at the first load failure (`RunsPlan`) |
| Manage.RunsPlanAppend | Sources/utiluti/ManageCommand.swift:88-92 | a completed run followed by a run of further sources is a run of all the sources |
| Manage.RunsPlanStops | Sources/utiluti/ManageCommand.swift:96-101 | a run that throws is unaffected by the sources planned after it |
| Manage.RunOutcome | Sources/utiluti/ManageCommand.swift:85-105 | a run completes exactly when every planned source loads; otherwise its exit code is 3, 4 or 7, that of the first source that fails, and every earlier source loaded |
| Manage.RunCallFromLoadedSource | Sources/utiluti/ManageCommand.swift:85-105 | every call of a run sets, in its scope, a string value held by some source of the plan that loaded |
| Manage.TypeFileAloneSkipsUrls | Sources/utiluti/ManageCommand.swift:93-104 | with only a type file, every call concerns a type identifier: the URL domain is not read |
| Manage.TypeFileFailureStopsRun | Sources/utiluti/ManageCommand.swift:95-103 | when the type file fails to load, the run ends with its exit code and message, and no call is made for either scope |
| Manage.SingleFileRun | Sources/utiluti/ManageCommand.swift:95-98 | a run of one file that loads completes and applies that file's dictionary |
| Manage.AppliedSingleton | Sources/utiluti/ManageCommand.swift:51-63 | applying a one-entry dictionary prints that entry's line, if any, and makes its call, if any |
| Manage.FileScenarioSetsHandler | Sources/utiluti/ManageCommand.swift:95-98 | a type file `{"public.html": "com.example.browser"}` that the registry accepts prints exactly `set com.example.browser for public.html` and makes that one call |
| Manage.FileScenarioSkipsNonString | Sources/utiluti/ManageCommand.swift:52-55 | a type file `{"public.html": 42}` in verbose mode prints only `skipping non-string value '42' for public.html` and makes no call |
| Decimal.IntRoundTrip | Sources/utiluti/ManageCommand.swift:62 | the status printed in an error line is decimal text from which the status can be read back |
| AppTypes.AsStrings | Sources/utiluti/AppCommands.swift:44 | `as? [String]` succeeds exactly for an array of strings and keeps its elements in order |
| AppTypes.AsRecords | Sources/utiluti/AppCommands.swift:35 | `as? [[String: Any]]` succeeds exactly for an array of dictionaries and keeps them in order |
| AppTypes.AsDocType | Sources/utiluti/AppCommands.swift:41-45 | an entry passes the guard exactly when it has a string `CFBundleTypeName`, a string `CFBundleTypeRole` and a string array `LSItemContentTypes`, and then carries those three values |
| AppTypes.DocumentTypes | Sources/utiluti/AppCommands.swift:31-38 | the listing is available exactly when the app is found, its bundle and information dictionary are readable, and `CFBundleDocumentTypes` is an array of dictionaries |
| AppTypes.TypeLine | Sources/utiluti/AppCommands.swift:47-51 | the printed line starts with the content type; without `--verbose` it is the type alone; with it the type is followed by ` - `, the name, ` (`, the role and `)` |
| AppTypes.RecordLines | Sources/utiluti/AppCommands.swift:41-52 | an entry that fails the guard prints nothing; a valid one prints one line per content type, line k being the `TypeLine` of content type k; without `--verbose` the lines are the content types themselves |
| AppTypes.PrintTypes | Sources/utiluti/AppCommands.swift:46-52 | the inner loop prints one line per content type, in order: the type alone, or `<type> - <name> (<role>)` in verbose mode |
| AppTypes.PrintDocTypes | Sources/utiluti/AppCommands.swift:40-53 | the outer loop prints exactly `Listing` of the document types |
| AppTypes.ListTypes | Sources/utiluti/AppCommands.swift:30-54 | exits with code 7 and prints nothing when the guard fails; otherwise completes, having printed `Listing` of the document types |
| AppTypes.ListingFiltersThenFlattens | Sources/utiluti/AppCommands.swift:40-53 | the listing equals the listing of only those entries that pass the guard |
| AppTypes.InvalidRecordSkipped | Sources/utiluti/AppCommands.swift:45 | an entry that fails the guard contributes no line and does not affect the lines of the entries before or after it |
| AppTypes.PlainListing | Sources/utiluti/AppCommands.swift:40-53 | without `--verbose`, the output is the content-type lists of the valid entries, concatenated in array order, duplicates kept |
| AppTypes.PlainListingMember | Sources/utiluti/AppCommands.swift:40-53 | without `--verbose`, a type is printed exactly when some valid entry declares it |
| AppTypes.ListingLength | Sources/utiluti/AppCommands.swift:46-51 | the verbose and the plain output have the same number of lines |
| AppTypes.ListingCount | Sources/utiluti/AppCommands.swift:40-53 | the number of lines is the sum of the number of content types of the valid entries |
| AppTypes.VerboseAnnotatesPlain | Sources/utiluti/AppCommands.swift:47-51 | line i of the verbose output is line i of the plain output, a content type of some valid entry, followed by ` - <name> (<role>)` of that same entry |

## Left out

- `LSKit.setDefaultApp` and Launch Services are not modelled. The registry is a parameter
  that gives a status for each call; the model does not capture how registry state changes
  between calls.
- Asynchrony is not modelled. `await` on the registry call, the `async` command and the
  semaphore bridging of the older `LSKit` are left out; the calls are taken in sequence.
- Plist parsing, `FileManager.fileExists` and the `Preferences` type are given as inputs
  (`Environment`).
  - A file is either a string-keyed dictionary or not one.
  - `Preferences` is not part of this model. A domain is given by its managed keys, its
    non-global keys and its stored values, and `dictionaryRepresentation(forKeys:)` is
    taken to return the stored values of exactly the requested keys.
- Swift's description of a non-string value (`\(value)`) is not derived. `Other` carries
  that text as given.
- The `Int32` clamping of `OSStatus` and the unwrapping of `CocoaError` happen inside
  `LSKit`. They are out of scope; statuses are `int32` values.
- NSWorkspace's lookup of an app by bundle identifier, `Bundle(url:)` and `infoDictionary`
  are given as the `installed` map of `AppTypes.ListTypes`. A missing identifier stands for
  an app that is not found; `None` stands for an unreadable bundle or a missing information
  dictionary.
- Bridging plist values to Swift (`NSString`, `NSNumber`, `NSArray`) is reduced to the
  `Item` datatype. A value whose type does not fit a cast fails that cast.
- Argument parsing is not modelled; the options arrive as `Options`, or as the parameters
  of `ListTypes`.
- The other subcommands (`type`, `url`, `file`, `get-uti`), the command registration and the
  build manifest are not part of this model.
- Standard output is not modelled: every printed line is one element of `lines`.
- No aggregate exit code for entry failures is added. As in the code, the exit code reports
  only load failures, never a failed registry call.
