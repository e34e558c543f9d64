# Folder monitor with ntfy.sh notifications — a Dafny model

`folder_monitor.py` watches a folder with watchdog. Its `FileChangeHandler`
receives created, modified, deleted and moved events. It drops the events its
configuration filters out: directories unless `--include-directories` is
given, and files whose extension is not on the `--extensions` allow-list.
For each remaining event it sends one notification to an ntfy.sh topic. That
notification is a JSON object with the topic, a multi-line message, a title,
a priority and a single-element tag list. Created and modified notifications
carry a human-readable file size (`1.50 KB`). A move within one directory is
titled as a rename that names both files.

The model has one module per part of the program:

- `Strings`: the Python `str` operations the program calls (`split`,
  `strip`, `lower`, `startswith`), and the `rfind` that `basename`,
  `splitext` and `rsplit('/', 1)` are built on.
- `PosixPath`: `os.path.basename`, `os.path.splitext`, and the
  `rsplit('/', 1)[0]` directory idiom.
- `Filter`: `should_process_event`, as a function of the configuration and
  the event.
- `FileSize`: `_get_file_size`. The method `GetFileSize` keeps the source's
  loop that divides by 1024. A specification function `HumanSize` describes
  the result, and lemmas pin down the chosen unit and the two-decimal
  rendering.
- `Payload`: the dictionary `send_notification` builds. Methods build it
  field by field, as the source does. The ghost predicate `Publishes` says
  which payload a call produces.
- `Events`: the message, title, priority and tags of each event kind.
- `Monitor`: the class `FileChangeHandler`. A ghost field `outbox` records
  every payload the handler hands to the HTTP client, in order.
- `Cli`: the part of `main` that turns `--extensions` into the allow-list
  and `--include-directories` into the exclusion flag, plus the notification
  sent when the operator stops the monitor.

The file system and the clock are inputs. `FileStat` is what
`os.path.isfile`/`os.path.getsize` answer for the path, including a failing
lookup. `timestamp` is the text `datetime.now().strftime(...)` produced.

## Model

| member | source | states |
|---|---|---|
| Filter.ShouldProcess | folder_monitor.py:58-70 | A directory event is acted on exactly when directories are not excluded. A file event is acted on exactly when there is no non-empty allow-list, or when the lower-cased `splitext` extension of its source path is on the list. |
| Filter.EventExtension | folder_monitor.py:66-67 | The compared extension is empty or a dot followed by neither dots nor slashes, and holds no upper-case letter. |
| Filter.AcceptAllWithoutFilters | folder_monitor.py:58-70 | With no allow-list and directories included, every event is acted on. |
| Filter.FileWithListedExtension | folder_monitor.py:64-67 | A file `dir/stem.ext` (stem not all dots) passes any allow-list that holds the lower-cased `.ext`. Matching ignores case. |
| Filter.FileWithUnlistedExtension | folder_monitor.py:64-68 | A file `dir/stem.ext` is dropped by a non-empty allow-list that does not hold the lower-cased `.ext`. |
| Filter.FileWithoutExtension | folder_monitor.py:64-68 | A file whose name has no dot after its leading dots has no extension. Any non-empty allow-list of dot-prefixed entries drops it. |
| Filter.TxtAllowList | folder_monitor.py:58-70 | With allow-list `[".txt"]`, `a/b.txt` is acted on. A directory event is acted on exactly when directories are included. |
| Filter.TxtAllowListRejectsMarkdown | folder_monitor.py:64-68 | With allow-list `[".txt"]`, `a/b.md` is dropped. |
| PosixPath.Basename | folder_monitor.py:78 | The basename contains no `/`. It is a suffix of the path, preceded by a `/` whenever it is shorter than the path. |
| PosixPath.RSplitHead | folder_monitor.py:143 | A path with a `/` is its head, a `/` and its basename. A path without one is its own head. |
| PosixPath.SplitExt | folder_monitor.py:66 | Root and extension concatenate back to the path. The extension is empty, or a dot followed by neither `/` nor `.`. |
| PosixPath.ExtensionOfName | folder_monitor.py:66 | In any directory, `stem.ext` (stem not all dots, `ext` without `.`) has extension `.ext`. |
| PosixPath.NoExtensionAfterLeadingDots | folder_monitor.py:66 | A name made of leading dots and then no other dot (`.bashrc`) has no extension. |
| PosixPath.BasenameOfJoin | folder_monitor.py:78 | The basename of a directory prefix joined with a `/`-free name is that name. |
| PosixPath.RSplitHeadOfJoin | folder_monitor.py:143 | The head of `d/name` is `d`. |
| Strings.Lower | folder_monitor.py:67 | Lower-casing keeps the length. Each upper-case letter becomes its lower-case letter (32 code points on), every other character is unchanged, no upper-case letter remains, and white space stays white space. |
| Strings.LowerOfLower | folder_monitor.py:67 | A string without upper-case letters is its own lower-case form. |
| Strings.StripLeft | folder_monitor.py:241 | The result is a suffix of the input. Only white space is removed, and the result does not start with white space. |
| Strings.StripRight | folder_monitor.py:241 | The result is a prefix of the input. Only white space is removed, and the result does not end with white space. |
| Strings.Strip | folder_monitor.py:241 | The stripped text neither starts nor ends with white space. |
| Strings.StripOfStripped | folder_monitor.py:241 | Text that neither starts nor ends with white space is unchanged by `strip`. |
| Strings.Split | folder_monitor.py:242 | `split(sep)` gives at least one piece, and no piece contains the separator. |
| Strings.JoinSplit | folder_monitor.py:242 | Joining the pieces of `split(sep)` with `sep` gives back the string. |
| Strings.SplitPieces | folder_monitor.py:242 | `split` gives one more piece than there are separators. |
| Strings.SplitAround | folder_monitor.py:242 | Splitting `a + sep + b` gives the pieces of `a` followed by the pieces of `b`. |
| FileSize.HumanSize | folder_monitor.py:150-160 | A size text is one non-empty line. It starts with a digit exactly when the path is a regular file, so the sentinel texts for a non-file and a failed lookup never look like a size. |
| FileSize.GetFileSize | folder_monitor.py:148-160 | The loop returns `HumanSize(stat)`: `Unknown` when the lookup fails, `N/A (directory)` for a non-file, else the size in its unit with two decimals. |
| FileSize.UnitIndex | folder_monitor.py:153-156 | The unit is one of B to TB. Below TB the size is under the next power of 1024, and above B it is at least the unit's own power. |
| FileSize.UnitIndexIsFirst | folder_monitor.py:153-156 | Those two bounds single out the unit: it is the first one the loop accepts. |
| FileSize.ScaledValueInRange | folder_monitor.py:153-156 | The number shown is below 1024 in every unit but TB, and at least 1 in every unit but B. |
| FileSize.RoundHalfEven | folder_monitor.py:155 | The rounded value is within one half of the input, and an exact tie rounds to the even neighbour. |
| FileSize.DecimalRoundTrip | folder_monitor.py:155 | Reading back the digits written for a natural number gives that number. |
| FileSize.Fixed2 | folder_monitor.py:155 | `{x:.2f}` is at least four characters: digits, a point, then exactly two digits. |
| FileSize.Fixed2Denotes | folder_monitor.py:155 | `{x:.2f}` is digits, a point and two digits. Read as hundredths, it is within one half of `100·x`. |
| FileSize.SizeOfEmptyFile | folder_monitor.py:153-155 | A 0-byte file is `0.00 B`. |
| FileSize.SizeOfKilobyteAndAHalf | folder_monitor.py:153-156 | A 1536-byte file is `1.50 KB`. |
| FileSize.SizeOfGigabyte | folder_monitor.py:153-156 | A 2^30-byte file is `1.00 GB`. |
| Payload.NumericPriority | folder_monitor.py:186-199 | A named priority gives a number from 1 to 5 exactly when the name is known. A number is copied exactly when it is non-zero. No priority gives none. |
| Payload.PriorityNameTable | folder_monitor.py:189-197 | `urgent`, `high`, `default`, `low` and `min` give 5, 4, 3, 2 and 1. Any other name is left out. |
| Payload.PriorityLevel | folder_monitor.py:186-199 | The priority step produces `NumericPriority` of its argument. |
| Payload.Headline | folder_monitor.py:179-201 | Topic and message are always present. Title and tags are present exactly when truthy, with tags as a one-element list. Priority is present exactly when there is a numeric priority. No other key is present. |
| Payload.BuildPayload | folder_monitor.py:179-207 | The payload satisfies `Publishes`: the headline fields, plus `click`, `attach` and `actions` exactly when truthy, and no other key. |
| Payload.PublishesIsUnique | folder_monitor.py:179-207 | `Publishes` fixes the payload: two payloads that satisfy it for the same call are equal. |
| Payload.NamesAreDistinct | folder_monitor.py:179-207 | Different payload keys have different JSON names. |
| Events.CreatedNotification | folder_monitor.py:84-89 | The created call has a title and tags, numeric priority 3, and no links. |
| Events.ModifiedNotification | folder_monitor.py:103-108 | The modified call has a title and tags, numeric priority 2, and no links. |
| Events.DeletedNotification | folder_monitor.py:121-126 | The deleted call has a title and tags, numeric priority 4, and no links. |
| Events.MovedNotification | folder_monitor.py:141-146 | The moved call has a title and tags, numeric priority 3, and no links. |
| Events.PayloadOfEvent | folder_monitor.py:84-146 | A call with a truthy title and tags, a non-zero numeric priority and no links yields exactly the keys topic, message, title, priority and tags, with those values. |
| Events.EventPayloads | folder_monitor.py:84-146 | Created gives title `File Created`, priority 3, tags `file_folder,new`. Modified gives `File Modified`, 2, `pencil`. Deleted gives `File Deleted`, 4, `wastebasket,warning`. Moved gives its move title, 3, `arrow_right`. In each case the tags are a single list element. |
| Events.MoveTitle | folder_monitor.py:143 | The title is `File Moved` exactly when the two paths differ before their last `/`. `RenameWithinDirectory`, `MoveAcrossDirectories` and `BareNamesAreMoves` give the title for each kind of move. |
| Events.RenameWithinDirectory | folder_monitor.py:143 | A move between two names in one directory is titled `File Renamed: old → new`. |
| Events.MoveAcrossDirectories | folder_monitor.py:143 | A move between different directories is titled `File Moved`. |
| Events.BareNamesAreMoves | folder_monitor.py:143 | Two different paths without a `/` are each their own head, so the title is `File Moved`. |
| Events.RenameExample | folder_monitor.py:143 | `/x/a.txt` to `/x/b.txt` is titled `File Renamed: a.txt → b.txt`. |
| Events.MoveExample | folder_monitor.py:143 | `/x/a.txt` to `/y/a.txt` is titled `File Moved`. |
| Events.CreatedMessage | folder_monitor.py:85 | For one-line inputs the message has four lines: the file name, the location, `Size:` with the size text, and the time. |
| Events.ModifiedMessage | folder_monitor.py:104 | For one-line inputs: the same four lines as a created message, led by `File modified:`. |
| Events.DeletedMessage | folder_monitor.py:122 | For one-line inputs: three lines (name, location, time) and no `Size:` line. |
| Events.MovedMessage | folder_monitor.py:142 | For one-line inputs: four lines (`File moved:`, from, to, time) and no `Size:` line. |
| Monitor.FileChangeHandler.constructor | folder_monitor.py:42-52 | The handler stores the topic, allow-list and exclusion flag. It has sent exactly one payload, the "Folder Monitoring Started" notification (priority 3, tag `rocket`). |
| Monitor.FileChangeHandler.SendNotification | folder_monitor.py:162-220 | Exactly one payload is appended to the outbox: the one `Publishes` describes for the arguments. Earlier payloads are kept, and every payload is on the handler's topic. |
| Monitor.FileChangeHandler.OnCreated | folder_monitor.py:72-89 | A dropped event sends nothing. An accepted event sends exactly the created notification, whose size text is `HumanSize` of the file-system answer. |
| Monitor.FileChangeHandler.OnModified | folder_monitor.py:91-108 | A dropped event sends nothing. An accepted event sends exactly the modified notification. |
| Monitor.FileChangeHandler.OnDeleted | folder_monitor.py:110-126 | A dropped event sends nothing. An accepted event sends exactly the deleted notification. |
| Monitor.FileChangeHandler.OnMoved | folder_monitor.py:128-146 | A dropped event sends nothing. An accepted event sends exactly the moved notification, with the rename-or-move title. |
| Monitor.StartedPayload | folder_monitor.py:47-52 | The start-up payload has exactly the keys topic, message, title, priority and tags: "Started monitoring folder for changes", "Folder Monitoring Started", 3 and `["rocket"]`. |
| Monitor.StoppedPayload | folder_monitor.py:264-269 | The stop payload has exactly the keys topic, message, title, priority and tags: "Folder monitoring stopped by user", "Monitoring Stopped", 3 and `["stop_sign"]`. |
| Monitor.SecondPayload | folder_monitor.py:47-52 | After the start-up payload and one event payload, the outbox holds two payloads, and the second has exactly the event's five fields. |
| Monitor.PdfIsAccepted | folder_monitor.py:58-70 | With allow-list `[".pdf"]`, a created file `/watched/report.pdf` is acted on. |
| Monitor.CreatedPdfScenario | folder_monitor.py:72-89 | A `.pdf`-only handler that sees `/watched/report.pdf` created has sent two payloads. The second has title `File Created`, priority 3 and tags `["file_folder,new"]`. |
| Cli.NormaliseEntry | folder_monitor.py:241 | An entry is normalised to a leading dot followed by the lower-cased stripped text. The dot is added only when the stripped text lacks one, and no upper-case letter remains. |
| Cli.NormalisedEntryIsStripped | folder_monitor.py:241 | A normalised entry has nothing left to strip. |
| Cli.NormaliseEntryIdempotent | folder_monitor.py:241 | Normalising twice is normalising once. |
| Cli.EntryWithoutDot | folder_monitor.py:241 | A stripped entry without a leading dot gets one in front of its lower-case form. |
| Cli.EntryWithDot | folder_monitor.py:241 | A stripped entry with a leading dot is only lower-cased. |
| Cli.NormaliseExtensions | folder_monitor.py:239-242 | An absent or empty `--extensions` gives no allow-list. Otherwise there is one normalised entry per comma-separated piece, in order, one more than the number of commas. |
| Cli.AllowListIsNormalised | folder_monitor.py:239-242 | Every entry of the allow-list is already in normal form. |
| Cli.TxtEntry | folder_monitor.py:241 | ` TXT` becomes `.txt`. |
| Cli.PdfEntry | folder_monitor.py:241 | ` .Pdf` becomes `.pdf`. |
| Cli.MdEntry | folder_monitor.py:241 | `md` becomes `.md`. |
| Cli.SplitExample | folder_monitor.py:242 | ` TXT, .Pdf,md` splits on commas into three pieces, with the spaces kept. |
| Cli.NormaliseThree | folder_monitor.py:241-242 | A value that splits into three pieces gives the three normalised pieces, in order. |
| Cli.NormaliseExample | folder_monitor.py:239-242 | ` TXT, .Pdf,md` gives the allow-list `[".txt", ".pdf", ".md"]`. |
| Cli.Start | folder_monitor.py:239-249 | The handler gets the normalised allow-list and excludes directories unless `--include-directories` is given. It has sent only the start-up notification. |
| Cli.Stop | folder_monitor.py:263-268 | On interrupt, exactly one "Monitoring Stopped" notification (priority 3, tag `stop_sign`) is sent. |

## Left out

- The HTTP POST, its status check and its error logging (folder_monitor.py:209-220) are not modelled. `outbox` records every payload handed to the client, whether the relay accepted it or not. A failed POST is only logged, so nothing else changes.
- `json.dumps` is not modelled: the payload stays a map from keys to JSON values. The JSON key names are given by `Payload.Name`.
- Logging (every `logger` call) is not modelled, because it has no effect on what is sent.
- The watchdog `Observer`, `schedule`, `start`/`stop`/`join`, the sleep loop and the `recursive` flag (folder_monitor.py:244-277) are not modelled. Which events reach the handler is up to watchdog. `Start` and `Stop` model only the handler's side.
- `argparse`, the `os.path.exists` check and `sys.exit(1)` (folder_monitor.py:224-236) are not modelled. The parsed `--topic`, `--extensions` and `--include-directories` values are parameters of `Start`.
- `datetime.now().strftime(...)` is not modelled: the timestamp text is a parameter.
- `os.path.isfile` and `os.path.getsize` are not modelled: `FileStat` gives their answer, and `StatError` stands for any exception they raise.
- FileSize.Fixed2: the size is divided exactly, with round-half-even to two places. Python divides in binary floating point, so the text agrees only while the size stays exact in a double (below 2^53 bytes) and the division does not round a tie differently.
- Strings.Lower: only ASCII letters are lower-cased. Python's `str.lower` also maps other Unicode upper-case letters, and a few of those change the string's length.
- Payload.NumericPriority: a priority argument is modelled as absent, an integer or a string. Python would also copy a float or another truthy non-string object into the payload. Every call in the program passes an integer.
- Payload.NumericPriority: the program's documentation says priorities range over 1 to 5. The code copies any truthy non-string priority unchanged, so the model follows the code and does not check the range. The values the program itself passes are 2, 3 and 4.
- `title`, `click`, `attach` and `actions` are modelled as optional strings. Python would accept any truthy object there.
