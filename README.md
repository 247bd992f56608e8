# sds-cli client core in Dafny

This project models the client core of `sds-cli`, a command-line client for the Download Station of a Synology DiskStation. One run of the client goes through these steps:

1. It asks the DiskStation's info API (`SYNO.API.Info`, reached through the bootstrap entry `info` → `query.cgi`) where the authentication, Download Station info and Download Station task APIs live.
2. It registers their descriptors in a process-wide registry.
3. It logs in and takes the session id (`sid`) from the reply.
4. It runs exactly one command: `info`, `get-config`, `get-tasks` or `create-task`.
5. It logs out.

Every call goes through one request pipeline. The pipeline resolves a registry key, builds the GET, and classifies the reply. A transport failure or an undecodable body ends the process. A failed `auth` or `dsTask` call prints the generic message, then the API's own message, then ends the process. A failed call to any other API prints the generic message and hands the failed reply back.

Replies are shown as tables:

- A single non-empty object becomes a one-row table; an empty one gives a table without rows.
- A list of objects with different keys becomes one column per key of their union; two keys with the same column title make PrettyTable raise. Columns are in `sorted()` order of the raw keys and are titled `key.replace('_', ' ').title()`. A missing cell is filled in place with a `{}` placeholder.
- A `--filter` keeps a row when the filter value is a substring of the cell.

For `get-tasks`, the task objects can first be enriched:

- the nested `additional.detail` and `additional.transfer` objects are copied to the top level, and the `additional` wrapper is dropped;
- timestamps, the seeding time, and byte counts and speeds are converted to text.

The modules follow the program:

| module | file | models |
|---|---|---|
| `Values` | values.dfy | optional values, decoded JSON, query-parameter values |
| `Text` | text.dfy | `str.title`, `str.lower`, one-character `str.replace`, the `in` substring test, `str(int)` |
| `Order` | order.dfy | Python's string order and `sorted()` of a set of keys |
| `Errors` | errors.dfy | `handle_error`, `handle_auth_error`, `handle_ds_task_error` |
| `Api` | api.dfy | the `apis` registry (a class whose map `update` changes), `request`, and the classification of replies |
| `Table` | table.dfy | `format_field_names`, `tabulate_dictionary`, `tabulate_list`, `tabulate` |
| `Format` | format.dfy | `format_time`, `readable_storage`, `format_date` |
| `Enrich` | enrich.dfy | `get_additional_columns` |
| `Driver` | driver.dfy | `main`: bootstrap, login, the four commands, logout |

Which parts are imperative:

- Code that changes state in place is written as methods over the mutable thing:
  - the registry;
  - the array of rows that `tabulate_dictionary` fills;
  - the array of tasks that `get_additional_columns` and the `--human-readable` size loop rewrite.
- Code that loops is written as a method with a loop.
- Each such method is proved equal to a specification function. The properties are proved as lemmas about those functions.

Some things come from outside the model and are passed in as values:

- The network and the JSON decoder are one function `Get -> Response`.
- The console input (the typed username and the password) is a pair of strings.
- `str()` of a JSON value is a function `Json -> string`.
- `round(x, 2)` printed as text is a function `real -> string`.
- `datetime.fromtimestamp(t).strftime(...)` is a function `int -> string`.

Output is a sequence of events: printed lines, and a shown table.

## Model

| member | source | states |
|---|---|---|
| Text.TitlePointwise | util.py:87 | `str.title()` keeps the length, and each ASCII letter is upper-cased exactly when the character before it is not an ASCII letter; any other character is kept |
| Text.TitleKeepsLetters | util.py:87 | title-casing maps letters to letters and keeps every other character unchanged |
| Text.TitleIdempotent | util.py:87 | title-casing twice equals title-casing once |
| Text.TitleIgnoresCase | util.py:99-102 | `s.lower().title() == s.title()`, which is why the filter's lower-cased key and its title-cased display name agree |
| Text.ContainsIff | util.py:120 | the `in` substring test holds exactly when the needle occurs at some position of the text |
| Text.ContainsEmpty | util.py:120 | the empty filter value is found in every cell |
| Text.NatToStringDigits | util.py:185-200 | `str(n)` of a natural number is a non-empty string of digits, without a leading zero, whose value is n |
| Order.LessIrreflexive | util.py:86 | the string order is irreflexive |
| Order.LessTransitive | util.py:86 | the string order is transitive |
| Order.LessTotal | util.py:86 | any two different strings are ordered one way or the other |
| Order.SortedKeys | util.py:106 | `sorted(keys)` has as many elements as the set, each one from the set |
| Order.SortedComplete | util.py:106 | `sorted(keys)` lists every key of the set |
| Order.SortedIncreasing | util.py:106 | `sorted(keys)` is strictly increasing |
| Order.SortedDistinct | util.py:106 | a strictly increasing list holds no key twice |
| Errors.FullApiName | errors.py:11-16 | `dsTask` is named "Disk Station Task"; every other key, `dsInfo` included, is named by its `str.title()` |
| Errors.HandleError | errors.py:10-35 | the generic handler never exits and prints at most two lines |
| Errors.HandleErrorLines | errors.py:17-35 | the header is printed exactly when the key is non-empty and reads "Error in <name> request"; a message is printed exactly for codes 100 through 107 |
| Errors.GenericCodesDistinct | errors.py:20-35 | codes 100 through 107, and only those, have a generic message, and no two of them share one |
| Errors.DsInfoHeader | errors.py:11-18 | an error of `dsInfo` is headed "Error in Dsinfo request", because the branch naming it "Disk Station Info" is overwritten |
| Errors.HandleAuthError | errors.py:38-49 | the auth handler always exits and prints at most one line |
| Errors.HandleDsTaskError | errors.py:52-71 | the task handler always exits and prints at most one line |
| Errors.SpecificCodes | errors.py:38-71 | the auth handler has a message exactly for codes 400 through 404 and the task handler exactly for 400 through 408; an auth message differs from the task message for the same code; no such code has a generic message |
| Errors.SpecificHandlersAlwaysExit | errors.py:49-71 | both specific handlers exit whatever the code, printing nothing when the code is unknown to them |
| Api.Registry.constructor | util.py:16-22 | the registry starts with only `info` → (SYNO.API.Info, 1, query.cgi) |
| Api.CatalogEntry | util.py:37-43 | the descriptor read from an info reply carries the API name it was asked for; it exists exactly when the reply succeeded and has an object for that name with an integer `maxVersion` and a string `path` (other value types are left out, see below) |
| Api.Registry.Update | util.py:25-43 | registering replaces or adds exactly the one key and leaves every other entry unchanged; where the catalog entry cannot be read (Python raises, or the version or path has a type the model leaves out) it reports failure and changes nothing |
| Api.Registry.Prepare | util.py:46-59 | the GET goes to `http://<address>/webapi/<path>` with the given cookies; its query has the keys `api`, `version` and `method` plus the caller's parameters, and a caller's parameter overrides a reserved one; an unregistered key has no GET |
| Api.Classify | util.py:61-81 | a connection error or an undecodable body ends the process with its one message; a success is handed back with nothing printed; a failure prints the generic lines first, and ends the process exactly for `auth` and `dsTask` |
| Api.Registry.Request | util.py:46-81 | an unregistered key fails before anything is sent; otherwise the outcome is the classification of the transport's reply to the prepared GET |
| Api.UnregisteredFailsBeforeTransport | util.py:48 | for an unregistered key the outcome does not depend on the transport |
| Api.FailuresReturnedExceptAuthAndTask | util.py:67-75 | a failure of any key other than `auth` and `dsTask` prints the generic lines and hands the failed reply back |
| Api.AuthAndTaskFailuresTerminate | util.py:67-73 | a failure of `auth` or `dsTask` prints the generic lines, then the API's own line, and ends the process |
| Table.DisplayNameShape | util.py:87 | a display name has the key's length and no underscore; its spaces are where the key had a space or an underscore; a lower-case letter that starts a word is upper-cased |
| Table.FilterKeyDisplayName | util.py:99-118 | the raw key a filter column resolves to has the filter column's own display name, so the later lookup under that name always succeeds |
| Table.SizeName | util.py:87 | the key `size` is displayed as `Size` |
| Table.AllKeys | util.py:93 | the key union holds exactly the keys that some row has |
| Table.FillMissing | util.py:112-114 | a filled row has the keys of the row and of the union; its own values are kept and every added key holds the placeholder |
| Table.FilledDetermined | util.py:112-114 | a row with those keys and values is the filled row |
| Table.FormattedKeys | util.py:84-89 | a formatted row's keys are the display names of the row's keys |
| Table.FormattedValue | util.py:84-89 | under a key's display name the formatted row holds that key's value, when no later key in sorted order has the same display name |
| Table.FormatFieldNames | util.py:84-89 | the loop builds the formatted row and its display names in insertion order, and those names are exactly the formatted row's keys |
| Table.FirstNamesShape | util.py:86-88 | the insertion-ordered names hold no name twice, and they are the list itself when it holds no name twice |
| Table.ListNamesAreColumns | util.py:128-133 | a name is in the single-object table's column list exactly when it is a key of the formatted object |
| Table.Header | util.py:106-108 | the header is the display names of the sorted key union |
| Table.FilterRow | util.py:115-123 | a formatted row is kept exactly when there is no active filter or the filter value occurs in its cell |
| Table.FillAndSelect | util.py:111-123 | the loop leaves every row of the array filled, and returns the formatted rows that pass the filter, in order |
| Table.TabulateDictionary | util.py:92-125 | a list of rows is filled in place and gives the "isn't a column" diagnostic for a filter column that no row has; it gives the dictionary table exactly when no two keys share a display name, and none where `from_json` raises |
| Table.TabulableIff | util.py:106-125 | `from_json` accepts the header exactly when no two keys of the union have the same display name |
| Table.SizeClash | util.py:106-125 | objects with the keys `size` and `Size` cannot be tabulated, because both are displayed as `Size` |
| Table.TabulateList | util.py:128-133 | adding one column per formatted key gives a one-row table whose column list is exactly the keys of its row; the empty object gives no column and no row |
| Table.Tabulate | util.py:136-149 | a list gives the dictionary table (the filter applies), or none when two keys share a display name; a single object gives the one-row table, the filter is ignored and nothing is printed |
| Table.SelectSubsequence | util.py:111-123 | the surviving rows are the rows at strictly increasing positions, and a position survives exactly when its row passes the filter |
| Table.SelectNone | util.py:117-123 | without a filter every row survives |
| Table.SelectFrom | util.py:117-123 | every surviving row is one of the input rows |
| Table.FilledHasEveryKey | util.py:111-114 | after filling, every row has exactly the union's keys, with its own values where it had them and the placeholder elsewhere |
| Table.DictionaryHeader | util.py:93-108 | the header is the display names of the sorted union keys, which are strictly increasing and are exactly the keys some row has |
| Table.FormatsColumns | util.py:111-115 | every formatted row's keys are the display names of the union |
| Table.DictionaryRectangular | util.py:92-125 | every row of the table has every column of its header |
| Table.UnfilteredKeepsAll | util.py:96-103 | with no filter or an unknown filter column, every row is kept; an unknown column prints "[<Name>] isn't a column" |
| Table.KnownFilterSelects | util.py:96-121 | with a known filter column nothing is printed, and the rows kept are, in order, exactly those whose cell contains the filter value |
| Table.ListTableColumns | util.py:128-133 | a non-empty object gives one row, no duplicate column, and columns that are that row's keys; with distinct display names they are in sorted key order; the empty object gives no column and no row |
| Table.SortedThree | util.py:106 | three increasing keys are sorted into that order |
| Table.OverlappingKeysHeader | util.py:92-108 | objects with keys {a, b} and {b, c} give the columns A, B, C |
| Table.OverlappingKeysFilled | util.py:111-114 | with values {a: 1, b: 2} and {b: 3, c: 4}, each object gains its one missing key as a placeholder |
| Table.SubstringFilter | util.py:117-121 | the filter `size 10` keeps the size "100" and drops "205" and "3" |
| Format.TruncDiv | util.py:178-180 | `math.trunc(a / b)` with `a / b` taken as the exact quotient: it rounds toward zero, its magnitude is \|a\| div b and it has a's sign; this is Python's value while the quotient is exact in a double (see "## Left out") |
| Format.Ladder | util.py:178-195 | the minutes, hours and days are positive exactly when the duration reaches a minute, an hour and a day, and are its whole minutes, hours and days when it is not negative |
| Format.FormatTime | util.py:176-202 | the string appended to step by step is the text of the parts the duration shows: days, hours and minutes once it reaches a day, an hour and a minute, and seconds when they are not zero or the whole duration is zero |
| Format.Recompose | util.py:176-202 | the shown parts of a non-negative duration add back up to it |
| Format.PartsBounded | util.py:182-200 | days are shown only when there is at least one, hours are below 24, and minutes and seconds are below 60 |
| Format.ZeroSeconds | util.py:197-200 | 0 seconds reads "0 seconds" |
| Format.MinuteAndSecond | util.py:176-202 | 61 seconds read "1 minute 1 second" |
| Format.WholeDay | util.py:176-202 | 86400 seconds read "1 day 0 hours 0 minutes ", with a trailing space |
| Format.OneOfEach | util.py:176-202 | 90061 seconds read "1 day 1 hour 1 minute 1 second" |
| Format.MinusOne | util.py:176-202 | -1 seconds read "59 seconds" |
| Format.ReadableStorage | util.py:152-164 | the cascade of divisions gives the tier text: the bytes in the B tier, otherwise the rounded size in the tier's unit; sizes beyond the float range are not modelled |
| Format.TierScale | util.py:152-163 | the scaled size shown is at least one unit of its tier and below one unit of every larger tier |
| Format.TierExamples | util.py:152-164 | 1073741824 bytes are shown in MB, 1048576 bytes in KB, and 500 bytes as "500 B" |
| Format.FormatDate | util.py:167-173 | the timestamp 0 gives the empty string; any other is the local date text (a timestamp `fromtimestamp` rejects is not modelled, see "## Left out") |
| Enrich.Nested | util.py:209-212 | the nested detail or transfer items are read only when `additional` holds an object there |
| Enrich.Convert | util.py:218-231 | a conversion succeeds exactly on a number (a boolean counts as 0 or 1) and gives text; for numbers within the ranges `fromtimestamp` and float conversion accept, as "## Left out" says |
| Enrich.CopyItems | util.py:209-213 | the item loop adds the nested items over the task, later ones winning |
| Enrich.DropAdditional | util.py:214-216 | the key loop removes exactly the `additional` key |
| Enrich.ConvertField | util.py:219-231 | one conversion replaces the field by its text, and fails on a missing field or a non-number |
| Enrich.ConvertTask | util.py:218-231 | the conversions run in the source's order, as the flags ask |
| Enrich.ProcessTask | util.py:207-233 | one pass of the loop flattens and converts one task |
| Enrich.GetAdditionalColumns | util.py:205-234 | the tasks are rewritten in place into their enriched forms, which are returned; a task with a missing `additional` object or a non-numeric converted field makes the whole call fail |
| Enrich.EnrichAllFails | util.py:205-234 | one failing task makes the whole call fail |
| Enrich.EnrichAllShape | util.py:205-234 | the call fails exactly when some task fails; otherwise it returns one enriched task per input task, in order |
| Enrich.ConversionsDistinct | util.py:218-231 | no field is converted twice |
| Enrich.ConvertedFields | util.py:218-231 | the converted fields are the three timestamps under `detail`, `seedelapsed` under `detail` and `human_readable`, and the sizes and speeds under `human_readable` and `transfer` |
| Enrich.NoAdditional | util.py:214-216 | an enriched task has no `additional` key, and the conversions add or remove no key |
| Enrich.TransferWins | util.py:208-213 | with both flags, a key in both nested objects takes the transfer value, and a key only in detail takes the detail value |
| Enrich.ConvertedValues | util.py:218-231 | every field the flags convert was a number and holds its converted text |
| Enrich.ConversionsOnlyUnderFlags | util.py:218-231 | a field is converted only under its flags; otherwise it keeps its flattened value |
| Enrich.SpeedSuffix | util.py:228-231 | with `human_readable` and `transfer`, the download speed is its readable size followed by "/s"; otherwise it is left alone |
| Enrich.ConvertAllFrame | util.py:218-231 | the conversions keep the task's keys, change no field they do not name, and leave text in every field they name |
| Enrich.NoFlagsOnlyDrops | util.py:205-234 | without `detail` and `transfer` a task only loses its `additional` key, whatever `human_readable` says |
| Driver.Account | main.py:131-134 | the account is the `--username` given (when it is non-empty), otherwise the typed name |
| Driver.Additional | main.py:157-164 | the `additional` value is one of "", "detail,", "transfer," and "detail,transfer,"; it starts with "detail," exactly under `--detail` and ends with "transfer," exactly under `--transfer` |
| Driver.AdditionalBuilt | main.py:159-164 | appending "detail," and then "transfer," as the flags say builds that value |
| Driver.TaskParams | main.py:157-182 | the task parameters always hold `id` (Python's None when absent) and `additional`; `offset` and `limit` are there exactly when no id is given and the option is non-zero |
| Driver.TaskInfoParams | main.py:157-182 | the method is `getinfo` with an id and `list` without, and the parameters built step by step are those |
| Driver.CreateParams | main.py:213-229 | the create parameters hold `uri`, and each of `username`, `password`, `unzip_password` and `destination` exactly when that option is non-empty, with its value |
| Driver.CreateTaskParams | main.py:212-229 | without a uri nothing is built and "specify uri" is printed; otherwise the parameters are those |
| Driver.SortOutcome | main.py:198-209 | an unknown direction prints its diagnostic and changes nothing; otherwise `desc` reverses the sort, a known column becomes the sort column, and an unknown column prints "[<Name>] isn't a column" and is not set; the header and rows never change and at most one line is printed |
| Driver.ApplySort | main.py:198-209 | the assignments to `reversesort` and `sortby` and the printed line are those of SortOutcome |
| Driver.TasksOf | main.py:187-195 | a list is taken as tasks exactly when every element is an object |
| Driver.ToRow | util.py:115 | a row's cells are the `str()` of the task's values, under the same keys |
| Driver.Rendered | util.py:136-149 | a single object gives the one-row table, a list of objects whose keys have distinct display names gives the dictionary table, and anything else cannot be tabulated |
| Driver.TabulateJson | util.py:136-149 | tabulating a JSON reply gives that rendering |
| Driver.TabulateTasks | util.py:92-125 | tabulating a list of tasks gives the dictionary table and its diagnostic, or nothing where `from_json` raises |
| Driver.Sized | main.py:186-188 | only `size` changes, to its readable form |
| Driver.SizedAll | main.py:186-188 | sizing succeeds exactly when every task has a numeric size within the float range, the model taking every int to be within it, and then sizes each task |
| Driver.HumanSizes | main.py:186-188 | the loop rewrites every task's size in place, and fails where a size is not a number |
| Driver.WalkTasks | main.py:186-192 | the walked listing is the sized and then enriched tasks |
| Driver.Listing | main.py:186-196 | the listing table before any sort is the rendering of the walked tasks |
| Driver.ListTasks | main.py:178-211 | the listing table exists exactly when it can be rendered; it is that rendering with its sorting fields and the sort's line as SortOutcome gives them when `--sort` is given |
| Driver.TaskById | main.py:166-176 | the table of a task by id is its rendering, with its size made readable under `--human-readable` |
| Driver.Registered | main.py:127-129 | after the bootstrap the registry holds `info`, `auth`, `dsInfo` and `dsTask`, under their wire names |
| Driver.Send | util.py:46-81 | one request sends the GET for the registered descriptor, and its outcome is the classification of the reply |
| Driver.Bootstrap | main.py:120-129 | the first and only request is the info query; the run exits when the reply is not a body, and goes on exactly when all three APIs can be registered, after which the registry holds them |
| Driver.CommandGet | main.py:148-231 | every command has a request, except create-task without a uri |
| Driver.DsInfoCommand | main.py:148-155 | `info` and `get-config` send one request to the info API; the run exits exactly on a transport or decoding fault, after its message; it completes exactly on a success whose data can be tabulated, and then shows that table |
| Driver.ShowTasks | main.py:166-211 | get-tasks shows the table of the tasks in the reply, sorted as `--sort` says, after the lines printed on the way, where Python does not raise; the output on a crash is not modelled |
| Driver.GetTasksCommand | main.py:156-211 | get-tasks sends one request to the task API with the task parameters; it exits exactly when the reply is not a success, after the printed messages; it completes exactly when the table can be rendered, and then shows it |
| Driver.CreateTaskCommand | main.py:212-231 | without a uri nothing is sent and the run exits after "specify uri"; otherwise the one create request is sent, and the command completes, printing nothing, exactly when the reply is a success; otherwise it exits after the printed messages |
| Driver.Dispatch | main.py:148-231 | the command sends at most one request; it completes exactly when CommandDone holds for the reply and exits exactly when CommandExits does (or no request is sent), after the messages `request` printed; a completed command shows what it renders |
| Driver.Login | main.py:131-146 | the login request uses the account and password, and the session cookie comes from the reply's `sid`; without a session id the run exits when the login failed and crashes otherwise |
| Driver.AfterLogin | main.py:148-233 | the requests are those of CommandRequests: the command's request, followed by the logout exactly when the command completes; the status is CommandStatus: completed exactly when the logout also succeeds |
| Driver.Session | main.py:131-233 | the requests are SessionRequests: the login, then, exactly when it returns a session id, those of the command; the status is SessionStatus |
| Driver.Run | main.py:115-233 | the requests of a run are RunRequests: the info query, then, exactly when all three APIs register, the login, then, exactly when it returns a session id, the command, then, exactly when the command completes, the logout; the status is RunStatus; the requests follow the trace; a completed run sent four and shows what the command renders; create-task without a uri never gets past the login |
| Driver.RunRequestsFollowTrace | main.py:115-233 | the requests of every run follow the trace the ordering lemmas are about |
| Driver.LogoutSentIff | main.py:125-233 | the logout is sent exactly when the info reply registered all three APIs, the login returned a session id and the command completed, and it is then the fourth and last request |
| Driver.RunCompletesIff | main.py:115-233 | a run completes exactly when it sent four requests and the logout succeeded |
| Driver.CommandGetNames | main.py:148-231 | each command's request names its Download Station API and method and carries the session cookie |
| Driver.SessionGetNames | main.py:138-144 | the login and logout requests go to the auth API without cookies; the logout names the `DownloadStation` session |
| Driver.RegisteredBeforeUse | main.py:125-233 | the first request is the info query, and every later one goes to one of the three APIs the info reply registered |
| Driver.LogoutLast | main.py:233 | only the fourth request can log out |
| Driver.LogoutRequest | main.py:233 | the fourth request logs out of the `DownloadStation` session on the auth API, without cookies |
| Driver.CreateNeedsUri | main.py:212-221 | create-task without a uri sends at most the info query and the login, and never a create |
| Driver.TaskRequest | main.py:156-184 | the task request calls `getinfo` with an id and `list` without; it carries `additional`, `id`, `offset` and `limit` as the options say, and carries the session cookie |

## Left out

- Command-line parsing (`get_args`, main.py:1-112), `input`, `getpass` and `print` are outside the model. The parsed options are the `Args` value; the typed username and the password are parameters; printing is a sequence of events.
- `errors.verbose` (main.py:117) is assigned and never read, so `--verbose` has no effect on the model.
- The HTTP client, the JSON decoder and URL encoding (util.py:51-65) are outside the model. The transport is one function from the unencoded GET to its decoded reply.
- JSON floats are left out; decoded JSON numbers are integers. `round(x, 2)` and the float divisions of `readable_storage` are done on exact reals with integer thresholds. An input within float rounding of a threshold is not modelled.
- Format.FormatTime: the three float divisions of `format_time` (util.py:178-180) are exact integer divisions here. They agree with Python only while `a / b` rounds to a double without crossing a whole number, which holds up to about 1.7e16 seconds; beyond that Python's minutes and hours can differ by one (540431955284459639 seconds give 9007199254740994 minutes in Python and 9007199254740993 here). The OverflowError Python raises for a duration beyond the float range is not modelled.
- Format.TruncDiv: the exact truncating quotient, not the correctly rounded float quotient `math.trunc(a / b)` of Python; see the `Format.FormatTime` line.
- Local time and `strftime` (util.py:171-172) are outside the model, and so is `str()` of a JSON value (util.py:120, prettytable's cell text). PrettyTable's rendering of a table to text is left out as well; a shown table is its header, rows and sort fields.
- Api.CatalogEntry: only an integer `maxVersion` and a string `path` are registered. Python copies whatever JSON value it finds there and later formats it with `str()` in the URL and the query; the model reports such an entry as not registrable, so the run stops at the bootstrap as a crash.
- Text.Title: `str.title()` and `str.lower()` are modelled on ASCII letters only. Any other letter counts as a non-letter and is kept unchanged (Python gives "Éa" for "éa"; the model gives "éA").
- `Api.Envelope`: a failed reply is modelled with an error code. A reply with `success: false` and no `error.code`, or with neither key, is not modelled.
- `Driver.Login`: only a string `sid` is modelled. A reply whose `data.sid` is missing or not a string stops the run as a crash, as Python's KeyError would.
- `Driver.ListTasks`: a `tasks` value that the listing walks but that is not a list of objects is treated as a crash, where Python might iterate over other iterable values. The tasks are copied into a fresh array before the walk; aliasing with the reply's objects is not modelled.
- Format.FormatDate: `datetime.fromtimestamp` (util.py:171) raises ValueError for a timestamp past the year 9999 (10**12, or any timestamp in milliseconds such as 1697000000000) and OverflowError beyond the platform's `time_t`. The model's local-time parameter is total, so `FormatDate`, `Enrich.Convert`, `Enrich.ConvertTask` and `Enrich.GetAdditionalColumns` succeed on such timestamps where Python raises.
- Format.ReadableStorage: `bytes / 1.074e+9` (util.py:154) raises OverflowError for an int beyond the float range (10**309, say). The model divides exactly and never fails, so `ReadableStorage`, `Enrich.Convert`, `Driver.Sized`, `Driver.SizedAll` and `Driver.HumanSizes` succeed on such sizes where Python raises.
- Driver.ShowTasks: on the paths where Python raises, the lines printed before the raise (the "isn't a column" line of util.py:103 before `from_json` rejects repeated column titles) are not part of the model's output; a crash is modelled as the status alone.
- `Enrich.GetAdditionalColumns`: when Python raises partway through a task, that task is left partly rewritten. The model reports only the failure, not the partial state.
- `--username` is both a top-level option and a create-task option, and argparse lets the subcommand's default overwrite it. The model takes one `username` value for both uses.
- The `KeyboardInterrupt` handler (main.py:236-240) and process exit codes are left out. `sys.exit()` with no argument exits with status code 0 on every error path, and the model's `Exited` status carries no code.

## Behaviour of the code worth noting

- An error of `dsInfo` is headed "Error in Dsinfo request": the `if` that names it "Disk Station Info" is overwritten by the `if`/`else` that follows it (errors.py:11-16, `Errors.DsInfoHeader`).
- `readable_storage` compares against 1.074e9 and 1.049e6, so 1073741824 bytes fall in the MB tier and 1048576 bytes in the KB tier (util.py:152-163, `Format.TierExamples`).
- `format_time` shows every unit below the largest one it shows: 86400 seconds read "1 day 0 hours 0 minutes ", and 90061 seconds read "1 day 1 hour 1 minute 1 second" (util.py:181-200, `Format.WholeDay`, `Format.OneOfEach`).
- `format_time` of a negative duration writes only its seconds, modulo 60 as Python's `%` computes them (util.py:197-200, `Format.MinusOne`).
- Every `sys.exit()` is called without an argument, so the process ends with status 0 after "Invalid request URL", "Could not connect to provided address" and "specify uri" (util.py:78, util.py:81, main.py:221).
- With an id and `--human-readable`, get-tasks reads `data.tasks.size` as if `tasks` were one object (main.py:171-174, `Driver.TaskById`). When the reply holds a list there, this is a crash.
