# gcp-flowlogs-reader, modelled in Dafny

This project models the core of gcp-flowlogs-reader, a Python library and
command-line tool. The tool reads Google Cloud VPC Flow Log entries through
the Cloud Logging API, turns each entry into a `FlowRecord`, and can print,
filter or aggregate those records. The model covers:

- the normalisation of one log entry into a `FlowRecord`, including the
  three detail namedtuples, `_get_dt`, equality, hashing, `repr`, `str` and
  `to_dict` (`flowrecords.dfy`, module `FlowRecords`);
- the `Reader`: its project list, log list and default time window, the
  filter expression sent to the API, and the record stream it yields, with
  skipped projects and the first failing record (`readers.dfy`, module
  `Readers`);
- `aggregated_records` and `_FlowStats` (`aggregation.dfy`, module
  `Aggregation`);
- the command-line actions `print`, `ipset`, `findip` and `aggregate`, the
  `--filters` split and the unknown-action branch (`cli.dfy`, module `Cli`);
- the Python semantics these rely on, written out explicitly:
  - `datetime`: the proleptic Gregorian calendar between `datetime.min` and
    `datetime.max`, `strptime` and `strftime` for `%Y-%m-%dT%H:%M:%S`, and
    `timedelta` arithmetic with `OverflowError` (`datetimes.dfy`);
  - `str.join`, `str.split`, `int()` and `str(int)` (`text.dfy`);
  - JSON payload values, `ip_address()` on integers, and the `KeyError`,
    `TypeError` and `ValueError` paths (`payloads.dfy`);
  - `Option` and `Result` (`wrappers.dfy`).

Outside inputs are parameters:

- `datetime.utcnow()` is a `now` argument.
- The Cloud Logging listing is a `LogStore` function. It maps an
  expression, a page size and a project to a sequence of pages that ends
  either normally or with a `GoogleAPIError`.
- The resource-manager project listing is a `Discovery` value: either a
  list of project ids or a `GoogleAPIError`.
- The textual half of the `ipaddress` module (parsing an address literal,
  printing an address) is an `IpLibrary` value.

A CLI action receives a `Stream`. This is what the lazy reader yields: its
records, then the exception that ended it, if there was one. The action
returns the sequence of `print()` calls it made, together with the exception
it ended with. Each `print()` call is a header row, a record row or an
address.

This model follows the source files it cites. Some descriptions of the
library, and its test file, mention resource labels, default ports,
`page_token` paging and a bytes-processed counter. None of these is in the
cited source, so none is modelled.

## Model

| member | source | states |
|---|---|---|
| `Text.Split` | gcp_flowlogs_reader/__main__.py:109-110 | `str.split` with a non-empty separator always yields at least one piece |
| `Text.JoinSplit` | gcp_flowlogs_reader/__main__.py:109-110 | joining the pieces of a split with the same separator gives back the original string |
| `Text.SplitPiecesFree` | gcp_flowlogs_reader/__main__.py:109-110 | no piece of a split contains the separator |
| `Text.SplitJoin` | gcp_flowlogs_reader/__main__.py:26-38 | joining pieces free of a one-character separator, then splitting on it, gives the pieces back |
| `Text.JoinAppend` | gcp_flowlogs_reader/gcp_flowlogs_reader.py:217-225 | `' AND '.join` of two non-empty lists is the join of the first, the separator, then the join of the second |
| `Text.ParseIntToString` | gcp_flowlogs_reader/gcp_flowlogs_reader.py:47-56 | `int(str(i)) == i` for every integer |
| `DateTimes.Bounds` | gcp_flowlogs_reader/aggregation.py:11-15 | every datetime lies between `datetime.min` and `datetime.max` |
| `DateTimes.BeforeOrder` | gcp_flowlogs_reader/aggregation.py:17-23 | datetime `<` is irreflexive, asymmetric, transitive and total |
| `DateTimes.NextDaySpec` | gcp_flowlogs_reader/gcp_flowlogs_reader.py:206-210 | the next day, when it exists, has day number one higher; only the last day, 9999-12-31, has none |
| `DateTimes.PrevDaySpec` | gcp_flowlogs_reader/gcp_flowlogs_reader.py:206-210 | the previous day, when it exists, has day number one lower; only the first day, 0001-01-01, has none |
| `DateTimes.ShiftDaysSpec` | gcp_flowlogs_reader/gcp_flowlogs_reader.py:206-210 | shifting by n days moves the day number by exactly n and keeps the time of day; it fails only when the result would leave years 1 to 9999 |
| `DateTimes.AddSecondsExact` | gcp_flowlogs_reader/gcp_flowlogs_reader.py:177-179 | adding a timedelta of whole seconds moves the epoch second exactly and keeps the microsecond; it overflows exactly when the result leaves the datetime range |
| `DateTimes.StrftimeLayout` | gcp_flowlogs_reader/gcp_flowlogs_reader.py:191-192 | `strftime('%Y-%m-%dT%H:%M:%S')` is 19 characters: a zero-padded 4-digit year and 2-digit fields in fixed places |
| `DateTimes.StrptimeStrftime` | gcp_flowlogs_reader/gcp_flowlogs_reader.py:78-79 | `strptime` of a `strftime` with that format gives back the datetime, for whole seconds |
| `Payloads.Get` | gcp_flowlogs_reader/gcp_flowlogs_reader.py:44-61 | `d[key]` gives the value when present, `KeyError` when missing, `TypeError` on a non-dict |
| `Payloads.PyInt` | gcp_flowlogs_reader/gcp_flowlogs_reader.py:47-56 | `int(v)`: integers unchanged, booleans 0 or 1; a string converts exactly when it is a decimal integer, to that integer, and raises `ValueError` otherwise; null, lists and dicts raise `TypeError` |
| `Payloads.PyIntOfString` | gcp_flowlogs_reader/gcp_flowlogs_reader.py:47-56 | `int(str(i))` on a payload string gives i |
| `Payloads.IpFromInt` | gcp_flowlogs_reader/gcp_flowlogs_reader.py:46-48 | `ip_address(n)`: IPv4 below 2**32, IPv6 below 2**128, `ValueError` otherwise, with the address's integer equal to n |
| `Payloads.IpFromJson` | gcp_flowlogs_reader/gcp_flowlogs_reader.py:46-48 | `ip_address(v)`: strings go to the address parser, integers to the integer rule, booleans to it as 0 or 1 (so `True` is `0.0.0.1`); null, lists and dicts raise `ValueError` |
| `FlowRecords.FieldNames` | gcp_flowlogs_reader/gcp_flowlogs_reader.py:11-19 | each detail namedtuple's field names are distinct |
| `FlowRecords.MakeDetails` | gcp_flowlogs_reader/gcp_flowlogs_reader.py:71-76 | `cls(**d)` succeeds exactly when d is a dict whose keys are exactly the namedtuple's fields |
| `FlowRecords.ZipKeys` | gcp_flowlogs_reader/gcp_flowlogs_reader.py:112-113 | `_asdict()` has exactly the field names as keys |
| `FlowRecords.ZipLookup` | gcp_flowlogs_reader/gcp_flowlogs_reader.py:112-113 | `_asdict()` maps each distinct field name to its value |
| `FlowRecords.AsDictMakeDetails` | gcp_flowlogs_reader/gcp_flowlogs_reader.py:71-76 | `cls(**d)._asdict() == d` |
| `FlowRecords.MakeDetailsAsDict` | gcp_flowlogs_reader/gcp_flowlogs_reader.py:107-116 | `cls(**x._asdict()) == x` for every well-formed namedtuple |
| `FlowRecords.SlotNamedInverse` | gcp_flowlogs_reader/gcp_flowlogs_reader.py:23-41 | looking a slot name up gives that slot, and only its own name gives it |
| `FlowRecords.SlotListed` | gcp_flowlogs_reader/gcp_flowlogs_reader.py:23-41 | every attribute is listed in `__slots__` |
| `FlowRecords.AttrDetermines` | gcp_flowlogs_reader/gcp_flowlogs_reader.py:23-41 | two records with equal values in all 17 slots are the same record |
| `FlowRecords.FlowPayload` | gcp_flowlogs_reader/gcp_flowlogs_reader.py:44 | `entry.payload or entry.log_name` is a dict exactly when the payload is a non-empty dict |
| `FlowRecords.GetDt` | gcp_flowlogs_reader/gcp_flowlogs_reader.py:78-79 | `_get_dt` raises `TypeError` on a non-string, and its result has no microseconds |
| `FlowRecords.GetRtt` | gcp_flowlogs_reader/gcp_flowlogs_reader.py:58-59 | `rtt_msec` is None exactly when the key is missing or null |
| `FlowRecords.Descriptor` | gcp_flowlogs_reader/gcp_flowlogs_reader.py:63-76 | a detail attribute is set exactly when the payload has that key and it builds the namedtuple; otherwise None |
| `FlowRecords.NewFlowRecord` | gcp_flowlogs_reader/gcp_flowlogs_reader.py:43-76 | the constructor's loop over the six detail attributes computes the normalised record or the first exception |
| `FlowRecords.GetDtIgnoresSuffix` | gcp_flowlogs_reader/gcp_flowlogs_reader.py:78-79 | anything after the 19th character (fractional seconds, `Z`) is ignored |
| `FlowRecords.GetDtExample` | gcp_flowlogs_reader/gcp_flowlogs_reader.py:78-79 | `"2018-04-03T13:47:37.301723960Z"` reads as 2018-04-03 13:47:37 |
| `FlowRecords.ConnectionSpec` | gcp_flowlogs_reader/gcp_flowlogs_reader.py:45-50 | the connection fields convert exactly when each key is present and converts, and the results are those conversions |
| `FlowRecords.ScalarsSpec` | gcp_flowlogs_reader/gcp_flowlogs_reader.py:52-61 | times, byte and packet counts, rtt and reporter convert exactly when each is present and converts |
| `FlowRecords.NormalizeSucceeds` | gcp_flowlogs_reader/gcp_flowlogs_reader.py:43-76 | a record is built exactly when the payload is a non-empty dict whose connection and scalar fields convert; the detail attributes never raise |
| `FlowRecords.NormalizeFields` | gcp_flowlogs_reader/gcp_flowlogs_reader.py:43-61 | each scalar attribute of a built record is the conversion of its payload field |
| `FlowRecords.NormalizeDescriptor` | gcp_flowlogs_reader/gcp_flowlogs_reader.py:63-76 | each detail attribute is None or a namedtuple, it is a namedtuple exactly when the payload dict has exactly its fields, and its `_asdict()` is that dict |
| `FlowRecords.DescriptorSlot` | gcp_flowlogs_reader/gcp_flowlogs_reader.py:63-70 | the i-th descriptor pair sets the attribute it names |
| `FlowRecords.EqualsEverySlot` | gcp_flowlogs_reader/gcp_flowlogs_reader.py:81-87 | `__eq__` holds exactly when the other object has every slot with an equal value |
| `FlowRecords.EqualsRecord` | gcp_flowlogs_reader/gcp_flowlogs_reader.py:81-87 | between two records, `__eq__` is structural equality |
| `FlowRecords.EqualsLacking` | gcp_flowlogs_reader/gcp_flowlogs_reader.py:81-87 | an object missing any slot is unequal (the `AttributeError` path) |
| `FlowRecords.Hash` | gcp_flowlogs_reader/gcp_flowlogs_reader.py:89-90 | `hash(record)` hashes the tuple of all slot values, or raises `TypeError` |
| `FlowRecords.HashEverySlot` | gcp_flowlogs_reader/gcp_flowlogs_reader.py:89-90 | hashing succeeds exactly when every slot value is hashable |
| `FlowRecords.HashRaises` | gcp_flowlogs_reader/gcp_flowlogs_reader.py:89-90 | hashing raises exactly when the reporter, or a field of a detail namedtuple, is a JSON list or dict |
| `FlowRecords.HashConsistent` | gcp_flowlogs_reader/gcp_flowlogs_reader.py:81-90 | equal records hash alike (or both raise), and records that hash the same tuple are equal |
| `FlowRecords.StrNamesFirstNineSlots` | gcp_flowlogs_reader/gcp_flowlogs_reader.py:102-105 | `str()` lists exactly the first nine slots in slot order, each as `name: value`, and the value shown is the one `to_dict()` holds under that name |
| `FlowRecords.NumberExamples` | gcp_flowlogs_reader/gcp_flowlogs_reader.py:92-100 | `str()` of the ports and protocol in the repr example |
| `FlowRecords.Labelled` | gcp_flowlogs_reader/gcp_flowlogs_reader.py:104 | an item of `str()` starts with the slot's name and `: `, and the rest is exactly the value's text |
| `FlowRecords.ReprExample` | gcp_flowlogs_reader/gcp_flowlogs_reader.py:92-100 | the repr of an example record is `<FlowRecord 198.51.100.75:49444/6->192.0.2.2:3389/6>` |
| `FlowRecords.ToDict` | gcp_flowlogs_reader/gcp_flowlogs_reader.py:107-116 | the dict has exactly the 17 slot names as keys, inserted in slot order, and each maps to its attribute, namedtuples as `_asdict()` |
| `FlowRecords.ToDictDescriptor` | gcp_flowlogs_reader/gcp_flowlogs_reader.py:107-116 | a detail attribute's `to_dict` entry is the payload's own dict for it |
| `Readers.BaseLogNameProject` | gcp_flowlogs_reader/gcp_flowlogs_reader.py:9 | the project can be read back out of `BASE_LOG_NAME.format(project)` |
| `Readers.BaseLogNameInjective` | gcp_flowlogs_reader/gcp_flowlogs_reader.py:9 | different projects get different log names |
| `Readers.ProjectList` | gcp_flowlogs_reader/gcp_flowlogs_reader.py:162-166 | the client's project alone, or the discovered ids in order, or the client's project when discovery raises `GoogleAPIError` |
| `Readers.LogList` | gcp_flowlogs_reader/gcp_flowlogs_reader.py:168-175 | a non-empty log name alone, otherwise one base log name per project in project order |
| `Readers.Shift` | gcp_flowlogs_reader/gcp_flowlogs_reader.py:179 | datetime plus a timedelta fails only with `OverflowError` |
| `Readers.ResolveTimes` | gcp_flowlogs_reader/gcp_flowlogs_reader.py:177-179 | a given start is kept, the end is the given end or now |
| `Readers.DefaultWindow` | gcp_flowlogs_reader/gcp_flowlogs_reader.py:177-179 | without a start, the start is exactly one hour before the end, and this overflows exactly when the end is in the first hour of year 1 |
| `Readers.GetDtFormatDt` | gcp_flowlogs_reader/gcp_flowlogs_reader.py:191-192 | `_get_dt` reads `_format_dt`'s output back as the same datetime |
| `Readers.ExpressionDefined` | gcp_flowlogs_reader/gcp_flowlogs_reader.py:206-210 | the expression exists exactly when the window widened by one minute on each side stays within the datetime range |
| `Readers.ExpressionLayout` | gcp_flowlogs_reader/gcp_flowlogs_reader.py:203-225 | the user's filters come first, joined by AND; the Timestamp bounds lie exactly 60 seconds outside the payload bounds |
| `Readers.Then` | gcp_flowlogs_reader/gcp_flowlogs_reader.py:227-238 | after an exception nothing more is yielded; otherwise the records run on |
| `Readers.ChainFirstFailure` | gcp_flowlogs_reader/gcp_flowlogs_reader.py:227-238 | the combined stream is everything up to and including the first failing part, ending with its exception |
| `Readers.ChainSticks` | gcp_flowlogs_reader/gcp_flowlogs_reader.py:227-238 | once a prefix has failed, later parts change nothing |
| `Readers.ChainPrefix` | gcp_flowlogs_reader/gcp_flowlogs_reader.py:227-238 | records already yielded stay at the front of everything yielded later |
| `Readers.PageAllConverted` | gcp_flowlogs_reader/gcp_flowlogs_reader.py:234-236 | a page whose entries all convert yields their records in entry order |
| `Readers.ReadAllComplete` | gcp_flowlogs_reader/gcp_flowlogs_reader.py:227-238 | without a failing record, every project's records are yielded in order, and an API error only ends that project's listing |
| `Readers.ReadAllStops` | gcp_flowlogs_reader/gcp_flowlogs_reader.py:227-238 | a failing record ends the whole iteration with its exception, after everything yielded before it |
| `Readers.Reader.constructor` | gcp_flowlogs_reader/gcp_flowlogs_reader.py:125-183 | the reader holds the given project list, log list, window, page size and filters |
| `Readers.Reader.Open` | gcp_flowlogs_reader/gcp_flowlogs_reader.py:162-182 | `Reader(...)`: project list, log list, resolved window, page size, and `filters or []`; it fails only when the default start time overflows |
| `Readers.Reader.Records` | gcp_flowlogs_reader/gcp_flowlogs_reader.py:227-238 | the loops over projects, pages and entries yield exactly `ReadAll` |
| `Readers.ChainFailureFrom` | gcp_flowlogs_reader/gcp_flowlogs_reader.py:227-238 | the exception a chained stream ends with is the exception of one of its parts |
| `Readers.PageFailures` | gcp_flowlogs_reader/gcp_flowlogs_reader.py:234-236 | a page can only raise a record conversion's exception |
| `Readers.ApiErrorSwallowed` | gcp_flowlogs_reader/gcp_flowlogs_reader.py:237-238 | a listing cut short by `GoogleAPIError` yields the same stream as an exhausted one, and its only possible exception is a record conversion's |
| `Readers.ReadListing` | gcp_flowlogs_reader/gcp_flowlogs_reader.py:229-236 | the loop over one project's pages yields that listing's stream |
| `Readers.ReadPage` | gcp_flowlogs_reader/gcp_flowlogs_reader.py:235-236 | the loop over one page converts its entries in order, stopping at the first failure |
| `Aggregation.FoldSpec` | gcp_flowlogs_reader/aggregation.py:17-23 | a group's packets and bytes are the sums over its records; its start and end are attained by some record and bound all of them; no records leave the fresh stats |
| `Aggregation.SingleRecord` | gcp_flowlogs_reader/aggregation.py:11-23 | a group of one record has that record's packets, bytes, start and end |
| `Aggregation.StepCommutes` | gcp_flowlogs_reader/aggregation.py:17-23 | two updates commute |
| `Aggregation.FoldPermutation` | gcp_flowlogs_reader/aggregation.py:17-23 | a group's stats do not depend on the order of its records |
| `Aggregation.KeyOf` | gcp_flowlogs_reader/aggregation.py:34 | the key has one value per key field |
| `Aggregation.FirstKeysSpec` | gcp_flowlogs_reader/aggregation.py:32-37 | the table holds each record's key exactly once and no other keys |
| `Aggregation.MembersOfUnseen` | gcp_flowlogs_reader/aggregation.py:32-35 | a key not yet in the table has no records, so `defaultdict` starts it from fresh stats |
| `Aggregation.GroupOrderIndependent` | gcp_flowlogs_reader/aggregation.py:32-35 | reordering the input changes neither the set of keys nor any group's stats |
| `Aggregation.RowKeys` | gcp_flowlogs_reader/aggregation.py:37-40 | row i has the key fields plus four values and starts with the i-th key |
| `Aggregation.AggregateRows` | gcp_flowlogs_reader/aggregation.py:29-40 | one row per distinct key; keys are distinct; every record's key has a row and every row's key comes from a record; no rows for no records |
| `Aggregation.FlowStats.constructor` | gcp_flowlogs_reader/aggregation.py:11-15 | fresh stats: no packets, no bytes, start `datetime.max`, end `datetime.min` |
| `Aggregation.FlowStats.Update` | gcp_flowlogs_reader/aggregation.py:17-23 | keeps the earlier start and the later end, and adds packets and bytes |
| `Aggregation.FlowStats.ToDict` | gcp_flowlogs_reader/aggregation.py:25-26 | the four `VALUE_FIELDS` map to the current stats |
| `Aggregation.GroupStep` | gcp_flowlogs_reader/aggregation.py:33-35 | one more record updates only its own group and adds its key at the end if new |
| `Aggregation.FillTable` | gcp_flowlogs_reader/aggregation.py:32-35 | the loop builds one distinct `_FlowStats` object per key, in first-appearance order, each holding its group's stats |
| `Aggregation.EmitRows` | gcp_flowlogs_reader/aggregation.py:37-40 | the second loop yields, for each key in table order, the key followed by that key's `to_dict()` statistics |
| `Aggregation.AggregatedRecords` | gcp_flowlogs_reader/aggregation.py:29-40 | the generator, consumed to the end, yields exactly `Aggregate`; duplicate field names raise `ValueError` |
| `Cli.HeaderNamesLineSlots` | gcp_flowlogs_reader/__main__.py:11-38 | the header names exactly the nine attributes the record lines show, in order |
| `Cli.FromRecordAttrs` | gcp_flowlogs_reader/__main__.py:26-38 | column i of a record line shows the record's attribute named by header column i |
| `Cli.RecordLineCells` | gcp_flowlogs_reader/__main__.py:26-38 | a record line splits on tabs back into its nine cells |
| `Cli.HeaderLineCells` | gcp_flowlogs_reader/__main__.py:11-23 | the header line splits on tabs back into the nine column names |
| `Cli.StopAfter` | gcp_flowlogs_reader/__main__.py:43-49 | no argument gives 0, one is parsed by `int()` or raises `ValueError`, two or more raise `RuntimeError` |
| `Cli.PrintRunSpec` | gcp_flowlogs_reader/__main__.py:41-55 | bad arguments fail before any output; a limit of 0, or one never reached, prints all records and then any read error; a reached limit n prints exactly n records and no error |
| `Cli.ActionPrint` | gcp_flowlogs_reader/__main__.py:41-55 | the enumerate loop with its `break` prints exactly `PrintRun` |
| `Cli.SortedAddressesSpec` | gcp_flowlogs_reader/__main__.py:68 | `sorted()` of one version's addresses is strictly ascending and holds exactly the set's addresses |
| `Cli.IpsetRunSpec` | gcp_flowlogs_reader/__main__.py:61-69 | without an error, each source and destination address is printed once, in ascending order, and no other address |
| `Cli.CollectAddresses` | gcp_flowlogs_reader/__main__.py:63-66 | the loop's set holds every source and destination address |
| `Cli.PrintSorted` | gcp_flowlogs_reader/__main__.py:68-69 | printing the least remaining address each time prints the sorted list |
| `Cli.ActionIpset` | gcp_flowlogs_reader/__main__.py:61-69 | prints nothing when the reader fails; raises `TypeError` on mixed versions; otherwise prints the sorted addresses |
| `Cli.MatchingSpec` | gcp_flowlogs_reader/__main__.py:75-81 | exactly the records whose source or destination string is a target are printed |
| `Cli.ActionFindIp` | gcp_flowlogs_reader/__main__.py:75-81 | the header, then the matching records in input order, then any read error |
| `Cli.RowColumnsByName` | gcp_flowlogs_reader/__main__.py:87-94 | `print_record` finds each header column of a default `StatRecord` at the listed position |
| `Cli.KeyFieldsAccepted` | gcp_flowlogs_reader/aggregation.py:30 | the default key fields and `VALUE_FIELDS` are distinct, so the `StatRecord` namedtuple is accepted |
| `Cli.FromRow` | gcp_flowlogs_reader/__main__.py:26-38 | the attributes `print_record` reads from a row are those at the listed positions |
| `Cli.AggregateRowsPrintable` | gcp_flowlogs_reader/__main__.py:87-94 | aggregating on the default key fields never fails, and every row has printable attributes |
| `Cli.AggregateLine` | gcp_flowlogs_reader/__main__.py:87-94 | line i+1 shows the i-th distinct 5-tuple with its group's packet and byte totals, earliest start and latest end |
| `Cli.ActionAggregate` | gcp_flowlogs_reader/__main__.py:87-94 | the header, then either the read error or one line per aggregated row |
| `Cli.UserFilters` | gcp_flowlogs_reader/__main__.py:109-110 | a non-empty `--filters` string gives user filters; otherwise the reader's default applies |
| `Cli.UserFiltersRoundTrip` | gcp_flowlogs_reader/__main__.py:109-110 | the pieces rejoin to the option text, and none contains ` AND ` |
| `Cli.UserFiltersExpression` | gcp_flowlogs_reader/__main__.py:109-110 | the reader's expression begins with the `--filters` text itself, then ` AND ` and the fixed clauses |
| `Cli.Command` | gcp_flowlogs_reader/__main__.py:123-128 | an empty action list defaults to `['print']` |
| `Cli.KnownActionsText` | gcp_flowlogs_reader/__main__.py:180 | the second message is `known actions: print, ipset, findip, aggregate` |
| `Cli.Dispatch` | gcp_flowlogs_reader/__main__.py:174-184 | an unknown action writes its two messages and runs nothing; a known one runs that action on the rest of the words |

## Left out

- Building the logging client, service-account credentials, and the
  `**kwargs` passed to it (gcp_flowlogs_reader.py:138-160). These are foreign
  library calls. The client is represented by its project name, a
  `Discovery` value and a `LogStore` function.
- `datetime.utcnow()`: the current time is a parameter.
- Parsing and printing address text: `ipaddress` is not re-implemented.
  `IpLibrary.parse` and `IpLibrary.show` are parameters. Only
  `ip_address()` on integers, the address order and equality are modelled.
- Errors from the resource-manager listing other than `GoogleAPIError`,
  and errors from the logging listing other than `GoogleAPIError`. These
  propagate in the source; the model's listings only end normally or with
  `GoogleAPIError`.
- The reader's laziness as a generator object (`__iter__`, `__next__`,
  single pass). The model gives the whole stream a reader yields, up to
  and including its exception.
- `FlowRecord.from_payload` (gcp_flowlogs_reader.py:118-121). It only wraps a
  payload in a library entry object, which is not part of this model.
- `Payloads.PyInt`: does not model `int()` of floats, or of strings with
  surrounding whitespace, underscores or non-ASCII digits.
- `Cli.StopAfter`: the same restriction. Its argument is parsed by
  `Text.ParseInt`, ASCII digits with an optional sign, so `' 5 '`, `'1_0'`
  and non-ASCII decimal digits, which `int()` accepts, are rejected here.
- `DateTimes.ScanField`, and with it `DateTimes.Strptime` and
  `FlowRecords.GetDt`: strptime's `\d` matches any Unicode decimal digit,
  but the model reads only ASCII digits, so timestamps written with other
  digits are rejected here.
- `DateTimes.Strftime`, and with it `DateTimes.StrftimeLayout` and
  `Readers.GetDtFormatDt`: `%Y` is always zero-padded to four digits.
  CPython passes `%Y` to the platform's C `strftime`, and some C libraries
  (glibc among them) print years below 1000 without padding. On those
  platforms `_get_dt` cannot read back `_format_dt`'s output for such
  years, and the round trip holds only from year 1000 on.
- JSON numbers are integers only. Floating-point payload values are not
  modelled.
- `FlowRecords.EqualsLacking`: comparison with a non-record object covers
  only missing slots. Python's cross-type equalities, such as `True == 1`
  and `0 == 0.0`, are not modelled.
- `FlowRecords.EqualsRecord`, and with it `Aggregation.AggregatedRecords`:
  JSON booleans and the integers Python compares equal to them (`True == 1`,
  with equal hashes) are distinct values in the model. Two records that
  differ only by `true` against `1` in `reporter` or in a detail field are
  equal in Python but unequal here, and grouping by such a key field gives
  two groups here where Python's dict gives one.
- `Aggregation.AggregatedRecords`: the key fields are record slots.
  Attribute names that are not slots (an `AttributeError` in the source) and
  unhashable key values are not modelled. Rows are built by position from
  the key and the four statistics, not through the intermediate `item`
  dict; the two agree whenever the field names are distinct, which the
  namedtuple requires.
- `Cli.PrintSorted`: `sorted()` is modelled as taking the least remaining
  address each time, not as Timsort. The output is the same.
- `str()` of a whole record: the order and names of its items are proved,
  but not a concrete example string.
- argparse, `sys.argv`, the output streams and the `__main__` guard
  (`__main__.py:120-172, 183-188`), and `get_reader` apart from the
  `--filters` split: `--start-time` and `--end-time` parsing with a
  user-chosen strptime format is not modelled. `Cli.Dispatch` takes the
  positional words and the stream the reader yields.
- Behaviour seen only in the test file, and the test helpers themselves.
