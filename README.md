# data-postgres-producer, modelled in Dafny

This project models the core of a load generator that writes synthetic rows into a
PostgreSQL table. Threads insert at a fixed rate per thread. The model covers four parts:

- **Field value synthesis** (`generate_random_data`). The input is an ordered schema of
  (field name, type tag) pairs. The output is a dict with one generated value per field.
  A field named `"tps"` always gets the current second-resolution timestamp. Every other
  field is dispatched on its tag. An unsupported tag raises `ValueError`.
- **INSERT statement composition** (the body of the `insert_data` loop). It builds the
  column list, the `%s` placeholder list and the parameter list for one record.
- **Primary-key format** (`generate_primary_key`). The key is ten hex characters of a
  SHA-256 digest, a dash, then the timestamp.
- **Rate partition** (`main`). The per-thread rate is `total_tps // num_threads`. Each
  thread gets its own connection. Each producer pauses `1 / tps` seconds between inserts.

Modules:

- `Wrappers`: Option and Result.
- `Errors`: the exceptions raised.
- `OrderedDict`: a Python dict as a sequence of entries in insertion order.
- `Synthesis`: the field value synthesizer.
- `PrimaryKey`: the key format.
- `Statement`: the INSERT statement.
- `Rate`: floor division and the pacing interval.
- `Producer`: one `insert_data` iteration and the thread launch loop.

How the oracles are modelled:

- The clock, `random` and Faker become an `Oracle`. It maps a field's position to a `Draw`:
  - the formatted clock reading;
  - a raw integer draw;
  - two Faker words;
  - a Faker date;
  - a Faker date-time.
- `random.randint(1, 100)` is `1 + e % 100` of the raw draw `e`. `RandIntCovers` shows
  that every value in the range is reachable, so the model does not narrow what the
  source can produce.
- `random.choice([True, False])` picks by `e % 2`.
- `round(random.uniform(1, 100), 2)` is an integer count of hundredths in [100, 10000].
- SHA-256 is a function parameter. It returns 64 lower-case hex characters.
- Timestamps are given as already-formatted strings.

The `Value` datatype tags each value with the branch that produced it. At run time the
stamp, the word, the date and the JSON text are all Python `str`.

Facts about the code that the model follows:

- The accepted tags are `VARCHAR…` and `TEXT…`, matched by prefix, plus the exact tags
  `INTEGER`, `FLOAT`, `BOOLEAN`, `DATE`, `TIMESTAMP`, `JSON` and `JSONB`.
- A JSON field is one object with a `"key"` member and a `"value"` member, each holding
  a Faker word.
- Nothing guards against a per-thread rate of zero. When `0 <= total_tps < num_threads`,
  every thread raises `ZeroDivisionError` at `1 / tps` before its first insert
  (`Producer.StarvedThreads`). When `total_tps` is negative, the share is negative:
  each thread sends one INSERT, if its record generates, and then `time.sleep` raises
  (`Producer.InsertData`).
- `generate_primary_key` is defined but never called.
- The key's timestamp uses `%f`, which gives six digits. It is not cut to milliseconds as
  the comment on main.py:22 says. A full reading therefore has 26 characters and its key
  has 37.
- The column list is the keys joined with `", "`. A key that itself contains `", "`
  therefore reads as more columns than there are parameters (`Statement.CommaInKeyAddsColumn`).

## Model

| member | source | states |
|---|---|---|
| Errors.UnsupportedMessage | main.py:65 | the text carried by `UnsupportedDataType(dtype)` is the fixed prefix `"Unsupported data type: "` (23 characters) followed by the tag |
| Errors.UnsupportedMessageInjective | main.py:65 | two tags give the same message exactly when they are the same tag, so the message identifies the tag |
| OrderedDict.Keys | main.py:74 | `data.keys()` lists the key of every entry, in insertion order |
| OrderedDict.Values | main.py:76 | `list(data.values())` lists the value of every entry, in insertion order |
| OrderedDict.Put | main.py:48 | dict assignment appends a new key at the end; an existing key keeps its position and the key list is unchanged; afterwards looking up the key gives the new value |
| OrderedDict.PutKeepsOthers | main.py:48 | assigning to an existing key keeps the length, and every entry under another key stays as it was |
| Synthesis.StartsWith | main.py:50 | `str.startswith`: the prefix is no longer than the string and agrees with it position by position |
| Synthesis.Classify | main.py:50-65 | `VARCHAR`/`TEXT` match by prefix and every other tag matches exactly (`VARCHAR(50)` is a word, `JSON(1)` raises); each supported tag selects exactly one branch |
| Synthesis.RandInt | main.py:53 | `randint(1, 100)` stays within [1, 100] |
| Synthesis.RandIntCovers | main.py:53 | every value in the range is the result of some draw |
| Synthesis.RoundedUniform | main.py:55 | the rounded float lies in [1.00, 100.00] and has two decimals |
| Synthesis.Choice | main.py:57 | `random.choice([True, False])` gives `True` exactly for an even draw |
| Synthesis.ChoiceCovers | main.py:57 | both booleans are the result of some draw |
| Synthesis.Generate | main.py:50-63 | each branch produces a value of its own kind; integers lie in [1, 100], floats in [1.00, 100.00] |
| Synthesis.FieldValue | main.py:42-65 | a field raises exactly when its name is not "tps" and its tag is unsupported; "tps" always gets the stamp; any other field gets the kind its tag selects |
| Synthesis.FirstRejected | main.py:40-65 | finds the first field that raises: that field raises and no earlier one does; it finds none exactly when no field raises |
| Synthesis.Synthesize | main.py:37-66 | the result is an error exactly when some field raises, and the error is `UnsupportedDataType`; a record has one entry per field, each under its field's name, in schema order |
| Synthesis.SynthesizedEntry | main.py:42-63 | entry i of a generated record is field i's name paired with field i's value |
| Synthesis.DispatchTag | main.py:50-65 | the `if`/`elif` chain raises exactly for unsupported tags; otherwise it stores what the selected branch generates |
| Synthesis.GenerateRandomData | main.py:37-66 | the loop, with its `continue` and `raise`, returns the specified result: the first raising field's error, or every field's value in schema order |
| Synthesis.SynthesizeKeys | main.py:39-66 | a generated record has exactly the schema's field names, in schema order, each once; the "tps" override adds no field |
| Synthesis.SynthesizeFails | main.py:50-65 | the call raises exactly when some non-"tps" field has an unsupported tag; the error names the first such tag; no record, partial or whole, is returned |
| Synthesis.SynthesizeValues | main.py:42-63 | entry i is field i's name with field i's value: the stamp for "tps", otherwise a value of the kind its tag selects |
| Synthesis.IntegerFieldsInRange | main.py:52-53 | every INTEGER field not named "tps" holds an integer in [1, 100]; a "tps" field holds the stamp whatever its tag |
| Synthesis.BooleanAndFloatFields | main.py:54-57 | every BOOLEAN field not named "tps" holds a boolean; every FLOAT field not named "tps" holds a value in [1.00, 100.00] |
| Synthesis.TpsTagIgnored | main.py:42-49 | the tag declared for "tps" is never inspected: replacing it, even with an unsupported tag, leaves the result unchanged |
| Synthesis.WordJsonJsonStamp | main.py:37-66 | a schema of `main`'s shape, under any three distinct names other than "tps", yields a word, two JSON objects and the stamp, in that order |
| Synthesis.MainSchema | main.py:96-101 | the schema configured in `main` yields a word, two JSON rows and the stamp, in that order |
| Synthesis.TagExamples | main.py:50-62 | `VARCHAR(50)`, `TEXT` and `TEXTUAL` are words; `JSONB` is JSON; `JSON(1)`, `ENUM` and lower-case `integer` raise |
| Synthesis.EnumExamples | main.py:42-65 | an `ENUM` field raises with "ENUM" as the tag; an `ENUM` tag on "tps" does not raise |
| PrimaryKey.GeneratePrimaryKey | main.py:14-31 | the key is the digest's first ten characters, a dash, then the timestamp; its length is 11 plus the timestamp's |
| PrimaryKey.SplitKey | main.py:30 | splitting at the first dash finds parts that join back into the key; it fails exactly when there is no dash |
| PrimaryKey.SplitGeneratedKey | main.py:22-30 | splitting a generated key at its first dash gives back the digest prefix and the whole timestamp, even though the timestamp has dashes of its own |
| PrimaryKey.KeysEqualIffStampsEqual | main.py:22-30 | two keys are equal exactly when their timestamps are, so a key is unique exactly when its clock reading is |
| PrimaryKey.KeyOfMicrosecondStamp | main.py:22-30 | for every reading of the shape `%Y-%m-%d %H:%M:%S.%f` (26 characters, separators at 4, 7, 10, 13, 16, 19, digits elsewhere) the key has 37 characters: ten hex digits, a dash at 10, then the reading, whose own dashes land at 15 and 18 |
| Statement.Repeat | main.py:75 | `["%s"] * n` has n entries, each `"%s"` |
| Statement.Join | main.py:74-75 | `sep.join(parts)` is empty for no parts and the part itself for one; otherwise it starts with the first part, followed by the separator and the join of the rest |
| Statement.JoinLength | main.py:74-75 | the joined text is as long as the parts together plus one separator between each two parts |
| Statement.GapsLengthIsProduct | main.py:74-75 | the separators of n > 0 parts add n - 1 times the separator's length |
| Statement.SplitJoin | main.py:74-75 | splitting a non-empty `", "`-joined list gives back its parts whenever no part contains a comma |
| Statement.ColumnList | main.py:74 | for a non-empty record whose keys have no comma, the column list splits back into the keys in order; with no `%` in the keys it holds no `%` |
| Statement.PlaceholderList | main.py:75 | for a non-empty record, the placeholder list splits into one `%s` per entry; it holds exactly one `%` per entry |
| Statement.StatementPercents | main.py:79 | text pieces without `%` add none: the statement's `%` count is the table's plus the column list's plus the placeholder list's |
| Statement.InsertSql | main.py:79 | when neither the table name nor any key contains `%`, the statement holds exactly one `%` per entry |
| Statement.StatementLayout | main.py:79 | the f-string puts `"INSERT INTO "`, the table, `" ("`, the column list, `") VALUES ("`, the placeholder list and `")"` end to end: each piece is the slice of the text at its offset, and the text is exactly as long as the pieces |
| Statement.InsertSqlLayout | main.py:74-79 | in the statement for a record, the table follows `"INSERT INTO "`, the record's column list is the slice inside the first parentheses and its placeholder list the slice inside the parentheses after `VALUES` |
| Statement.CommaInKeyAddsColumn | main.py:74-76 | a record with the single key `"a, b"` gives a column list that reads as two columns, against one parameter |
| Statement.ComposeInsert | main.py:74-79 | the parameters are the record's values: one per entry, in entry order |
| Statement.ColumnsLineUp | main.py:74-76 | for a non-empty record whose keys contain no comma, there are as many columns as placeholders and parameters; column i is the key of parameter i, and placeholder i is `%s` |
| Statement.JoinCount | main.py:74-75 | with a separator that does not contain `c`, the joined text holds `c` as often as all the parts together |
| Statement.PlaceholderPercents | main.py:75 | the placeholder list for n entries has exactly n `%` directives |
| Statement.PlaceholderCount | main.py:74-79 | when no table or column name contains `%`, the SQL text has exactly one `%` directive per parameter |
| Rate.FloorDiv | main.py:120 | `//` rounds toward negative infinity for divisors of either sign and raises on zero |
| Rate.FloorDivUnique | main.py:120 | for a positive divisor, the floor bounds determine the quotient uniquely |
| Rate.PartitionBounds | main.py:118-120 | `num_threads * per <= total_tps`, and the shortfall is below `num_threads` |
| Rate.ZeroShareIff | main.py:118-120 | the per-thread rate is zero exactly when 0 <= `total_tps` < `num_threads` |
| Rate.MainShare | main.py:118-120 | 4000 // 40 is 100 |
| Rate.Interval | main.py:71 | `1 / tps` raises exactly when tps is 0; otherwise interval times tps is one second, and the interval has the sign of tps |
| Producer.SleepError | main.py:83 | `time.sleep` raises exactly for a negative pause |
| Producer.InsertData | main.py:68-83 | a zero rate raises `ZeroDivisionError` before anything is generated; a generation error raises with nothing sent; otherwise the composed statement is sent, and then `time.sleep` raises its `ValueError` exactly when the rate is negative |
| Producer.IssuedStatement | main.py:73-79 | for a non-empty schema whose names contain no `,` or `%`, and a table name without `%`, the statement issued for a generated record has the table right after `"INSERT INTO "`; the slice inside its first parentheses splits into the schema's field names in order, and the slice inside the parentheses after `VALUES` into one `%s` per field; there is one parameter and one `%` per field |
| Producer.Plan | main.py:118-129 | `total_tps // num_threads` raises `ZeroDivisionError` exactly for zero threads; otherwise there is one thread per `range(num_threads)` index (none for a negative count), thread i using connection i, the table, the schema and the shared rate |
| Producer.LaunchWorkers | main.py:118-129 | the launch loop gives back the planned threads: one per `range(num_threads)` index, connection i for thread i, each with the shared rate |
| Producer.PlanShares | main.py:120-129 | each thread has its own connection; together the threads aim at the target, short of it by less than one record per second per thread |
| Producer.StarvedThreads | main.py:120-126 | when `0 <= total_tps < num_threads`, every thread's rate is 0, and `1 / tps` raises `ZeroDivisionError` |
| Producer.MainPlan | main.py:118-126 | `main` starts 40 threads at 100 records per second each, 4000 in all, each pausing 1/100 s |

## Left out

- The PostgreSQL connection, `cursor.execute` and `commit` (main.py:33-35, 78-80) are
  I/O through psycopg2. A connection is only an index here, and the statement is the
  value `execute` would receive.
- Threads, `Thread.start`/`join` and the staggered `time.sleep(1/5)` (main.py:123-133)
  are concurrency and wall-clock timing. So is the pacing sleep itself; only its
  negative-argument error is modelled.
- The `while True` loop of `insert_data` (main.py:72) has no terminating behaviour.
  `Producer.InsertData` models its set-up and its first iteration only.
- Loading `dotenv`, reading the environment and `print` (main.py:11-12, 82, 87-92) are
  configuration and output.
- Faker, the distributions of `random`, SHA-256 and `datetime.now`/`strftime` (main.py:19-26,
  44-47, 51-63) are foreign libraries and the clock. They are oracle inputs. The JSON text
  that `faker.json` renders is not modelled, only its two words. The `date` and `date_time`
  values are opaque strings.
- Synthesis.RoundedUniform: models only the range and the two decimals of
  `round(random.uniform(1, 100), 2)`, because floating-point rounding is outside the model.
- Rate.Interval: uses exact real division, so the floating-point rounding of `1 / tps` is
  not modelled.
- Key uniqueness across calls depends on the clock's real resolution. The model proves
  only that a key is unique exactly when its timestamp is (`PrimaryKey.KeysEqualIffStampsEqual`).
- The texts of Python's built-in exceptions are not modelled. Only the synthesizer's own
  message is.
