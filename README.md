# go-mysql `orm` package: statement and connection-string construction

This project models the deterministic core of the `orm` package in `orm.go`:

- the MySQL data source name built from a `Database` configuration (`getDataSourceName`);
- the text a struct field's value is rendered to (`getFieldValue`);
- the column names taken from field identifiers and `name` tags;
- the single-row statement `insert into T set `a`= ?, `b` = ?` built by `Table.Insert`, whose values are bound as arguments;
- the batch statement `insert into T(`a`, `b`) value('1', '2'),('3')` built by `Table.BatchInsert`, whose values are inlined as quoted literals;
- the bookkeeping of the package-level `DbPool` map in `RegisterDb`.

Go reflection is replaced by an explicit record: a sequence of fields, each an identifier, a `name` tag (empty when absent) and a value tagged with its kind. Every call into `database/sql` is an oracle:
- `Open` and `Ping` are function parameters of `RegisterDb`;
- `Prepare`, `Exec` and the `sql.Result` accessors are functions stored in the `Conn` value a `Table` holds.

The modules follow the parts of the file:
- `Text`: `strings.Join`, character counting and splitting.
- `Decimal`: `strconv.FormatInt` and `FormatUint` in base 10, with parsers as their inverses.
- `Values`: `getFieldValue`.
- `Dsn`: `getDataSourceName`, with a parser as its inverse.
- `Records`: column names and rendered values.
- `Sql`: the two statement shapes.
- `Orm`: `Table` with `Insert` and `BatchInsert`.
- `Pool`: `DbPool` and `RegisterDb`.

The model follows the code of `orm.go` as written:
- The batch statement uses the keyword `value` and single-quoted, unescaped literals.
- There is no chunking of batches and no concurrent execution.
- `RegisterDb` takes no lock.
- When `sql.Open` fails, the placeholder `&sql.DB{}` written under the new name stays in the map. `FailedOpenIsNotRetried` shows the consequence: a later registration of that name never opens a connection and pings the placeholder instead. In the program that ping runs on a DB with no connector, so it does not return an error normally (see `Pool.Register` under "## Left out").

## Model

| member | source | states |
|---|---|---|
| Dsn.DsnRoundTrip | orm.go:56-74 | The data source name is user ":" password "@tcp(" ip ":" port ")/" dbname "?charset=" cs. Parsing it back yields all six settings, with the charset defaulted, provided no setting contains the delimiter that ends it. |
| Dsn.EffectiveCharset | orm.go:57-59 | The charset used is "utf8" when none is given, and the given one otherwise. |
| Dsn.CharsetDefault | orm.go:57-71 | An empty charset gives the same name as "utf8". A non-empty charset ends the name verbatim. |
| Values.FieldValue | orm.go:76-94 | Renderings by kind. Invalid gives "invalid". A signed value gives text that starts with '-' exactly when it is negative, followed by digits with no leading zero, and parses back to it. An unsigned value gives digits only, with no leading zero, parsing back to it. A float gives its fixed-point text. A string is unchanged. A bool gives "true" or "false". Any other kind gives its type name followed by " value". |
| Values.RenderingExamples | orm.go:78-89 | Signed 7 gives "7" and -12 gives "-12". Unsigned 7 gives "7". false gives "false". An invalid value gives "invalid". |
| Decimal.NatToDecimal | orm.go:80-83 | The base-10 digits of a number are non-empty digits with no leading zero, and start with '0' only for zero. |
| Decimal.FormatInt | orm.go:81 | Signed base-10 text has a '-' exactly for negative numbers, then canonical digits, and parses back to the number. |
| Decimal.FormatUint | orm.go:83 | Unsigned base-10 text is canonical digits that parse back to the number. |
| Decimal.DecimalValueOfDigits | orm.go:80-83 | Reading the digits of n back yields n. |
| Decimal.DigitsOfDecimalValue | orm.go:80-83 | Every canonical digit string is the text of the number it denotes, so the formatter's image is exactly the canonical strings. |
| Decimal.FormatIntInjective | orm.go:81 | Two int64 values with the same text are equal. |
| Records.UntaggedColumnsAreIdentifiers | orm.go:104-108 | Without `name` tags there is one column per field, in declaration order, and each is the field's identifier. |
| Records.TagOverridesIdentifier | orm.go:139-144 | In any record, tagged and untagged fields mixed, each field with a non-empty `name` tag has that tag as its column. Each field with an empty tag has its identifier. |
| Records.ColumnsAlignWithValues | orm.go:104-111 | Column names and rendered values have one entry per field, and entry i of both comes from field i. |
| Orm.FieldNames | orm.go:139-144 | The column-name loop yields the tag-or-identifier of each field, in order. |
| Orm.RenderValues | orm.go:159-163 | The value loop yields the rendering of each field's value, in order. |
| Orm.Table.BuildInsert | orm.go:97-117 | The insert statement is built from the fields' column names. The argument list has one entry per field, and entry i is field i's rendered value. |
| Orm.Table.Insert | orm.go:96-128 | A failed Prepare or Exec gives id 0 with that error, and LastInsertId is not used. Otherwise the id and error are what LastInsertId returns for the statement executed with the record's values bound. |
| Sql.InsertSqlAssignments | orm.go:113-117 | For at least one column the statement is "insert into T set " followed by one assignment per column. The i-th assignment pairs column i with the i-th marker, and the last is spelled "` = ?". |
| Sql.InsertMarkerCount | orm.go:113-117 | With n >= 1 columns and no '?' in the table or column names, the statement holds exactly n markers. |
| Sql.InsertSqlNoColumns | orm.go:113-117 | A record with no fields still yields "insert into T set `` = ?", with one marker and no bound value. |
| Orm.InsertSqlIgnoresValues | orm.go:104-122 | The insert text depends only on the identifiers and tags. Records differing only in values share it, so values never appear in it. |
| Orm.InsertExampleSql | orm.go:104-117 | A field tagged "id" and an untagged field Name give "insert into users set `id`= ?, `Name` = ?". |
| Orm.InsertExampleArgs | orm.go:104-111 | The same record binds the arguments "7" and "bob". |
| Orm.Table.BuildBatchInsert | orm.go:130-180 | The batch statement has the column list of record 0 only, then "value", then one tuple per record in input order. Each tuple holds that record's own rendered values. |
| Orm.Table.BatchInsert | orm.go:130-187 | The batch statement is executed without arguments. A failed Exec gives 0 with the error. Otherwise the result is what RowsAffected returns. |
| Sql.TupleQuoteCount | orm.go:164 | With no quote inside the values, a tuple of n >= 1 values holds 2n quotes. An empty value list still yields "('')". |
| Sql.BatchSqlAppend | orm.go:175-180 | One more tuple extends the batch statement by "," and that tuple. |
| Orm.BatchAppendRecord | orm.go:148-180 | One more record extends the batch statement by "," and that record's tuple. The column list is unchanged. |
| Sql.TupleExamples | orm.go:164 | The values "1", "2" give "('1', '2')", and "3" gives "('3')". |
| Sql.BatchSqlExample | orm.go:175-180 | Columns A, b and two tuples give "insert into t(`A`, `b`) value('1', '2'),('3')". |
| Orm.BatchFirstRecordDecidesColumns | orm.go:131-180 | In a batch whose second record has other fields, the columns still come from record 0, and each record contributes its own tuple. |
| Pool.Register | orm.go:35-54 | Afterwards the name is in the pool, and no other key is added, removed or changed. A known name leaves the map unchanged and returns the ping result. An unknown name maps to the opened handle with no error, or keeps the placeholder and returns the open error. |
| Pool.DbPool.constructor | orm.go:31-33 | The pool starts empty. |
| Pool.DbPool.RegisterDb | orm.go:35-54 | The new map and the returned error are those of Register on the old map. The data source name goes to Open. |
| Pool.RegisteredNameIsOnlyPinged | orm.go:36-43 | Once a name is registered, a later registration of it, with any configuration or driver answers, leaves the map unchanged and only pings. |
| Pool.FailedOpenIsNotRetried | orm.go:47-52 | After a failed open the name holds the placeholder, and registering it again pings the placeholder instead of opening. |
| Pool.RegisterAllKeys | orm.go:35-54 | After any sequence of registrations, each call with its own Open and Ping answers, the pool holds exactly its earlier names plus the names asked for, and earlier entries are untouched. |

## Left out

- Reflection (`reflect.TypeOf`, `ValueOf`, `Indirect`, `Index`, `NumField`, `Tag.Get`) is replaced by an explicit sequence of fields. The panics it raises on a non-struct argument or an empty slice are not modelled. `BatchInsert` and `BuildBatchInsert` require at least one record, because the code indexes element 0.
- Values.FieldValue: the float case does not model `strconv.FormatFloat(f, 'f', 2, 64)`, which is floating-point numerics. A float value carries the text that call would produce.
- Decimal.FormatInt: the parser it is proved against reads an optional '-' and digits. Unlike `strconv.ParseInt`, it accepts no leading '+' and has no 64-bit range check. Range is ensured by the `Int64` and `Uint64` subset types instead.
- Driver calls (`sql.Open`, `Ping`, `Prepare`, `Exec`, `LastInsertId`, `RowsAffected`) are oracles whose results are not interpreted. `Insert` never calls `Close` on the statement `Prepare` returns (orm.go:118-127); the resources that statement holds are not modelled.
- Pool.Register: pinging the placeholder is modelled as an ordinary `Ping` result. In the program the placeholder is a zero `sql.DB` with no connector, and `Ping` on it does not return normally. This follows from database/sql, which is not part of this model.
- Pool.DbPool.RegisterDb: the `sync.RWMutex` read lock around the lookup is not modelled. Calls are sequential, so the check-then-insert race between concurrent registrations is not captured.
- Concurrent goroutines, channels and the commented-out code in `BatchInsert` are not modelled; they are not active code.
- Chunked batch execution and error aggregation across chunks do not exist in this code.
- SQL escaping is absent from the code. The model states the exact unescaped text instead.
