# Google Ads MCP search tools: a Dafny model

This project models the core of the `search` and `get_resource_fields` tools of an
MCP server for the Google Ads API, and of the helpers they use to turn API values
into plain data:

- **Query builder** (`QueryBuilder`, `query_builder.dfy`): `search` assembles a GAQL
  query from `fields`, `resource`, `conditions`, `orderings` and `limit`. The clause
  order is fixed: `SELECT … FROM …`, then ` WHERE …`, ` ORDER BY …` and ` LIMIT …`.
  Each optional clause appears only when its argument is truthy in Python's sense
  (`None`, `[]`, `0` and `""` are falsy; the string `"0"` is truthy). Conditions and
  orderings are caller-trusted fragments. They are inserted verbatim, with no
  escaping and no validation: this is a deliberate trust boundary. The method
  `BuildQuery` appends to a list of parts and joins them, as the tool does. It is
  proved equal to the function `QueryText`, and the lemmas state where each clause
  stands in the query text and when it is present.
- **Result collector** (`SearchTool`, `search_tool.dfy`): the streamed batches are
  flattened by two nested loops into one list of rows. Each row is projected with
  its own batch's field-mask paths. The transport is a function parameter that
  yields the batches or an error; `Search` propagates that error unchanged.
- **Value normalizer and row projector** (`Normalizer`, `normalizer.dfy`):
  `format_output_value` dispatches in a fixed order: proto-plus enum, proto-plus
  message, raw protobuf message, scalar, then iteration, with pass-through when
  iteration fails. Lists, tuples and repeated containers (`RepeatedScalarContainer`,
  `RepeatedCompositeContainer`) are distinct kinds of value, and each iterable one
  becomes a new list. The value kinds overlap as Python's `isinstance` tests do. An
  enum member is an `IntEnum`, so it is also an int. Strings and bytes are
  iterable. The lemmas show which test wins on each overlap. A mapping that
  reaches the iteration branch yields its keys. `format_output_row` maps each
  attribute path, used literally as the key, to the normalised value found on the
  row.
- **Resource catalog** (`ResourceCatalog`, `resource_catalog.dfy`): `_load_resources`
  turns a missing file or malformed JSON into an empty catalog. `get_resource_fields`
  answers in three tiers. First comes the first record whose name equals the query.
  Failing that, an error listing at most ten names that contain the query, in
  catalog order. Failing that, a generic not-found error.
- `Text` (`text.dfy`) holds the Python string operations these use: `sep.join`,
  the substring test `in`, and `str` of an int (with a decimal parser proved to
  be its inverse). `Outcomes` (`outcomes.dfy`) holds `Option` and `Result`.

The library calls `proto.Message.to_dict`, `MessageToDict(…,
preserving_proto_field_name=True)` and `get_nested_attr` are parameters of the
model: total functions that always return a value and never raise. Nothing is
assumed about which value they return.

Behaviour of the code worth noting:

- The code does not check that `fields` is non-empty or that `limit` is positive.
  Empty fields give `SELECT  FROM r`, and a negative int limit is rendered with its
  sign.
- `_load_resources` catches only `FileNotFoundError` and `json.JSONDecodeError`.
  Any other read failure propagates to the caller rather than giving an empty
  catalog.
- A proto-plus message is not normalised field by field. It becomes exactly what
  `to_dict` returns.
- Whether a missing attribute path resolves to `None` depends on `get_nested_attr`,
  which is not part of this model.

## Model

| member | source | states |
|---|---|---|
| `QueryBuilder.BuildQuery` | ads_mcp/tools/search.py:45-56 | The list of parts, appended clause by clause and joined with the empty separator, is exactly the query text `QueryText` (SELECT/FROM, then WHERE, ORDER BY, LIMIT, each only when truthy). |
| `QueryBuilder.QueryBeginsWithSelect` | ads_mcp/tools/search.py:45 | Every query begins with `SELECT ` + the fields joined by `,` + ` FROM ` + the resource. |
| `QueryBuilder.WhereIffConditions` | ads_mcp/tools/search.py:47-48 | Right after the SELECT clause stands ` WHERE ` + the conditions joined by ` AND ` if and only if the conditions are non-empty. |
| `QueryBuilder.OrderByIffOrderings` | ads_mcp/tools/search.py:50-51 | After the SELECT and WHERE clauses stands ` ORDER BY ` + the orderings joined by `,` if and only if the orderings are non-empty. |
| `QueryBuilder.LimitIffTruthy` | ads_mcp/tools/search.py:53-54 | The query ends with ` LIMIT ` + the rendered limit if and only if the limit is truthy; otherwise it ends right after the ORDER BY position. |
| `QueryBuilder.FragmentsVerbatim` | ads_mcp/tools/search.py:47-51 | Every condition and every ordering occurs in the query verbatim (no escaping). |
| `QueryBuilder.LimitClauseExamples` | ads_mcp/tools/search.py:53-54 | `None`, `0` and `""` give no LIMIT clause; `5` gives ` LIMIT 5`, `"10"` gives ` LIMIT 10`, `"0"` gives ` LIMIT 0`, `-3` gives ` LIMIT -3`. |
| `QueryBuilder.IntLimitRoundTrip` | ads_mcp/tools/search.py:53-54 | For a non-zero int limit, the text after ` LIMIT ` is an integer literal whose value is that limit. |
| `Text.NatToString` | ads_mcp/tools/search.py:54 | `str` of a non-negative int is a non-empty string of decimal digits with no leading zero unless the number is 0. |
| `Text.IntToStringRoundTrip` | ads_mcp/tools/search.py:54 | `str(n)` is an integer literal (optional minus, digits) that parses back to `n`. |
| `Text.JoinContainsEach` | ads_mcp/tools/search.py:48 | Every part of `sep.join(parts)` occurs in the joined string. |
| `Text.ContainsIff` | ads_mcp/tools/search.py:138 | The substring test `needle in hay` holds if and only if `needle` occurs in `hay` at some index. |
| `SearchTool.CollectRows` | ads_mcp/tools/search.py:63-68 | The nested loops produce exactly `Projected(batches)`: every row of every batch, projected with its own batch's field-mask paths, in stream order. |
| `SearchTool.Projected` | ads_mcp/tools/search.py:63-68 | The flattened result has exactly one entry per streamed row. |
| `SearchTool.ProjectedAt` | ads_mcp/tools/search.py:63-68 | Row `j` of batch `b` is at position (rows in batches before `b`) + `j`, projected with batch `b`'s field-mask paths. |
| `SearchTool.Search` | ads_mcp/tools/search.py:23-69 | The built query goes to the transport with the customer id; a transport failure is returned unchanged, otherwise one projected row per streamed row, in order. |
| `Normalizer.FormatOutputValue` | ads_mcp/utils.py:91-119 | Unless the value is a message (whose conversion is the library's), the result is a scalar that is not an enum member, a list, or the non-iterable value itself; the branch lemmas below pin each case. |
| `Normalizer.EnumBecomesName` | ads_mcp/utils.py:100-101 | An enum member, though also an int, normalises to its symbolic name, not its number. |
| `Normalizer.MessagesBecomeDicts` | ads_mcp/utils.py:104-109 | A proto-plus message becomes what `to_dict` returns; a raw protobuf message becomes what `MessageToDict` (field names preserved) returns. |
| `Normalizer.ScalarsUnchanged` | ads_mcp/utils.py:112-113 | str, bytes, int, float, bool and None come back unchanged; a string, though iterable, is never turned into a list. |
| `Normalizer.IterableFallback` | ads_mcp/utils.py:116-119 | A value past the earlier tests becomes, if iterable, a list of the same length whose k-th element is the normalisation of the k-th item; if not iterable, it comes back unchanged. |
| `Normalizer.MappingYieldsKeys` | ads_mcp/utils.py:116-117 | A mapping becomes the list of its normalised keys; its values are dropped. |
| `Normalizer.SequenceBecomesList` | ads_mcp/utils.py:115-117 | A tuple or repeated container becomes a new list (never the container itself) of the same length, whose k-th element is the normalisation of the k-th item. |
| `Normalizer.ScalarListUnchanged` | ads_mcp/utils.py:112-117 | A list of scalars that are not enum members normalises to an equal list. |
| `Normalizer.NormalizesToPlainData` | ads_mcp/utils.py:91-119 | Any value without an unrecognised object where the normaliser keeps it (mapping values are dropped, so they may hold anything) normalises to built-in data: no enums, messages, tuples, containers or opaque objects are left, provided the library conversions give built-in data. |
| `Normalizer.MappingFreeDataIsFixed` | ads_mcp/utils.py:99-119 | Built-in data without mappings (lists and scalars only, no tuples or containers) is left as it is by the normaliser. |
| `Normalizer.FormatOutputRow` | ads_mcp/utils.py:122-126 | The row's keys are exactly the attribute paths, used literally, and each maps to the normalisation of the value resolved for that path. |
| `ResourceCatalog.LoadResources` | ads_mcp/tools/search.py:72-79 | The load fails exactly on a read failure other than a missing file or malformed JSON; those two give an empty catalog, and parsed records are returned as they are. |
| `ResourceCatalog.GetResourceFields` | ads_mcp/tools/search.py:132-146 | A found record is a catalog record named like the query; a partial-match error carries the query and one to ten names each containing it; the not-found error carries the query. Which tier answers is stated by `TierChoice`. |
| `ResourceCatalog.GetResourceFieldsFromFile` | ads_mcp/tools/search.py:132 | The tool fails exactly on a read failure the loader does not catch, and a record it returns comes from the parsed file. |
| `ResourceCatalog.PartialMatches` | ads_mcp/tools/search.py:138 | The filter keeps at most as many records as the catalog holds, each a catalog record whose name contains the query. |
| `ResourceCatalog.FindExact` | ads_mcp/tools/search.py:133-135 | The scan returns the index of the first record named like the query, or none when no record is. |
| `ResourceCatalog.Take` | ads_mcp/tools/search.py:141 | `xs[:n]` has `min(len(xs), n)` elements, the first ones of `xs`. |
| `ResourceCatalog.PartialMatchesSpec` | ads_mcp/tools/search.py:138 | The filter keeps every record whose name contains the query and only those, in catalog order; it is empty exactly when no name contains the query. |
| `ResourceCatalog.ExactMatchFirst` | ads_mcp/tools/search.py:132-135 | When a record is named like the query, the first such record is returned unchanged. |
| `ResourceCatalog.PartialMatchTier` | ads_mcp/tools/search.py:137-142 | With no exact match but some partial match, the error lists exactly the names of the first min(10, number of matches) matching records (`matches[:10]`), each containing the query, in catalog order. |
| `ResourceCatalog.NoMatchTier` | ads_mcp/tools/search.py:144-146 | With no name containing the query, the generic not-found error is returned. |
| `ResourceCatalog.TierChoice` | ads_mcp/tools/search.py:132-146 | The record is returned iff some name equals the query; the partial-match error comes iff none equals it and some contains it. |
| `ResourceCatalog.LoadPolicy` | ads_mcp/tools/search.py:72-79 | A missing or malformed catalog file gives the generic not-found error for every query; any other read failure propagates; parsed records are searched. |
| `ResourceCatalog.EmptyQueryListsFirstNames` | ads_mcp/tools/search.py:138-142 | The empty query is in every name, so in a non-empty catalog without a record named "" it lists the first up to ten names of the catalog. |

## Left out

- Client and credential construction, the developer-token and login-customer-id environment variables, the module-level client, and the header interceptor (ads_mcp/utils.py:45-88): authentication and transport plumbing.
- Logging (ads_mcp/tools/search.py:57, 78; ads_mcp/utils.py:38-39): no effect on results.
- The network call `search_stream`: the transport is a function parameter. A failure raised part-way through the stream, after some batches, is not modelled; a failure is all-or-nothing.
- Opening and parsing the catalog file (`open`, `json.load`, `importlib.resources`): only the outcome is modelled. JSON that is not a list of records, and a record without a `"resource"` key (which raises `KeyError` in the source), are not modelled.
- The internals of `proto.Message.to_dict`, `MessageToDict` and `get_nested_attr`: foreign library calls, kept as function parameters that always return; nothing is assumed about their results.
- Tool registration and the generated description text (`_search_tool_description`, `mcp.add_tool`): documentation and hosting glue.
- The exact wording and Python list formatting of the error strings: the errors are structured values carrying the query and the candidate names.
- `QueryBuilder.BuildQuery`: `limit` is `None`, an int or a str, as annotated. Other types (a bool renders as `True`, a float with its repr) are not modelled.
- `Normalizer.MappingYieldsKeys`: a mapping is a sequence of entries whose keys are not required to be distinct, so the lemma also covers mappings Python cannot build.
- `Normalizer.FormatOutputRow`: the result is a map, so the insertion order of the dict's keys is not modelled.
- `Normalizer.FormatOutputValue`: floats are reals, so NaN and infinities are not modelled. The iterable kinds are sequence-like values and mappings; sets and generators are not modelled.
- `Normalizer.FormatOutputValue`: a library call that raises is not modelled. The `try` of ads_mcp/utils.py:116-119 wraps the whole list comprehension, so a `TypeError` raised by `to_dict` or `MessageToDict` on an item nested in a container makes the source return that container unconverted; the model always gives the list. Any other exception from those calls, or any exception from `get_nested_attr`, propagates out of `format_output_row` and out of `search` (ads_mcp/tools/search.py:66-68); the model has no such failure.
