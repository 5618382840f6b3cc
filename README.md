# LusoTourism accommodation queries, in Dafny

This project models the query-construction layer of the LusoTourism
accommodation service (`src/services/accommodations.ts`). It also proves
properties of that model. The service asks two ArcGIS datasets for lists,
counts, distinct values and single records. The datasets are `et`, tourist
establishments, and `ea`, local lodging. Every request is an ordered list
of URL query parameters, built from the caller's inputs and the dataset
table `API_CONFIGS`.

Modules:

- `Wrappers`: `Option` and `Result`.
- `Text`:
  - `Array.prototype.join`.
  - Splitting a comma list back into its parts.
  - `String(n)` for integers, and a reader for it.
- `Config`: `API_CONFIGS`.
  - The two datasets.
  - The provider column behind each logical field.
  - The endpoint (`config.base`) under a given API base. The base is a parameter, because the page picks it from its host name.
- `SqlLiteral`:
  - `value.replace(/'/g, "''")`, the SQL way to put a quote inside a string literal (ISO/IEC 9075, `<character string literal>`).
  - Its inverse.
  - A lexer-style reader of a quoted literal, used to state that escaped values cannot break out of their literal.
- `WhereClause`:
  - The filter conjunction of the list and count requests.
  - The identifier clause of the detail request.
  - JavaScript truthiness of an optional filter or sort value.
  - Each is a specification function plus a method that builds the clause as the source does: `push` onto `conditions`, then `join(' AND ')`.
- `OutFields`:
  - The five-column list projection.
  - The detail projection. It is built by a method that grows the string with `+=`, as the source does.
- `QueryParams`:
  - The ordered parameter lists of the list, count, distinct-value and detail requests.
  - The builder methods, including the conditional `append` of `orderByFields`.
  - `Lookup`, the first-match semantics of `URLSearchParams.get`.
  - Each request as its endpoint paired with its parameters, before serialisation into `<endpoint>?<params>`.
- `Distinct`:
  - `features.map(f => f.attributes[column]).sort()`, with `undefined` (a missing attribute) sorted last.
- `Response`: the `res.ok` status check every request makes before it reads the body.

The network calls are replaced by inputs: a response is its status code and
its decoded features.

## Model

| member | source | states |
|---|---|---|
| Config.FieldNameIsColumnName | src/services/accommodations.ts:23-40 | the provider column names of the nine common logical fields of both datasets are non-empty and free of commas, so each can stand in an `outFields` list |
| Config.EtFieldNameIsColumnName | src/services/accommodations.ts:29-33 | the same for the sixteen `et`-only columns |
| Config.EaFieldNameIsColumnName | src/services/accommodations.ts:39 | the same for the `ea`-only column `NrUtentes` |
| Config.EndpointShape | src/services/accommodations.ts:24-34 | a dataset's endpoint (`config.base`) is the API base followed by that dataset's query path, and `et` and `ea` never share an endpoint under the same base |
| SqlLiteral.EscapeLength | src/services/accommodations.ts:52-53 | escaping lengthens a value by exactly its number of quotes |
| SqlLiteral.EscapeAppend | src/services/accommodations.ts:52 | escaping works character by character: the escape of a concatenation is the concatenation of the escapes |
| SqlLiteral.EscapeWithoutQuotes | src/services/accommodations.ts:52 | a value without quotes is embedded unchanged |
| SqlLiteral.UnescapeEscape | src/services/accommodations.ts:52-53 | collapsing each doubled quote restores the original value (round trip) |
| SqlLiteral.ReadEscaped | src/services/accommodations.ts:52-53 | an escaped value followed by a closing quote reads back as exactly that value, and the literal ends at that quote |
| WhereClause.BuildFilterWhere | src/services/accommodations.ts:50-54 | pushing a term per truthy filter and joining with ` AND ` gives the district term, the type term, both (district first), or `1=1` |
| WhereClause.WhereDefaultsIffNoFilters | src/services/accommodations.ts:83-87 | the clause is `1=1` if and only if neither filter is set (undefined or empty) |
| WhereClause.WhereOneFilter | src/services/accommodations.ts:52-54 | with exactly one filter set, the clause is that filter's single term on its column |
| WhereClause.WhereBothFilters | src/services/accommodations.ts:52-54 | with both filters set, the clause is `Distrito = '<escaped district>' AND <TipologiaET or Modalidade> = '<escaped type>'` |
| WhereClause.ConditionReadsBack | src/services/accommodations.ts:52-53 | a term is its column, ` = '`, then a literal that reads back as exactly the filter value |
| WhereClause.WhereReadsBackFilters | src/services/accommodations.ts:50-54 | with both filters set, an SQL reader finds the district value, then ` AND ` and the type term, whose literal reads back as the type value: a quote in a value cannot end its literal early |
| WhereClause.BuildDetailWhere | src/services/accommodations.ts:178-186 | the one-term `conditions` list gives the identifier clause of the dataset |
| WhereClause.DetailWhereShape | src/services/accommodations.ts:181-185 | the detail clause is `NrRNET = '<id>'` for `et`, whose literal reads back as the id when the id has no quote, and `NrRNAL = <id>` with the id unquoted for `ea` |
| SqlLiteral.UnescapedReadsBack | src/services/accommodations.ts:182 | a value put between quotes without escaping reads back as itself, with nothing left over, if and only if it holds no quote |
| WhereClause.DetailIdReadsBack | src/services/accommodations.ts:181-182 | the id is not escaped: the `et` identifier literal reads back as exactly the id if and only if the id holds no quote |
| WhereClause.DetailIdNotEscaped | src/services/accommodations.ts:182 | a witness: for the id `1'2` the `et` literal reads as `1`, and `2'` is left over |
| OutFields.ListOutFieldsColumns | src/services/accommodations.ts:48 | the list projection splits into name, id, type, municipality and district, in that order; it is `Denominacao,NrRNET,TipologiaET,Concelho,Distrito` for `et` and `Denominacao,NrRNAL,Modalidade,Concelho,Distrito` for `ea` |
| OutFields.BuildDetailOutFields | src/services/accommodations.ts:153-176 | the nine common columns, then `+=` of the dataset's extras, give the comma join of all the detail columns |
| OutFields.DetailOutFieldsColumns | src/services/accommodations.ts:153-176 | the detail projection splits back into its columns: 25 for `et`, and 10 ending in `NrUtentes` for `ea`; it begins with the list projection followed by a comma |
| QueryParams.BuildListParams | src/services/accommodations.ts:56-68 | the list parameters come in order, with `orderByFields` appended when the sort column is truthy |
| QueryParams.ListQueryKeys | src/services/accommodations.ts:56-68 | the keys are where, outFields, returnGeometry, outSR, f, resultOffset, resultRecordCount, then orderByFields exactly when the sort column is truthy; its value is the sort column as given |
| QueryParams.ListQuerySortAppends | src/services/accommodations.ts:66-68 | a truthy sort column appends one entry at the end and changes nothing else; otherwise nothing changes |
| QueryParams.ListQueryPagination | src/services/accommodations.ts:62-63 | resultOffset and resultRecordCount read back as exactly the given offset and limit |
| QueryParams.BuildCountParams | src/services/accommodations.ts:83-93 | the count parameters are where, `returnCountOnly=true`, `f=json` |
| QueryParams.CountMatchesList | src/services/accommodations.ts:89-93 | the count request's where equals the list request's where for the same dataset and filters; it carries only where, returnCountOnly=true and f=json |
| QueryParams.UnfilteredSelectsAll | src/services/accommodations.ts:50-54 | the list and count requests select `1=1` if and only if no filter is set |
| QueryParams.DistinctQueryShape | src/services/accommodations.ts:113-120 | the distinct request selects `1=1`, projects the single column of the field, asks for distinct values, and is not paged |
| QueryParams.BuildDetailParams | src/services/accommodations.ts:188-194 | the detail parameters are the identifier clause, the detail projection and the three fixed entries, in order |
| QueryParams.DetailQueryShape | src/services/accommodations.ts:188-194 | the detail request's where and outFields are the identifier clause and the detail projection, and it has no paging keys |
| QueryParams.RequestsTargetDataset | src/services/accommodations.ts:46-47 | the list, count, distinct-value and detail requests of a dataset all go to the API base followed by that dataset's path, and an `et` request never goes to the endpoint of the matching `ea` request |
| Distinct.ValueLeTotalOrder | src/services/accommodations.ts:125 | the order `.sort()` uses is a total order: reflexive, total, antisymmetric, transitive |
| Distinct.Sort | src/services/accommodations.ts:125 | sorting gives a sorted permutation of its input |
| Distinct.SortedUnique | src/services/accommodations.ts:125 | two sorted lists with the same elements are equal, so the sorted result is unique |
| Distinct.DistinctValues | src/services/accommodations.ts:125 | the distinct-value list has one entry per feature, is a permutation of the extracted values, and every entry comes before every later one |
| Distinct.DistinctValuesDetermined | src/services/accommodations.ts:146 | any sorted permutation of the extracted values is the distinct-value list |
| Distinct.DistinctValuesExample | src/services/accommodations.ts:125 | the districts Porto, Aveiro, Lisboa come back as Aveiro, Lisboa, Porto |
| Response.Receive | src/services/accommodations.ts:122-123 | a response is accepted exactly for a status from 200 to 299; otherwise the error carries the status |
| Distinct.UniqueValues | src/services/accommodations.ts:108-126 | getUniqueDistricts and getUniqueTypes fail exactly on a non-ok status, and otherwise give the sorted values of the field's column |
| Text.IntToStringRoundTrip | src/services/accommodations.ts:62-63 | `String(n)` of an integer reads back as exactly that integer |

## Left out

- `fetch`, `res.json()` and the async control flow are network I/O. A response is a status code plus its decoded body. Only the status check (`Receive`) and the distinct-value post-processing are modelled.
- The page, count and detail results (`json`, `json.count`) are passed through from the response unchanged, so there is nothing to model.
- The `API_BASE` choice by `location.hostname` depends on the browser environment. `Config.Endpoint` takes the base as a parameter.
- `URLSearchParams.toString()` percent-encoding is library code (WHATWG URL Standard, section 5.2). The parameters are an ordered sequence of key/value pairs.
- `getAccommodations` is only a call of `getAccommodationsPage(api, 0, 10000)` and a field access.
- The default parameter values (`api = 'et'`, `offset = 0`, `limit = 20`, `filters = {}`) are left out. Callers pass every argument explicitly.
- `src/services/casinos.ts`, the router and the Vite configuration hold no input-dependent logic. They are not part of this model.
- Text.IntToString: is exact only for integers of magnitude up to 2^53. Above that a JavaScript number is a double, and `String` prints the shortest digits that round back to it (`String(2**60)` is `1152921504606847000`, not `1152921504606846976`); this is not modelled. Neither are the exponent notation JavaScript uses from 1e21 up, or non-integer numbers.
- QueryParams.ListQueryPagination: the exact read-back of offset and limit holds in JavaScript only for magnitudes up to 2^53, for the reason given for Text.IntToString.
- Distinct.ValueLe: compares characters by code, not by UTF-16 code units. The two differ for characters outside the Basic Multilingual Plane.
- Distinct.Extract: attribute values are strings or missing. Non-string values, which `.sort()` would convert to strings first, are not modelled.
- The dataset is a closed two-value type (`Api`), so a lookup of an unknown dataset, which would fail at run time, cannot be expressed.
- The distinct-value lists are not de-duplicated locally. The model, like the code, relies on the server's `returnDistinctValues`.
- The limit is not checked to be positive. The model, like the code, passes any integer through.
