# SQL Genie core, modelled in Dafny

SQL Genie is a web application. It turns a natural-language question and a database
schema into SQL, using a hosted LLM provider (DeepSeek or OpenRouter). It also keeps a
history of generated queries and uploaded schemas. This project models the logic of
that application that does not depend on the browser or the network, and proves what
that logic promises:

- **The provider client** (`ProviderClient`, `provider_client.dfy`).
  - It chooses the active provider and its key from browser storage.
  - It refuses a missing key, or one without the `sk-` prefix, before any request is
    built.
  - It builds the provider's chat-completion request.
  - It maps a failed HTTP status to an error.
  - It cleans the completion into SQL by trimming, stripping fences and trimming again.
- **The optimisation hints** (`OptimizationInsights`, `optimization_insights.dfy`).
  Five substring rules run over the lower-cased SQL. A general hint is given when no
  rule fires. Empty SQL shows no panel.
- **The API-key form** (`ApiKeyInput`, `api_key_input.dfy`). This is a class with the
  fields `apiKey` and `isSaved` over a `localStorage` object. It has mount, edit and
  save transitions.
- **The schema card helpers** (`SchemaViewer`, `schema_viewer.dfy`).
  - The `CREATE\s+TABLE` count, which is case-insensitive and counts non-overlapping
    matches.
  - The export file name.
  - The expand/collapse flag.
- **The saved-work lists** (`Records`, `QueriesTab`, `SchemasTab`, `Dashboard`). These
  cover the case-insensitive search filters, the loading, empty and list rendering, and
  the 300-character schema preview.
- **Shared helpers** (`Strings`, `Seqs`, `Wrappers`). These model the JavaScript
  operations used above: `trim`, `toLowerCase`, `includes`, `startsWith` and
  `Array.prototype.filter`.

### How the model is shaped

- **Storage.** The provider client reads storage as a `map<string, string>` snapshot.
  The key form owns a `LocalStorage` object and writes it in place.
- **The HTTP exchange.** The request is the `Request` record that `GenerateSql` returns
  in `sent`. The answer is the `Response` value passed in: its status, the provider's
  error message, and the `message.content` of each choice.
- **Thrown errors.** Each thrown `Error` is a `GenError` case, returned as a `Failure`.
  `ErrorMessage` gives the exact texts.
- **Key names.** The key names are kept as the code spells them. The form writes
  `openai_api_key`, which the request client never reads. `SavedKeyUnusedByClient`
  states this.

### Facts about the code worth knowing

- **404.** A 404 is reported as a missing model only for DeepSeek. Another provider's
  404 takes the generic branch: its own error message, or "Failed to generate SQL"
  (`OpenRouterNotFoundIsGeneric`).
- **The `sk-` prefix.** No save path checks the `sk-` prefix: the key form stores any
  non-blank key. The request client rejects a key without the prefix and sends nothing
  (`GenerateSql`).

## Model

| member | source | states |
|---|---|---|
| ProviderClient.GetApiConfig | src/services/openaiService.ts:10-20 | The provider is "deepseek" exactly when `active_api_provider` is absent, empty or "deepseek"; otherwise it is the stored string verbatim. The key is read from `deepseek_api_key` for "deepseek" and from `openrouter_api_key` for every other provider string. |
| ProviderClient.SwitchProviderUsesItsKey | src/services/openaiService.ts:12-17 | After a non-empty provider name is stored, the next config has that provider, and its key comes from that provider's key entry. |
| ProviderClient.SavedKeyIsRead | src/services/openaiService.ts:15-19 | A key written under the active provider's key name is the key read back, verbatim; the provider is unchanged. |
| ProviderClient.GetItem | src/services/openaiService.ts:12-17 | `getItem` gives `null` exactly for a key never set, and otherwise the value stored under it. |
| ProviderClient.ErrorMessage | src/services/openaiService.ts:28-113 | A provider's error message is passed on verbatim. Every other error has a non-empty text of its own. |
| ProviderClient.ErrorNamesProvider | src/services/openaiService.ts:29-112 | The texts for a missing key, a bad key format, a failed authentication, a generic failure and an empty answer name the provider ("DeepSeek" or "OpenRouter"). |
| ProviderClient.UserMessage | src/services/openaiService.ts:53 | The user message contains both the schema text and the question text, verbatim. |
| ProviderClient.ClassifyStatus | src/services/openaiService.ts:91-105 | 401 is an authentication failure for any provider. 404 is "model not found" only for DeepSeek. 402 is "payment required" exactly for 402. Every other status yields the provider's non-empty message, or else the generic failure. |
| ProviderClient.OpenRouterNotFoundIsGeneric | src/services/openaiService.ts:96-104 | A 404 from a provider other than DeepSeek yields the provider's message or the generic failure, never "model not found". |
| ProviderClient.RemoveFences | src/services/openaiService.ts:120 | Removing "```sql" and "```" never lengthens the text. |
| ProviderClient.RemoveFencesIsFenceFree | src/services/openaiService.ts:120 | After the left-to-right replacement, no "```" is left anywhere in the text. |
| ProviderClient.RemoveFencesKeepsTickFree | src/services/openaiService.ts:120 | Text without backticks passes the replacement unchanged. |
| ProviderClient.CleanSql | src/services/openaiService.ts:117-120 | The returned SQL is never longer than the completion, and trimming it again changes nothing. |
| ProviderClient.CleanSqlIsTrimmedAndFenceFree | src/services/openaiService.ts:117-122 | The returned SQL neither starts nor ends with whitespace and contains no "```". |
| ProviderClient.CleanFencedBlock | src/services/openaiService.ts:117-120 | A body with no "```" of its own, which may hold single or double backticks, wrapped as "```sql" + body + "```" with only whitespace before and after, cleans to the trimmed body. The same holds for an untagged fence when the body does not start with "sql". |
| ProviderClient.BodyThenFence | src/services/openaiService.ts:120 | A body with no "```", followed by the closing fence, comes out of the replacement as the body, even when the body ends in backticks. |
| ProviderClient.CleanTaggedFence | src/services/openaiService.ts:117-120 | "```sql\nSELECT 1;\n```" cleans to "SELECT 1;". |
| ProviderClient.CleanUpperCaseTag | src/services/openaiService.ts:120 | The fence match is case-sensitive: "```SQL\nSELECT 1;\n```" cleans to "SQL\nSELECT 1;". |
| ProviderClient.CleanQuotedIdentifier | src/services/openaiService.ts:117-120 | "\n```sql\nSELECT \`id\` FROM t;\n```\n" cleans to "SELECT \`id\` FROM t;": quoted identifiers and the newlines around the block do not get in the way. |
| ProviderClient.GenerateSql | src/services/openaiService.ts:22-132 | A missing or empty key fails with "API key not found", and nothing is sent; this is checked first. A key without "sk-" fails with the format error, and nothing is sent. A request is sent exactly when the key starts with "sk-". The request has the provider's endpoint and model, "Bearer " + key, the system and user messages, temperature 0.1 and max_tokens 500. A non-OK status gives the classified error. Missing or empty choices give "no response". Otherwise the result is the cleaned first choice. |
| OptimizationInsights.Hints | src/components/SqlOptimizationInsights.tsx:15-37 | The hint list has one entry per rule, in rule order. |
| OptimizationInsights.FiredHints | src/components/SqlOptimizationInsights.tsx:15-37 | At most one hint per rule is given. |
| OptimizationInsights.FiredHintsAreRuleHints | src/components/SqlOptimizationInsights.tsx:15-37 | Every hint given is one of the rules' hints. |
| OptimizationInsights.FiredHintsEmptyIff | src/components/SqlOptimizationInsights.tsx:15-40 | No rule hint is given exactly when no rule fires. |
| OptimizationInsights.AnalyzeQuery | src/components/SqlOptimizationInsights.tsx:11-45 | The five pushes followed by the length check give exactly the rule table's hints for the lower-cased SQL, or the general hint when none fires. |
| OptimizationInsights.UnfoldRules | src/components/SqlOptimizationInsights.tsx:15-37 | Running the rule table is the same as running the five checks in source order. |
| OptimizationInsights.Insights | src/components/SqlOptimizationInsights.tsx:11-45 | The list of hints is never empty and never longer than the rule table, so it holds 1 to 5 hints. |
| OptimizationInsights.HintsDistinct | src/components/SqlOptimizationInsights.tsx:16-41 | The six hint texts are pairwise different. |
| OptimizationInsights.FallbackExactlyWhenNoRuleFires | src/components/SqlOptimizationInsights.tsx:39-42 | The general hint appears exactly when no rule fires, and then it is the only hint. |
| OptimizationInsights.FiredHintIff | src/components/SqlOptimizationInsights.tsx:15-37 | When the hints are distinct, a rule's hint is given exactly when that rule fires. |
| OptimizationInsights.RuleHintIff | src/components/SqlOptimizationInsights.tsx:15-37 | Each of the five hints appears exactly when its rule fires on the lower-cased SQL. |
| OptimizationInsights.WhereHintIff | src/components/SqlOptimizationInsights.tsx:15-17 | The WHERE hint appears exactly when the SQL contains "select" and not "where", in any letter case. |
| OptimizationInsights.JoinHintIff | src/components/SqlOptimizationInsights.tsx:25-27 | The JOIN hint appears exactly when the SQL contains "join" and not "inner join", in any letter case. |
| OptimizationInsights.FiredHintsInRuleOrder | src/components/SqlOptimizationInsights.tsx:15-37 | The given hints are a subsequence of the rule hints, so they keep rule order with no repeats. |
| OptimizationInsights.InsightsOrdered | src/components/SqlOptimizationInsights.tsx:11-45 | The result is the general hint alone, or a subsequence of WHERE, SELECT *, JOIN, ORDER BY, GROUP BY. |
| OptimizationInsights.InsightsIgnoreCase | src/components/SqlOptimizationInsights.tsx:15-35 | Upper-casing the SQL does not change the hints. |
| OptimizationInsights.LeftJoinGetsJoinHint | src/components/SqlOptimizationInsights.tsx:25-27 | "SELECT a FROM t LEFT JOIN u" gets the INNER JOIN hint. |
| OptimizationInsights.Panel | src/components/SqlOptimizationInsights.tsx:47-52 | Empty SQL shows nothing. Any other SQL shows 1 to 5 hints. |
| ApiKeyInput.LocalStorage.SetItem | src/components/ApiKeyInput.tsx:33 | `setItem` updates that one entry and leaves every other entry as it was. |
| ApiKeyInput.ApiKeyForm.constructor | src/components/ApiKeyInput.tsx:10-11 | The form starts with an empty key, not saved. |
| ApiKeyInput.ApiKeyForm.Mount | src/components/ApiKeyInput.tsx:14-21 | A stored non-empty `openai_api_key` is loaded, and the form is marked saved. Otherwise the state is unchanged. |
| ApiKeyInput.ApiKeyForm.Edit | src/components/ApiKeyInput.tsx:57-60 | The field takes the typed value, and `isSaved` becomes false. |
| ApiKeyInput.ApiKeyForm.SaveKey | src/components/ApiKeyInput.tsx:23-39 | A save is rejected exactly when the key is blank; then storage and `isSaved` are unchanged and the error text is reported. Otherwise storage gains `openai_api_key` := trim(key) with nothing else changed, and `isSaved` becomes true. The field is never changed. |
| ApiKeyInput.SaveThenRemount | src/components/ApiKeyInput.tsx:14-39 | After typing, saving and mounting a fresh form: a non-blank key is loaded back trimmed and marked saved; a blank key is refused and the fresh form shows what storage held before. |
| ApiKeyInput.EditAfterSave | src/components/ApiKeyInput.tsx:23-60 | An edit after a successful save clears `isSaved`, and the stored trimmed key stays. |
| ApiKeyInput.SavedKeyUnusedByClient | src/components/ApiKeyInput.tsx:33 | Writing `openai_api_key` changes neither the provider nor the key that the request client reads. |
| SchemaViewer.WhitespaceRun | src/components/SchemaViewer.tsx:51 | A `\s+` run is maximal: all of it is whitespace, and the next character is not. |
| SchemaViewer.MatchLength | src/components/SchemaViewer.tsx:51 | A match reported at a position spells "create", at least one whitespace character, then "table". Any such window at that position is the reported one, so none is missed and none is ambiguous. |
| SchemaViewer.CountFrom | src/components/SchemaViewer.tsx:50-53 | Each counted match uses at least 12 characters of the remaining text. |
| SchemaViewer.CountTables | src/components/SchemaViewer.tsx:50-53 | The count is a natural number, at most a twelfth of the text length. |
| SchemaViewer.WindowCounted | src/components/SchemaViewer.tsx:50-53 | A `create\s+table` window anywhere at or after a position is found by the scan from there, so it counts at least 1. |
| SchemaViewer.CountedIsWindow | src/components/SchemaViewer.tsx:50-53 | A positive count from a position means such a window lies at or after it. |
| SchemaViewer.TablesCountedIff | src/components/SchemaViewer.tsx:50-68 | Tables are counted, and the card shows a count, exactly when the lower-cased SQL holds a window "create", whitespace, "table". |
| SchemaViewer.NoCreateFrom | src/components/SchemaViewer.tsx:51-52 | With no "create" from a position on, nothing is counted from there. |
| SchemaViewer.NoCreateNoTables | src/components/SchemaViewer.tsx:51-52 | Text without "create", in any case, counts 0 tables. |
| SchemaViewer.CountTablesIgnoresCase | src/components/SchemaViewer.tsx:51 | Upper-casing the text does not change the count. |
| SchemaViewer.GluedWordsNotCounted | src/components/SchemaViewer.tsx:51 | "CREATETABLE t" counts 0. |
| SchemaViewer.LineBreakCounted | src/components/SchemaViewer.tsx:51 | "create\n\ttable t" counts 1. |
| SchemaViewer.TablesNote | src/components/SchemaViewer.tsx:68 | The table count is shown only when it is positive. |
| SchemaViewer.NoteNeedsCreate | src/components/SchemaViewer.tsx:68 | A shown count implies the SQL mentions "create". |
| SchemaViewer.ReplaceWhitespaceRuns | src/components/SchemaViewer.tsx:36 | The result contains no whitespace. |
| SchemaViewer.DownloadFilename | src/components/SchemaViewer.tsx:36 | The file name has no whitespace and ends with "_schema.sql". |
| SchemaViewer.NoWhitespaceUnchanged | src/components/SchemaViewer.tsx:36 | A name without whitespace is kept verbatim. |
| SchemaViewer.RunCollapses | src/components/SchemaViewer.tsx:36 | A maximal whitespace run becomes exactly one "_". |
| SchemaViewer.ReplacementKeepsText | src/components/SchemaViewer.tsx:36 | Leaving out underscores, the result is the name's non-whitespace characters, in order. |
| SchemaViewer.SchemaCard.constructor | src/components/SchemaViewer.tsx:17 | A card starts collapsed. |
| SchemaViewer.SchemaCard.Toggle | src/components/SchemaViewer.tsx:93 | The button negates `isExpanded`. |
| SchemaViewer.ClickTwice | src/components/SchemaViewer.tsx:93 | A new card is expanded after one click and collapsed after two. |
| SchemaViewer.ToggleTwice | src/components/SchemaViewer.tsx:93 | Two toggles restore any card's state. |
| QueriesTab.QueryMatches | src/components/QueriesTab.tsx:19-20 | The empty term matches every query; a term longer than both the prompt and the SQL matches none. |
| QueriesTab.FilterQueries | src/components/QueriesTab.tsx:17-22 | An empty term returns the list unchanged. The result is an order-preserving subsequence, and a query is in it exactly when it is in the input and its lower-cased prompt or SQL contains the lower-cased term. |
| QueriesTab.EmptyTermMatchesAll | src/components/QueriesTab.tsx:17-22 | The empty term matches every query, so the guard keeps what filtering would keep. |
| QueriesTab.FilterQueriesIdempotent | src/components/QueriesTab.tsx:17-22 | Filtering twice with the same term equals filtering once. |
| QueriesTab.FilterQueriesIgnoresTermCase | src/components/QueriesTab.tsx:18-21 | Upper-casing the term does not change the result. |
| QueriesTab.QueriesView | src/components/QueriesTab.tsx:24-70 | The spinner is shown exactly while loading. The cards are the non-empty filtered list, in order. The empty state is titled "No queries found". |
| QueriesTab.EmptyStateMeaning | src/components/QueriesTab.tsx:32-42 | Once loaded, the empty state appears exactly when no query matches. Its hint is "Try a different search term" exactly when the term is non-empty. With an empty term, it appears exactly when there are no queries. |
| SchemasTab.SchemaMatches | src/components/SchemasTab.tsx:17-18 | The empty term matches every schema; a term longer than both the name and the SQL matches none. |
| SchemasTab.FilterSchemas | src/components/SchemasTab.tsx:15-20 | An empty term returns the list unchanged. The result is an order-preserving subsequence, and a schema is in it exactly when it is in the input and its lower-cased name or SQL contains the lower-cased term. |
| SchemasTab.EmptyTermMatchesAll | src/components/SchemasTab.tsx:15-20 | The empty term matches every schema. |
| SchemasTab.FilterSchemasIdempotent | src/components/SchemasTab.tsx:15-20 | Filtering twice with the same term equals filtering once. |
| SchemasTab.FilterSchemasIgnoresTermCase | src/components/SchemasTab.tsx:16-19 | Upper-casing the term does not change the result. |
| SchemasTab.SchemasView | src/components/SchemasTab.tsx:22-48 | The spinner is shown exactly while loading. The cards are the non-empty filtered list. The empty state is titled "No schemas found". |
| SchemasTab.EmptyStateMeaning | src/components/SchemasTab.tsx:30-40 | Once loaded, the empty state appears exactly when no schema matches, and its hint depends on whether the term is non-empty. With an empty term, it appears exactly when there are no schemas. |
| Dashboard.DashboardQueries | src/pages/Dashboard.tsx:130-135 | The page's query filter is the list's filter. |
| Dashboard.DashboardSchemas | src/pages/Dashboard.tsx:137-142 | The page's schema filter is the list's filter. |
| Dashboard.FilteredQueriesExact | src/pages/Dashboard.tsx:130-135 | For any term, the empty one included, the filter works record by record: a part-wise concatenation, and a single record is kept exactly when it matches. |
| Dashboard.FilteredSchemasExact | src/pages/Dashboard.tsx:137-142 | The same holds for schemas. |
| Dashboard.QueriesPanel | src/pages/Dashboard.tsx:196-226 | The page's queries tab (spinner, then cards, then empty state) renders exactly what the queries list renders. |
| Dashboard.SchemaPreview | src/pages/Dashboard.tsx:246-248 | SQL of at most 300 characters is shown verbatim. Longer SQL shows its first 300 characters followed by "...". The preview is never longer than 303 characters. |
| Dashboard.SchemasPanel | src/pages/Dashboard.tsx:230-262 | The spinner comes first. The page shows the schemas list's empty state, or one preview card per filtered schema, in order. |
| Strings.Trim | src/services/openaiService.ts:117 | `trim()` is never longer than its input, and its result neither starts nor ends with whitespace. |
| Strings.ToLower | src/components/QueriesTab.tsx:19-20 | `toLowerCase()` keeps the length and lower-cases each ASCII letter, leaving every other character. |
| Strings.Contains | src/components/QueriesTab.tsx:19-20 | `includes` holds for the empty pattern in any text, and never for a pattern longer than the text. |
| Strings.StartsWith | src/services/openaiService.ts:33 | `startsWith` is `includes` at position 0. |
| Strings.TrimEmptyIffBlank | src/components/ApiKeyInput.tsx:24 | `trim()` is empty exactly for all-whitespace strings. |
| Strings.TrimShape | src/services/openaiService.ts:117 | `trim()` removes exactly the leading and trailing whitespace. |
| Strings.TrimIdempotent | src/services/openaiService.ts:117-120 | Trimming twice equals trimming once. |
| Strings.LowerOfUpper | src/components/QueriesTab.tsx:19-20 | Lower-casing forgets earlier upper-casing. |
| Seqs.Filter | src/components/QueriesTab.tsx:18 | `filter` never lengthens the list; every element kept passes the test and comes from the list, and every element of the list that passes the test is kept. |
| Seqs.FilterIsSubsequence | src/components/QueriesTab.tsx:18 | `filter` keeps elements in their original order. |
| Seqs.FilterIdempotent | src/components/QueriesTab.tsx:18 | Filtering twice with the same test equals filtering once. |
| Seqs.FilterAppend | src/pages/Dashboard.tsx:131 | Filtering distributes over concatenation. |

## Left out

- Unicode case mapping: `toLowerCase` and `toUpperCase` are modelled on ASCII letters
  only. Whitespace for `trim` and `\s` is the full ECMAScript set.
- UTF-16: lengths and `substring(0, 300)` count characters, not UTF-16 code units.
- The network, `response.json()` and `JSON.stringify`: the request body is a record and
  the response is an input value. A body that fails to parse, and a choice without
  `message.content`, are not modelled.
- `console.*` logging and the toasts: the error toast of `generateSql` is the returned
  `Failure`, and the form's toasts are its `SaveOutcome`.
- Supabase: loading and searching records remotely, the dashboard's reload on a blank
  search, `exportData`, and the redirect when signed out are left out. Records are plain
  datatypes.
- Browser effects in the schema card: the clipboard copy, the `copied` flag with its
  2-second timer, and the blob/DOM download. Only the download file name is modelled.
- Timestamps: `createdAt` is an opaque string. Its `toLocaleString` rendering is not
  modelled.
- SchemaViewer.TablesNote: gives the count it would show, not the formatted " • N
  tables" text.
- Markup: icons, CSS classes and the syntax highlighter are not modelled. Only which
  branch renders and which items and texts it shows are modelled.
