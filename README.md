# meilisearch_sdk core, modelled in Dafny

This project models the logic of the Rust client library for the Meilisearch
search service that does not depend on the network:

- **Request dispatch** (`src/request.rs`), in module `Request`:
  - the wire method `Method<Q, B>` with its query and HTTP verb;
  - URL assembly with the query string, and the user-agent string;
  - the request a transport builds step by step (verb, user agent, bearer token, body);
  - the classification of a response into a typed result, a parse error, a service error or a communication error.
- **The `IndexConfig` derive macro** (`meilisearch-index-setting-macro/src/lib.rs`):
  - module `IndexSettingMacro` models the token validator, the field loop and the builder calls the generated `generate_settings` makes;
  - module `IndexSettingMacroProofs` states what the macro accepts, in terms independent of its loops, and what it generates.
- **The settings record** (`src/settings.rs`), in module `Settings`:
  - `Settings::new` and the ten `with_*` builders;
  - the table of paths, verbs and expected statuses behind the `get_*`, `set_*` and `reset_*` facades of an index.
- **The document query builders** (`src/documents.rs`), in module `Documents`:
  - `DocumentQuery`, `DocumentsQuery` and `DocumentDeletionQuery` are classes whose setters assign fields in place;
  - their serialisation: the present parameters of `DocumentQuery` and `DocumentsQuery` as query parameters, and the filter of `DocumentDeletionQuery`, which is always sent.

Foreign code is passed in as function-valued parameters:
- the query-string encoder (`yaup`);
- the body serialiser and the JSON parsers (`serde_json`), the parsers as "parses as" oracles that return an optional value;
- the transport's network round trip.

The macro's loops are methods. The token, group, attribute and field loops are each proved equal to a left fold (`ScanStream`, `ScanTrees`, `ScanAttrs`, `DeriveFields`). The punctuation loop `ValidateAllPuncts` is proved equal to the quantified predicate `TreesPunctsValid` instead. The folds are then characterised by reference predicates:
- a field is acceptable when its `index_config` tokens are identifiers and lone commas only, in any order;
- each identifier is one of the six known names;
- no field repeats a name;
- `primary_key` and `distinct` each appear on at most one field.

The derivation succeeds exactly on acceptable structs. The generated settings then hold, for each of the four lists, the fields carrying that attribute, in declaration order.

## Model

| member | source | states |
|---|---|---|
| Request.Method.Query | src/request.rs:27-35 | every variant yields the query it carries |
| Request.Method.HttpMethod | src/request.rs:37-45 | each tag maps to its own verb (Get to GET, Post to POST, Patch to PATCH, Put to PUT, Delete to DELETE), both directions; the body-carrying tags are exactly POST, PATCH and PUT |
| Request.QualifiedVersion | src/request.rs:177-181 | the user agent is "Meilisearch Rust (v", then the version or "unknown" when absent, then ")" |
| Request.QualifiedVersionRoundTrip | src/request.rs:177-181 | the version can be read back out of the user agent; an absent version reads as "unknown" |
| Request.AddQueryParameters | src/request.rs:183-191 | an encoder failure is the only error; the URL is unchanged iff the encoded query is empty; otherwise it is the URL, then '?', then the encoded query |
| Request.AddQueryParametersRoundTrip | src/request.rs:183-191 | for a base URL without '?', splitting the result at its first '?' gives back the base URL and the encoded query |
| Request.EffectiveBody | src/request.rs:137-139 | an empty body becomes a non-empty one ("null"); a non-empty body is kept |
| Request.ParseResponse | src/request.rs:131-174 | Ok(v) iff the status is the expected one and the body parses as the output; ParseError of the output iff the status is expected and the body does not parse; a service error iff the status differs and the body parses as one, whatever the status; a communication error with that status, no message and the given URL iff the status differs, the body is no service error and the status is at least 400; otherwise ParseError |
| Request.ParseResponseEmptyBodyIsNull | src/request.rs:137-139 | an empty body and the body "null" are classified alike, for every status and parser |
| Request.ParseResponseExpectedIgnoresServiceParser | src/request.rs:141-152 | on the expected status the service-error parser is never consulted: any two such parsers give the same result |
| Request.Request | src/request.rs:105-129 | nothing is sent iff the query fails to encode; a sent request has the encoded URL, the tag's verb, a user agent, an Authorization header exactly when an API key is given with value "Bearer " and the key, no other header, and a body exactly for Post/Patch/Put; transport and text errors propagate; otherwise the result is the classification of the status and text against the base URL |
| Request.Execute | src/request.rs:49-83 | the dispatcher with content type "application/json", with the same guarantees |
| Settings.New | src/settings.rs:84-97 | no field of the new record is defined |
| Settings.Settings.WithSynonyms | src/settings.rs:98-118 | synonyms becomes a map with the same keys, each with its list in order; no other field changes |
| Settings.Settings.WithStopWords | src/settings.rs:120-133 | stop words become the given words in order; no other field changes |
| Settings.Settings.WithPagination | src/settings.rs:135-140 | only the pagination changes, to the given setting |
| Settings.Settings.WithRankingRules | src/settings.rs:142-155 | only the ranking rules change, to the given list in order |
| Settings.Settings.WithFilterableAttributes | src/settings.rs:157-170 | only the filterable attributes change, to the given list in order |
| Settings.Settings.WithSortableAttributes | src/settings.rs:172-185 | only the sortable attributes change, to the given list in order |
| Settings.Settings.WithDistinctAttribute | src/settings.rs:187-192 | only the distinct attribute changes, to the given name |
| Settings.Settings.WithSearchableAttributes | src/settings.rs:194-207 | only the searchable attributes change, to the given list in order |
| Settings.Settings.WithDisplayedAttributes | src/settings.rs:209-222 | only the displayed attributes change, to the given list in order |
| Settings.Settings.WithFaceting | src/settings.rs:224-229 | only the faceting changes, to the given setting |
| Settings.ApplyFrame | src/settings.rs:98-229 | a builder call defines its own field and changes no other |
| Settings.ApplyOverwrites | src/settings.rs:98-229 | a later builder call on a field replaces an earlier one, whatever the field held |
| Settings.ApplyIdempotent | src/settings.rs:120-133 | applying a builder twice with the same argument equals applying it once |
| Settings.ApplyCommutes | src/settings.rs:98-229 | builders of different fields commute |
| Settings.ApplyAllFrame | src/settings.rs:98-229 | a builder chain changes only fields that one of its calls names |
| Settings.ApplyAllDefines | src/settings.rs:98-229 | after a builder chain every field one of its calls names is defined, and every field defined before still is |
| Settings.ChainDefines | src/settings.rs:84-229 | a builder chain on new settings defines exactly the fields its calls name, both directions |
| Settings.PathInjective | src/settings.rs:249-1449 | each endpoint (the record, or one of the ten settings) has a path of its own below the index |
| Settings.RouteOf | src/settings.rs:249-1449 | every get is GET expecting 200; set of the record, pagination and faceting is PATCH, every other set is PUT, all expecting 202; every reset is DELETE expecting 202 |
| Settings.FacadeCall | src/settings.rs:249-1449 | a facade calls host + "/indexes/" + uid + the endpoint's path, with the client's API key, the table's verb and expected status, a body exactly for set, and that body is the caller's payload |
| Documents.DocumentsQueryKeys | src/documents.rs:163-188 | "offset", "limit" and "fields" are serialised iff present; no other key (the index never is); no key twice |
| Documents.DocumentsQueryRoundTrip | src/documents.rs:163-188 | reading the three parameters back from the serialised query gives them as they were, present or absent |
| Documents.SerializeDocumentsQuery | src/documents.rs:162-189 | the serialised keys are the present parameters among offset, limit and fields, in declaration order; the index is skipped |
| Documents.SerializeDocumentQuery | src/documents.rs:76-83 | "fields" is the only key, present iff the fields are, with the fields in order; the index is never serialised |
| Documents.DocumentQuery.constructor | src/documents.rs:86-91 | a new query has no fields |
| Documents.DocumentQuery.WithFields | src/documents.rs:109-115 | sets the fields, in order, and returns the same query |
| Documents.DocumentsQuery.constructor | src/documents.rs:192-199 | a new query has offset, limit and fields all absent |
| Documents.DocumentsQuery.WithOffset | src/documents.rs:216-219 | sets the offset; limit and fields unchanged; returns the same query |
| Documents.DocumentsQuery.WithLimit | src/documents.rs:238-241 | sets the limit; offset and fields unchanged; returns the same query |
| Documents.DocumentsQuery.WithFields | src/documents.rs:260-266 | sets the fields in order; offset and limit unchanged; returns the same query |
| Documents.DocumentDeletionQuery.constructor | src/documents.rs:317-319 | a new deletion query has the empty filter |
| Documents.DocumentDeletionQuery.WithFilter | src/documents.rs:321-324 | replaces the filter and returns the same query |
| Documents.SerializeDocumentDeletionQuery | src/documents.rs:305-314 | the only key is "filter", always present, holding the filter text even when it is empty; the index is never serialised |
| Documents.ChainedDocumentsQuery | src/documents.rs:399-403 | limit 1, offset 1 and fields ["kind"] chained on a new query serialise as offset, limit, fields, in that order |
| IndexSettingMacro.ValidatePunct | meilisearch-index-setting-macro/src/lib.rs:233-240 | accepted iff the character is ',' and it stands alone; otherwise the "`,` expected" error |
| IndexSettingMacro.GetSettingsTokenForList | meilisearch-index-setting-macro/src/lib.rs:242-262 | the builder of the named list is called, with the names in order, empty or not |
| IndexSettingMacro.GetSettingsTokenForString | meilisearch-index-setting-macro/src/lib.rs:264-277 | the distinct-attribute builder is called, with the name, iff the name is non-empty |
| IndexSettingMacro.Finish | meilisearch-index-setting-macro/src/lib.rs:91-111 | the emitted builders are displayed, sortable, filterable and searchable in that order with their accumulated names, then distinct iff a distinct name was found; the primary key is None iff none was found, and otherwise that name |
| IndexSettingMacro.GenerateSettings | meilisearch-index-setting-macro/src/lib.rs:117-124 | the generated settings define exactly the fields that one of the emitted builder calls names |
| IndexSettingMacro.ScanGroupStream | meilisearch-index-setting-macro/src/lib.rs:152-209 | the token loop with its early returns computes the validator fold over the group's tokens |
| IndexSettingMacro.ValidateAllPuncts | meilisearch-index-setting-macro/src/lib.rs:213-225 | on an unparsable attribute, "`,` expected" is reported iff some punctuation in its groups is not a lone comma |
| IndexSettingMacro.ExtractAllAttrValues | meilisearch-index-setting-macro/src/lib.rs:137-231 | the attribute loop computes the fold over a field's attributes: the same error, or the same names and updated struct-wide set |
| IndexSettingMacro.GetIndexConfigImplementation | meilisearch-index-setting-macro/src/lib.rs:30-124 | the field loop, with its accumulators and first-error exit, computes the derivation fold and the builder calls |
| IndexSettingMacro.GenerateIndexSettings | meilisearch-index-setting-macro/src/lib.rs:10-28 | a non-struct is refused; a struct gets the derivation of its fields |
| IndexSettingMacroProofs.ScanTokenMeaning | meilisearch-index-setting-macro/src/lib.rs:153-206 | one token passes iff it is an identifier or a lone comma and, for an identifier, the name is known, not yet on the field and not an already taken primary key or distinct attribute; a passing identifier is added to both sets and the names |
| IndexSettingMacroProofs.ScanStreamMeaning | meilisearch-index-setting-macro/src/lib.rs:152-209 | a group's tokens pass iff they are identifiers and lone commas only, each name known, not yet on the field, and primary_key or distinct not yet in the struct; the state then gains exactly its names in order |
| IndexSettingMacroProofs.ScanTreesMeaning | meilisearch-index-setting-macro/src/lib.rs:150-211 | the same over all groups of an attribute, non-group trees skipped |
| IndexSettingMacroProofs.ScanAttrsMeaning | meilisearch-index-setting-macro/src/lib.rs:144-229 | the same over all attributes of a field; attributes that are not index_config are skipped, a meta-parse failure rejects |
| IndexSettingMacroProofs.ExtractAllMeaning | meilisearch-index-setting-macro/src/lib.rs:137-231 | a field's attributes pass iff well formed with admissible names against the struct-wide set; the result is those names, and the set grows by them |
| IndexSettingMacroProofs.ClassifyAccepts | meilisearch-index-setting-macro/src/lib.rs:61-83 | recording known attribute names succeeds iff there are none or the field is named |
| IndexSettingMacroProofs.ClassifyResult | meilisearch-index-setting-macro/src/lib.rs:61-83 | a named field is appended to each list whose attribute it carries, and becomes the primary or distinct key when it carries that |
| IndexSettingMacroProofs.FieldAccepts | meilisearch-index-setting-macro/src/lib.rs:55-89 | one field passes iff it is acceptable on its own and takes no primary key or distinct attribute already taken; afterwards each of the two counts as taken iff it was before or the field carries it |
| IndexSettingMacroProofs.DeriveFieldsAccepts | meilisearch-index-setting-macro/src/lib.rs:55-89 | the field loop succeeds iff every field is acceptable and primary_key and distinct each appear at most once, counting those already seen |
| IndexSettingMacroProofs.DeriveFieldsLists | meilisearch-index-setting-macro/src/lib.rs:55-89 | each of the four lists gains the fields carrying its attribute, in declaration order, one entry per field |
| IndexSettingMacroProofs.DeriveFieldsKeys | meilisearch-index-setting-macro/src/lib.rs:55-89 | the primary and distinct keys are the last field carrying them, or unchanged when none does |
| IndexSettingMacroProofs.IndexConfigAcceptsExactly | meilisearch-index-setting-macro/src/lib.rs:30-89 | the derivation succeeds iff the struct is acceptable |
| IndexSettingMacroProofs.AtMostOneCarrying | meilisearch-index-setting-macro/src/lib.rs:156-175 | an attribute on at most one field is carried by at most one name |
| IndexSettingMacroProofs.CarryingAtMostOne | meilisearch-index-setting-macro/src/lib.rs:156-175 | conversely, at most one carrying name means at most one field carries it |
| IndexSettingMacroProofs.GeneratedConfig | meilisearch-index-setting-macro/src/lib.rs:91-124 | the generated settings have the four lists always defined (empty when no field carries the attribute), distinct defined iff some field is distinct, nothing else defined; the primary key is absent iff no field is primary_key |
| IndexSettingMacroProofs.FinishedSettings | meilisearch-index-setting-macro/src/lib.rs:101-124 | the generated settings of an accumulator are its four lists, its distinct name when non-empty, and nothing else |
| IndexSettingMacroProofs.DeclaredConfig | meilisearch-index-setting-macro/src/lib.rs:30-124 | for any struct written as fields with comma-separated known names, no repeats on a field and at most one primary_key and distinct, the derivation succeeds with the lists and keys as declared |
| IndexSettingMacroProofs.MovieClipsConfig | src/documents.rs:345-359 | the test struct MovieClips derives primary key movie_id and the settings asserted in its settings test |
| IndexSettingMacroProofs.VideoClipsConfig | src/documents.rs:361-365 | the test struct VideoClips derives no primary key, four empty lists and no distinct attribute |

## Left out

- The native and wasm transports, `send_request` and `response_to_text` (src/request.rs:1-7, 62-82, 99-103) are network I/O outside this model. The round trip is a parameter `send`. Its result is an arbitrary status and a body text that may itself fail.
- `serde_json` and `yaup` are foreign libraries, so they are parameters: a JSON parse is an oracle `string -> Option<T>`, and query encoding is a function into `Result`. Percent-encoding is therefore not modelled. `Documents` stops at the list of key/value pairs handed to the encoder.
- Request.ParseResponse: a `ParseError` records which parse failed, not serde's error value. Likewise a transport error text stands for the library's error values.
- Request.Request: log output (`trace!`, `warn!`, `error!`) has no effect on results and is left out. The asynchronous sequencing is modelled as plain sequential code.
- The conversion of a service error payload into the library's `Error` (`Error::from`) and the full `MeilisearchError` record are not part of this model. The payload is kept as two fields, code and message. In `parse_response` only the communication error carries the URL (src/request.rs:162-169), and the model follows the code.
- The index name of the derive macro is left out. It is produced by `convert_case` snake-casing (meilisearch-index-setting-macro/src/lib.rs:50-53, the constant `INDEX_STR`), which is a foreign library.
- The `quote!` token emission is left out, and so is `generate_index`, which calls `create_index` and waits for the task with `unwrap`. Only the builder calls of `generate_settings` and the primary key passed to index creation are modelled.
- IndexSettingMacro.GetIndexConfigImplementation: `field.ident.unwrap()` panics on a tuple-struct field that carries a known attribute. The model returns the error `UnnamedFieldPanic` instead.
- IndexSettingMacro.GetIndexConfigImplementation: compile errors are represented by their kind and offending name. Spans and message texts are not modelled.
- IndexSettingMacro.ExtractAllAttrValues: `syn`'s `parse_meta` is taken as given data next to the attribute's raw tokens. A top-level token tree that is not a group is skipped, as in the source. Tokens inside a group are identifiers, punctuation or anything else. The model does not tie a `ListMeta` result to a comma-separated stream: identifiers and lone commas in any order pass the validator, as in the source, and the separation `syn` itself enforces is not modelled.
- The nested loops of `extract_all_attr_values` are split into helper methods, `ScanGroupStream` and `ValidateAllPuncts`. The `continue` and the early returns are kept.
- The task poller (`wait_for_completion`, `wait_for_task`) is not part of this model. Its source is outside the files modelled, and it depends on timers.
- Most of `src/lib.rs`, `src/document.rs` and the other facades of an index are not part of this model.
- The integration tests with a live server are not modelled, for example the service's default pagination and faceting values. The only exceptions are the derived settings of the two test structs in src/documents.rs and the query chain of the documents listing test.
- Settings.FacadeCall: the facade's HTTP client is the one the facades call through a trait whose implementation is not part of this model. The facade is modelled as the call it hands to that client: URL, API key, method with payload, and expected status.
- Request.Request: `RequestClient` and its builder steps (`NewClient`, the `With*` steps, `AddBody`) are this model's own reading of the trait methods at src/request.rs:84-96, whose implementations are not part of this model. `WellBuilt` relies on that reading: a URL, a verb, a header map and an optional body.
- Integer widths: `usize` offsets and limits are bounded to 64 bits and status codes to 16 bits. No arithmetic is done on them.
