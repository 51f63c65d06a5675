# LLM conversation log: REST layer, inference-response handling, assistant lookup

A Dafny model of the logic of a Django application that logs conversations with a
hosted language model. The conversation table holds one row per turn (role, content,
model name, token usage, elapsed time, timestamp, owning username, conversation id).
Three pieces are modelled:

- **The REST endpoints** (`LLM_Metadata/api.py`). The health check, the per-user
  statistics and the conversation deletion become methods of a class `Api.Backend`.
  Its two fields are the table, a sequence of `Turns.Turn` rows in insertion order,
  and the statistics cache, a map from user id to the stored statistics record. Each
  endpoint method returns an HTTP status (200, 401, 404 or 500, with the meanings of
  sections 15.3.1, 15.5.2, 15.5.5 and 15.6.1 of RFC 9110) and a payload. A fourth
  method, `ExpireStats`, returns nothing: it stands for a cache entry's timeout. Each one states the
  new table and cache in terms of query functions over the old ones. Those query
  functions are filters and the table's newest-first ordering (`Turns`). Their
  meaning is proved as lemmas: filters partition the table, the sort is an ordered
  permutation, and the recent list is the caller's five newest rows.
- **The inference client's response handling** (`LLM_Metadata/utils.py`). A pure
  function, `Inference.Classify`, maps the HTTP status and the outcome of decoding
  the body as JSON to a success, an error result, or the Python exception the code
  raises. The token count is Python's `str.split()` (`PyText.Split`). It is proved
  equal to an independent count of maximal non-whitespace runs. The `"Error: ..."`
  text uses Python's `str()` of the JSON `error` value (`PyJson.Str`).
- **The assistant-reply template filter**
  (`LLM_Metadata/templatetags/conversation_filters.py`). It is a pure query for the
  newest assistant row of a conversation.

Two of the tests in `LLM_Metadata/test_api.py`, `test_conversation_stats_caching`
and `test_cache_invalidation_on_delete`, are restated as client methods in
`ApiScenarios`. Their proofs use the Backend contracts together with the lemmas
`Api.ComputeStatsMeaning` and `Api.DeleteShrinksTotal`. The authentication, 404,
deletion and returns-correct-data tests are single calls; the Backend contracts state
their outcomes directly. The two health-endpoint tests and `SettingsTests` check
routing and settings, which are not modelled.

## Model

| member | source | states |
|---|---|---|
| Turns.Filter | LLM_Metadata/api.py:120-123 | a queryset filter keeps exactly the rows that satisfy the condition, never more rows than the table, as a sub-multiset |
| Turns.FilterPartition | LLM_Metadata/api.py:120-131 | the rows matching a condition and those not matching it together make up the table, as multisets and by count |
| Turns.FilterOfFilter | LLM_Metadata/test_api.py:82-100 | removing rows never increases a later count, and strictly lowers it when a removed row satisfies the counted condition |
| Turns.SortNewestFirst | LLM_Metadata/models.py:25 | the default `-timestamp` ordering is a permutation of the rows with timestamps non-increasing |
| Turns.Insert | LLM_Metadata/models.py:25 | inserting one row into a newest-first sequence keeps it newest first and adds exactly that row |
| Turns.Newest | LLM_Metadata/api.py:39 | `.first()` is None exactly for an empty table, otherwise a row of the table no older than any other row |
| Api.Preview | LLM_Metadata/api.py:92 | content of at most 100 characters is unchanged; longer content becomes its first 100 characters plus `...`; never longer than 103 |
| Api.Entry | LLM_Metadata/api.py:89-95 | a recent-list entry carries the row's id, role, timestamp and model name; its content is the row's content when that has at most 100 characters, otherwise the first 100 characters followed by `...`, so never more than 103 |
| Api.RecentTurnsAreNewest | LLM_Metadata/api.py:81-83 | the recent list holds min(5, total) of the caller's rows, newest first, and none of the caller's rows left out is newer than a listed one |
| Api.ComputeStatsMeaning | LLM_Metadata/api.py:80-99 | a freshly computed record names the caller, counts exactly the caller's rows, lists min(5, total) entries newest first, each from a row of the caller's with content at most 103 characters, and is marked not cached |
| Api.DeletedMessage | LLM_Metadata/api.py:137-140 | the success message is "Successfully deleted N conversation entries", where N is decimal digits without a leading zero that read back to the count |
| Api.DeleteShrinksTotal | LLM_Metadata/test_api.py:82-100 | after deleting a conversation with at least one of the caller's rows, the caller's row count is strictly smaller |
| Api.Backend.HealthCheck | LLM_Metadata/api.py:36-57 | read-only; 200 with the current time, the row count and the newest row's timestamp (None for an empty table), or 500 with the database error and the current time |
| Api.Backend.ConversationStats | LLM_Metadata/api.py:62-104 | 401 for an anonymous caller, nothing changed; a cache hit returns the stored record marked cached, nothing changed; a miss computes the record from the table, stores it under the caller's id and returns it; the table is never changed |
| Api.Backend.DeleteConversation | LLM_Metadata/api.py:109-140 | 401 for an anonymous caller and 404 when none of the caller's rows has that conversation id, both with nothing changed; otherwise exactly the caller's rows of that conversation are removed, every other row (other users' rows with the same id included) stays, the message counts the rows removed, and only the caller's cache entry is dropped |
| Api.Backend.ExpireStats | LLM_Metadata/api.py:102 | the 300-second timeout of a cache entry lapsing removes only that user's entry |
| ApiScenarios.StatsTwice | LLM_Metadata/test_api.py:65-80 | two statistics requests with nothing cached: not cached then cached, with the same total, the caller's row count |
| ApiScenarios.DeleteInvalidatesStats | LLM_Metadata/test_api.py:82-100 | statistics, a successful delete, then statistics again: the last is a cache miss with a strictly smaller total |
| ConversationFilters.AssistantForConversation | LLM_Metadata/templatetags/conversation_filters.py:7-8 | None exactly when the conversation has no assistant row; otherwise an assistant row of that conversation, from the table, no older than any other such row |
| Inference.DefaultSamplingParameters | LLM_Metadata/utils.py:4-14 | the payload carries the given model, messages, temperature, max_tokens, top_k and top_p unchanged; sampling arguments left out are 0.7, 600, 40 and 0.9 |
| Inference.Subscript0 | LLM_Metadata/utils.py:26 | `v[0]` gives the first item of a non-empty list or string, IndexError exactly on an empty list or string |
| Inference.Classify | LLM_Metadata/utils.py:18-34 | a non-JSON body is an error result with the status whatever the status; success exactly for status 200 with a JSON body whose first choice has string content, then carrying that content, the elapsed time and its word count (zero exactly for blank content); a non-200 JSON object gives "Error: " plus the `error` member or the fallback, with the status; any other JSON body raises |
| Inference.UnknownErrorFallback | LLM_Metadata/utils.py:32-34 | a non-200 JSON object without an `error` member gives "Error: Unknown error occurred" with the status |
| Inference.ErrorMessagePassesThrough | LLM_Metadata/utils.py:32-34 | a non-200 JSON object whose `error` member is a string gives "Error: " followed by that string, with the status |
| Inference.FirstChoiceContentReturned | LLM_Metadata/utils.py:25-31 | a 200 JSON object whose first choice has a `message` object with string `content` gives that content, the elapsed time and the content's word count |
| Inference.MissingChoicesRaiseIndexError | LLM_Metadata/utils.py:26 | a 200 JSON object whose `choices` is missing or empty raises IndexError instead of returning |
| Inference.AbsentContentIsEmpty | LLM_Metadata/utils.py:26 | a first choice without `message`, or whose message has no `content`, gives empty content and zero tokens |
| PyText.SplitWordsAreWords | LLM_Metadata/utils.py:30 | every word `str.split()` returns is non-empty and free of whitespace |
| PyText.SplitCountsRuns | LLM_Metadata/utils.py:30 | the number of words equals the number of maximal non-whitespace runs |
| PyText.SplitEmptyIffBlank | LLM_Metadata/utils.py:30 | no words exactly when the text is empty or all whitespace |
| PyJson.Get | LLM_Metadata/utils.py:33 | `dict.get` finds nothing exactly when no member has the key, and otherwise returns the value of the last member with the key, the one the decoded dict keeps |
| PyJson.ReprList | LLM_Metadata/utils.py:33-34 | repr() of a list is its items' repr() separated by ", " between square brackets |
| PyJson.ReprDict | LLM_Metadata/utils.py:33-34 | repr() of a dict is its `key: value` entries, both written by repr(), separated by ", " between braces |
| PyJson.ReprOneMemberDict | LLM_Metadata/utils.py:33-34 | a one-member `error` object is written as `{` key's repr `: ` value's repr `}` |
| PyJson.ReprStringRoundTrip | LLM_Metadata/utils.py:34 | a string's repr() is its escaped text between matching quotes and reads back to the text |
| Decimal.NatToString | LLM_Metadata/api.py:138 | the count is written as decimal digits without leading zeros |
| Decimal.NatToStringRoundTrip | LLM_Metadata/api.py:138 | reading back the written digits gives the number |
| Decimal.IntToString | LLM_Metadata/utils.py:34 | an integer is written with a minus sign exactly when negative, followed by its magnitude's digits |

## Left out

- Rate limiting (`api.py:18-25, 29, 61, 108`): throttle classes with wall-clock counters are framework middleware.
- Response caching of the health check (`cache_page(60)`, `api.py:30`): time-based framework caching. The 300-second lifetime of a statistics entry is modelled only as the explicit `ExpireStats` operation.
- The 500 branch of the delete endpoint (`api.py:142-145`): it depends on arbitrary database exceptions at any step. The health check's 500 is modelled, with the error text as a parameter.
- Api.Backend.HealthCheck: the current time is a parameter, and timestamps are integers rather than ISO-8601 text.
- Turns.Newest: Django's ordering leaves rows with equal timestamps in a database-chosen order. The model puts them in table order. The recent list and the assistant lookup inherit this choice.
- Api.Backend.ConversationStats: the cache key `conversation_stats_<id>` is represented by the user id itself. The key text is determined by the id and distinct ids give distinct keys.
- Api.Backend.ConversationStats: a cache hit is any stored record, because a stored statistics dict is never empty and so always truthy. The `cached = True` written on a hit is the returned copy; the stored record keeps `cached = False`.
- Concurrency between requests: each endpoint call runs atomically on the table and the cache.
- The HTTP POST, the `API_URL` and `API_KEY` environment variables, the bearer authorization header of section 2.1 of RFC 6750 (`utils.py:5-6, 16`), and the diagnostic print of a non-JSON body (`utils.py:22`).
- JSON decoding itself: the decoded body, or its absence, is an input to `Classify`.
- PyJson: JSON numbers with a fraction or exponent (Python floats) are not representable, because float formatting is not modelled. The elapsed time is a real taken from the response as given.
- PyJson.ReprString: only Latin-1 non-printable characters get Python's `\xhh` escape. The `\uXXXX` and `\UXXXXXXXX` escapes for other non-printable characters are not modelled.
- Conversation ids (`models.py:21`): the `UUIDField` is a plain string. UUID parsing, the canonical text form and the path for a malformed id are not modelled; an id is found exactly when it equals a stored one.
- PyJson.Repr: an object whose members repeat a key is written with every member. The dict Python decodes holds each key once, at its first position, with its last value. Only `Get`, which follows the decoded dict, is used on such objects outside `Repr`.
- `example_api_usage.py`: a network client that prints and times requests.
- `views.py` and `urls.py`: they refer to a model and view functions that do not exist. The question and session controller is not part of this model.
- `admin.py`, `forms.py`, the migration, and the `max_length` and `choices` limits of `models.py`: no code shown enforces them. Role and content are plain strings.
