# Les Globe Traiteurs API — a Dafny model

This project models the two small web services of the Les Globe Traiteurs
back end. Both read dishes from Airtable for the culture a visitor picked in
a Tally form.

- **app.py** (Flask).
  - `GET /api/health` always answers `{"status": "ok"}`.
  - `GET /api/get_plats` strips the `submission_id` query argument. It looks
    the submission up in the Tally table and resolves its culture. The
    culture is either a single-select string, or a linked record whose name
    is stored in `culture_name`. It then searches the Plats table for that
    culture, shuffles the result in place and answers with at most three
    projected dishes. Each failure has its own status and message: 400, 502,
    404, 422, 422, 502 and 404, and a 500 crash when a truthy culture is
    neither a string nor a list.
- **main.py** (FastAPI).
  - `POST /recommendations/create` checks a static bearer token
    (`check_auth`) and strips both parameters. It escapes single quotes in
    the culture (`escape_quotes`) and builds a case-insensitive Airtable
    formula. It requires at least three matching dishes and answers with
    three of them, sampled without replacement and normalised.

The model is split into files:

- `json.dfy` (module `Json`) covers:
  - decoded JSON values and Python truthiness;
  - `dict.get` on record fields;
  - the `str()` rendering an f-string applies to a value;
  - the shapes of Airtable answers (`Fetch`), outbound queries (`Query`) and
    replies (`Reply`, where `Crash` is an uncaught exception the framework
    turns into a 500 page).
- `pystring.dfy` (module `PyString`) covers `str.strip()` with CPython's
  whitespace set, `startswith`, and `split(" ", 1)[1]`.
- `plats.dfy` (module `Plats`) covers `health` and `get_plats`, including:
  - `random.shuffle` as an in-place array method that performs CPython's
    Fisher–Yates passes;
  - the loop that builds the answer.
- `recommendations.dfy` (module `Recommendations`) covers `check_auth`,
  `escape_quotes`, the formula, and `create_recommendations`, including the
  loop that normalises the sample.

Each handler is a method. It takes the request and the answers Airtable
would give to each query, and returns the queries it sends, in order, together
with the reply. Randomness also comes in as parameters:

- the shuffle gets one draw per list position, and the pass for position `i`
  uses `draws[i] % (i + 1)`;
- `random.sample` gets three distinct positions.

## Model

| member | source | states |
|---|---|---|
| Plats.Health | app.py:23-25 | the health answer is status 200 with one key, `status`, whose value is `"ok"` |
| Plats.GetPlats | app.py:27-88 | Each outcome of `get_plats`, in the order the code decides them: (1) a blank stripped id gives 400 with nothing sent; (2) otherwise the Tally lookup with the unescaped id and `maxRecords` 1 is sent first; (3) a lookup HTTP error gives 502 with the error text; (4) no record gives 404; (5) a falsy culture gives a 422; (6) a string culture leads to the equality filter; (7) a list culture with a falsy `culture_name` gives the other 422; (8) a list culture otherwise leads to the `FIND` filter; (9) any other truthy culture ends in an UnboundLocalError; (10) once the search is sent, an HTTP error gives 502 and no dishes gives 404 with the culture name. On success, the answer is the projection of the first min(3, N) shuffled dishes: a sub-multiset of the found records, with no two the same if the records were distinct. Status 200 happens only on that path. |
| Plats.ServePlats | app.py:75-88 | shuffling, keeping the first three and projecting yields exactly the projection of the first min(3, N) elements of the shuffled list; these are a sub-multiset of the records and stay pairwise distinct if the records were |
| Plats.Shuffle | app.py:75 | the in-place shuffle leaves the array holding exactly the result of CPython's passes from the last position down to 1, each exchanging position `i` with the drawn position at or below `i` |
| Plats.ShuffledPermutes | app.py:75 | the shuffle is a permutation: same multiset of elements, and a list with distinct elements stays distinct |
| Plats.ShufflePassesPermutes | app.py:75 | any number of shuffle passes keeps the multiset of elements |
| Plats.ShufflePassesKeepDistinct | app.py:75 | any number of shuffle passes keeps elements pairwise distinct |
| Plats.SwapKeepsDistinct | app.py:75 | one exchange keeps elements pairwise distinct |
| Plats.Pick | app.py:75 | the position drawn for pass `i` is at most `i`, as `randbelow(i + 1)` guarantees |
| Plats.PrefixSubMultiset | app.py:76 | `plats_records[:3]` takes some of the records, without repetition when the records are distinct |
| Plats.PlatItemShape | app.py:82-87 | each answer item has exactly the keys `nom`, `description`, `image_url`, `culture`; the first three copy the dish's field or null when it is absent, and `culture` is the resolved culture name |
| Plats.ProjectPlats | app.py:79-87 | the loop appends exactly one item per chosen dish, in order, each the projection of that dish |
| PyString.Strip | app.py:29 | `strip()` returns the part of the text that starts after its leading whitespace; everything after it is whitespace; it is empty exactly when the text is all whitespace, and otherwise it neither starts nor ends with whitespace |
| PyString.LeadingSpace | app.py:29 | the leading whitespace run has the stated length: every character before it is whitespace and the next one is not |
| PyString.TrailingSpace | app.py:29 | the trailing whitespace run has the stated length: every character in it is whitespace and the one before it is not |
| PyString.StripIdempotent | main.py:43-44 | stripping a stripped text changes nothing |
| PyString.StripSurrounded | main.py:31 | whitespace around a text without whitespace at its ends is exactly what `strip()` removes |
| PyString.LeadingSpacePast | main.py:31 | an all-whitespace prefix followed by a non-whitespace character is exactly the leading run |
| PyString.TrailingSpacePast | main.py:31 | an all-whitespace suffix preceded by a non-whitespace character is exactly the trailing run |
| PyString.AfterFirstPastPrefix | main.py:31 | `split(" ", 1)[1]` on "Bearer " followed by a rest returns that rest, spaces included |
| Json.FindFirst | main.py:78 | reading a key from an object yields the value of the first member with that key |
| Json.Keys | main.py:72-79 | the keys of an object are its members' keys, in order |
| Recommendations.CheckAuth | main.py:27-33 | the request is admitted exactly when the header starts with "Bearer " and the stripped text after it equals the secret; a missing header or wrong prefix gives 401 "Missing bearer", and a wrong token gives 401 "Bad bearer" |
| Recommendations.PaddedBearerAccepted | main.py:31-33 | extra whitespace between "Bearer " and the secret, or after the secret, is accepted |
| Recommendations.UnstrippedSecretNeverMatches | main.py:31-33 | a configured secret with whitespace at an end can never be presented successfully |
| Recommendations.EscapeQuotes | main.py:35-37 | the escaped text is longer by the number of single quotes, and every quote in it comes right after a backslash |
| Recommendations.EscapeRoundTrip | main.py:35-37 | undoing the escape (`replace("\\'", "'")`) gives back the original text |
| Recommendations.EscapeChangesOnlyQuotedText | main.py:35-37 | the escape leaves a text unchanged exactly when the text holds no single quote |
| Recommendations.FormulaLiteralRoundTrip | main.py:50-51 | the formula is the fixed head, the escaped culture and the fixed tail, and unescaping its literal gives back the culture |
| Recommendations.FormulaBareQuotes | main.py:50-51 | the only quotes in the formula with no backslash right before them are the two that delimit the literal (a textual fact: it does not say how a doubled backslash is read) |
| Recommendations.TrailingBackslashReachesDelimiter | main.py:35-37 | the escape does not handle backslashes: every culture ending with one puts a backslash right before the closing quote |
| Recommendations.EscapeConcat | main.py:35-37 | escaping a concatenation is concatenating the escapes of the pieces |
| Recommendations.BackslashBeforeQuoteDoubled | main.py:35-37 | a backslash followed by a quote anywhere in the culture becomes backslash, backslash, quote in the escaped text, an escaped backslash followed by a quote to a reader that honours backslash escapes |
| Recommendations.SuccessBodyShape | main.py:72-79 | the success body has the six keys in order; `ok` is true, the id and culture are echoed, `count` equals the number of dishes, `dishes` lists one normalised object per sampled record, and `dish_ids` lists the records' ids in sample order |
| Recommendations.NormalizedIds | main.py:78 | the ids read back from the normalised dishes are the sampled records' ids, in order |
| Recommendations.SampleIdsDistinct | main.py:58 | three distinct positions in a list of records with distinct ids give three distinct dish ids |
| Recommendations.NormalizeDishes | main.py:61-70 | the loop builds one object per sampled record, in order, with `id` and the four copied fields |
| Recommendations.CreateRecommendations | main.py:39-79 | (1) an authentication failure gives its 401 with nothing sent; (2) a blank stripped id or culture gives 400 `missing_params` with nothing sent; (3) otherwise exactly one query is sent, with the escaped case-insensitive formula; (4) an HTTP error from Airtable is uncaught; (5) fewer than three dishes gives 400 `not_enough_dishes`; (6) otherwise the answer is 200 with the success body of the stripped id and culture and the three sampled dishes, and status 200 happens only on that path |

## Left out

- Web framework plumbing is not modelled:
  - Flask and FastAPI routing and the CORS configuration;
  - pydantic's parsing of the request body, which answers 422 before `check_auth` runs (the model starts with the parsed strings);
  - the serialisation of the JSON answers (Flask's `jsonify` sorts keys).
- Network calls, tokens and base URLs are not modelled. Each Airtable answer is an input (`Fetch`): either the text of the `HTTPError` that `raise_for_status` (or pyairtable) raised, or the decoded records.
  - Other exceptions (connection errors, timeouts, a malformed response) are not modelled. In app.py only `HTTPError` is caught, so such exceptions would reach Flask as 500 answers, not as the 502 answers given for HTTP errors.
  - main.py catches no Airtable error, so an `HTTPError` there is a `Crash` (a FastAPI 500 page).
- Environment variables are not modelled.
  - Table names are parameters; the defaults are in `Plats.DefaultConfig`.
  - The import-time `RuntimeError` of main.py appears only as the precondition that the bearer secret is not empty.
- Randomness is not modelled as random.
  - CPython's `_randbelow` and its uniformity are not modelled: the draw for each shuffle pass is an input, reduced modulo `i + 1`.
  - `random.sample`'s own selection algorithm is not modelled: the model takes the three distinct positions it would pick.
- Pagination is not modelled.
  - pyairtable's `Table.all` follows every page; the model gets all matching records in one answer.
  - app.py asks for one page of 50, and the model takes what Airtable returned for it.
- Airtable formula evaluation is not modelled: which records a formula matches is decided by the supplied answer. The model states only the formula text that is sent.
- JSON numbers are integers: floats are not modelled.
- The model's `repr` treats every character from U+0080 up as printable. CPython escapes the non-printable ones among them.
- The header lookup in main.py is a single optional value. Starlette headers are case-insensitive, so both `get` calls read the same header.
- The `source` and `submitted_at` fields of the request body are not used by the code, and are not modelled.
- `Plats.GetPlats` represents the UnboundLocalError raised when a truthy culture is neither a string nor a list by a fixed exception text. It does not model CPython's exact message.
