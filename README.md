# Item risk classifier — Dafny model

This project models the `/v1/items` resource of the service in
`src/routes/items.rs`. Each item has an id and a name. The service derives a
risk score and a risk level from the name:

- the name is lower-cased, ASCII letters only;
- a keyword rule with a fixed priority gives the score: "test"/"dummy" → 10,
  else "fraud"/"scam" → 90, else "risky"/"flag" → 70, else 30;
- thresholds 80 and 50 turn the score into "HIGH", "MEDIUM" or "LOW".

The list handler applies this classifier to every row the database returns.
The create handler applies it to the new item's name.

Two modules:

- `AsciiText` (`ascii_text.dfy`) holds the two string operations the
  classifier uses. `ToAsciiLower` models Rust's `to_ascii_lowercase`.
  `Contains` models `str::contains`: a scan, proved equal to the positional
  "occurs at some index" definition.
- `Items` (`items.dfy`) holds the records `Item`, `NewItem` and `ItemRow`,
  `ComputeRisk`, the list projection and the pure parts of both handlers.

The model covers `src/routes/items.rs`. The service's `src/main.rs`,
`src/db.rs`, `src/routes/mod.rs` and `src/routes/health.rs` are framework
glue and are not modelled.

## Model

| member | source | states |
|---|---|---|
| AsciiText.AsciiLower | src/routes/items.rs:33 | an ASCII capital becomes the matching small letter; every other character is kept; the result is never an ASCII capital |
| AsciiText.ToAsciiLower | src/routes/items.rs:33 | lower-casing keeps the length and maps each character on its own |
| AsciiText.ToAsciiLowerIdempotent | src/routes/items.rs:33 | lower-casing twice equals lower-casing once |
| AsciiText.ToAsciiLowerConcat | src/routes/items.rs:33 | lower-casing distributes over concatenation |
| AsciiText.ContainsIff | src/routes/items.rs:35-40 | the substring scan holds exactly when the pattern occurs at some index |
| AsciiText.ContainsInfix | src/routes/items.rs:35-40 | a pattern placed anywhere in a string is found |
| Items.KeywordScore | src/routes/items.rs:35-43 | the score is always one of 10, 30, 70, 90 |
| Items.RiskLevel | src/routes/items.rs:45-52 | the level is always one of "HIGH", "MEDIUM", "LOW" |
| Items.ComputeRisk | src/routes/items.rs:32-55 | the only possible results are (10,LOW), (30,LOW), (70,MEDIUM), (90,HIGH) |
| Items.TestKeywordHasPrecedence | src/routes/items.rs:35-36 | score 10 iff the lower-cased name has "test" or "dummy", whatever other keywords it has; such a name is (10,LOW) |
| Items.FraudKeywordScore | src/routes/items.rs:37-38 | score 90 iff the name has "fraud" or "scam" and neither "test" nor "dummy" |
| Items.RiskyKeywordScore | src/routes/items.rs:39-40 | score 70 iff the name has "risky" or "flag" and none of the four earlier keywords |
| Items.NoKeywordScore | src/routes/items.rs:35-51 | the result is (30,LOW) iff the name has none of the six keywords |
| Items.RiskLevelThresholds | src/routes/items.rs:45-51 | level HIGH iff score ≥ 80, MEDIUM iff 50 ≤ score < 80, LOW iff score < 50 |
| Items.CaseInsensitive | src/routes/items.rs:33 | a name and its lower-cased form get the same risk |
| Items.SameLowerSameRisk | src/routes/items.rs:33 | two names equal up to ASCII case get the same risk |
| Items.TestKeywordAnywhere | src/routes/items.rs:33-36 | "test" or "dummy" in any ASCII case, anywhere in a name, gives (10,LOW) |
| Items.FraudKeywordAnywhere | src/routes/items.rs:33-38 | "fraud" or "scam" in any ASCII case gives (90,HIGH) when no test keyword is present |
| Items.RiskyKeywordAnywhere | src/routes/items.rs:33-40 | "risky" or "flag" in any ASCII case gives (70,MEDIUM) when no test or fraud keyword is present |
| Items.ListItems | src/routes/items.rs:76-87 | one item per row, same length and order; item i has row i's id and name and the risk of that name |
| Items.ListItemsHandler | src/routes/items.rs:63-90 | a failed query gives exactly the error (500, "db_error"); otherwise every row becomes an item as in ListItems |
| Items.CreateItemHandler | src/routes/items.rs:99-122 | a failed insert gives exactly the error (500, "db_error"); otherwise the item has the given id, the body's name and that name's risk |
| Items.CreateThenListAgree | src/routes/items.rs:76-121 | when a later list returns the row a successful create stored, the listed item equals the created item |

## Left out

- SQL queries, the connection pool and `src/db.rs`: database I/O. A query
  or insert result is a parameter (`DbOutcome`). The `ORDER BY created_at
  DESC LIMIT 100` of the list query is the database's job. The model takes
  the rows in the order they arrive and keeps that order.
- The database error text that is logged: logging. Only the HTTP error
  returned to the caller is modelled.
- `Uuid::new_v4`: randomness. The create handler takes the id as a parameter.
  `Uuid` is an opaque 128-bit number.
- Routing, OpenAPI annotations and router merging (`src/routes/mod.rs`,
  `src/routes/health.rs`, `src/main.rs`): framework glue with no logic.
- The health endpoint: a constant response.
- `src/main.rs`: configuration, telemetry and server start-up. Its rate limit
  is a library layer whose code is not part of this model.
- JSON serialisation of `Item` and `NewItem`.
- Strings are sequences of characters. Rust's `contains` searches the UTF-8
  bytes. For valid strings this finds the same occurrences, because the
  keywords are ASCII.
