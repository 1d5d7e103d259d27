/**
 * The `/v1/items` resource: the item records, the keyword-based risk
 * classifier, and the pure parts of the list and create handlers. The
 * database is not modelled; what a query or an insert returned is a
 * parameter (`DbOutcome`), and the random item id is passed in.
 */
module Items {
  import opened AsciiText

  /** Rust's `i32`, the type of `risk_score`. */
  newtype I32 = x: int | -0x8000_0000 <= x < 0x8000_0000

  /** An item id: an opaque 128-bit UUID value. */
  type Uuid = u: nat | u < 0x1_0000_0000_0000_0000_0000_0000_0000_0000

  /** An item as the API returns it. */
  datatype Item = Item(id: Uuid, name: string, riskScore: I32, riskLevel: string)

  /** The body of a create request. */
  datatype NewItem = NewItem(name: string)

  /** A row of the `items` table as the list query reads it. */
  datatype ItemRow = ItemRow(id: Uuid, name: string)

  /** What a database call produced: a value, or a failure of any kind. */
  datatype DbOutcome<T> = DbOk(value: T) | DbFailed

  /** An error response: HTTP status code and body text. */
  datatype ApiError = ApiError(status: nat, message: string)

  datatype Result<T> = Ok(value: T) | Err(error: ApiError)

  const INTERNAL_SERVER_ERROR: nat := 500

  /** The one error both handlers report, whatever the database said. */
  const DB_ERROR: ApiError := ApiError(INTERNAL_SERVER_ERROR, "db_error")

  // ---------------------------------------------------------------------
  // Risk classification
  // ---------------------------------------------------------------------

  /** Keywords of the lowest-risk group, checked first. */
  predicate HasTestKeyword(lower: string) {
    Contains(lower, "test") || Contains(lower, "dummy")
  }

  /** Keywords of the highest-risk group, checked second. */
  predicate HasFraudKeyword(lower: string) {
    Contains(lower, "fraud") || Contains(lower, "scam")
  }

  /** Keywords of the medium-risk group, checked third. */
  predicate HasRiskyKeyword(lower: string) {
    Contains(lower, "risky") || Contains(lower, "flag")
  }

  /** The keyword rule applied to an already lower-cased name. */
  function KeywordScore(lower: string): (score: I32)
    ensures score == 10 || score == 30 || score == 70 || score == 90
  {
    if HasTestKeyword(lower) then 10
    else if HasFraudKeyword(lower) then 90
    else if HasRiskyKeyword(lower) then 70
    else 30
  }

  /** The level label for a score: thresholds 80 and 50. */
  function RiskLevel(score: I32): (level: string)
    ensures level == "HIGH" || level == "MEDIUM" || level == "LOW"
  {
    if score >= 80 then "HIGH"
    else if score >= 50 then "MEDIUM"
    else "LOW"
  }

  /** `compute_risk`: the score and level of an item name. */
  function ComputeRisk(name: string): (risk: (I32, string))
    ensures risk == (10, "LOW") || risk == (30, "LOW") || risk == (70, "MEDIUM") || risk == (90, "HIGH")
  {
    var score := KeywordScore(ToAsciiLower(name));
    (score, RiskLevel(score))
  }

  /** The score is 10 exactly when the lower-cased name has "test" or "dummy", whatever else it has. */
  lemma TestKeywordHasPrecedence(name: string)
    ensures ComputeRisk(name).0 == 10 <==> HasTestKeyword(ToAsciiLower(name))
    ensures HasTestKeyword(ToAsciiLower(name)) ==> ComputeRisk(name) == (10, "LOW")
  {
  }

  /** The score is 90 exactly when a fraud keyword is present and no test keyword is. */
  lemma FraudKeywordScore(name: string)
    ensures ComputeRisk(name).0 == 90 <==>
      !HasTestKeyword(ToAsciiLower(name)) && HasFraudKeyword(ToAsciiLower(name))
  {
  }

  /** The score is 70 exactly when a risky keyword is present and neither earlier group is. */
  lemma RiskyKeywordScore(name: string)
    ensures ComputeRisk(name).0 == 70 <==>
      !HasTestKeyword(ToAsciiLower(name)) && !HasFraudKeyword(ToAsciiLower(name)) &&
      HasRiskyKeyword(ToAsciiLower(name))
  {
  }

  /** A name with none of the six keywords, and only such a name, scores 30 and is LOW. */
  lemma NoKeywordScore(name: string)
    ensures ComputeRisk(name) == (30, "LOW") <==>
      !HasTestKeyword(ToAsciiLower(name)) && !HasFraudKeyword(ToAsciiLower(name)) &&
      !HasRiskyKeyword(ToAsciiLower(name))
  {
  }

  /** The level agrees with the score under the thresholds 80 and 50, for every score. */
  lemma RiskLevelThresholds(score: I32)
    ensures RiskLevel(score) == "HIGH" <==> score >= 80
    ensures RiskLevel(score) == "MEDIUM" <==> 50 <= score < 80
    ensures RiskLevel(score) == "LOW" <==> score < 50
  {
  }

  /** Classification ignores ASCII case: a name and its lower-cased form get the same risk. */
  lemma CaseInsensitive(name: string)
    ensures ComputeRisk(name) == ComputeRisk(ToAsciiLower(name))
  {
    ToAsciiLowerIdempotent(name);
  }

  /** Names that differ only in ASCII case get the same risk. */
  lemma SameLowerSameRisk(a: string, b: string)
    requires ToAsciiLower(a) == ToAsciiLower(b)
    ensures ComputeRisk(a) == ComputeRisk(b)
  {
  }

  /**
   * A test keyword written in any ASCII case, anywhere in the name, makes
   * the item LOW risk with score 10, whatever surrounds it.
   */
  lemma TestKeywordAnywhere(before: string, keyword: string, after: string)
    requires ToAsciiLower(keyword) == "test" || ToAsciiLower(keyword) == "dummy"
    ensures ComputeRisk(before + keyword + after) == (10, "LOW")
  {
    var lowerKeyword := ToAsciiLower(keyword);
    ToAsciiLowerConcat(before + keyword, after);
    ToAsciiLowerConcat(before, keyword);
    ContainsInfix(ToAsciiLower(before), lowerKeyword, ToAsciiLower(after));
  }

  /**
   * A fraud keyword in any ASCII case makes the item HIGH risk with score
   * 90, as long as the lower-cased name has no test keyword.
   */
  lemma FraudKeywordAnywhere(before: string, keyword: string, after: string)
    requires ToAsciiLower(keyword) == "fraud" || ToAsciiLower(keyword) == "scam"
    requires !HasTestKeyword(ToAsciiLower(before + keyword + after))
    ensures ComputeRisk(before + keyword + after) == (90, "HIGH")
  {
    var lowerKeyword := ToAsciiLower(keyword);
    ToAsciiLowerConcat(before + keyword, after);
    ToAsciiLowerConcat(before, keyword);
    ContainsInfix(ToAsciiLower(before), lowerKeyword, ToAsciiLower(after));
  }

  /**
   * A risky keyword in any ASCII case makes the item MEDIUM risk with score
   * 70, as long as the lower-cased name has no test and no fraud keyword.
   */
  lemma RiskyKeywordAnywhere(before: string, keyword: string, after: string)
    requires ToAsciiLower(keyword) == "risky" || ToAsciiLower(keyword) == "flag"
    requires !HasTestKeyword(ToAsciiLower(before + keyword + after))
    requires !HasFraudKeyword(ToAsciiLower(before + keyword + after))
    ensures ComputeRisk(before + keyword + after) == (70, "MEDIUM")
  {
    var lowerKeyword := ToAsciiLower(keyword);
    ToAsciiLowerConcat(before + keyword, after);
    ToAsciiLowerConcat(before, keyword);
    ContainsInfix(ToAsciiLower(before), lowerKeyword, ToAsciiLower(after));
  }

  // ---------------------------------------------------------------------
  // Handlers
  // ---------------------------------------------------------------------

  /** The item built from one row: its id and name, with the name's risk. */
  function ItemFromRow(row: ItemRow): Item {
    var (score, level) := ComputeRisk(row.name);
    Item(row.id, row.name, score, level)
  }

  /** The projection in `list_items`: one item per row, in row order. */
  function ListItems(rows: seq<ItemRow>): (items: seq<Item>)
    ensures |items| == |rows|
    ensures forall i :: 0 <= i < |rows| ==>
      items[i].id == rows[i].id && items[i].name == rows[i].name &&
      (items[i].riskScore, items[i].riskLevel) == ComputeRisk(rows[i].name)
  {
    if rows == [] then [] else [ItemFromRow(rows[0])] + ListItems(rows[1..])
  }

  /** `list_items` after the query: a failed query is a 500 "db_error", otherwise every row becomes an item. */
  function ListItemsHandler(fetched: DbOutcome<seq<ItemRow>>): (r: Result<seq<Item>>)
    ensures r.Err? <==> fetched.DbFailed?
    ensures r.Err? ==> r.error == DB_ERROR
    ensures r.Ok? ==> |r.value| == |fetched.value|
    ensures r.Ok? ==> forall i :: 0 <= i < |r.value| ==>
      (r.value[i].id == fetched.value[i].id && r.value[i].name == fetched.value[i].name &&
       (r.value[i].riskScore, r.value[i].riskLevel) == ComputeRisk(fetched.value[i].name))
  {
    match fetched
    case DbFailed => Err(DB_ERROR)
    case DbOk(rows) => Ok(ListItems(rows))
  }

  /** The row that `create_item` inserts for a fresh id. */
  function StoredRow(id: Uuid, body: NewItem): ItemRow {
    ItemRow(id, body.name)
  }

  /**
   * `create_item` given the fresh id and the outcome of the insert: a failed
   * insert is a 500 "db_error", otherwise the new item with the name's risk.
   */
  function CreateItemHandler(id: Uuid, body: NewItem, inserted: DbOutcome<()>): (r: Result<Item>)
    ensures r.Err? <==> inserted.DbFailed?
    ensures r.Err? ==> r.error == DB_ERROR
    ensures r.Ok? ==> r.value.id == id && r.value.name == body.name
    ensures r.Ok? ==> (r.value.riskScore, r.value.riskLevel) == ComputeRisk(body.name)
  {
    match inserted
    case DbFailed => Err(DB_ERROR)
    case DbOk(_) => Ok(ItemFromRow(StoredRow(id, body)))
  }

  /**
   * Create and list agree: when a later list query returns the row that a
   * successful create stored, the listed item at that position is exactly
   * the item the create returned.
   */
  lemma CreateThenListAgree(id: Uuid, body: NewItem, rows: seq<ItemRow>, k: nat)
    requires k < |rows| && rows[k] == StoredRow(id, body)
    ensures ListItemsHandler(DbOk(rows)).Ok?
    ensures ListItemsHandler(DbOk(rows)).value[k] == CreateItemHandler(id, body, DbOk(())).value
  {
  }
}
