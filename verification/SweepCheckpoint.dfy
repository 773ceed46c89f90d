/**
 The checkpoint a recovery sweep hands from one window to the next: a JSON object of seven
 fields, and the parser that accepts it. JSON text itself is not modelled.
 */
module SweepCheckpoint {
  import opened Outcomes

  const PageSize: nat := 100
  const MatrixSize: nat := 250
  const SafeInteger := 9_007_199_254_740_991

  datatype Json = JNull | JBool(b: bool) | JInteger(n: int) | JFraction | JString(s: string) | JArray(items: seq<Json>)
                | JObject(fields: map<string, Json>)

  datatype Checkpoint = Checkpoint(repository: string, workflowPath: string, createdThrough: string,
                                   total: nat, nextPage: nat, lastRun: nat)

  // ---------------------------------------------------------------- texts

  predicate IsDigit(c: char) { '0' <= c <= '9' }

  predicate IsName(s: string) {
    s != "" && forall i :: 0 <= i < |s| ==> IsDigit(s[i]) || 'A' <= s[i] <= 'Z' || 'a' <= s[i] <= 'z' || s[i] in "_.-"
  }

  predicate ValidRepository(s: string) {
    exists k :: 0 <= k < |s| && s[k] == '/' && IsName(s[..k]) && IsName(s[k + 1..])
  }

  const Workflows := ".github/workflows/"

  predicate ValidWorkflowPath(s: string) {
    && Workflows <= s
    && var name := s[|Workflows|..];
       || (|name| > 4 && name[|name| - 4..] == ".yml" && IsName(name[..|name| - 4]))
       || (|name| > 5 && name[|name| - 5..] == ".yaml" && IsName(name[..|name| - 5]))
  }

  function Number(s: string): nat
    requires forall i :: 0 <= i < |s| ==> IsDigit(s[i])
  {
    if s == "" then 0
    else
      assert IsDigit(s[|s| - 1]);
      10 * Number(s[..|s| - 1]) + (s[|s| - 1] as int - '0' as int)
  }

  predicate IsLeapYear(y: nat) { y % 4 == 0 && (y % 100 != 0 || y % 400 == 0) }

  function DaysIn(y: nat, m: nat): nat {
    if m == 2 then (if IsLeapYear(y) then 29 else 28) else if m in {4, 6, 9, 11} then 30 else 31
  }

  /** `dddd-dd-ddTdd:dd:ddZ` naming an existing instant. */
  predicate ValidTimestamp(s: string) {
    && |s| == 20
    && (forall i :: 0 <= i < 20 && i !in {4, 7, 10, 13, 16, 19} ==> IsDigit(s[i]))
    && s[4] == '-' && s[7] == '-' && s[10] == 'T' && s[13] == ':' && s[16] == ':' && s[19] == 'Z'
    && var y, m, d := Number(s[..4]), Number(s[5..7]), Number(s[8..10]);
       && 1 <= m <= 12 && 1 <= d <= DaysIn(y, m)
       && Number(s[11..13]) < 24 && Number(s[14..16]) < 60 && Number(s[17..19]) < 60
  }

  function Decimal(n: nat): (s: string)
    ensures s != "" && forall i :: 0 <= i < |s| ==> IsDigit(s[i])
  {
    var d := ['0' + (n % 10) as char];
    if n < 10 then d else Decimal(n / 10) + d
  }

  predicate IsPositiveDecimal(s: string) {
    s != "" && s[0] != '0' && forall i :: 0 <= i < |s| ==> IsDigit(s[i])
  }

  lemma {:induction false} DecimalReadsBack(n: nat)
    ensures Number(Decimal(n)) == n
    ensures n > 0 ==> IsPositiveDecimal(Decimal(n))
  {
    if n < 10 {
      assert Decimal(n)[..0] == "";
    } else {
      DecimalReadsBack(n / 10);
      assert Decimal(n)[..|Decimal(n)| - 1] == Decimal(n / 10);
    }
  }

  // ---------------------------------------------------------------- parser

  const Keys: set<string> := {"created_through", "last_run_id", "next_page", "repository", "total_count", "version", "workflow_path"}

  predicate IsSafe(j: Json) { j.JInteger? && -SafeInteger <= j.n <= SafeInteger }

  function LastPage(total: nat): nat
    requires total >= 1
  {
    (total - 1) / PageSize + 1
  }

  function Parse(j: Json): Result<Checkpoint> {
    if !j.JObject? || j.fields.Keys != Keys then Err("private_pg17_recovery_checkpoint_invalid")
    else
      var f := j.fields;
      if && f["version"] == JInteger(1)
         && f["repository"].JString? && ValidRepository(f["repository"].s)
         && f["workflow_path"].JString? && ValidWorkflowPath(f["workflow_path"].s)
         && f["created_through"].JString? && ValidTimestamp(f["created_through"].s)
         && IsSafe(f["total_count"]) && f["total_count"].n >= 1
         && IsSafe(f["next_page"]) && 2 <= f["next_page"].n <= LastPage(f["total_count"].n)
         && f["last_run_id"].JString? && IsPositiveDecimal(f["last_run_id"].s)
      then
        Ok(Checkpoint(f["repository"].s, f["workflow_path"].s, f["created_through"].s, f["total_count"].n,
                      f["next_page"].n, Number(f["last_run_id"].s)))
      else Err("private_pg17_recovery_checkpoint_invalid")
  }

  function ToJson(c: Checkpoint): Json {
    JObject(map["version" := JInteger(1), "repository" := JString(c.repository), "workflow_path" := JString(c.workflowPath),
                "created_through" := JString(c.createdThrough), "total_count" := JInteger(c.total),
                "next_page" := JInteger(c.nextPage), "last_run_id" := JString(Decimal(c.lastRun))])
  }

  predicate ValidCheckpoint(c: Checkpoint) {
    && ValidRepository(c.repository) && ValidWorkflowPath(c.workflowPath) && ValidTimestamp(c.createdThrough)
    && 1 <= c.total <= SafeInteger && 2 <= c.nextPage <= LastPage(c.total) && c.lastRun >= 1
  }

  /** The parser accepts the JSON of a checkpoint exactly when its fields are valid, and reads
      back the same checkpoint. */
  lemma ParseReadsBack(c: Checkpoint)
    ensures Parse(ToJson(c)) == if ValidCheckpoint(c) then Ok(c) else Err("private_pg17_recovery_checkpoint_invalid")
  {
    DecimalReadsBack(c.lastRun);
    assert ToJson(c).fields.Keys == Keys;
    if c.lastRun == 0 { assert Decimal(0) == "0"; }
  }

  /** Whatever the parser accepts is a valid checkpoint. */
  lemma ParsedIsValid(j: Json)
    ensures Parse(j).Ok? ==> ValidCheckpoint(Parse(j).value)
  {
    if Parse(j).Ok? { PositiveNumber(j.fields["last_run_id"].s); }
  }

  lemma {:induction false} PositiveNumber(s: string)
    requires IsPositiveDecimal(s)
    ensures Number(s) >= 1
  {
    if |s| > 1 { PositiveNumber(s[..|s| - 1]); }
  }
}
