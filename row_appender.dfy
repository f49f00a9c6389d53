/** The durable append step (InvoiceSheetHandler.add_invoice_row in
    sheets/invoice_sheet.py): `append_rows` on the remote worksheet,
    retried on every exception with tenacity's
    `wait_exponential(multiplier=1, min=4, max=10)` and `reraise=True`.
    The source sets no stop condition; here the remote's behaviour is a
    finite script of attempt outcomes, and the script's length is the
    attempt bound. */
module RowAppender {
  import opened InvoiceDto

  const WaitMultiplier: nat := 1
  const WaitMin: nat := 4
  const WaitMax: nat := 10

  function Pow2(n: nat): (p: nat)
    ensures p >= 1
  {
    if n == 0 then 1 else 2 * Pow2(n - 1)
  }

  lemma {:induction false} Pow2Monotone(a: nat, b: nat)
    requires a <= b
    ensures Pow2(a) <= Pow2(b)
  {
    if a < b {
      Pow2Monotone(a, b - 1);
    }
  }

  /** The wait after the attempt numbered `attempt` (counting from 1) has
      failed: `max(max(0, min), min(multiplier * 2^(attempt-1), max))`. */
  function Delay(attempt: nat): (d: nat)
    requires attempt >= 1
    ensures WaitMin <= d <= WaitMax
    ensures WaitMin <= WaitMultiplier * Pow2(attempt - 1) <= WaitMax ==> d == WaitMultiplier * Pow2(attempt - 1)
  {
    var raw := WaitMultiplier * Pow2(attempt - 1);
    var capped := if raw < WaitMax then raw else WaitMax;
    if capped < WaitMin then WaitMin else capped
  }

  /** Later failures never wait less. */
  lemma DelayMonotone(a: nat, b: nat)
    requires 1 <= a <= b
    ensures Delay(a) <= Delay(b)
  {
    Pow2Monotone(a - 1, b - 1);
  }

  /** From the fifth failure on, every wait is the cap. */
  lemma DelayCapped(attempt: nat)
    requires attempt >= 5
    ensures Delay(attempt) == WaitMax
  {
    Pow2Monotone(4, attempt - 1);
  }

  /** The waits after the first `n` failures, in order. */
  function Backoff(n: nat): (waits: seq<nat>)
    ensures |waits| == n
    ensures forall k :: 0 <= k < n ==> waits[k] == Delay(k + 1)
  {
    if n == 0 then [] else Backoff(n - 1) + [Delay(n)]
  }

  /** The schedule begins 4, 4, 4, 8, 10, 10 and never decreases. */
  lemma BackoffSchedule(n: nat)
    ensures Backoff(6) == [4, 4, 4, 8, 10, 10]
    ensures forall k, k' :: 0 <= k <= k' < n ==> Backoff(n)[k] <= Backoff(n)[k']
  {
    assert Pow2(3) == 8;
    forall k, k' | 0 <= k <= k' < n
      ensures Backoff(n)[k] <= Backoff(n)[k']
    {
      DelayMonotone(k + 1, k' + 1);
    }
  }

  /** What the remote does with one `append_rows` call. */
  datatype Attempt = Failed(error: string) | Succeeded(response: string)

  /** What add_invoice_row gives its caller: the response of the call that
      succeeded, or the last exception, re-raised. */
  datatype AppendResult = Appended(response: string) | Raised(error: string)

  /** The index of the first succeeding attempt, or |script| if none does. */
  function FirstSuccess(script: seq<Attempt>): (k: nat)
    ensures k <= |script|
    ensures forall j :: 0 <= j < k ==> script[j].Failed?
    ensures k < |script| ==> script[k].Succeeded?
  {
    if script == [] then 0
    else if script[0].Succeeded? then 0
    else 1 + FirstSuccess(script[1..])
  }

  /** The remote worksheet, seen as the rows it holds. */
  class Worksheet {
    var rows: seq<Row>

    constructor (initial: seq<Row>)
      ensures rows == initial
    {
      rows := initial;
    }

    /** One `append_rows` call: a success adds the rows at the end, in
        order; a failure leaves the sheet as it was. */
    method AppendRows(attempt: Attempt, newRows: seq<Row>) returns (r: AppendResult)
      modifies this
      ensures attempt.Succeeded? ==> rows == old(rows) + newRows && r == Appended(attempt.response)
      ensures attempt.Failed? ==> rows == old(rows) && r == Raised(attempt.error)
    {
      if attempt.Succeeded? {
        rows := rows + newRows;
        r := Appended(attempt.response);
      } else {
        r := Raised(attempt.error);
      }
    }
  }

  /** add_invoice_row, as a plain retry loop: try, and after the n-th
      failure wait Delay(n) and try again, until an attempt succeeds or the
      script runs out; then re-raise the last failure. `waits` are the
      sleeps taken, in order. */
  method AddInvoiceRow(sheet: Worksheet, newRows: seq<Row>, script: seq<Attempt>)
    returns (result: AppendResult, waits: seq<nat>)
    requires |script| >= 1
    modifies sheet
    ensures var k := FirstSuccess(script);
      if k < |script| then
        && result == Appended(script[k].response)
        && sheet.rows == old(sheet.rows) + newRows
        && waits == Backoff(k)
      else
        && result == Raised(script[|script| - 1].error)
        && sheet.rows == old(sheet.rows)
        && waits == Backoff(|script| - 1)
  {
    var n := 0;
    waits := [];
    result := sheet.AppendRows(script[0], newRows);
    while result.Raised? && n + 1 < |script|
      invariant 0 <= n < |script|
      invariant forall j :: 0 <= j < n ==> script[j].Failed?
      invariant script[n].Succeeded? ==> result == Appended(script[n].response)
      invariant script[n].Failed? ==> result == Raised(script[n].error)
      invariant sheet.rows == if result.Appended? then old(sheet.rows) + newRows else old(sheet.rows)
      invariant waits == Backoff(n)
    {
      waits := waits + [Delay(n + 1)];
      n := n + 1;
      result := sheet.AppendRows(script[n], newRows);
    }
  }

  /** The append is not idempotent: two successful calls with the same rows
      add them twice. */
  method AppendTwice(sheet: Worksheet, newRows: seq<Row>, first: seq<Attempt>, second: seq<Attempt>)
    requires FirstSuccess(first) < |first| && FirstSuccess(second) < |second|
    modifies sheet
    ensures sheet.rows == old(sheet.rows) + newRows + newRows
  {
    var r1, w1 := AddInvoiceRow(sheet, newRows, first);
    var r2, w2 := AddInvoiceRow(sheet, newRows, second);
  }

  /** Two failures, then a success: the third attempt's response is
      returned, after waits of 4 and 4, and the rows are in the sheet. */
  method FailTwiceThenSucceed(sheet: Worksheet, newRows: seq<Row>) returns (r: AppendResult, waits: seq<nat>)
    modifies sheet
    ensures r == Appended("ok") && waits == [4, 4]
    ensures sheet.rows == old(sheet.rows) + newRows
  {
    var script := [Failed("quota"), Failed("timeout"), Succeeded("ok")];
    assert FirstSuccess(script) == 2 by {
      assert script[2].Succeeded?;
    }
    r, waits := AddInvoiceRow(sheet, newRows, script);
  }
}
