/** The spreadsheet layout the sync writes: a header row, then one row per
    entity in ledger order, in a fixed column order. The HTTP transport is not
    part of this model; only the spreadsheet's sheet titles and the ranges and
    values written to it are. */
module SheetService {
  import opened Types

  /** A value written with `valueInputOption=RAW`: a string or a number. */
  datatype Cell = Text(text: string) | Number(number: real)

  type Row = seq<Cell>

  /** One `PUT .../values/<range>` request: overwrite from the range's anchor. */
  datatype RangeWrite = RangeWrite(range: string, rows: seq<Row>)

  const TransactionsSheet := "Transaksi"
  const GoalsSheet := "Tabungan"

  /** The sheets `createUserSpreadsheet` asks for, in order. */
  const CreatedSheets: seq<string> := [TransactionsSheet, GoalsSheet]

  /** Every write starts at the first cell of its sheet. */
  const Anchor := "!A1"

  const TransactionHeader: Row :=
    [Text("ID"), Text("Tanggal"), Text("Deskripsi"), Text("Kategori"), Text("Tipe"), Text("Jumlah")]

  const GoalHeader: Row :=
    [Text("ID"), Text("Nama Target"), Text("Target"), Text("Terkumpul"), Text("Deadline")]

  /** The string a `TransactionType` has in TypeScript. */
  function TypeName(k: TransactionType): string
  {
    match k
    case Income => "INCOME"
    case Expense => "EXPENSE"
  }

  /** One transaction as `[id, date, description, category, type, amount]`. */
  function TransactionRow(t: Transaction): (r: Row)
    ensures |r| == |TransactionHeader|
    ensures r[0] == Text(t.id) && r[1] == Text(t.date) && r[5] == Number(t.amount)
  {
    [Text(t.id), Text(t.date), Text(t.description), Text(t.category), Text(TypeName(t.kind)), Number(t.amount)]
  }

  /** One goal as `[id, name, target, current, deadline]`. */
  function GoalRow(g: SavingsGoal): (r: Row)
    ensures |r| == |GoalHeader|
    ensures r[0] == Text(g.id) && r[2] == Number(g.targetAmount) && r[3] == Number(g.currentAmount)
  {
    [Text(g.id), Text(g.name), Number(g.targetAmount), Number(g.currentAmount), Text(g.deadline)]
  }

  /** `data.transactions.map(...)`: row i describes transaction i. */
  function TransactionBody(ts: seq<Transaction>): (r: seq<Row>)
    ensures |r| == |ts|
    ensures forall i :: 0 <= i < |ts| ==> r[i] == TransactionRow(ts[i])
  {
    if ts == [] then [] else [TransactionRow(ts[0])] + TransactionBody(ts[1..])
  }

  /** `data.goals.map(...)`: row i describes goal i. */
  function GoalBody(gs: seq<SavingsGoal>): (r: seq<Row>)
    ensures |r| == |gs|
    ensures forall i :: 0 <= i < |gs| ==> r[i] == GoalRow(gs[i])
  {
    if gs == [] then [] else [GoalRow(gs[0])] + GoalBody(gs[1..])
  }

  /** `transactionRows`: the header, then transaction i on row i + 1; every
      row is as wide as the header. */
  function TransactionTable(ts: seq<Transaction>): (r: seq<Row>)
    ensures |r| == |ts| + 1 && r[0] == TransactionHeader
    ensures forall i :: 0 <= i < |ts| ==> r[i + 1] == TransactionRow(ts[i])
    ensures forall i :: 0 <= i < |r| ==> |r[i]| == |TransactionHeader| == 6
  {
    [TransactionHeader] + TransactionBody(ts)
  }

  /** `goalRows`: the header, then goal i on row i + 1; every row is as wide
      as the header. */
  function GoalTable(gs: seq<SavingsGoal>): (r: seq<Row>)
    ensures |r| == |gs| + 1 && r[0] == GoalHeader
    ensures forall i :: 0 <= i < |gs| ==> r[i + 1] == GoalRow(gs[i])
    ensures forall i :: 0 <= i < |r| ==> |r[i]| == |GoalHeader| == 5
  {
    [GoalHeader] + GoalBody(gs)
  }

  /** The two overwrites `syncToGoogleSheets` sends: each targets one of the
      sheets the spreadsheet was created with, in creation order, from A1. */
  function SyncWrites(ts: seq<Transaction>, gs: seq<SavingsGoal>): (r: seq<RangeWrite>)
    ensures |r| == |CreatedSheets|
    ensures forall i :: 0 <= i < |r| ==> r[i].range == CreatedSheets[i] + Anchor
    ensures r[0].rows == TransactionTable(ts) && r[1].rows == GoalTable(gs)
  {
    [RangeWrite(TransactionsSheet + Anchor, TransactionTable(ts)),
     RangeWrite(GoalsSheet + Anchor, GoalTable(gs))]
  }

  // ---------------------------------------------------------------------------
  // Reading the sheets back: the rows lose nothing.

  function ParseType(s: string): Option<TransactionType>
  {
    if s == "INCOME" then Some(Income) else if s == "EXPENSE" then Some(Expense) else None
  }

  function ParseTransactionRow(row: Row): Option<Transaction>
  {
    if |row| == 6 && row[0].Text? && row[1].Text? && row[2].Text? && row[3].Text?
       && row[4].Text? && row[5].Number? && ParseType(row[4].text).Some?
    then Some(Transaction(row[0].text, row[5].number, row[3].text, row[2].text,
                          ParseType(row[4].text).value, row[1].text))
    else None
  }

  function ParseGoalRow(row: Row): Option<SavingsGoal>
  {
    if |row| == 5 && row[0].Text? && row[1].Text? && row[2].Number? && row[3].Number? && row[4].Text?
    then Some(SavingsGoal(row[0].text, row[1].text, row[2].number, row[3].number, row[4].text))
    else None
  }

  function ParseTransactionBody(rows: seq<Row>): Option<seq<Transaction>>
  {
    if rows == [] then Some([])
    else
      match (ParseTransactionRow(rows[0]), ParseTransactionBody(rows[1..]))
      case (Some(t), Some(rest)) => Some([t] + rest)
      case _ => None
  }

  function ParseGoalBody(rows: seq<Row>): Option<seq<SavingsGoal>>
  {
    if rows == [] then Some([])
    else
      match (ParseGoalRow(rows[0]), ParseGoalBody(rows[1..]))
      case (Some(g), Some(rest)) => Some([g] + rest)
      case _ => None
  }

  /** The ledger a transaction sheet describes, if it is well formed. */
  function ReadTransactions(table: seq<Row>): Option<seq<Transaction>>
  {
    if |table| > 0 && table[0] == TransactionHeader then ParseTransactionBody(table[1..]) else None
  }

  /** The goals a goal sheet describes, if it is well formed. */
  function ReadGoals(table: seq<Row>): Option<seq<SavingsGoal>>
  {
    if |table| > 0 && table[0] == GoalHeader then ParseGoalBody(table[1..]) else None
  }

  lemma {:induction false} TransactionBodyRoundTrip(ts: seq<Transaction>)
    ensures ParseTransactionBody(TransactionBody(ts)) == Some(ts)
  {
    if ts != [] {
      var rows := TransactionBody(ts);
      assert rows[1..] == TransactionBody(ts[1..]);
      assert ParseTransactionRow(rows[0]) == Some(ts[0]);
      TransactionBodyRoundTrip(ts[1..]);
      assert [ts[0]] + ts[1..] == ts;
    }
  }

  lemma {:induction false} GoalBodyRoundTrip(gs: seq<SavingsGoal>)
    ensures ParseGoalBody(GoalBody(gs)) == Some(gs)
  {
    if gs != [] {
      var rows := GoalBody(gs);
      assert rows[1..] == GoalBody(gs[1..]);
      GoalBodyRoundTrip(gs[1..]);
      assert [gs[0]] + gs[1..] == gs;
    }
  }

  /** Every field of every transaction reaches the sheet: reading the written
      table back gives the ledger, in order. */
  lemma TransactionTableRoundTrip(ts: seq<Transaction>)
    ensures ReadTransactions(TransactionTable(ts)) == Some(ts)
  {
    assert TransactionTable(ts)[1..] == TransactionBody(ts);
    TransactionBodyRoundTrip(ts);
  }

  /** Every field of every goal reaches the sheet, in order. */
  lemma GoalTableRoundTrip(gs: seq<SavingsGoal>)
    ensures ReadGoals(GoalTable(gs)) == Some(gs)
  {
    assert GoalTable(gs)[1..] == GoalBody(gs);
    GoalBodyRoundTrip(gs);
  }
}
