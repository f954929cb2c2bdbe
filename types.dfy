/** The ledger's entities. */
module Types {

  /** Whether money came in or went out. */
  datatype TransactionType = Income | Expense

  /** One ledger line. `date` is the ISO `YYYY-MM-DD` text of a date input. */
  datatype Transaction = Transaction(
    id: string,
    amount: real,
    category: string,
    description: string,
    kind: TransactionType,
    date: string)

  /** A savings target and what has been put aside for it so far. */
  datatype SavingsGoal = SavingsGoal(
    id: string,
    name: string,
    targetAmount: real,
    currentAmount: real,
    deadline: string)

  datatype Option<T> = None | Some(value: T)

  function AmountOf(t: Transaction): real { t.amount }
}
