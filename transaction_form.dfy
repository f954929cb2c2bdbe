/** The add-transaction form: a type toggle, a category select whose options
    depend on the type, and amount, description and date inputs. */
module TransactionForm {
  import opened Types

  const IncomeCategories: seq<string> := ["Gaji", "Bonus", "Investasi", "Lainnya"]

  const ExpenseCategories: seq<string> :=
    ["Makanan", "Transportasi", "Belanja", "Kesehatan", "Hiburan", "Tagihan", "Pendidikan", "Lainnya"]

  /** `CATEGORIES[type]`: the options the category select offers. Never
      empty, so the type switch always has a first entry to select. */
  function CategoriesFor(k: TransactionType): (r: seq<string>)
    ensures |r| > 0
    ensures "Lainnya" in r
  {
    match k
    case Income => IncomeCategories
    case Expense => ExpenseCategories
  }

  /** `handleSubmit`'s check and the transaction it hands to `onAdd`: nothing
      when the amount or the description is empty, otherwise a transaction
      made of the form's fields. `parsedAmount` is `parseFloat(amount)` and
      `id` the fresh `crypto.randomUUID()`. */
  function Submission(id: string, parsedAmount: real, kind: TransactionType, amount: string,
                      category: string, description: string, date: string): (r: Option<Transaction>)
    ensures r.None? <==> amount == "" || description == ""
    ensures r.Some? ==> r.value.description != "" && r.value.description == description
    ensures r.Some? ==> r.value.kind == kind && r.value.category == category && r.value.date == date
    ensures r.Some? ==> r.value.id == id && r.value.amount == parsedAmount
  {
    if amount == "" || description == "" then None
    else Some(Transaction(id, parsedAmount, category, description, kind, date))
  }

  class Form {
    var kind: TransactionType
    var amount: string
    var category: string
    var description: string
    var date: string

    /** The select only ever shows a category of the current type. */
    ghost predicate Valid()
      reads this
    {
      category in CategoriesFor(kind)
    }

    /** A fresh form: an expense in "Makanan", dated `today`. */
    constructor (today: string)
      ensures Valid()
      ensures kind == Expense && category == "Makanan" && category == ExpenseCategories[0]
      ensures amount == "" && description == "" && date == today
    {
      kind := Expense;
      amount := "";
      category := ExpenseCategories[0];
      description := "";
      date := today;
    }

    /** The "Pengeluaran" button. */
    method ChooseExpense()
      modifies this
      ensures Valid()
      ensures kind == Expense && category == CategoriesFor(Expense)[0]
      ensures amount == old(amount) && description == old(description) && date == old(date)
    {
      kind := Expense;
      category := ExpenseCategories[0];
    }

    /** The "Pemasukan" button. */
    method ChooseIncome()
      modifies this
      ensures Valid()
      ensures kind == Income && category == CategoriesFor(Income)[0]
      ensures amount == old(amount) && description == old(description) && date == old(date)
    {
      kind := Income;
      category := IncomeCategories[0];
    }

    /** Picking an option of the select (which offers only `CATEGORIES[type]`). */
    method ChooseCategory(c: string)
      requires c in CategoriesFor(kind)
      modifies this
      ensures Valid()
      ensures category == c && kind == old(kind)
      ensures amount == old(amount) && description == old(description) && date == old(date)
    {
      category := c;
    }

    method EditAmount(s: string)
      modifies this
      ensures amount == s && kind == old(kind) && category == old(category)
      ensures description == old(description) && date == old(date)
    {
      amount := s;
    }

    method EditDescription(s: string)
      modifies this
      ensures description == s && kind == old(kind) && category == old(category)
      ensures amount == old(amount) && date == old(date)
    {
      description := s;
    }

    method EditDate(s: string)
      modifies this
      ensures date == s && kind == old(kind) && category == old(category)
      ensures amount == old(amount) && description == old(description)
    {
      date := s;
    }

    /** `handleSubmit`: emits the transaction when amount and description are
        filled, then clears just those two; the type, category and date
        stay. A rejected submit changes nothing. The emitted transaction's
        category belongs to its type. */
    method Submit(id: string, parsedAmount: real) returns (emitted: Option<Transaction>)
      requires Valid()
      modifies this
      ensures Valid()
      ensures emitted == Submission(id, parsedAmount, old(kind), old(amount), old(category), old(description), old(date))
      ensures emitted.Some? ==> emitted.value.category in CategoriesFor(emitted.value.kind)
      ensures kind == old(kind) && category == old(category) && date == old(date)
      ensures emitted.Some? ==> amount == "" && description == ""
      ensures emitted.None? ==> amount == old(amount) && description == old(description)
    {
      if amount == "" || description == "" {
        return None;
      }
      emitted := Some(Transaction(id, parsedAmount, category, description, kind, date));
      amount := "";
      description := "";
    }
  }
}
