/** The application shell: the ledger state the root component owns, the
    update functions it passes to its children, the date filter of the
    transaction history, and the sync button's handler. */
module App {
  import opened Types
  import Seqs
  import Dashboard
  import SavingsManager
  import SheetService

  // ---------------------------------------------------------------------------
  // Ledger updates as sequence transformations

  function IdIsNot(id: string): Transaction -> bool { (t: Transaction) => t.id != id }

  /** `prev.filter(item => item.id !== id)`: the delete button. Nothing with
      that id survives, and nothing new appears. */
  function WithoutId(ts: seq<Transaction>, id: string): (r: seq<Transaction>)
    ensures |r| <= |ts|
    ensures forall i :: 0 <= i < |r| ==> r[i].id != id
  {
    Seqs.FilterMembers(ts, IdIsNot(id));
    Seqs.Filter(ts, IdIsNot(id))
  }

  function DateIs(date: string): Transaction -> bool { (t: Transaction) => t.date == date }

  /** The `filteredTransactions` memo: an empty filter shows everything,
      otherwise exactly the transactions of that date. */
  function OnDate(ts: seq<Transaction>, date: string): (r: seq<Transaction>)
    ensures forall i :: 0 <= i < |r| ==> r[i] in ts && (date == "" || r[i].date == date)
    ensures forall i :: 0 <= i < |ts| && (date == "" || ts[i].date == date) ==> ts[i] in r
  {
    Seqs.FilterMembers(ts, DateIs(date));
    if date == "" then ts else Seqs.Filter(ts, DateIs(date))
  }

  /** The goal update passed as `onUpdateGoal`: it touches only
      `currentAmount`, only of the goals with that id, by exactly `amount`;
      everything else, and the number and order of goals, stay. */
  function Contribute(gs: seq<SavingsGoal>, id: string, amount: real): (r: seq<SavingsGoal>)
    ensures |r| == |gs|
    ensures forall i :: 0 <= i < |gs| ==>
      r[i].id == gs[i].id && r[i].name == gs[i].name && r[i].targetAmount == gs[i].targetAmount
      && r[i].deadline == gs[i].deadline
      && r[i].currentAmount == gs[i].currentAmount + (if gs[i].id == id then amount else 0.0)
  {
    if gs == [] then [] else [Credit(gs[0], id, amount)] + Contribute(gs[1..], id, amount)
  }

  /** `g.id === id ? { ...g, currentAmount: g.currentAmount + amount } : g` */
  function Credit(g: SavingsGoal, id: string, amount: real): (r: SavingsGoal)
    ensures r.id == g.id && r.name == g.name && r.targetAmount == g.targetAmount && r.deadline == g.deadline
    ensures g.id == id ==> r.currentAmount == g.currentAmount + amount
    ensures g.id != id ==> r == g
  {
    if g.id == id then g.(currentAmount := g.currentAmount + amount) else g
  }

  predicate UniqueIds(ts: seq<Transaction>)
  {
    forall i, j :: 0 <= i < j < |ts| ==> ts[i].id != ts[j].id
  }

  /** Deleting keeps exactly the entries with another id. */
  lemma DeleteMembers(ts: seq<Transaction>, id: string)
    ensures forall t :: t in WithoutId(ts, id) <==> t in ts && t.id != id
  {
    Seqs.FilterMembers(ts, IdIsNot(id));
  }

  /** Deleting keeps the survivors' relative order: it acts on each part of
      the ledger separately. */
  lemma DeleteKeepsOrder(a: seq<Transaction>, b: seq<Transaction>, id: string)
    ensures WithoutId(a + b, id) == WithoutId(a, id) + WithoutId(b, id)
  {
    Seqs.FilterConcat(a, b, IdIsNot(id));
  }

  /** Deleting an id that is not there changes nothing. */
  lemma DeleteAbsent(ts: seq<Transaction>, id: string)
    requires forall i :: 0 <= i < |ts| ==> ts[i].id != id
    ensures WithoutId(ts, id) == ts
  {
    Seqs.FilterAllPass(ts, IdIsNot(id));
  }

  /** With unique ids, deleting a present id removes exactly one entry. */
  lemma {:induction false} DeleteRemovesOne(ts: seq<Transaction>, id: string)
    requires UniqueIds(ts)
    requires exists i :: 0 <= i < |ts| && ts[i].id == id
    ensures |WithoutId(ts, id)| == |ts| - 1
  {
    if ts[0].id == id {
      DeleteAbsent(ts[1..], id);
    } else {
      DeleteRemovesOne(ts[1..], id);
    }
  }

  /** Filtering by the same date twice is filtering once. */
  lemma DateFilterIdempotent(ts: seq<Transaction>, date: string)
    ensures OnDate(OnDate(ts, date), date) == OnDate(ts, date)
  {
    Seqs.FilterIdempotent(ts, DateIs(date));
  }

  /** The date filter keeps the ledger's order. */
  lemma DateFilterKeepsOrder(a: seq<Transaction>, b: seq<Transaction>, date: string)
    ensures OnDate(a + b, date) == OnDate(a, date) + OnDate(b, date)
  {
    Seqs.FilterConcat(a, b, DateIs(date));
  }

  function CurrentOf(g: SavingsGoal): real { g.currentAmount }

  predicate UniqueGoalIds(gs: seq<SavingsGoal>)
  {
    forall i, j :: 0 <= i < j < |gs| ==> gs[i].id != gs[j].id
  }

  /** A contribution to an id no goal has changes nothing. */
  lemma ContributeAbsent(gs: seq<SavingsGoal>, id: string, amount: real)
    requires forall i :: 0 <= i < |gs| ==> gs[i].id != id
    ensures Contribute(gs, id, amount) == gs
  {
  }

  /** With unique ids, a contribution to a present goal raises the total
      saved by exactly `amount`. */
  lemma {:induction false} ContributeTotal(gs: seq<SavingsGoal>, id: string, amount: real)
    requires UniqueGoalIds(gs)
    requires exists i :: 0 <= i < |gs| && gs[i].id == id
    ensures Seqs.Sum(Contribute(gs, id, amount), CurrentOf) == Seqs.Sum(gs, CurrentOf) + amount
  {
    assert Contribute(gs, id, amount)[1..] == Contribute(gs[1..], id, amount);
    if gs[0].id == id {
      ContributeAbsent(gs[1..], id, amount);
    } else {
      ContributeTotal(gs[1..], id, amount);
    }
  }

  // ---------------------------------------------------------------------------
  // How the updates show on the dashboard and the goal cards

  lemma TotalCons(t: Transaction, ts: seq<Transaction>, k: TransactionType)
    ensures Dashboard.Total([t] + ts, k) == Dashboard.Total(ts, k) + (if t.kind == k then t.amount else 0.0)
  {
    Seqs.FilterConcat([t], ts, Dashboard.TypeIs(k));
    Seqs.SumConcat(Seqs.Filter([t], Dashboard.TypeIs(k)), Dashboard.OfType(ts, k), AmountOf);
  }

  /** A new transaction moves exactly one card by its amount, and heads the
      recent-activity list. */
  lemma AddThenDashboard(t: Transaction, ts: seq<Transaction>)
    ensures var before, after := Dashboard.Summarize(ts), Dashboard.Summarize([t] + ts);
      after.income == before.income + (if t.kind == Income then t.amount else 0.0)
      && after.expenses == before.expenses + (if t.kind == Expense then t.amount else 0.0)
    ensures Dashboard.RecentActivity([t] + ts)[0] == t
  {
  }

  lemma TotalConcat(a: seq<Transaction>, b: seq<Transaction>, k: TransactionType)
    ensures Dashboard.Total(a + b, k) == Dashboard.Total(a, k) + Dashboard.Total(b, k)
  {
    Seqs.FilterConcat(a, b, Dashboard.TypeIs(k));
    Seqs.SumConcat(Dashboard.OfType(a, k), Dashboard.OfType(b, k), AmountOf);
  }

  /** With unique ids, deleting transaction `i` takes exactly its amount off
      its own card and leaves the other card alone. */
  lemma DeleteThenDashboard(ts: seq<Transaction>, i: nat, k: TransactionType)
    requires UniqueIds(ts) && i < |ts|
    ensures Dashboard.Total(WithoutId(ts, ts[i].id), k)
         == Dashboard.Total(ts, k) - (if ts[i].kind == k then ts[i].amount else 0.0)
  {
    var id := ts[i].id;
    var a, b := ts[..i], ts[i + 1..];
    assert ts == a + ([ts[i]] + b);
    DeleteKeepsOrder(a, [ts[i]] + b, id);
    DeleteKeepsOrder([ts[i]], b, id);
    DeleteAbsent(a, id);
    assert forall j :: 0 <= j < |b| ==> b[j] == ts[i + 1 + j];
    DeleteAbsent(b, id);
    assert WithoutId([ts[i]], id) == [];
    assert WithoutId(ts, id) == a + b;
    TotalConcat(a, b, k);
    TotalConcat(a, [ts[i]] + b, k);
    TotalCons(ts[i], b, k);
  }

  /** A non-negative contribution never lowers the goal's progress. */
  lemma ContributeThenProgress(gs: seq<SavingsGoal>, id: string, amount: real, i: nat)
    requires i < |gs| && gs[i].id == id && gs[i].targetAmount > 0.0 && amount >= 0.0
    ensures SavingsManager.Progress(Contribute(gs, id, amount)[i]) >= SavingsManager.Progress(gs[i])
  {
    SavingsManager.ProgressMonotone(gs[i], amount);
  }

  /** Whatever its sign, a contribution shows on the goal's card at once: it
      reads 100 exactly when the new total meets the target. */
  lemma ContributeReachesTarget(gs: seq<SavingsGoal>, id: string, amount: real, i: nat)
    requires i < |gs| && gs[i].id == id && gs[i].targetAmount > 0.0
    ensures SavingsManager.Progress(Contribute(gs, id, amount)[i]) == 100.0
            <==> gs[i].currentAmount + amount >= gs[i].targetAmount
  {
  }

  // ---------------------------------------------------------------------------
  // The root component's state

  /** The part of `GoogleUser` the sync reads. */
  datatype User = User(accessToken: string, spreadsheetId: Option<string>)

  datatype SyncResult =
    | NotSignedIn   // alert, no request sent
    | Synced        // success alert
    | SyncFailed    // error alert, then a fresh sign-in is requested

  /** `!user || !user.spreadsheetId` refuses; an empty id counts as none. */
  predicate CanSync(user: Option<User>)
  {
    user.Some? && user.value.spreadsheetId.Some? && user.value.spreadsheetId.value != ""
  }

  class Ledger {
    var transactions: seq<Transaction>
    var goals: seq<SavingsGoal>
    var filterDate: string
    var isSyncing: bool
    /** The busy flag as it stood while the last sync request was in flight. */
    ghost var syncingDuringRequest: bool

    constructor (savedTransactions: seq<Transaction>, savedGoals: seq<SavingsGoal>)
      ensures transactions == savedTransactions && goals == savedGoals
      ensures filterDate == "" && !isSyncing
    {
      transactions, goals := savedTransactions, savedGoals;
      filterDate, isSyncing := "", false;
      syncingDuringRequest := false;
    }

    /** What the history list shows. */
    function Visible(): (r: seq<Transaction>)
      reads this
      ensures filterDate == "" ==> r == transactions
      ensures forall i :: 0 <= i < |r| ==> r[i] in transactions
    {
      OnDate(transactions, filterDate)
    }

    /** `onAdd`: the new transaction goes first. */
    method AddTransaction(t: Transaction)
      modifies this
      ensures transactions == [t] + old(transactions)
      ensures goals == old(goals) && filterDate == old(filterDate) && isSyncing == old(isSyncing)
    {
      transactions := [t] + transactions;
    }

    /** The delete button of one history row. */
    method DeleteTransaction(id: string)
      modifies this
      ensures transactions == WithoutId(old(transactions), id)
      ensures goals == old(goals) && filterDate == old(filterDate) && isSyncing == old(isSyncing)
    {
      transactions := WithoutId(transactions, id);
    }

    /** `onAddGoal`: the new goal goes last. */
    method AddGoal(g: SavingsGoal)
      modifies this
      ensures goals == old(goals) + [g]
      ensures transactions == old(transactions) && filterDate == old(filterDate) && isSyncing == old(isSyncing)
    {
      goals := goals + [g];
    }

    /** `onUpdateGoal`. */
    method UpdateGoal(id: string, amount: real)
      modifies this
      ensures goals == Contribute(old(goals), id, amount)
      ensures transactions == old(transactions) && filterDate == old(filterDate) && isSyncing == old(isSyncing)
    {
      goals := Contribute(goals, id, amount);
    }

    /** The date input and its clear buttons (which set it to ""). */
    method SetFilterDate(date: string)
      modifies this
      ensures filterDate == date
      ensures transactions == old(transactions) && goals == old(goals) && isSyncing == old(isSyncing)
    {
      filterDate := date;
    }

    /** The contribution prompt of one goal card, then `onUpdateGoal` when
        the prompt gave a non-empty answer. */
    method PromptContribution(id: string, reply: Option<string>, parsed: real)
      modifies this
      ensures goals == if reply.Some? && reply.value != "" then Contribute(old(goals), id, parsed) else old(goals)
      ensures transactions == old(transactions) && filterDate == old(filterDate) && isSyncing == old(isSyncing)
    {
      var add := SavingsManager.ContributionFromPrompt(reply, parsed);
      if add.Some? {
        UpdateGoal(id, add.value);
      }
    }

    /** `handleSync`. Without a user or a spreadsheet id nothing is sent.
        Otherwise the busy flag is raised and the two sheets are overwritten
        one after the other with the current ledger; the goal sheet is only
        written once the transaction request has resolved. `firstResolves`
        and `secondResolves` say whether each `fetch` resolved (the responses'
        statuses are never inspected, so only a rejected request fails). The
        flag is lowered again whatever the outcome. */
    method HandleSync(user: Option<User>, firstResolves: bool, secondResolves: bool)
      returns (result: SyncResult, sent: seq<SheetService.RangeWrite>)
      modifies this
      ensures transactions == old(transactions) && goals == old(goals) && filterDate == old(filterDate)
      ensures result == NotSignedIn <==> !CanSync(user)
      ensures result == NotSignedIn ==> sent == [] && isSyncing == old(isSyncing)
      ensures result != NotSignedIn && firstResolves ==> sent == SheetService.SyncWrites(transactions, goals)
      ensures result != NotSignedIn && !firstResolves ==> sent == SheetService.SyncWrites(transactions, goals)[..1]
      ensures result != NotSignedIn ==> syncingDuringRequest && !isSyncing
      ensures result != NotSignedIn ==> (result == Synced <==> firstResolves && secondResolves)
    {
      if !CanSync(user) {
        return NotSignedIn, [];
      }
      isSyncing := true;
      var writes := SheetService.SyncWrites(transactions, goals);
      sent := [writes[0]];
      if firstResolves {
        sent := sent + [writes[1]];
      }
      syncingDuringRequest := isSyncing;
      result := if firstResolves && secondResolves then Synced else SyncFailed;
      isSyncing := false;
    }
  }
}
