/** The add-transaction dialog: a form whose submit validates the amount, adds one
    transaction to the store and resets part of the form. */
module TransactionModal {
  import opened Wrappers
  import opened FinanceTypes
  import opened FinanceContext

  /** The categories the dialog offers: every category except utilities and transfer. */
  const SelectableCategories: seq<Category> :=
    [Rent, Salary, Marketing, General, Stock, ThreeDPrinting, Courses, School, Projects, Other]

  lemma SelectableCategoriesAreTen()
    ensures |SelectableCategories| == 10
    ensures Utilities !in SelectableCategories && Transfer !in SelectableCategories
    ensures forall c: Category :: c != Utilities && c != Transfer ==> c in SelectableCategories
  {
    forall c: Category | c != Utilities && c != Transfer ensures c in SelectableCategories {
      match c
      case Rent => assert SelectableCategories[0] == c;
      case Salary => assert SelectableCategories[1] == c;
      case Marketing => assert SelectableCategories[2] == c;
      case General => assert SelectableCategories[3] == c;
      case Stock => assert SelectableCategories[4] == c;
      case ThreeDPrinting => assert SelectableCategories[5] == c;
      case Courses => assert SelectableCategories[6] == c;
      case School => assert SelectableCategories[7] == c;
      case Projects => assert SelectableCategories[8] == c;
      case Other => assert SelectableCategories[9] == c;
    }
  }

  /** The transaction a submit would add, or None when the amount is blank or not
      positive. Id and creation time are filled in by the store. */
  function Submitted(kind: TxType, category: Category, amount: Option<real>,
                     description: string, date: Date): (r: Option<Transaction>)
    ensures r.Some? <==> amount.Some? && amount.value > 0.0
    ensures r.Some? ==> (r.value.amount == amount.value && r.value.kind == kind
                          && r.value.category == category && r.value.description == description
                          && r.value.date == date)
  {
    if amount.None? || amount.value <= 0.0 then None
    else Some(Transaction("", kind, category, amount.value, description, date, ""))
  }

  /** The dialog's form state. The amount field is a number input: blank or a number. */
  class TransactionForm {
    var kind: TxType
    var category: Category
    var amount: Option<real>
    var description: string
    var date: Date

    /** Without props the dialog records an expense in the general category. */
    constructor (defaultType: Option<TxType>, defaultCategory: Option<Category>, today: Date)
      ensures kind == defaultType.GetOr(Expense) && category == defaultCategory.GetOr(General)
      ensures amount == None && description == "" && date == today
    {
      kind := defaultType.GetOr(Expense);
      category := defaultCategory.GetOr(General);
      amount := None;
      description := "";
      date := today;
    }

    /** `handleSubmit`: a refused amount changes nothing; an accepted one adds exactly
        one transaction at the head of the list, then clears amount and description and
        puts the date back to today, keeping type and category. */
    method Submit(store: FinanceStore, id: string, createdAt: string, today: Date)
      returns (accepted: bool)
      modifies this, store`transactions
      ensures accepted <==> old(amount).Some? && old(amount).value > 0.0
      ensures !accepted ==> (store.transactions == old(store.transactions)
                             && amount == old(amount) && description == old(description)
                             && date == old(date))
      ensures accepted ==> (store.transactions
                            == [Transaction(id, old(kind), old(category), old(amount).value,
                                            old(description), old(date), createdAt)]
                               + old(store.transactions))
      ensures accepted ==> amount == None && description == "" && date == today
      ensures kind == old(kind) && category == old(category)
    {
      var t := Submitted(kind, category, amount, description, date);
      if t.None? {
        return false;
      }
      store.AddTransaction(t.value, id, createdAt);
      amount := None;
      description := "";
      date := today;
      return true;
    }
  }
}
