/** The pie chart's default-category insertion: before any data is derived, the selected account
    list is extended in place with a synthetic `Income` (when expenses are selected without
    income) or, failing that, a synthetic `Assets` (when liabilities are selected without
    assets). */
module DefaultCategory {
  import opened Sequences
  import opened AccountPaths

  /** The caller-owned account array that the pie chart pushes into. */
  class AccountList {
    var items: seq<string>

    constructor (initial: seq<string>)
      ensures items == initial
    {
      items := initial;
    }

    /** `Array.prototype.push` */
    method Push(a: string)
      modifies this
      ensures items == old(items) + [a]
    {
      items := items + [a];
    }
  }

  /** The category the insertion appends to `accounts`, if any. The Income rule is tested first;
      the Assets rule only when it does not fire. */
  function DefaultFor(accounts: seq<string>): Option<string>
  {
    if |WithPrefix(accounts, INCOME)| == 0 && |WithPrefix(accounts, EXPENSES)| > 0 then Some(INCOME)
    else if |WithPrefix(accounts, ASSETS)| == 0 && |WithPrefix(accounts, LIABILITIES)| > 0 then Some(ASSETS)
    else None
  }

  /** The account list after the insertion. The original accounts keep their positions and at
      most one account is appended. */
  function WithDefaultCategory(accounts: seq<string>): (r: seq<string>)
    ensures accounts <= r
    ensures |accounts| <= |r| <= |accounts| + 1
  {
    match DefaultFor(accounts)
    case None => accounts
    case Some(c) => accounts + [c]
  }

  /** The insertion as the source performs it: a `push` onto the caller's array. */
  method InsertDefaultCategory(accounts: AccountList)
    modifies accounts
    ensures accounts.items == WithDefaultCategory(old(accounts.items))
  {
    if |WithPrefix(accounts.items, INCOME)| == 0 && |WithPrefix(accounts.items, EXPENSES)| > 0 {
      accounts.Push(INCOME);
    } else if |WithPrefix(accounts.items, ASSETS)| == 0 && |WithPrefix(accounts.items, LIABILITIES)| > 0 {
      accounts.Push(ASSETS);
    } else {
    }
  }

  /** The Income rule fires exactly when no selected account starts with `Income` and some
      selected account starts with `Expenses`. */
  predicate IncomeRule(accounts: seq<string>)
  {
    !AnyWithPrefix(accounts, INCOME) && AnyWithPrefix(accounts, EXPENSES)
  }

  /** The Assets rule's own condition: no `Assets` account and some `Liabilities` account. */
  predicate AssetsRule(accounts: seq<string>)
  {
    !AnyWithPrefix(accounts, ASSETS) && AnyWithPrefix(accounts, LIABILITIES)
  }

  /** `DefaultFor` in terms of which accounts are present. */
  lemma DefaultForPresence(accounts: seq<string>)
    ensures DefaultFor(accounts) == Some(INCOME) <==> IncomeRule(accounts)
    ensures DefaultFor(accounts) == Some(ASSETS) <==> !IncomeRule(accounts) && AssetsRule(accounts)
    ensures DefaultFor(accounts) == None <==> !IncomeRule(accounts) && !AssetsRule(accounts)
  {
    WithPrefixEmptyIff(accounts, INCOME);
    WithPrefixEmptyIff(accounts, EXPENSES);
    WithPrefixEmptyIff(accounts, ASSETS);
    WithPrefixEmptyIff(accounts, LIABILITIES);
    assert INCOME[0] != ASSETS[0];
  }

  /** Exactly one `Income` is appended at the end if and only if the Income rule holds. */
  lemma IncomeAppendedIff(accounts: seq<string>)
    ensures WithDefaultCategory(accounts) == accounts + [INCOME] <==> IncomeRule(accounts)
  {
    DefaultForPresence(accounts);
    assert INCOME[0] != ASSETS[0];
    if WithDefaultCategory(accounts) == accounts + [INCOME] {
      assert Last(WithDefaultCategory(accounts)) == INCOME;
    }
  }

  /** Exactly one `Assets` is appended at the end if and only if the Income rule does not hold
      and the Assets rule does. */
  lemma AssetsAppendedIff(accounts: seq<string>)
    ensures WithDefaultCategory(accounts) == accounts + [ASSETS] <==> !IncomeRule(accounts) && AssetsRule(accounts)
  {
    DefaultForPresence(accounts);
    assert INCOME[0] != ASSETS[0];
    if WithDefaultCategory(accounts) == accounts + [ASSETS] {
      assert Last(WithDefaultCategory(accounts)) == ASSETS;
    }
  }

  /** In every other case the list is left as it was. */
  lemma UnchangedIff(accounts: seq<string>)
    ensures WithDefaultCategory(accounts) == accounts <==> !IncomeRule(accounts) && !AssetsRule(accounts)
  {
    DefaultForPresence(accounts);
  }

  /** After the insertion a selected Expenses account always has an Income account beside it; a
      selected Liabilities account has an Assets account beside it unless the Income rule took
      the insertion's single slot. */
  lemma DenominatorPresent(accounts: seq<string>)
    ensures AnyWithPrefix(accounts, EXPENSES) ==> AnyWithPrefix(WithDefaultCategory(accounts), INCOME)
    ensures AnyWithPrefix(accounts, LIABILITIES) && !IncomeRule(accounts) ==> AnyWithPrefix(WithDefaultCategory(accounts), ASSETS)
  {
    DefaultForPresence(accounts);
    CategoryPrefixes();
    AnyWithPrefixSnoc(accounts, INCOME, INCOME);
    AnyWithPrefixSnoc(accounts, ASSETS, ASSETS);
  }

  /** When expenses and liabilities are selected with neither income nor assets, only `Income`
      is appended and the list still has no `Assets` account. */
  lemma ExpensesOutrankLiabilities(accounts: seq<string>)
    requires IncomeRule(accounts) && AssetsRule(accounts)
    ensures WithDefaultCategory(accounts) == accounts + [INCOME]
    ensures !AnyWithPrefix(WithDefaultCategory(accounts), ASSETS)
  {
    IncomeAppendedIff(accounts);
    CategoryPrefixes();
    AnyWithPrefixSnoc(accounts, INCOME, ASSETS);
  }

  /** Running the insertion again on its own output (as a second render over the same mutated
      array would) changes nothing, except in the case where both rules held: there the second
      run appends the `Assets` the first run skipped. */
  lemma ReinsertionIff(accounts: seq<string>)
    ensures WithDefaultCategory(WithDefaultCategory(accounts)) == WithDefaultCategory(accounts)
            <==> !(IncomeRule(accounts) && AssetsRule(accounts))
    ensures IncomeRule(accounts) && AssetsRule(accounts) ==>
            WithDefaultCategory(WithDefaultCategory(accounts)) == accounts + [INCOME, ASSETS]
  {
    var once := WithDefaultCategory(accounts);
    DefaultForPresence(accounts);
    DefaultForPresence(once);
    CategoryPrefixes();
    match DefaultFor(accounts)
    case None =>
    case Some(c) =>
      AnyWithPrefixSnoc(accounts, c, INCOME);
      AnyWithPrefixSnoc(accounts, c, EXPENSES);
      AnyWithPrefixSnoc(accounts, c, ASSETS);
      AnyWithPrefixSnoc(accounts, c, LIABILITIES);
      if IncomeRule(accounts) && AssetsRule(accounts) {
        assert accounts + [INCOME] + [ASSETS] == accounts + [INCOME, ASSETS];
      }
  }

  /** The insertion settles after two runs. */
  lemma InsertionSettles(accounts: seq<string>)
    ensures WithDefaultCategory(WithDefaultCategory(WithDefaultCategory(accounts)))
            == WithDefaultCategory(WithDefaultCategory(accounts))
  {
    var once := WithDefaultCategory(accounts);
    ReinsertionIff(accounts);
    ReinsertionIff(once);
    if IncomeRule(accounts) && AssetsRule(accounts) {
      DefaultForPresence(accounts);
      DefaultForPresence(once);
      CategoryPrefixes();
      AnyWithPrefixSnoc(accounts, INCOME, ASSETS);
      AnyWithPrefixSnoc(accounts, INCOME, INCOME);
      AnyWithPrefixSnoc(once, ASSETS, INCOME);
      AnyWithPrefixSnoc(once, ASSETS, EXPENSES);
      AnyWithPrefixSnoc(once, ASSETS, ASSETS);
      assert !(IncomeRule(once) && AssetsRule(once));
    }
  }

  /** A single selected expense account gets exactly one synthetic `Income` appended. */
  lemma SingleExpenseGetsIncome()
    ensures WithDefaultCategory(["Expenses:Rent"]) == ["Expenses:Rent", INCOME]
  {
    var s := ["Expenses:Rent"];
    assert StartsWith(s[0], EXPENSES) by {
      assert s[0][..|EXPENSES|] == EXPENSES;
    }
    assert !StartsWith(s[0], INCOME) by {
      assert s[0][..|INCOME|][0] != INCOME[0];
    }
    assert IncomeRule(s);
    IncomeAppendedIff(s);
  }
}
