/** Account paths and the four top-level categories the pie chart recognises by prefix. */
module AccountPaths {
  import opened Sequences

  const INCOME: string := "Income"
  const ASSETS: string := "Assets"
  const EXPENSES: string := "Expenses"
  const LIABILITIES: string := "Liabilities"

  /** `s.startsWith(prefix)` */
  predicate StartsWith(s: string, prefix: string)
  {
    |prefix| <= |s| && s[..|prefix|] == prefix
  }

  /** `accounts.filter((x) => x.startsWith(prefix))` */
  function WithPrefix(accounts: seq<string>, prefix: string): seq<string>
  {
    Filter(accounts, (a: string) => StartsWith(a, prefix))
  }

  /** Some account in the list starts with `prefix`. */
  predicate AnyWithPrefix(accounts: seq<string>, prefix: string)
  {
    exists i :: 0 <= i < |accounts| && StartsWith(accounts[i], prefix)
  }

  /** The filter the source tests is empty exactly when no account has the prefix. */
  lemma WithPrefixEmptyIff(accounts: seq<string>, prefix: string)
    ensures |WithPrefix(accounts, prefix)| == 0 <==> !AnyWithPrefix(accounts, prefix)
  {
    FilterEmptyIff(accounts, (a: string) => StartsWith(a, prefix));
  }

  /** Appending one account adds a match exactly when that account has the prefix. */
  lemma AnyWithPrefixSnoc(accounts: seq<string>, a: string, prefix: string)
    ensures AnyWithPrefix(accounts + [a], prefix) <==> AnyWithPrefix(accounts, prefix) || StartsWith(a, prefix)
  {
    var s := accounts + [a];
    if AnyWithPrefix(accounts, prefix) {
      var i :| 0 <= i < |accounts| && StartsWith(accounts[i], prefix);
      assert s[i] == accounts[i];
    }
    if StartsWith(a, prefix) {
      assert s[|accounts|] == a;
    }
    if AnyWithPrefix(s, prefix) {
      var i :| 0 <= i < |s| && StartsWith(s[i], prefix);
      if i < |accounts| {
        assert s[i] == accounts[i];
      }
    }
  }

  /** Which of the category names start with which: each starts with itself, and neither of the
      two synthetic categories starts with another category name. */
  lemma CategoryPrefixes()
    ensures StartsWith(INCOME, INCOME) && StartsWith(ASSETS, ASSETS)
    ensures !StartsWith(INCOME, ASSETS) && !StartsWith(INCOME, EXPENSES) && !StartsWith(INCOME, LIABILITIES)
    ensures !StartsWith(ASSETS, INCOME) && !StartsWith(ASSETS, EXPENSES) && !StartsWith(ASSETS, LIABILITIES)
  {
    assert INCOME[..|INCOME|] == INCOME;
    assert ASSETS[..|ASSETS|] == ASSETS;
    assert INCOME[..|ASSETS|][0] != ASSETS[0];
    assert ASSETS[..|INCOME|][0] != INCOME[0];
  }
}
