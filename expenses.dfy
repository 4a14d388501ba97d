/**
 * The Expense Analyzer's derived figures: the category filter of the expense
 * list, the grand total, the per-category totals sorted by amount, and the
 * icon/colour lookups of a category id. Amounts are exact reals.
 */
module Expenses {
  import opened Wrappers
  import opened Seqs

  datatype Icon = Home | Car | Utensils | ShoppingCart | Gamepad2 | Heart | GraduationCap | Zap

  /** A category; `name` is the category's display label (`label` is a reserved word in Dafny). */
  datatype Category = Category(id: string, name: string, icon: Icon, color: string)

  /** The fixed category list, in declaration order. */
  const Categories: seq<Category> := [
    Category("housing", "Housing", Home, "bg-blue-500"),
    Category("transportation", "Transportation", Car, "bg-green-500"),
    Category("food", "Food & Dining", Utensils, "bg-red-500"),
    Category("shopping", "Shopping", ShoppingCart, "bg-purple-500"),
    Category("entertainment", "Entertainment", Gamepad2, "bg-yellow-500"),
    Category("healthcare", "Healthcare", Heart, "bg-pink-500"),
    Category("education", "Education", GraduationCap, "bg-indigo-500"),
    Category("utilities", "Utilities", Zap, "bg-orange-500")
  ]

  /** An expense refers to its category by id only; nothing checks that the id is known. */
  datatype Expense = Expense(id: string, date: string, description: string, amount: real, category: string)

  const SampleExpenses: seq<Expense> := [
    Expense("1", "2024-01-15", "Grocery Store", 127.45, "food"),
    Expense("2", "2024-01-14", "Gas Station", 52.3, "transportation"),
    Expense("3", "2024-01-13", "Netflix Subscription", 15.99, "entertainment"),
    Expense("4", "2024-01-12", "Electric Bill", 89.67, "utilities"),
    Expense("5", "2024-01-11", "Restaurant Dinner", 45.2, "food")
  ]

  /** The selection that shows every expense. */
  const AllCategories: string := "all"

  function Amount(e: Expense): real { e.amount }

  function InCategory(id: string): Expense -> bool
  {
    (e: Expense) => e.category == id
  }

  predicate DistinctIds(cats: seq<Category>)
  {
    forall i, j :: 0 <= i < j < |cats| ==> cats[i].id != cats[j].id
  }

  /** The category list declares no id twice. */
  lemma CategoryIdsDistinct()
    ensures DistinctIds(Categories)
  {
  }

  /** Two declared categories with the same id are the same category. */
  lemma SameIdSameCategory(c1: Category, c2: Category)
    requires c1 in Categories && c2 in Categories && c1.id == c2.id
    ensures c1 == c2
  {
    CategoryIdsDistinct();
    var i :| 0 <= i < |Categories| && Categories[i] == c1;
    var j :| 0 <= j < |Categories| && Categories[j] == c2;
    assert !(i < j) && !(j < i);
  }

  predicate Known(id: string, cats: seq<Category>)
  {
    exists c :: c in cats && c.id == id
  }

  // ------------------------------------------------------ filter and total

  /**
   * The list shown under the current selection: all of it for "all", otherwise
   * the expenses whose category is the selected id.
   */
  function FilteredExpenses(es: seq<Expense>, selected: string): (r: seq<Expense>)
    ensures selected == AllCategories ==> r == es
    ensures forall e :: e in r <==> e in es && (selected == AllCategories || e.category == selected)
  {
    if selected == AllCategories then es else Filter(es, InCategory(selected))
  }

  /**
   * Appending an expense appends it to the filtered list exactly when it is
   * shown, so the filtered list keeps the original order.
   */
  lemma FilteredExpensesAppend(es: seq<Expense>, e: Expense, selected: string)
    ensures FilteredExpenses(es + [e], selected)
         == FilteredExpenses(es, selected) + (if selected == AllCategories || e.category == selected then [e] else [])
  {
    assert (es + [e])[..|es|] == es;
  }

  /** The grand total of all amounts (0 for no expenses). */
  function TotalExpenses(es: seq<Expense>): (r: real)
    ensures es == [] ==> r == 0.0
    ensures (forall e :: e in es ==> e.amount >= 0.0) ==> r >= 0.0
  {
    SumOf(es, Amount)
  }

  /** The sum of the amounts of the expenses filed under `id`. */
  function CategorySum(es: seq<Expense>, id: string): (r: real)
    ensures (forall e :: e in es ==> e.category != id) ==> r == 0.0
    ensures (forall e :: e in es ==> e.amount >= 0.0) ==> r >= 0.0
  {
    var matching := Filter(es, InCategory(id));
    assert matching != [] ==> matching[0] in matching;
    assert forall e :: e in matching ==> e in es;
    SumOf(matching, Amount)
  }

  // -------------------------------------------------- per-category totals

  /** A category with the total spent in it. */
  datatype CategoryTotal = CategoryTotal(category: Category, total: real)

  function TotalOf(t: CategoryTotal): real { t.total }

  /** The `map` step: each category of `cats`, in order, with its total. */
  function PerCategory(es: seq<Expense>, cats: seq<Category>): (r: seq<CategoryTotal>)
    ensures |r| == |cats|
    ensures forall i :: 0 <= i < |cats| ==> r[i].category == cats[i] && r[i].total == CategorySum(es, cats[i].id)
  {
    if cats == [] then []
    else
      var c := cats[|cats| - 1];
      PerCategory(es, cats[..|cats| - 1]) + [CategoryTotal(c, CategorySum(es, c.id))]
  }

  predicate SortedByTotal(s: seq<CategoryTotal>)
  {
    forall i, j :: 0 <= i < j < |s| ==> s[i].total >= s[j].total
  }

  /** Every entry of a sorted sequence after the first has a total at most the first's. */
  lemma SortedHeadIsLargest(s: seq<CategoryTotal>)
    requires SortedByTotal(s) && s != []
    ensures forall y :: y in s[1..] ==> y.total <= s[0].total
  {
    forall y | y in s[1..] ensures y.total <= s[0].total {
      var k :| 0 <= k < |s[1..]| && s[1..][k] == y;
      assert s[k + 1] == y;
    }
  }

  /** Place `x` after every entry whose total is at least its own. */
  function InsertByTotal(x: CategoryTotal, s: seq<CategoryTotal>): seq<CategoryTotal>
  {
    if s == [] then [x]
    else if s[0].total >= x.total then [s[0]] + InsertByTotal(x, s[1..])
    else [x] + s
  }

  /** Inserting into a sorted sequence keeps it sorted and adds exactly `x`. */
  lemma {:induction false} InsertByTotalSorted(x: CategoryTotal, s: seq<CategoryTotal>)
    requires SortedByTotal(s)
    ensures SortedByTotal(InsertByTotal(x, s))
    ensures multiset(InsertByTotal(x, s)) == multiset(s) + multiset{x}
    ensures |InsertByTotal(x, s)| == |s| + 1
  {
    if s == [] {
    } else if s[0].total >= x.total {
      InsertByTotalSorted(x, s[1..]);
      InsertPastHeadSorted(x, s);
    } else {
      SortedHeadIsLargest(s);
      PrependLargest(x, s);
    }
  }

  /** The step of InsertByTotalSorted where `x` goes past the head of `s`. */
  lemma InsertPastHeadSorted(x: CategoryTotal, s: seq<CategoryTotal>)
    requires SortedByTotal(s) && s != [] && s[0].total >= x.total
    requires SortedByTotal(InsertByTotal(x, s[1..]))
    requires multiset(InsertByTotal(x, s[1..])) == multiset(s[1..]) + multiset{x}
    ensures SortedByTotal(InsertByTotal(x, s))
    ensures multiset(InsertByTotal(x, s)) == multiset(s) + multiset{x}
  {
    var rest := InsertByTotal(x, s[1..]);
    assert InsertByTotal(x, s) == [s[0]] + rest;
    assert s == [s[0]] + s[1..];
    SortedHeadIsLargest(s);
    forall y | y in rest ensures y.total <= s[0].total {
      assert y in multiset(rest);
    }
    PrependLargest(s[0], rest);
  }

  lemma PrependLargest(x: CategoryTotal, s: seq<CategoryTotal>)
    requires SortedByTotal(s)
    requires forall y :: y in s ==> y.total <= x.total
    ensures SortedByTotal([x] + s)
  {
    var r := [x] + s;
    forall i, j | 0 <= i < j < |r| ensures r[i].total >= r[j].total {
      assert r[j] == s[j - 1];
      if i > 0 {
        assert r[i] == s[i - 1];
      }
    }
  }

  /**
   * `sort((a, b) => b.total - a.total)`: a stable sort into non-increasing
   * totals, here as an insertion sort taking the entries in order.
   */
  function SortByTotal(s: seq<CategoryTotal>): seq<CategoryTotal>
  {
    if s == [] then [] else InsertByTotal(s[|s| - 1], SortByTotal(s[..|s| - 1]))
  }

  /** The sort returns its input rearranged into non-increasing totals. */
  lemma {:induction false} SortByTotalSorted(s: seq<CategoryTotal>)
    ensures SortedByTotal(SortByTotal(s))
    ensures multiset(SortByTotal(s)) == multiset(s)
    ensures |SortByTotal(s)| == |s|
  {
    if s != [] {
      assert s == s[..|s| - 1] + [s[|s| - 1]];
      SortByTotalSorted(s[..|s| - 1]);
      InsertByTotalSorted(s[|s| - 1], SortByTotal(s[..|s| - 1]));
    }
  }

  /** The entries of `s` whose total is `t`, in order. */
  function WithTotal(s: seq<CategoryTotal>, t: real): seq<CategoryTotal>
  {
    Filter(s, HasTotal(t))
  }

  function HasTotal(t: real): CategoryTotal -> bool
  {
    (e: CategoryTotal) => e.total == t
  }

  /** Inserting puts the new entry after the entries of equal total. */
  lemma {:induction false} InsertByTotalStable(x: CategoryTotal, s: seq<CategoryTotal>, t: real)
    requires SortedByTotal(s)
    ensures WithTotal(InsertByTotal(x, s), t) == WithTotal(s, t) + (if x.total == t then [x] else [])
  {
    if s == [] {
      FilterSingleton(x, HasTotal(t));
    } else if s[0].total >= x.total {
      InsertByTotalStable(x, s[1..], t);
      InsertAfterHead(x, s, t);
    } else {
      InsertBeforeHead(x, s, t);
    }
  }

  /** The step of InsertByTotalStable where `x` goes past the head of `s`. */
  lemma InsertAfterHead(x: CategoryTotal, s: seq<CategoryTotal>, t: real)
    requires s != [] && s[0].total >= x.total
    requires WithTotal(InsertByTotal(x, s[1..]), t) == WithTotal(s[1..], t) + (if x.total == t then [x] else [])
    ensures WithTotal(InsertByTotal(x, s), t) == WithTotal(s, t) + (if x.total == t then [x] else [])
  {
    var rest := InsertByTotal(x, s[1..]);
    assert InsertByTotal(x, s) == [s[0]] + rest;
    assert [s[0]] + s[1..] == s;
    FilterConsStep(s[0], s[1..], rest, if x.total == t then [x] else [], HasTotal(t));
  }

  /** The step of InsertByTotalStable where `x` goes in front of a sorted `s` whose head is smaller. */
  lemma InsertBeforeHead(x: CategoryTotal, s: seq<CategoryTotal>, t: real)
    requires SortedByTotal(s) && s != [] && s[0].total < x.total
    ensures WithTotal(InsertByTotal(x, s), t) == WithTotal(s, t) + (if x.total == t then [x] else [])
  {
    FilterSingleton(x, HasTotal(t));
    FilterAppend([x], s, HasTotal(t));
    if x.total == t {
      SortedHeadIsLargest(s);
      assert forall e :: e in s ==> !HasTotal(t)(e) by {
        assert s == [s[0]] + s[1..];
      }
      FilterNone(s, HasTotal(t));
    }
  }

  /** The sort is stable: entries of equal total keep their relative order. */
  lemma {:induction false} SortByTotalStable(s: seq<CategoryTotal>, t: real)
    ensures WithTotal(SortByTotal(s), t) == WithTotal(s, t)
  {
    if s != [] {
      SortByTotalStable(s[..|s| - 1], t);
      SortByTotalSorted(s[..|s| - 1]);
      InsertByTotalStable(s[|s| - 1], SortByTotal(s[..|s| - 1]), t);
    }
  }

  /** The category totals as the panel lists them: per category, largest total first. */
  function CategoryTotals(es: seq<Expense>): seq<CategoryTotal>
  {
    SortByTotal(PerCategory(es, Categories))
  }

  /** Each entry of a distinct sequence occurs in it exactly once. */
  lemma {:induction false} DistinctOccursOnce<T>(s: seq<T>, x: T)
    requires forall i, j :: 0 <= i < j < |s| ==> s[i] != s[j]
    requires x in s
    ensures multiset(s)[x] == 1
  {
    assert s == [s[0]] + s[1..];
    if x == s[0] {
      assert x !in s[1..];
    } else {
      DistinctOccursOnce(s[1..], x);
    }
  }

  /**
   * Sorting the per-category list of distinct categories gives a sorted
   * rearrangement of it that keeps exactly one entry per category.
   */
  lemma SortedPerCategory(es: seq<Expense>, cats: seq<Category>)
    requires DistinctIds(cats)
    ensures SortedByTotal(SortByTotal(PerCategory(es, cats)))
    ensures multiset(SortByTotal(PerCategory(es, cats))) == multiset(PerCategory(es, cats))
    ensures forall e :: e in SortByTotal(PerCategory(es, cats)) ==> e.category in cats && e.total == CategorySum(es, e.category.id)
    ensures forall c :: c in cats ==> multiset(SortByTotal(PerCategory(es, cats)))[CategoryTotal(c, CategorySum(es, c.id))] == 1
  {
    var p := PerCategory(es, cats);
    var r := SortByTotal(p);
    SortByTotalSorted(p);
    forall e | e in r ensures e.category in cats && e.total == CategorySum(es, e.category.id) {
      assert e in multiset(p);
      var k :| 0 <= k < |p| && p[k] == e;
    }
    assert forall i, j :: 0 <= i < j < |p| ==> p[i] != p[j] by {
      forall i, j | 0 <= i < j < |p| ensures p[i] != p[j] {
        assert p[i].category.id == cats[i].id && p[j].category.id == cats[j].id;
      }
    }
    forall c | c in cats ensures multiset(r)[CategoryTotal(c, CategorySum(es, c.id))] == 1 {
      var k :| 0 <= k < |cats| && cats[k] == c;
      assert p[k] == CategoryTotal(c, CategorySum(es, c.id));
      DistinctOccursOnce(p, p[k]);
    }
  }

  /**
   * The category totals hold one entry per declared category, each with the sum
   * of that category's amounts, in non-increasing order of total.
   */
  lemma CategoryTotalsSpec(es: seq<Expense>)
    ensures |CategoryTotals(es)| == |Categories|
    ensures SortedByTotal(CategoryTotals(es))
    ensures forall e :: e in CategoryTotals(es) ==> e.category in Categories && e.total == CategorySum(es, e.category.id)
    ensures forall c :: c in Categories ==> multiset(CategoryTotals(es))[CategoryTotal(c, CategorySum(es, c.id))] == 1
  {
    CategoryIdsDistinct();
    SortedPerCategory(es, Categories);
    SortByTotalSorted(PerCategory(es, Categories));
  }

  /** Categories with equal totals appear in declaration order (the sort is stable). */
  lemma CategoryTotalsTiesInDeclarationOrder(es: seq<Expense>, t: real)
    ensures WithTotal(CategoryTotals(es), t) == WithTotal(PerCategory(es, Categories), t)
  {
    SortByTotalStable(PerCategory(es, Categories), t);
  }

  // ------------------------------------------------------------ conservation

  function IsKnownIn(cats: seq<Category>): Expense -> bool
  {
    (e: Expense) => Known(e.category, cats)
  }

  function IsUnknownIn(cats: seq<Category>): Expense -> bool
  {
    (e: Expense) => !Known(e.category, cats)
  }

  /** The amounts filed under an id that no declared category has: counted in no bucket. */
  function UncategorizedTotal(es: seq<Expense>): real
  {
    SumOf(es, Masked(IsUnknownIn(Categories), Amount))
  }

  lemma {:induction false} InsertByTotalSum(x: CategoryTotal, s: seq<CategoryTotal>, f: CategoryTotal -> real)
    ensures SumOf(InsertByTotal(x, s), f) == SumOf(s, f) + f(x)
  {
    SumOfSingleton(x, f);
    if s == [] {
    } else if s[0].total >= x.total {
      InsertByTotalSum(x, s[1..], f);
      SumOfSingleton(s[0], f);
      SumOfAppend([s[0]], InsertByTotal(x, s[1..]), f);
      SumOfAppend([s[0]], s[1..], f);
      assert s == [s[0]] + s[1..];
    } else {
      SumOfAppend([x], s, f);
    }
  }

  lemma {:induction false} SortByTotalSum(s: seq<CategoryTotal>, f: CategoryTotal -> real)
    ensures SumOf(SortByTotal(s), f) == SumOf(s, f)
  {
    if s != [] {
      SortByTotalSum(s[..|s| - 1], f);
      InsertByTotalSum(s[|s| - 1], SortByTotal(s[..|s| - 1]), f);
    }
  }

  /** Declared in `cs + [c]` means declared in `cs` or being `c`, and never both. */
  lemma KnownSplit(cs: seq<Category>, c: Category, e: Expense)
    requires DistinctIds(cs + [c])
    ensures Masked(IsKnownIn(cs + [c]), Amount)(e)
         == Masked(IsKnownIn(cs), Amount)(e) + Masked(InCategory(c.id), Amount)(e)
  {
    var cats := cs + [c];
    assert Known(e.category, cats) <==> Known(e.category, cs) || e.category == c.id by {
      assert c in cats;
      assert forall d :: d in cats <==> d in cs || d == c;
    }
    if Known(e.category, cs) {
      var d :| d in cs && d.id == e.category;
      var k :| 0 <= k < |cs| && cs[k] == d;
      assert cats[k] == d && cats[|cs|] == c;
    }
  }

  /** Summing the per-category totals sums exactly the amounts whose id is one of `cats`. */
  lemma {:induction false} PerCategorySum(es: seq<Expense>, cats: seq<Category>)
    requires DistinctIds(cats)
    ensures SumOf(PerCategory(es, cats), TotalOf) == SumOf(es, Masked(IsKnownIn(cats), Amount))
  {
    if cats == [] {
      SumOfZero(es, Masked(IsKnownIn(cats), Amount));
    } else {
      var cs, c := cats[..|cats| - 1], cats[|cats| - 1];
      assert cats == cs + [c];
      var p := PerCategory(es, cs);
      var entry := CategoryTotal(c, CategorySum(es, c.id));
      assert PerCategory(es, cats) == p + [entry];
      assert (p + [entry])[..|p|] == p;
      assert SumOf(PerCategory(es, cats), TotalOf) == SumOf(p, TotalOf) + CategorySum(es, c.id);
      assert DistinctIds(cs);
      PerCategorySum(es, cs);
      SumOfFilter(es, InCategory(c.id), Amount);
      forall e | e in es
        ensures Masked(IsKnownIn(cats), Amount)(e)
             == Masked(IsKnownIn(cs), Amount)(e) + Masked(InCategory(c.id), Amount)(e)
      {
        KnownSplit(cs, c, e);
      }
      SumOfAdd(es, Masked(IsKnownIn(cs), Amount), Masked(InCategory(c.id), Amount), Masked(IsKnownIn(cats), Amount));
    }
  }

  /**
   * The category totals add up to the grand total less the amounts filed under
   * unknown ids: there is no "uncategorized" bucket to catch them.
   */
  lemma CategoryTotalsConservation(es: seq<Expense>)
    ensures SumOf(CategoryTotals(es), TotalOf) + UncategorizedTotal(es) == TotalExpenses(es)
  {
    CategoryIdsDistinct();
    ConservationIn(es, Categories);
  }

  /** CategoryTotalsConservation for any list of categories with distinct ids. */
  lemma ConservationIn(es: seq<Expense>, cats: seq<Category>)
    requires DistinctIds(cats)
    ensures SumOf(SortByTotal(PerCategory(es, cats)), TotalOf) + SumOf(es, Masked(IsUnknownIn(cats), Amount))
         == SumOf(es, Amount)
  {
    SortByTotalSum(PerCategory(es, cats), TotalOf);
    PerCategorySum(es, cats);
    KnownPlusUnknown(es, cats);
  }

  /** Every amount is either filed under one of `cats` or not, so the two partial sums make the total. */
  lemma KnownPlusUnknown(es: seq<Expense>, cats: seq<Category>)
    ensures SumOf(es, Masked(IsKnownIn(cats), Amount)) + SumOf(es, Masked(IsUnknownIn(cats), Amount))
         == SumOf(es, Amount)
  {
    var known, unknown := Masked(IsKnownIn(cats), Amount), Masked(IsUnknownIn(cats), Amount);
    forall e | e in es ensures Amount(e) == known(e) + unknown(e) {
      if Known(e.category, cats) {
        assert known(e) == Amount(e) && unknown(e) == 0.0;
      } else {
        assert known(e) == 0.0 && unknown(e) == Amount(e);
      }
    }
    SumOfAdd(es, known, unknown, Amount);
  }

  /**
   * With positive amounts, the category totals add up to the grand total exactly
   * when every expense is filed under a declared category.
   */
  lemma CategoryTotalsMatchGrandTotal(es: seq<Expense>)
    requires forall e :: e in es ==> e.amount > 0.0
    ensures SumOf(CategoryTotals(es), TotalOf) == TotalExpenses(es)
        <==> forall e :: e in es ==> Known(e.category, Categories)
  {
    CategoryTotalsConservation(es);
    if forall e :: e in es ==> Known(e.category, Categories) {
      SumOfZero(es, Masked(IsUnknownIn(Categories), Amount));
    } else {
      var w :| w in es && !Known(w.category, Categories);
      SumOfPositive(es, Masked(IsUnknownIn(Categories), Amount), w);
    }
  }

  // ---------------------------------------------------------- sample data

  /** The sum over the sample expenses, one prefix at a time. */
  lemma SampleSums(f: Expense -> real)
    ensures SumOf(SampleExpenses, f)
         == f(SampleExpenses[0]) + f(SampleExpenses[1]) + f(SampleExpenses[2]) + f(SampleExpenses[3]) + f(SampleExpenses[4])
  {
    var s := SampleExpenses;
    assert s[..1][..0] == [];
    assert SumOf(s[..1], f) == f(s[0]);
    assert s[..2][..1] == s[..1];
    assert SumOf(s[..2], f) == SumOf(s[..1], f) + f(s[1]);
    assert s[..3][..2] == s[..2];
    assert SumOf(s[..3], f) == SumOf(s[..2], f) + f(s[2]);
    assert s[..4][..3] == s[..3];
    assert SumOf(s[..4], f) == SumOf(s[..3], f) + f(s[3]);
    assert s[..5][..4] == s[..4] && s[..5] == s;
  }

  /** One category's sum over the sample, with the terms of other categories set to 0. */
  lemma SampleCategorySum(id: string)
    ensures CategorySum(SampleExpenses, id)
         == Masked(InCategory(id), Amount)(SampleExpenses[0]) + Masked(InCategory(id), Amount)(SampleExpenses[1])
          + Masked(InCategory(id), Amount)(SampleExpenses[2]) + Masked(InCategory(id), Amount)(SampleExpenses[3])
          + Masked(InCategory(id), Amount)(SampleExpenses[4])
  {
    SumOfFilter(SampleExpenses, InCategory(id), Amount);
    SampleSums(Masked(InCategory(id), Amount));
  }

  /** The sample category sums: food, utilities, transportation, entertainment, and 0 elsewhere. */
  lemma SampleCategorySums()
    ensures TotalExpenses(SampleExpenses) == 330.61
    ensures CategorySum(SampleExpenses, "food") == 172.65
    ensures CategorySum(SampleExpenses, "utilities") == 89.67
    ensures CategorySum(SampleExpenses, "transportation") == 52.30
    ensures CategorySum(SampleExpenses, "entertainment") == 15.99
    ensures CategorySum(SampleExpenses, "housing") == 0.0
    ensures CategorySum(SampleExpenses, "shopping") == 0.0
    ensures CategorySum(SampleExpenses, "healthcare") == 0.0
    ensures CategorySum(SampleExpenses, "education") == 0.0
  {
    SampleSums(Amount);
    SampleCategorySum("food");
    SampleCategorySum("utilities");
    SampleCategorySum("transportation");
    SampleCategorySum("entertainment");
    SampleCategorySum("housing");
    SampleCategorySum("shopping");
    SampleCategorySum("healthcare");
    SampleCategorySum("education");
  }

  /** Insertion lands after the entries at least as large and before the first smaller one. */
  lemma {:induction false} InsertByTotalAt(x: CategoryTotal, s: seq<CategoryTotal>, k: nat)
    requires k <= |s|
    requires forall i :: 0 <= i < k ==> s[i].total >= x.total
    requires k < |s| ==> s[k].total < x.total
    ensures InsertByTotal(x, s) == s[..k] + [x] + s[k..]
  {
    if k > 0 {
      InsertByTotalAt(x, s[1..], k - 1);
      assert s[..k] == [s[0]] + s[1..][..k - 1];
      assert s[k..] == s[1..][k - 1..];
    }
  }

  lemma CategoryIdsInOrder()
    ensures Categories[0].id == "housing" && Categories[1].id == "transportation"
    ensures Categories[2].id == "food" && Categories[3].id == "shopping"
    ensures Categories[4].id == "entertainment" && Categories[5].id == "healthcare"
    ensures Categories[6].id == "education" && Categories[7].id == "utilities"
  {
  }

  /**
   * The sample's per-category list, in declaration order. The sample and the
   * category list are parameters pinned by the precondition, and the display is
   * built in SampleDisplay, so that the solver does not unfold the two constant
   * lists more than once: this keeps the proof fast.
   */
  lemma SamplePerCategory(es: seq<Expense>, cats: seq<Category>)
    requires es == SampleExpenses && cats == Categories
    ensures PerCategory(es, cats) == [
      CategoryTotal(cats[0], 0.0), CategoryTotal(cats[1], 52.30),
      CategoryTotal(cats[2], 172.65), CategoryTotal(cats[3], 0.0),
      CategoryTotal(cats[4], 15.99), CategoryTotal(cats[5], 0.0),
      CategoryTotal(cats[6], 0.0), CategoryTotal(cats[7], 89.67)]
  {
    CategoryIdsInOrder();
    SampleCategorySums();
    var p := PerCategory(es, cats);
    assert p[0] == CategoryTotal(cats[0], 0.0) && p[1] == CategoryTotal(cats[1], 52.30);
    assert p[2] == CategoryTotal(cats[2], 172.65) && p[3] == CategoryTotal(cats[3], 0.0);
    assert p[4] == CategoryTotal(cats[4], 15.99) && p[5] == CategoryTotal(cats[5], 0.0);
    assert p[6] == CategoryTotal(cats[6], 0.0) && p[7] == CategoryTotal(cats[7], 89.67);
    SampleDisplay(p, cats);
  }

  /** Eight entries known one index at a time are the display of those entries (a separate step for speed). */
  lemma SampleDisplay(p: seq<CategoryTotal>, cats: seq<Category>)
    requires |p| == 8 && |cats| == 8
    requires p[0] == CategoryTotal(cats[0], 0.0) && p[1] == CategoryTotal(cats[1], 52.30)
    requires p[2] == CategoryTotal(cats[2], 172.65) && p[3] == CategoryTotal(cats[3], 0.0)
    requires p[4] == CategoryTotal(cats[4], 15.99) && p[5] == CategoryTotal(cats[5], 0.0)
    requires p[6] == CategoryTotal(cats[6], 0.0) && p[7] == CategoryTotal(cats[7], 89.67)
    ensures p == [
      CategoryTotal(cats[0], 0.0), CategoryTotal(cats[1], 52.30),
      CategoryTotal(cats[2], 172.65), CategoryTotal(cats[3], 0.0),
      CategoryTotal(cats[4], 15.99), CategoryTotal(cats[5], 0.0),
      CategoryTotal(cats[6], 0.0), CategoryTotal(cats[7], 89.67)]
  {
  }

  /** One step of the insertion sort over a known prefix. */
  lemma SortStep(p: seq<CategoryTotal>, k: nat, before: seq<CategoryTotal>, at: nat)
    requires k < |p| && SortByTotal(p[..k]) == before && at <= |before|
    requires forall i :: 0 <= i < at ==> before[i].total >= p[k].total
    requires at < |before| ==> before[at].total < p[k].total
    ensures SortByTotal(p[..k + 1]) == before[..at] + [p[k]] + before[at..]
  {
    assert p[..k + 1][..k] == p[..k];
    InsertByTotalAt(p[k], before, at);
  }

  predicate HasSampleTotals(p: seq<CategoryTotal>)
  {
    |p| == 8 &&
    p[0].total == 0.0 && p[1].total == 52.30 && p[2].total == 172.65 && p[3].total == 0.0 &&
    p[4].total == 15.99 && p[5].total == 0.0 && p[6].total == 0.0 && p[7].total == 89.67
  }

  lemma SortSampleFirstFour(p: seq<CategoryTotal>)
    requires HasSampleTotals(p)
    ensures SortByTotal(p[..4]) == [p[2], p[1], p[0], p[3]]
  {
    assert p[..0] == [];
    SortStep(p, 0, [], 0);
    assert [][..0] + [p[0]] + [][0..] == [p[0]];
    SortStep(p, 1, [p[0]], 0);
    assert [p[0]][..0] + [p[1]] + [p[0]][0..] == [p[1], p[0]];
    SortStep(p, 2, [p[1], p[0]], 0);
    assert [p[1], p[0]][..0] + [p[2]] + [p[1], p[0]][0..] == [p[2], p[1], p[0]];
    SortStep(p, 3, [p[2], p[1], p[0]], 3);
  }

  lemma SortSampleNextTwo(p: seq<CategoryTotal>)
    requires HasSampleTotals(p)
    ensures SortByTotal(p[..6]) == [p[2], p[1], p[4], p[0], p[3], p[5]]
  {
    SortSampleFirstFour(p);
    var b4 := [p[2], p[1], p[0], p[3]];
    SortStep(p, 4, b4, 2);
    assert b4[..2] + [p[4]] + b4[2..] == [p[2], p[1], p[4], p[0], p[3]];
    SortStep(p, 5, [p[2], p[1], p[4], p[0], p[3]], 5);
  }

  /** Sorting eight entries with the sample's totals, step by step. */
  lemma SortSampleTotals(p: seq<CategoryTotal>)
    requires HasSampleTotals(p)
    ensures SortByTotal(p) == [p[2], p[7], p[1], p[4], p[0], p[3], p[5], p[6]]
  {
    SortSampleNextTwo(p);
    var b6 := [p[2], p[1], p[4], p[0], p[3], p[5]];
    SortStep(p, 6, b6, 6);
    assert b6[..6] + [p[6]] + b6[6..] == b6 + [p[6]];
    var b7 := b6 + [p[6]];
    SortStep(p, 7, b7, 1);
    assert b7[..1] + [p[7]] + b7[1..] == [p[2], p[7], p[1], p[4], p[0], p[3], p[5], p[6]];
    assert p[..8] == p;
  }

  /**
   * The sample's category list: food, utilities, transportation, entertainment,
   * then the four empty categories in declaration order.
   */
  lemma SampleCategoryTotals()
    ensures CategoryTotals(SampleExpenses) == [
      CategoryTotal(Categories[2], 172.65), CategoryTotal(Categories[7], 89.67),
      CategoryTotal(Categories[1], 52.30), CategoryTotal(Categories[4], 15.99),
      CategoryTotal(Categories[0], 0.0), CategoryTotal(Categories[3], 0.0),
      CategoryTotal(Categories[5], 0.0), CategoryTotal(Categories[6], 0.0)]
  {
    SamplePerCategory(SampleExpenses, Categories);
    SortSampleTotals(PerCategory(SampleExpenses, Categories));
  }

  // -------------------------------------------------------------- lookups

  function HasId(id: string): Category -> bool
  {
    (c: Category) => c.id == id
  }

  /** `EXPENSE_CATEGORIES.find(cat => cat.id === id)`. */
  function FindCategory(id: string): (r: Option<Category>)
    ensures r.Some? <==> Known(id, Categories)
    ensures r.Some? ==> r.value in Categories && r.value.id == id
  {
    FindFirst(Categories, HasId(id))
  }

  /** The icon of a declared category, or the shopping cart for an unknown id. */
  function CategoryIcon(id: string): (r: Icon)
    ensures forall c :: c in Categories && c.id == id ==> r == c.icon
    ensures !Known(id, Categories) ==> r == ShoppingCart
  {
    match FindCategory(id)
    case Some(c) =>
      assert forall d :: d in Categories && d.id == id ==> d == c by {
        forall d | d in Categories && d.id == id ensures d == c {
          SameIdSameCategory(d, c);
        }
      }
      c.icon
    case None => ShoppingCart
  }

  /** The colour of a declared category, or 'bg-gray-500' for an unknown id. */
  function CategoryColor(id: string): (r: string)
    ensures forall c :: c in Categories && c.id == id ==> r == c.color
    ensures !Known(id, Categories) ==> r == "bg-gray-500"
  {
    match FindCategory(id)
    case Some(c) =>
      assert forall d :: d in Categories && d.id == id ==> d == c by {
        forall d | d in Categories && d.id == id ensures d == c {
          SameIdSameCategory(d, c);
        }
      }
      c.color
    case None => "bg-gray-500"
  }
}
