/** The holdings list view: a filter by asset class, a sort by one of five
    fields in either direction, and the click handler that switches between
    them. */
module AssetList {
  import opened Wrappers
  import opened PortfolioData

  datatype SortField = NameField | ValueField | AllocationField | DailyChangeField | YieldField

  datatype SortOrder = Asc | Desc

  /** The filter buttons: every holding, or one asset class. */
  datatype TypeFilter = AllTypes | OnlyType(assetType: AssetType)

  // ---------------------------------------------------------------------------
  // The sort-toggle state machine

  /** Clicking a column header: the current field flips the order; another
      field becomes the sort field, descending. */
  function AfterSortClick(field: SortField, order: SortOrder, clicked: SortField): (next: (SortField, SortOrder))
    ensures next.0 == clicked
    ensures clicked == field ==> next.1 != order
    ensures clicked != field ==> next.1 == Desc
  {
    if field == clicked then (field, if order == Asc then Desc else Asc)
    else (clicked, Desc)
  }

  /** Clicking the same header twice restores the order. */
  lemma SortClickTwiceRestores(field: SortField, order: SortOrder)
    ensures var once := AfterSortClick(field, order, field);
      AfterSortClick(once.0, once.1, field) == (field, order)
  {
  }

  /** Whatever the state, clicking a new header and then the same one again
      sorts by that field ascending. */
  lemma NewFieldThenAgainIsAscending(field: SortField, order: SortOrder, clicked: SortField)
    requires clicked != field
    ensures var once := AfterSortClick(field, order, clicked);
      AfterSortClick(once.0, once.1, clicked) == (clicked, Asc)
  {
  }

  // ---------------------------------------------------------------------------
  // Filter

  /** `assetTypeFilter === 'all' || asset.type === assetTypeFilter`. */
  predicate Matches(filter: TypeFilter, a: Asset)
  {
    filter.AllTypes? || a.assetType == filter.assetType
  }

  /** The holdings the filter keeps, in their order. */
  function FilterAssets(assets: seq<Asset>, filter: TypeFilter): (r: seq<Asset>)
    ensures forall a :: a in r <==> a in assets && Matches(filter, a)
    ensures filter == AllTypes ==> r == assets
    ensures |r| <= |assets|
  {
    match filter
    case AllTypes => assets
    case OnlyType(t) => OfType(assets, t)
  }

  /** Filtering keeps the order: it distributes over concatenation. */
  lemma {:induction false} FilterAssetsAppend(xs: seq<Asset>, ys: seq<Asset>, filter: TypeFilter)
    ensures FilterAssets(xs + ys, filter) == FilterAssets(xs, filter) + FilterAssets(ys, filter)
  {
    if filter.OnlyType? {
      OfTypeAppend(xs, ys, filter.assetType);
    } else {
      assert FilterAssets(xs + ys, filter) == xs + ys;
    }
  }

  /** Every class filter picks its holdings out of the full list, and the
      class filters together keep each holding exactly once. */
  lemma {:induction false} FiltersPartition(assets: seq<Asset>)
    ensures |FilterAssets(assets, OnlyType(Equity))| + |FilterAssets(assets, OnlyType(FixedIncome))|
          + |FilterAssets(assets, OnlyType(Cash))| + |FilterAssets(assets, OnlyType(Alternative))| == |assets|
  {
    if assets != [] {
      var init := assets[..|assets| - 1];
      FiltersPartition(init);
    }
  }

  // ---------------------------------------------------------------------------
  // Comparator

  /** JavaScript's `<` on strings: lexicographic by character code. */
  predicate LexLess(s: string, t: string)
  {
    if s == [] then t != []
    else if t == [] then false
    else if s[0] != t[0] then s[0] < t[0]
    else LexLess(s[1..], t[1..])
  }

  lemma {:induction false} LexLessIrreflexive(s: string)
    ensures !LexLess(s, s)
  {
    if s != [] {
      LexLessIrreflexive(s[1..]);
    }
  }

  lemma {:induction false} LexLessAsymmetric(s: string, t: string)
    ensures LexLess(s, t) ==> !LexLess(t, s)
  {
    if s != [] && t != [] && s[0] == t[0] {
      LexLessAsymmetric(s[1..], t[1..]);
    }
  }

  lemma {:induction false} LexLessTransitive(s: string, t: string, u: string)
    requires LexLess(s, t) && LexLess(t, u)
    ensures LexLess(s, u)
  {
    if s != [] && t != [] && u != [] && s[0] == t[0] && t[0] == u[0] {
      LexLessTransitive(s[1..], t[1..], u[1..]);
    }
  }

  lemma {:induction false} LexLessTotal(s: string, t: string)
    ensures s == t || LexLess(s, t) || LexLess(t, s)
  {
    if s != [] && t != [] && s[0] == t[0] {
      LexLessTotal(s[1..], t[1..]);
      if s[1..] == t[1..] {
        assert s == [s[0]] + s[1..] && t == [t[0]] + t[1..];
      }
    }
  }

  /** The value a field sorts by; a missing yield sorts as 0. */
  datatype SortKey = Text(text: string) | Number(number: real)

  function KeyOf(field: SortField, a: Asset): (k: SortKey)
    ensures k.Text? <==> field == NameField
  {
    match field
    case NameField => Text(a.name)
    case ValueField => Number(a.value)
    case AllocationField => Number(a.allocation)
    case DailyChangeField => Number(a.dailyChange)
    case YieldField => Number(a.yieldRate.GetOr(0.0))
  }

  /** `<` between two values of the same field. */
  predicate KeyLess(x: SortKey, y: SortKey)
  {
    match (x, y)
    case (Text(s), Text(t)) => LexLess(s, t)
    case (Number(m), Number(n)) => m < n
    case _ => false
  }

  /** The sort callback: -1, 0 or 1. */
  function Compare(field: SortField, order: SortOrder, a: Asset, b: Asset): (c: int)
    ensures -1 <= c <= 1
    ensures c < 0 <==> if order == Asc then KeyLess(KeyOf(field, a), KeyOf(field, b)) else KeyLess(KeyOf(field, b), KeyOf(field, a))
    ensures c > 0 <==> if order == Asc then KeyLess(KeyOf(field, b), KeyOf(field, a)) else KeyLess(KeyOf(field, a), KeyOf(field, b))
  {
    var aValue, bValue := KeyOf(field, a), KeyOf(field, b);
    KeyLessAsymmetric(aValue, bValue);
    if KeyLess(aValue, bValue) then (if order == Asc then -1 else 1)
    else if KeyLess(bValue, aValue) then (if order == Asc then 1 else -1)
    else 0
  }

  lemma KeyLessAsymmetric(x: SortKey, y: SortKey)
    ensures KeyLess(x, y) ==> !KeyLess(y, x)
  {
    if x.Text? && y.Text? {
      LexLessAsymmetric(x.text, y.text);
    }
  }

  /** The comparator is antisymmetric: swapping the arguments negates it. */
  lemma CompareAntisymmetric(field: SortField, order: SortOrder, a: Asset, b: Asset)
    ensures Compare(field, order, a, b) == -Compare(field, order, b, a)
  {
  }

  /** `a` may come before `b`: the comparator does not put it after. */
  predicate NotAfter(field: SortField, order: SortOrder, a: Asset, b: Asset)
  {
    Compare(field, order, a, b) <= 0
  }

  /** Any two holdings can be ordered. */
  lemma NotAfterTotal(field: SortField, order: SortOrder, a: Asset, b: Asset)
    ensures NotAfter(field, order, a, b) || NotAfter(field, order, b, a)
  {
    CompareAntisymmetric(field, order, a, b);
  }

  lemma KeyLessTransitive(x: SortKey, y: SortKey, z: SortKey)
    requires KeyLess(x, y) && KeyLess(y, z)
    ensures KeyLess(x, z)
  {
    if x.Text? {
      LexLessTransitive(x.text, y.text, z.text);
    }
  }

  /** Keys of one field are totally ordered. */
  lemma KeyLessTotal(field: SortField, a: Asset, b: Asset)
    ensures var x, y := KeyOf(field, a), KeyOf(field, b);
      x == y || KeyLess(x, y) || KeyLess(y, x)
  {
    if field == NameField {
      LexLessTotal(a.name, b.name);
    }
  }

  /** Not putting one after the other is transitive. */
  lemma NotAfterTransitive(field: SortField, order: SortOrder, a: Asset, b: Asset, c: Asset)
    requires NotAfter(field, order, a, b) && NotAfter(field, order, b, c)
    ensures NotAfter(field, order, a, c)
  {
    var x, y, z := KeyOf(field, a), KeyOf(field, b), KeyOf(field, c);
    KeyLessTotal(field, a, b);
    KeyLessTotal(field, b, c);
    if order == Asc {
      if KeyLess(z, x) {
        if KeyLess(y, x) {
        } else if x == y {
        } else {
          KeyLessTransitive(z, x, y);
        }
      }
    } else {
      if KeyLess(x, z) {
        if KeyLess(x, y) {
        } else if x == y {
        } else {
          KeyLessTransitive(y, x, z);
        }
      }
    }
  }

  // ---------------------------------------------------------------------------
  // Sort

  predicate SortedBy(field: SortField, order: SortOrder, s: seq<Asset>)
  {
    forall i, j :: 0 <= i < j < |s| ==> NotAfter(field, order, s[i], s[j])
  }

  /** Place `a` before the first holding it does not come after. */
  function Insert(field: SortField, order: SortOrder, a: Asset, s: seq<Asset>): (r: seq<Asset>)
    ensures multiset(r) == multiset(s) + multiset{a}
  {
    if s == [] then [a]
    else if NotAfter(field, order, a, s[0]) then [a] + s
    else
      assert s == [s[0]] + s[1..];
      [s[0]] + Insert(field, order, a, s[1..])
  }

  /** A holding placed before a sorted list that it does not come after
      gives a sorted list. */
  lemma Prepend(field: SortField, order: SortOrder, x: Asset, s: seq<Asset>)
    requires SortedBy(field, order, s)
    requires forall y :: y in s ==> NotAfter(field, order, x, y)
    ensures SortedBy(field, order, [x] + s)
  {
    var r := [x] + s;
    forall i, j | 0 <= i < j < |r| ensures NotAfter(field, order, r[i], r[j]) {
      assert r[j] == s[j - 1];
      if i > 0 {
        assert r[i] == s[i - 1];
      }
    }
  }

  /** Inserting into a sorted list keeps it sorted. */
  lemma {:induction false} InsertSorted(field: SortField, order: SortOrder, a: Asset, s: seq<Asset>)
    requires SortedBy(field, order, s)
    ensures SortedBy(field, order, Insert(field, order, a, s))
  {
    if s == [] {
    } else if NotAfter(field, order, a, s[0]) {
      forall y | y in s ensures NotAfter(field, order, a, y) {
        var j :| 0 <= j < |s| && s[j] == y;
        if j > 0 {
          NotAfterTransitive(field, order, a, s[0], y);
        }
      }
      Prepend(field, order, a, s);
    } else {
      var tail := s[1..];
      assert SortedBy(field, order, tail) by {
        forall i, j | 0 <= i < j < |tail| ensures NotAfter(field, order, tail[i], tail[j]) {
          assert tail[i] == s[i + 1] && tail[j] == s[j + 1];
        }
      }
      InsertSorted(field, order, a, tail);
      var rest := Insert(field, order, a, tail);
      NotAfterTotal(field, order, a, s[0]);
      forall y | y in rest ensures NotAfter(field, order, s[0], y) {
        assert y in multiset(rest);
        if y != a {
          assert y in multiset(tail);
          var j :| 0 <= j < |tail| && tail[j] == y;
          assert s[j + 1] == y;
        }
      }
      Prepend(field, order, s[0], rest);
    }
  }

  /** `[...filteredAssets].sort(callback)`, as a stable insertion sort. */
  function SortAssets(field: SortField, order: SortOrder, s: seq<Asset>): (r: seq<Asset>)
    ensures multiset(r) == multiset(s)
  {
    if s == [] then []
    else
      assert s == [s[0]] + s[1..];
      Insert(field, order, s[0], SortAssets(field, order, s[1..]))
  }

  /** The sort result is ordered by the comparator. */
  lemma {:induction false} SortAssetsSorted(field: SortField, order: SortOrder, s: seq<Asset>)
    ensures SortedBy(field, order, SortAssets(field, order, s))
  {
    if s != [] {
      SortAssetsSorted(field, order, s[1..]);
      InsertSorted(field, order, s[0], SortAssets(field, order, s[1..]));
    }
  }

  /** Sorted by value descending, the values never increase; ascending, they
      never decrease. */
  lemma SortedByValue(s: seq<Asset>)
    ensures var r := SortAssets(ValueField, Desc, s);
      forall i, j :: 0 <= i < j < |r| ==> r[i].value >= r[j].value
    ensures var r := SortAssets(ValueField, Asc, s);
      forall i, j :: 0 <= i < j < |r| ==> r[i].value <= r[j].value
  {
    SortAssetsSorted(ValueField, Desc, s);
    SortAssetsSorted(ValueField, Asc, s);
  }

  /** Sorted by yield, a holding without a yield sits where a yield of 0
      would. */
  lemma MissingYieldSortsAsZero(order: SortOrder, a: Asset, b: Asset)
    requires a.yieldRate.None? && b.yieldRate == Some(0.0)
    ensures Compare(YieldField, order, a, b) == 0
  {
  }

  // ---------------------------------------------------------------------------
  // The component state

  /** The list view's three pieces of state. */
  class AssetListView {
    var sortField: SortField
    var sortOrder: SortOrder
    var assetTypeFilter: TypeFilter

    /** Sorted by value, descending, showing every holding. */
    constructor ()
      ensures sortField == ValueField && sortOrder == Desc && assetTypeFilter == AllTypes
    {
      sortField := ValueField;
      sortOrder := Desc;
      assetTypeFilter := AllTypes;
    }

    /** `handleSort`. */
    method HandleSort(field: SortField)
      modifies this
      ensures (sortField, sortOrder) == AfterSortClick(old(sortField), old(sortOrder), field)
      ensures assetTypeFilter == old(assetTypeFilter)
    {
      if sortField == field {
        sortOrder := if sortOrder == Asc then Desc else Asc;
      } else {
        sortField := field;
        sortOrder := Desc;
      }
    }

    /** A filter button. */
    method SetAssetTypeFilter(filter: TypeFilter)
      modifies this
      ensures assetTypeFilter == filter
      ensures sortField == old(sortField) && sortOrder == old(sortOrder)
    {
      assetTypeFilter := filter;
    }

    /** The cards shown: the filtered holdings, sorted. They are exactly the
      holdings the filter keeps, each as often as in `assets`, in sort
      order. */
    method VisibleAssets(assets: seq<Asset>) returns (sortedAssets: seq<Asset>)
      ensures sortedAssets == SortAssets(sortField, sortOrder, FilterAssets(assets, assetTypeFilter))
      ensures multiset(sortedAssets) == multiset(FilterAssets(assets, assetTypeFilter))
      ensures SortedBy(sortField, sortOrder, sortedAssets)
    {
      var filteredAssets := FilterAssets(assets, assetTypeFilter);
      sortedAssets := SortAssets(sortField, sortOrder, filteredAssets);
      SortAssetsSorted(sortField, sortOrder, filteredAssets);
    }
  }
}
