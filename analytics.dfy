/** The analytics page (frontend/components/Analytics.tsx): waste per menu
    category, with the category guessed from keywords in the item name, and
    waste, preparation and efficiency per weekday. */
module Analytics {
  import opened Wrappers
  import opened Records
  import opened Folds
  import opened Strings
  import opened Calendar
  import opened Numeric
  import opened Constants

  const CategoryNames: seq<string> := ["Main", "Appetizer", "Breakfast"]

  /** The keyword chain: the index in CategoryNames of the first branch
      whose keywords the name contains (case-sensitively), or -1. */
  function CategoryIndex(name: string): int
  {
    if Contains(name, "Burger") || Contains(name, "Pasta") || Contains(name, "Salmon") then 0
    else if Contains(name, "Salad") then 1
    else if Contains(name, "Toast") then 2
    else -1
  }

  function RecordCategory(r: DailyRecord): int { CategoryIndex(r.itemName) }

  /** The waste the page files under category c. */
  function CategoryWaste(history: seq<DailyRecord>, c: int): int
  {
    BucketSum(history, Waste, RecordCategory, c)
  }

  /** One `{ name, value }` entry of the category chart. */
  datatype Slice = Slice(name: string, value: int)

  /** `categoryData`: the three-key object filled in a `forEach`, listed by
      `Object.entries` in the order the keys were created. */
  method CategoryData(history: seq<DailyRecord>) returns (entries: seq<Slice>)
    ensures entries == [Slice("Main", CategoryWaste(history, 0)),
                        Slice("Appetizer", CategoryWaste(history, 1)),
                        Slice("Breakfast", CategoryWaste(history, 2))]
  {
    var categories := map["Main" := 0, "Appetizer" := 0, "Breakfast" := 0];
    for i := 0 to |history|
      invariant categories.Keys == {"Main", "Appetizer", "Breakfast"}
      invariant categories["Main"] == CategoryWaste(history[..i], 0)
      invariant categories["Appetizer"] == CategoryWaste(history[..i], 1)
      invariant categories["Breakfast"] == CategoryWaste(history[..i], 2)
    {
      CategoryWasteStep(history, i, 0);
      CategoryWasteStep(history, i, 1);
      CategoryWasteStep(history, i, 2);
      categories := FileWaste(categories, history[i]);
    }
    assert history[..|history|] == history;
    entries := [Slice("Main", categories["Main"]), Slice("Appetizer", categories["Appetizer"]),
                Slice("Breakfast", categories["Breakfast"])];
  }

  /** The body of the `forEach`: the record's waste goes to the first
      category whose keywords its name contains, if any. */
  method FileWaste(categories: map<string, int>, h: DailyRecord) returns (updated: map<string, int>)
    requires categories.Keys == {"Main", "Appetizer", "Breakfast"}
    ensures updated.Keys == {"Main", "Appetizer", "Breakfast"}
    ensures updated["Main"] == categories["Main"] + (if RecordCategory(h) == 0 then h.waste else 0)
    ensures updated["Appetizer"] == categories["Appetizer"] + (if RecordCategory(h) == 1 then h.waste else 0)
    ensures updated["Breakfast"] == categories["Breakfast"] + (if RecordCategory(h) == 2 then h.waste else 0)
  {
    updated := categories;
    if Contains(h.itemName, "Burger") || Contains(h.itemName, "Pasta") || Contains(h.itemName, "Salmon") {
      updated := updated["Main" := updated["Main"] + h.waste];
    } else if Contains(h.itemName, "Salad") {
      updated := updated["Appetizer" := updated["Appetizer"] + h.waste];
    } else if Contains(h.itemName, "Toast") {
      updated := updated["Breakfast" := updated["Breakfast"] + h.waste];
    }
  }

  /** One more record adds its waste to its own category only. */
  lemma CategoryWasteStep(history: seq<DailyRecord>, i: int, c: int)
    requires 0 <= i < |history|
    ensures CategoryWaste(history[..i + 1], c)
      == CategoryWaste(history[..i], c) + (if RecordCategory(history[i]) == c then history[i].waste else 0)
  {
    assert history[..i + 1][..i] == history[..i];
    BucketSumStep(history[..i + 1], Waste, RecordCategory, c);
  }

  /** The three categories hold the waste of exactly the records whose name
      matches some keyword; the others count nowhere. */
  lemma CategoriesCoverMatched(history: seq<DailyRecord>)
    ensures CategoryWaste(history, 0) + CategoryWaste(history, 1) + CategoryWaste(history, 2)
      == Sum(Where(history, InBuckets(RecordCategory, 3)), Waste)
  {
    BucketsCover(history, Waste, RecordCategory, 3);
    assert BucketsTotal(history, Waste, RecordCategory, 1) == BucketSum(history, Waste, RecordCategory, 0);
    assert BucketsTotal(history, Waste, RecordCategory, 3)
      == BucketSum(history, Waste, RecordCategory, 0) + BucketSum(history, Waste, RecordCategory, 1)
         + BucketSum(history, Waste, RecordCategory, 2);
  }

  /** With no keyword in any name, every category stays 0. */
  lemma UnmatchedContributeNothing(history: seq<DailyRecord>)
    requires forall i :: 0 <= i < |history| ==> CategoryIndex(history[i].itemName) == -1
    ensures CategoryWaste(history, 0) == 0 && CategoryWaste(history, 1) == 0 && CategoryWaste(history, 2) == 0
  {
    WhereNone(history, InBucket(RecordCategory, 0));
    WhereNone(history, InBucket(RecordCategory, 1));
    WhereNone(history, InBucket(RecordCategory, 2));
  }

  lemma NotContainsLead(s: string, t: string)
    requires t != [] && t[0] !in s
    ensures !Contains(s, t)
  {
    ContainsAt(s, t);
  }

  lemma ContainsWitness(s: string, t: string, i: int)
    requires OccursAt(s, t, i)
    ensures Contains(s, t)
  {
    ContainsAt(s, t);
  }

  /** A name that fails at some offset j of t wherever t's first character
      occurs does not include t. */
  lemma NotContainsWhereLeadsFail(s: string, t: string, j: int)
    requires 0 < j < |t|
    requires forall i :: 0 <= i < |s| && s[i] == t[0] ==> i + j >= |s| || s[i + j] != t[j]
    ensures !Contains(s, t)
  {
    ContainsAt(s, t);
    forall i | 0 <= i <= |s| - |t|
      ensures !OccursAt(s, t, i)
    {
      if s[i] == t[0] {
        assert s[i..i + |t|][j] == s[i + j];
      } else {
        assert s[i..i + |t|][0] == s[i];
      }
    }
  }

  /** The first keyword branch wins: a name holding "Burger", "Pasta" or
      "Salmon" anywhere is a main course, whatever else it holds. */
  lemma FirstMatchWins(s: string, keyword: string, i: int)
    requires keyword == "Burger" || keyword == "Pasta" || keyword == "Salmon"
    requires OccursAt(s, keyword, i)
    ensures CategoryIndex(s) == 0
  {
    ContainsWitness(s, keyword, i);
  }

  /** Without a main-course keyword, "Salad" anywhere makes an appetizer. */
  lemma SaladMakesAppetizer(s: string, i: int)
    requires OccursAt(s, "Salad", i)
    requires !Contains(s, "Burger") && !Contains(s, "Pasta") && !Contains(s, "Salmon")
    ensures CategoryIndex(s) == 1
  {
    ContainsWitness(s, "Salad", i);
  }

  /** Without any earlier keyword, "Toast" anywhere makes a breakfast. */
  lemma ToastMakesBreakfast(s: string, i: int)
    requires OccursAt(s, "Toast", i)
    requires !Contains(s, "Burger") && !Contains(s, "Pasta") && !Contains(s, "Salmon") && !Contains(s, "Salad")
    ensures CategoryIndex(s) == 2
  {
    ContainsWitness(s, "Toast", i);
  }

  /** Matching is case-sensitive: no lower-cased name matches a keyword,
      so "signature burger" counts in no category. */
  lemma MatchingIsCaseSensitive(s: string)
    ensures CategoryIndex(ToLower(s)) == -1
  {
    var r := ToLower(s);
    forall k | 0 <= k < |r|
      ensures !('A' <= r[k] <= 'Z')
    {
      assert r[k] == LowerChar(s[k]);
    }
    NotContainsLead(r, "Burger");
    NotContainsLead(r, "Pasta");
    NotContainsLead(r, "Salmon");
    NotContainsLead(r, "Salad");
    NotContainsLead(r, "Toast");
  }

  /** A history whose names are all in lower case shows 0 waste in every
      category. */
  lemma LowerCaseNamesCountNowhere(history: seq<DailyRecord>)
    requires forall i :: 0 <= i < |history| ==> history[i].itemName == ToLower(history[i].itemName)
    ensures CategoryWaste(history, 0) == 0 && CategoryWaste(history, 1) == 0 && CategoryWaste(history, 2) == 0
  {
    forall i | 0 <= i < |history|
      ensures CategoryIndex(history[i].itemName) == -1
    {
      MatchingIsCaseSensitive(history[i].itemName);
    }
    UnmatchedContributeNothing(history);
  }

  /** Each catalogue name falls in the category the catalogue gives it. */
  lemma CatalogueCategories(i: int)
    requires 0 <= i < |MenuItems|
    ensures 0 <= CategoryIndex(MenuItems[i].name) < 3
    ensures CategoryNames[CategoryIndex(MenuItems[i].name)] == MenuItems[i].category
  {
    NameCategory(MenuItems[i].name, i);
  }

  lemma NameCategory(s: string, i: int)
    requires 0 <= i < |MenuItems| && s == MenuItems[i].name
    ensures 0 <= CategoryIndex(s) < 3 && CategoryNames[CategoryIndex(s)] == MenuItems[i].category
  {
    if i == 0 {
      assert CategoryIndex(s) == 0 by {
        assert s == "Signature Burger";
        assert s[10..16] == "Burger";
        FirstMatchWins(s, "Burger", 10);
      }
    } else if i == 1 {
      QuinoaSaladIsAppetizer(s);
    } else if i == 2 {
      assert CategoryIndex(s) == 0 by {
        assert s == "Truffle Pasta";
        assert s[8..13] == "Pasta";
        FirstMatchWins(s, "Pasta", 8);
      }
    } else if i == 3 {
      assert CategoryIndex(s) == 0 by {
        assert s == "Grilled Salmon";
        assert s[8..14] == "Salmon";
        FirstMatchWins(s, "Salmon", 8);
      }
    } else {
      AvocadoToastIsBreakfast(s);
    }
  }

  /** "Quinoa Salad" holds no main-course keyword: its one 'S' is not
      followed by "alm". */
  lemma QuinoaSaladIsAppetizer(s: string)
    requires s == "Quinoa Salad"
    ensures CategoryIndex(s) == 1
  {
    assert s[7..12] == "Salad";
    NotContainsLead(s, "Burger");
    NotContainsLead(s, "Pasta");
    NotContainsWhereLeadsFail(s, "Salmon", 3);
    SaladMakesAppetizer(s, 7);
  }

  lemma AvocadoToastIsBreakfast(s: string)
    requires s == "Avocado Toast"
    ensures CategoryIndex(s) == 2
  {
    assert s[8..13] == "Toast";
    NotContainsLead(s, "Burger");
    NotContainsLead(s, "Pasta");
    NotContainsLead(s, "Salmon");
    NotContainsLead(s, "Salad");
    ToastMakesBreakfast(s, 8);
  }

  const DayNames: seq<string> := ["Sunday", "Monday", "Tuesday", "Wednesday", "Thursday", "Friday", "Saturday"]

  /** The weekday bucket of a record, or -1 when its date does not parse. */
  function WeekdayIndex(r: DailyRecord): int
  {
    match WeekdayOf(r.date)
    case Some(w) => w
    case None => -1
  }

  function DayWaste(history: seq<DailyRecord>, d: int): int
  {
    BucketSum(history, Waste, WeekdayIndex, d)
  }

  function DayPrepared(history: seq<DailyRecord>, d: int): int
  {
    BucketSum(history, Prepared, WeekdayIndex, d)
  }

  /** A bucket's efficiency: the unwasted share of what was prepared, in
      percent to one decimal, and 0 for a bucket with nothing prepared. */
  function DayEfficiency(total: int, waste: int): real
  {
    if total > 0 then Fixed1((total - waste) as real / total as real * 100.0) else 0.0
  }

  /** One bucket of `dayOfWeekData`. */
  datatype DayRow = DayRow(name: string, waste: int, efficiency: real, total: int)

  function DayRowOf(history: seq<DailyRecord>, d: int): DayRow
    requires 0 <= d < 7
  {
    DayRow(DayNames[d], DayWaste(history, d), DayEfficiency(DayPrepared(history, d), DayWaste(history, d)),
           DayPrepared(history, d))
  }

  /** Every record's date is one `new Date` can read. */
  predicate AllDated(history: seq<DailyRecord>)
  {
    forall i :: 0 <= i < |history| ==> WeekdayOf(history[i].date).Some?
  }

  /** `dayOfWeekData`: seven buckets, Sunday first. A record whose date does
      not parse makes `data[NaN]` undefined and the render throw; that is
      the None result. */
  method DayOfWeekData(history: seq<DailyRecord>) returns (rows: Option<seq<DayRow>>)
    ensures rows.None? <==> !AllDated(history)
    ensures rows.Some? ==> |rows.value| == 7 && forall d :: 0 <= d < 7 ==> rows.value[d] == DayRowOf(history, d)
  {
    var waste := new int[7](_ => 0);
    var total := new int[7](_ => 0);
    for i := 0 to |history|
      invariant AllDated(history[..i])
      invariant forall d :: 0 <= d < 7 ==> waste[d] == DayWaste(history[..i], d) && total[d] == DayPrepared(history[..i], d)
    {
      var h := history[i];
      var day := WeekdayOf(h.date);
      if day.None? {
        assert !AllDated(history);
        return None;
      }
      var dayIdx := day.value;
      waste[dayIdx] := waste[dayIdx] + h.waste;
      total[dayIdx] := total[dayIdx] + h.prepared;
      forall d | 0 <= d < 7
        ensures waste[d] == DayWaste(history[..i + 1], d) && total[d] == DayPrepared(history[..i + 1], d)
      {
        DayBucketsStep(history, i, d);
      }
      AllDatedStep(history, i);
    }
    assert history[..|history|] == history;
    var ws, ts := waste[..], total[..];
    rows := Some(seq(7, d requires 0 <= d < 7 => DayRow(DayNames[d], ws[d], DayEfficiency(ts[d], ws[d]), ts[d])));
  }

  lemma AllDatedStep(history: seq<DailyRecord>, i: int)
    requires 0 <= i < |history| && AllDated(history[..i]) && WeekdayOf(history[i].date).Some?
    ensures AllDated(history[..i + 1])
  {
    assert forall k :: 0 <= k < i ==> history[..i + 1][k] == history[..i][k];
  }

  /** Filing record i adds its waste and prepared count to its own
      weekday's bucket and leaves the others alone. */
  lemma DayBucketsStep(history: seq<DailyRecord>, i: int, d: int)
    requires 0 <= i < |history|
    ensures DayWaste(history[..i + 1], d)
      == DayWaste(history[..i], d) + (if WeekdayIndex(history[i]) == d then history[i].waste else 0)
    ensures DayPrepared(history[..i + 1], d)
      == DayPrepared(history[..i], d) + (if WeekdayIndex(history[i]) == d then history[i].prepared else 0)
  {
    assert history[..i + 1][..i] == history[..i];
    BucketSumStep(history[..i + 1], Waste, WeekdayIndex, d);
    BucketSumStep(history[..i + 1], Prepared, WeekdayIndex, d);
  }

  /** Efficiency lies in [0, 100] when waste is between 0 and the prepared
      total, and is 0 for an empty bucket. */
  lemma DayEfficiencyBounds(total: int, waste: int)
    ensures total <= 0 ==> DayEfficiency(total, waste) == 0.0
    ensures 0 <= waste <= total ==> 0.0 <= DayEfficiency(total, waste) <= 100.0
  {
    if 0 <= waste <= total && total > 0 {
      var x := (total - waste) as real / total as real;
      assert 0.0 <= x <= 1.0;
      Fixed1Bounds(x * 100.0);
    }
  }

  /** With every date readable, the seven buckets share out the whole
      history: their waste adds up to the total waste and their totals to
      the total prepared. */
  lemma DaysCoverHistory(history: seq<DailyRecord>)
    requires AllDated(history)
    ensures BucketsTotal(history, Waste, WeekdayIndex, 7) == Sum(history, Waste)
    ensures BucketsTotal(history, Prepared, WeekdayIndex, 7) == Sum(history, Prepared)
  {
    BucketsCover(history, Waste, WeekdayIndex, 7);
    BucketsCover(history, Prepared, WeekdayIndex, 7);
    WhereAll(history, InBuckets(WeekdayIndex, 7));
  }
}
