/**
  The two-card wallet of the project's unit tests, with the values, the
  categories and the rankings those tests expect.
 */
module Scenario {
  import opened Wrappers
  import opened Cards
  import opened Ranking
  import opened Store
  import opened Wallets

  /** The first test record: bonuses for dining, travel and pharmacies. */
  function RecordA(): map<string, Json>
  {
    map[
      CardNameKey := JStr("Test Card A"),
      PointValueKey := JNum(1.5),
      MultipliersKey := JObj(map["dining" := JNum(5.0), "travel" := JNum(3.0), "pharmacies" := JNum(1.25)]),
      DefaultMultiplierKey := JNum(1.0)
    ]
  }

  /** The second test record: bonuses for groceries and dining, default 2. */
  function RecordB(): map<string, Json>
  {
    map[
      CardNameKey := JStr("Test Card B"),
      PointValueKey := JNum(1.0),
      MultipliersKey := JObj(map["groceries" := JNum(4.0), "dining" := JNum(4.0)]),
      DefaultMultiplierKey := JNum(2.0)
    ]
  }

  const CardA := Card("Test Card A", 1.5, map["dining" := 5.0, "travel" := 3.0, "pharmacies" := 1.25], 1.0)
  const CardB := Card("Test Card B", 1.0, map["groceries" := 4.0, "dining" := 4.0], 2.0)

  /** The first test record builds card A. */
  lemma RecordABuildsCardA()
    ensures FromDict(RecordA()) == Success(CardA)
  {
    var data := RecordA();
    var fields := data[MultipliersKey].fields;
    assert AllNumbers(fields);
    assert (map k | k in fields :: fields[k].x) == CardA.multipliers;
    assert MultipliersField(data) == Success(CardA.multipliers);
  }

  /** The second test record builds card B. */
  lemma RecordBBuildsCardB()
    ensures FromDict(RecordB()) == Success(CardB)
  {
    var data := RecordB();
    var fields := data[MultipliersKey].fields;
    assert AllNumbers(fields);
    assert (map k | k in fields :: fields[k].x) == CardB.multipliers;
    assert MultipliersField(data) == Success(CardB.multipliers);
  }

  /** The test file: the two records, in order. */
  function TestFile(): seq<Json>
  {
    [JObj(RecordA()), JObj(RecordB())]
  }

  /** The test file's records load as the two cards, in order, with distinct names. */
  lemma LoadTestFile()
    ensures LoadCards(Some(TestFile())) == Success([CardA, CardB])
    ensures UniqueNames([CardA, CardB])
  {
    RecordABuildsCardA();
    RecordBBuildsCardB();
    var both := TestFile();
    var rest := both[1..];
    assert rest[0].fields == RecordB() && rest[1..] == [];
    assert ParseRecords(rest[1..]) == Success([]);
    assert [CardB] + [] == [CardB];
    assert ParseRecords(rest) == Success([CardB]);
    assert [CardA] + [CardB] == [CardA, CardB];
  }

  /** A dining bonus of 5 at 1.5 cents is $0.075; an unknown category falls back to $0.015. */
  lemma CardAValues()
    ensures CalculateValue(CardA, "dining") == 0.075
    ensures CalculateValue(CardA, "shopping") == 0.015
  {
  }

  /** The known categories are exactly the four bonus categories; "default" is not one. */
  lemma TestCategories()
    ensures Categories([CardA, CardB]) == {"dining", "travel", "groceries", "pharmacies"}
  {
  }

  /**
    The best card per category: A for dining and travel, B for groceries,
    for "default", and for pharmacies, where B's default of 2 at 1 cent
    ($0.02) beats A's bonus of 1.25 at 1.5 cents ($0.01875).
   */
  lemma TestBestCards()
    ensures EntryFor([CardA, CardB], "dining") == Entry("Test Card A", 0.075)
    ensures EntryFor([CardA, CardB], "groceries") == Entry("Test Card B", 0.04)
    ensures EntryFor([CardA, CardB], "travel") == Entry("Test Card A", 0.045)
    ensures EntryFor([CardA, CardB], DefaultCategory) == Entry("Test Card B", 0.02)
    ensures EntryFor([CardA, CardB], "pharmacies") == Entry("Test Card B", 0.02)
  {
  }

  /** The report covers five categories: the four bonus categories and "default". */
  lemma TestReportSize()
    ensures |ReportedCategories([CardA, CardB])| == 5
  {
    TestCategories();
    DistinctCategoryNames();
  }

  /** The four bonus categories and "default" are five different strings. */
  lemma DistinctCategoryNames()
    ensures |{"dining", "travel", "groceries", "pharmacies"} + {DefaultCategory}| == 5
  {
    var one: set<string> := {"dining"};
    assert "travel"[0] != "dining"[0];
    var two := one + {"travel"};
    var three := two + {"groceries"};
    assert |three| == 3;
    var four := three + {"pharmacies"};
    assert |four| == 4;
  }

  /** The unit tests' queries, checked against the wallet's contracts. */
  method TestWalletQueries()
  {
    LoadTestFile();
    var wallet := new Wallet(Some(TestFile()));

    var categories := wallet.GetAllCategories();
    TestCategories();
    assert categories == {"dining", "travel", "groceries", "pharmacies"};

    var pharmacies := wallet.GetBestCardForCategory("pharmacies");
    TestBestCards();
    assert pharmacies.Some? && pharmacies.value.0.name == "Test Card B";

    var report := wallet.GetBestCardsForAllCategories();
    TestReportSize();
    assert |report.Keys| == 5;
    assert "pharmacies" in report && report["pharmacies"] == Entry("Test Card B", 0.02);
  }

  /** Adding a card whose name exists fails; deleting a card twice fails the second time. */
  method TestWalletChanges()
  {
    LoadTestFile();
    var wallet := new Wallet(Some(TestFile()));
    assert HasName(wallet.cards, "Test Card A");

    var again := wallet.AddCard(RecordA());
    assert again == Fail(DuplicateName("Test Card A"));

    var deleted := wallet.DeleteCard("Test Card A");
    assert deleted == Pass;
    var twice := wallet.DeleteCard("Test Card A");
    assert twice == Fail(NotFound("Test Card A"));
  }
}
