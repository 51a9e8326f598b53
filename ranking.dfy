/**
  What the wallet's queries compute, stated over the ordered sequence of
  cards: lookup by exact name, the set of known categories, the best card
  for a category (first card at the maximum value) and the best-card report.
 */
module Ranking {
  import opened Wrappers
  import opened Cards

  /** Some card in `cs` is named `name`. */
  predicate HasName(cs: seq<Card>, name: string)
  {
    exists i :: 0 <= i < |cs| && cs[i].name == name
  }

  /** No two cards share a name. */
  predicate UniqueNames(cs: seq<Card>)
  {
    forall i, j :: 0 <= i < j < |cs| ==> cs[i].name != cs[j].name
  }

  /** The position of the first card named `name`, if there is one. */
  function FindIndex(cs: seq<Card>, name: string): (r: Option<nat>)
    ensures r.None? <==> !HasName(cs, name)
    ensures r.Some? ==> r.value < |cs| && cs[r.value].name == name
    ensures r.Some? ==> forall j :: 0 <= j < r.value ==> cs[j].name != name
  {
    if cs == [] then None
    else if cs[0].name == name then Some(0)
    else
      match FindIndex(cs[1..], name)
      case None =>
        assert forall i :: 0 < i < |cs| ==> cs[i] == cs[1..][i - 1];
        None
      case Some(k) =>
        assert forall j :: 0 < j < k + 1 ==> cs[j] == cs[1..][j - 1];
        Some(k + 1)
  }

  /** With unique names, the card at `i` is found exactly by its own name. */
  lemma FindIndexUnique(cs: seq<Card>, i: nat, name: string)
    requires UniqueNames(cs) && i < |cs|
    ensures FindIndex(cs, name) == Some(i) <==> cs[i].name == name
  {
  }

  /** `cs` without the card at position `i`; the others keep their order. */
  function RemoveAt(cs: seq<Card>, i: nat): (r: seq<Card>)
    requires i < |cs|
    ensures |r| == |cs| - 1
    ensures forall j :: 0 <= j < i ==> r[j] == cs[j]
    ensures forall j :: i <= j < |r| ==> r[j] == cs[j + 1]
  {
    cs[..i] + cs[i + 1..]
  }

  /**
    Removing the card named `name` from a wallet with unique names leaves no
    card of that name behind, so a second delete of it finds nothing; the
    remaining names are still unique.
   */
  lemma RemoveFoundCard(cs: seq<Card>, name: string, i: nat)
    requires UniqueNames(cs) && FindIndex(cs, name) == Some(i)
    ensures !HasName(RemoveAt(cs, i), name)
    ensures FindIndex(RemoveAt(cs, i), name).None?
    ensures UniqueNames(RemoveAt(cs, i))
  {
  }

  /**
    Appending a card whose name no card has keeps names unique, and looking
    that name up afterwards finds the appended card.
   */
  lemma AppendNewName(cs: seq<Card>, c: Card)
    requires UniqueNames(cs) && !HasName(cs, c.name)
    ensures UniqueNames(cs + [c])
    ensures FindIndex(cs + [c], c.name) == Some(|cs|)
  {
    var r := cs + [c];
    forall a, b | 0 <= a < b < |r| ensures r[a].name != r[b].name {
      if b == |cs| {
        assert r[a] == cs[a];
      } else {
        assert r[a] == cs[a] && r[b] == cs[b];
      }
    }
    FindIndexUnique(r, |cs|, c.name);
  }

  /**
    Replacing the card at `i` by one named `newName` keeps names unique when
    the new name is the card's own or no card has it.
   */
  lemma ReplaceKeepsUnique(cs: seq<Card>, i: nat, c: Card)
    requires UniqueNames(cs) && i < |cs|
    requires c.name == cs[i].name || !HasName(cs, c.name)
    ensures UniqueNames(cs[i := c])
  {
  }

  /** Every category any card has its own multiplier for. */
  function Categories(cs: seq<Card>): (r: set<string>)
    ensures forall k :: k in r <==> exists i :: 0 <= i < |cs| && k in cs[i].multipliers
  {
    if cs == [] then {}
    else
      var front := cs[..|cs| - 1];
      assert forall i :: 0 <= i < |front| ==> front[i] == cs[i];
      Categories(front) + cs[|cs| - 1].multipliers.Keys
  }

  /**
    The card at `k` has the largest value for `category`, and every card
    before it has a strictly smaller one: it is the first card at the maximum.
   */
  predicate IsFirstMax(cs: seq<Card>, category: string, k: nat)
  {
    && k < |cs|
    && (forall j :: 0 <= j < |cs| ==> CalculateValue(cs[j], category) <= CalculateValue(cs[k], category))
    && (forall j :: 0 <= j < k ==> CalculateValue(cs[j], category) < CalculateValue(cs[k], category))
  }

  /** There is only one first card at the maximum. */
  lemma FirstMaxUnique(cs: seq<Card>, category: string, k: nat, m: nat)
    requires IsFirstMax(cs, category, k) && IsFirstMax(cs, category, m)
    ensures k == m
  {
    var atK, atM := CalculateValue(cs[k], category), CalculateValue(cs[m], category);
  }

  /**
    The position `max` picks: scan in order, keep the first card, and move
    to a later card only when its value is strictly greater.
   */
  function FirstMaxIndex(cs: seq<Card>, category: string): (k: nat)
    requires cs != []
    ensures IsFirstMax(cs, category, k)
  {
    if |cs| == 1 then 0
    else
      var front := cs[..|cs| - 1];
      var k := FirstMaxIndex(front, category);
      assert forall i :: 0 <= i < |front| ==> front[i] == cs[i];
      if CalculateValue(cs[|cs| - 1], category) > CalculateValue(cs[k], category) then |cs| - 1 else k
  }

  /** One row of the best-card report: the winning card's name and its value. */
  datatype Entry = Entry(bestCard: string, value: real)

  /** The report row for `category`, read off the first card at the maximum. */
  function EntryFor(cs: seq<Card>, category: string): (e: Entry)
    requires cs != []
    ensures forall j :: 0 <= j < |cs| ==> CalculateValue(cs[j], category) <= e.value
    ensures exists k :: 0 <= k < |cs| && IsFirstMax(cs, category, k) && e == Entry(cs[k].name, CalculateValue(cs[k], category))
  {
    var k := FirstMaxIndex(cs, category);
    Entry(cs[k].name, CalculateValue(cs[k], category))
  }

  /** The categories the report covers: every known category and "default". */
  function ReportedCategories(cs: seq<Card>): (r: set<string>)
    ensures forall k :: k in r <==> k == DefaultCategory || exists i :: 0 <= i < |cs| && k in cs[i].multipliers
  {
    Categories(cs) + {DefaultCategory}
  }
}
