/**
  The wallet: an ordered list of cards that its operations change in place,
  each successful change followed by writing the whole list to the store.
 */
module Wallets {
  import opened Wrappers
  import opened Cards
  import opened Ranking
  import opened Store

  class Wallet {
    /** The cards, in insertion order. */
    var cards: seq<Card>
    /** What the store holds: the last list written, or what was loaded. */
    ghost var stored: Option<seq<Json>>

    /** The object invariant: no two cards share a name. */
    ghost predicate Valid()
      reads this
    {
      UniqueNames(cards)
    }

    /**
      Opens the wallet over the store's content. The store's records must
      all build cards, and their names must be unique (loading does not
      check it).
     */
    constructor (file: Option<seq<Json>>)
      requires LoadCards(file).Success? && UniqueNames(LoadCards(file).value)
      ensures Valid()
      ensures cards == LoadCards(file).value && stored == file
    {
      cards := LoadCards(file).value;
      stored := file;
    }

    /** `save_cards`: overwrites the store with every card, in order. */
    method Save()
      modifies this`stored
      ensures stored == Some(Dump(cards))
      ensures LoadCards(stored) == Success(cards)
    {
      stored := Some(Dump(cards));
      LoadDump(cards);
    }

    /** The scan of `get_card_by_name`: the position of the first card named `name`. */
    method LocateByName(name: string) returns (r: Option<nat>)
      ensures r == FindIndex(cards, name)
      ensures r.None? <==> !HasName(cards, name)
      ensures r.Some? ==> r.value < |cards| && cards[r.value].name == name
      ensures r.Some? ==> forall j :: 0 <= j < r.value ==> cards[j].name != name
    {
      var i := 0;
      while i < |cards|
        invariant 0 <= i <= |cards|
        invariant forall j :: 0 <= j < i ==> cards[j].name != name
      {
        if cards[i].name == name {
          return Some(i);
        }
        i := i + 1;
      }
      return None;
    }

    /** `get_card_by_name`: the first card named exactly `name`, or nothing. */
    method GetCardByName(name: string) returns (r: Option<Card>)
      ensures r.None? <==> !HasName(cards, name)
      ensures r.Some? ==> r.value.name == name && r.value == cards[FindIndex(cards, name).value]
    {
      var i := LocateByName(name);
      match i
      case None => r := None;
      case Some(k) => r := Some(cards[k]);
    }

    /**
      `add_card`: fails when `data` has no name or a card already has that
      name, or when the card cannot be built from `data`, changing nothing;
      otherwise appends the new card and saves.
     */
    method AddCard(data: map<string, Json>) returns (r: Outcome<Error>)
      requires Valid()
      modifies this
      ensures Valid()
      ensures r.Pass? <==>
        NameField(data).Success? && !HasName(old(cards), NameField(data).value) && FromDict(data).Success?
      ensures NameField(data).Failure? ==> r == Fail(NameField(data).error)
      ensures NameField(data).Success? && HasName(old(cards), NameField(data).value) ==>
        r == Fail(DuplicateName(NameField(data).value))
      ensures NameField(data).Success? && !HasName(old(cards), NameField(data).value) && FromDict(data).Failure? ==>
        r == Fail(FromDict(data).error)
      ensures r.Pass? ==> cards == old(cards) + [FromDict(data).value] && stored == Some(Dump(cards))
      ensures r.Fail? ==> cards == old(cards) && stored == old(stored)
    {
      var name := NameField(data);
      if name.Failure? {
        return Fail(name.error);
      }
      var existing := GetCardByName(name.value);
      if existing.Some? {
        return Fail(DuplicateName(name.value));
      }
      var built := FromDict(data);
      if built.Failure? {
        return Fail(built.error);
      }
      AppendNewName(cards, built.value);
      cards := cards + [built.value];
      Save();
      return Pass;
    }

    /**
      `update_card`: fails with nothing changed when no card is named
      `originalName`, when `data` has no name, or when the new name differs
      and another card has it. Otherwise assigns the found card's name, point
      value, multipliers and default multiplier from `data`, in that order,
      and saves. A field that cannot be converted stops the assignments: the
      fields assigned before it keep their new values in memory, and the
      store is not written.
     */
    method UpdateCard(originalName: string, data: map<string, Json>) returns (r: Outcome<Error>)
      requires Valid()
      modifies this
      ensures Valid()
      ensures |cards| == |old(cards)|
      ensures !HasName(old(cards), originalName) ==>
        r == Fail(NotFound(originalName)) && cards == old(cards) && stored == old(stored)
      ensures HasName(old(cards), originalName) && NameField(data).Failure? ==>
        r == Fail(NameField(data).error) && cards == old(cards) && stored == old(stored)
      ensures
        (HasName(old(cards), originalName) && NameField(data).Success?
         && NameField(data).value != originalName && HasName(old(cards), NameField(data).value)) ==>
        r == Fail(DuplicateName(NameField(data).value)) && cards == old(cards) && stored == old(stored)
      ensures
        (HasName(old(cards), originalName) && NameField(data).Success?
         && (NameField(data).value == originalName || !HasName(old(cards), NameField(data).value))) ==>
        var i := FindIndex(old(cards), originalName).value;
        var a := AssignFields(old(cards)[i], NameField(data).value, data);
        && cards == old(cards)[i := a.card]
        && (a.error.None? ==> r == Pass && stored == Some(Dump(cards)))
        && (a.error.Some? ==> r == Fail(a.error.value) && stored == old(stored))
      ensures r.Pass? ==>
        && FromDict(data).Success?
        && cards == old(cards)[FindIndex(old(cards), originalName).value := FromDict(data).value]
    {
      var found := LocateByName(originalName);
      if found.None? {
        return Fail(NotFound(originalName));
      }
      var i := found.value;
      var name := NameField(data);
      if name.Failure? {
        return Fail(name.error);
      }
      var newName := name.value;
      if originalName != newName {
        var clash := GetCardByName(newName);
        if clash.Some? {
          return Fail(DuplicateName(newName));
        }
      }
      ReplaceKeepsUnique(cards, i, AssignFields(cards[i], newName, data).card);
      var error := AssignAt(i, newName, data);
      if error.Some? {
        return Fail(error.value);
      }
      Save();
      return Pass;
    }

    /**
      The in-place assignments of `update_card` to the card at `i`: name,
      point value, multipliers, default multiplier, stopping at the first
      field of `data` that cannot be converted.
     */
    method AssignAt(i: nat, newName: string, data: map<string, Json>) returns (error: Option<Error>)
      requires i < |cards| && NameField(data) == Success(newName)
      modifies this`cards
      ensures cards == old(cards)[i := AssignFields(old(cards)[i], newName, data).card]
      ensures error == AssignFields(old(cards)[i], newName, data).error
    {
      cards := cards[i := cards[i].(name := newName)];
      var pointValue := NumberField(data, PointValueKey);
      if pointValue.Failure? {
        return Some(pointValue.error);
      }
      cards := cards[i := cards[i].(pointValue := pointValue.value)];
      var multipliers := MultipliersField(data);
      if multipliers.Failure? {
        return Some(multipliers.error);
      }
      cards := cards[i := cards[i].(multipliers := multipliers.value)];
      var defaultMultiplier := NumberField(data, DefaultMultiplierKey);
      if defaultMultiplier.Failure? {
        return Some(defaultMultiplier.error);
      }
      cards := cards[i := cards[i].(defaultMultiplier := defaultMultiplier.value)];
      return None;
    }

    /**
      `delete_card`: fails with nothing changed when no card is named `name`;
      otherwise removes that card, keeping the others in order, and saves.
     */
    method DeleteCard(name: string) returns (r: Outcome<Error>)
      requires Valid()
      modifies this
      ensures Valid()
      ensures r.Pass? <==> HasName(old(cards), name)
      ensures r.Fail? ==> r.error == NotFound(name) && cards == old(cards) && stored == old(stored)
      ensures r.Pass? ==>
        && cards == RemoveAt(old(cards), FindIndex(old(cards), name).value)
        && !HasName(cards, name)
        && stored == Some(Dump(cards))
    {
      var found := LocateByName(name);
      if found.None? {
        return Fail(NotFound(name));
      }
      RemoveFoundCard(cards, name, found.value);
      cards := RemoveAt(cards, found.value);
      Save();
      return Pass;
    }

    /** `get_all_categories`: every category some card has its own multiplier for. */
    method GetAllCategories() returns (categories: set<string>)
      ensures categories == Categories(cards)
      ensures forall k :: k in categories <==> exists i :: 0 <= i < |cards| && k in cards[i].multipliers
    {
      categories := {};
      var i := 0;
      while i < |cards|
        invariant 0 <= i <= |cards|
        invariant categories == Categories(cards[..i])
      {
        assert cards[..i + 1][..i] == cards[..i];
        categories := categories + cards[i].multipliers.Keys;
        i := i + 1;
      }
      assert cards[..|cards|] == cards;
    }

    /**
      `get_best_card_for_category`: nothing for an empty wallet; otherwise
      the first card, in wallet order, whose value for `category` is the
      largest, with that value.
     */
    method GetBestCardForCategory(category: string) returns (r: Option<(Card, real)>)
      ensures r.None? <==> cards == []
      ensures r.Some? ==> exists k: nat :: IsFirstMax(cards, category, k) && r.value == (cards[k], CalculateValue(cards[k], category))
      ensures r.Some? ==> r.value.0 == cards[FirstMaxIndex(cards, category)]
    {
      if cards == [] {
        return None;
      }
      var best := 0;
      var bestValue := CalculateValue(cards[0], category);
      var i := 1;
      while i < |cards|
        invariant 1 <= i <= |cards|
        invariant IsFirstMax(cards[..i], category, best)
        invariant bestValue == CalculateValue(cards[best], category)
      {
        var value := CalculateValue(cards[i], category);
        if value > bestValue {
          best, bestValue := i, value;
        }
        i := i + 1;
      }
      assert cards[..i] == cards;
      FirstMaxUnique(cards, category, best, FirstMaxIndex(cards, category));
      return Some((cards[best], bestValue));
    }

    /**
      `get_best_cards_for_all_categories`: for every known category and
      "default", the name and value of the best card; empty for an empty
      wallet.
     */
    method GetBestCardsForAllCategories() returns (results: map<string, Entry>)
      ensures cards == [] ==> results == map[]
      ensures cards != [] ==> results.Keys == ReportedCategories(cards)
      ensures forall k :: k in results ==> cards != [] && results[k] == EntryFor(cards, k)
    {
      var remaining := GetAllCategories();
      remaining := remaining + {DefaultCategory};
      ghost var all := remaining;
      results := map[];
      while remaining != {}
        invariant remaining <= all
        invariant results.Keys == if cards == [] then {} else all - remaining
        invariant forall k :: k in results ==> cards != [] && results[k] == EntryFor(cards, k)
        decreases remaining
      {
        var category :| category in remaining;
        var best := GetBestCardForCategory(category);
        if best.Some? {
          results := results[category := Entry(best.value.0.name, best.value.1)];
        }
        remaining := remaining - {category};
      }
    }
  }
}
