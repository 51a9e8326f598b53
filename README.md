# PointsAssist valuation and ranking engine, in Dafny

This project models the core of PointsAssist, a small tool that keeps a
wallet of credit cards and says which card earns the most for each spending
category. A card has a name, a point value in cents, a default multiplier
and a multiplier for each category. The value of spending in a category is
that category's multiplier (or the default one) times the point value,
converted to dollars. The wallet is an ordered list of cards with unique
names. It supports lookup by exact name, add, update and delete. Each
successful change is followed by writing the whole list to the store. The
wallet can also list every known category, give the best card for one
category, and give the best card for every category plus the synthetic
`"default"`.

Modules:

- `Wrappers` (wrappers.dfy): `Option`, `Result`, `Outcome`.
- `Cards` (cards.dfy): the `Card` record, `CalculateValue`, and the
  dictionary form. `FromDict` models the constructor, `ToDict` models
  `to_dict`, and `AssignFields` models the field-by-field edit of
  `update_card`. Dictionaries are `map<string, Json>`.
- `Ranking` (ranking.dfy): pure specifications over the card sequence.
  These are first-match lookup, name uniqueness, the category union, the
  first card at the maximum, and the report rows.
- `Store` (store.dfy): `load_cards` and `save_cards` as functions over the
  decoded list of records, with the save-then-load round trip.
- `Wallets` (wallet.dfy): the class `Wallet`. Its field `cards: seq<Card>`
  is reassigned by the mutating methods. The ghost field `stored` is the
  store's content, which `Save` overwrites as the last step of each
  successful change. The object invariant is name uniqueness.
- `Scenario` (scenario.dfy): the two-card data of the unit tests and the
  values, categories and rankings they expect, as lemmas. It also holds
  two client methods checked against the `Wallet` contracts: one makes
  the tests' queries, the other exercises the add and delete failure cases.

Point values and multipliers are exact `real`s. A card value is therefore
exactly `multiplier * pointValue / 100`.

Two behaviours of the code a reader may not expect:

- `update_card` assigns the found card's name first, then its point value,
  multipliers and default multiplier, converting each from the input as it
  goes (main.py:103-106). If a later field is missing or cannot be
  converted, the exception leaves the earlier fields changed in the
  in-memory wallet. The store is not written. `UpdateCard` and
  `AssignFields` state exactly this. The web layer builds a fresh wallet
  for every request, so the stale in-memory state is never read.
- The docstring of `load_cards` promises an empty list when the file is
  missing or invalid (main.py:61-62). The code catches only a missing file
  and undecodable JSON (main.py:64-69), so a record that lacks a required
  field raises out of the wallet's constructor (main.py:67) rather than
  yielding an empty wallet. `LoadCards` returns that error.

## Model

| member | source | states |
|---|---|---|
| `Cards.CalculateValue` | main.py:37-44 | the value is the category's own multiplier when the card has one, else the default multiplier, times the point value, divided by 100; defined for every category string |
| `Cards.UnknownCategoriesAgree` | main.py:42 | every category without its own multiplier, `"default"` included, gets the same value: the default multiplier's |
| `Cards.FromDict` | main.py:10-18 | the constructor succeeds exactly when the name, point value, multipliers (absent means none) and default multiplier are all present and convertible; the built card's name is the input's `card_name`, and without a `multipliers` key it has no multipliers; every failure is a validation error |
| `Cards.ToDict` | main.py:20-29 | the dictionary form has exactly the four keys `card_name`, `point_value`, `multipliers`, `default_multiplier` |
| `Cards.FromDictToDict` | main.py:10-29 | building a card from its own `to_dict` form gives back the same card |
| `Cards.ToDictFromDict` | main.py:10-29 | for a card built from a dictionary, `to_dict` restores the value of every one of the four keys that the dictionary held |
| `Cards.AssignFields` | main.py:103-106 | the in-place edit always renames the card; it completes exactly when the constructor would succeed on the same input, and then yields the card the constructor builds; otherwise it reports the constructor's error and the default multiplier keeps its old value, as do the multipliers when they are the field that fails, and every field but the name when the point value fails |
| `Ranking.FindIndex` | main.py:78-83 | the lookup finds nothing exactly when no card has the name; otherwise it gives a position of a card with that name, and no earlier card has it |
| `Ranking.FindIndexUnique` | main.py:78-83 | with unique names, the lookup of a name finds position `i` exactly when card `i` carries that name |
| `Ranking.RemoveAt` | main.py:114 | removing position `i` shortens the list by one and keeps every other card in its relative order |
| `Ranking.RemoveFoundCard` | main.py:109-115 | after removing the card found for a name, no card has that name (a second delete fails), and names stay unique |
| `Ranking.AppendNewName` | main.py:85-91 | appending a card with a new name keeps names unique, and the lookup of that name then finds the appended card |
| `Ranking.ReplaceKeepsUnique` | main.py:99-106 | replacing a card by one that keeps its own name, or takes a name no card has, keeps names unique |
| `Ranking.Categories` | main.py:117-122 | a category is known exactly when some card has its own multiplier for it |
| `Ranking.ReportedCategories` | main.py:136-137 | the report's categories are exactly `"default"` and every category some card has its own multiplier for |
| `Ranking.FirstMaxIndex` | main.py:128-132 | for a non-empty wallet, the chosen card has a value at least every card's, and every earlier card's value is strictly smaller (first card at the maximum wins) |
| `Ranking.FirstMaxUnique` | main.py:128-132 | at most one position is the first card at the maximum, so the tie-break determines the answer |
| `Ranking.EntryFor` | main.py:141-147 | a report row's value is at least every card's value for its category, and the row holds the name and value of the card that is first at that maximum |
| `Store.ParseRecords` | main.py:67 | parsing succeeds exactly when every record is an object from which the constructor can build a card; then the result has one card per record, the card at each position being the one built from the record there |
| `Store.LoadCards` | main.py:59-69 | a missing or undecodable store loads as no cards; otherwise the load succeeds exactly when every record builds a card, and then gives, in order, the card built from each record |
| `Store.Dump` | main.py:71-76 | the saved list holds the `to_dict` form of every card, in wallet order |
| `Store.LoadDump` | main.py:59-76 | loading what was saved gives back the same cards in the same order |
| `Wallets.Wallet.constructor` | main.py:52-57 | a new wallet holds exactly the loaded cards, and the store is unchanged |
| `Wallets.Wallet.Save` | main.py:71-76 | the store now holds the dump of the current cards, and reloading it gives those cards back |
| `Wallets.Wallet.LocateByName` | main.py:78-83 | the scan returns the position of the first card with the name, or nothing exactly when no card has it |
| `Wallets.Wallet.GetCardByName` | main.py:78-83 | the result is absent exactly when no card has the name; otherwise it is the first card with that name |
| `Wallets.Wallet.AddCard` | main.py:85-91 | fails when the name is missing, already taken, or the card cannot be built, with the list and store untouched; otherwise the list is the old list plus the new card, the store holds it, and names stay unique |
| `Wallets.Wallet.UpdateCard` | main.py:93-107 | fails with nothing changed when the original name is absent, the new name is missing, or a different new name is taken; otherwise only the found card changes, by the field-by-field assignment; on success it becomes the constructor's card and the store is written; length and uniqueness are preserved |
| `Wallets.Wallet.AssignAt` | main.py:103-106 | the card at the found position becomes the result of the field-by-field assignment, every other card is unchanged, and the interrupting error, if any, is returned |
| `Wallets.Wallet.DeleteCard` | main.py:109-115 | fails with nothing changed exactly when no card has the name; otherwise removes exactly that card, keeps the others in order, leaves no card of that name, and writes the store |
| `Wallets.Wallet.GetAllCategories` | main.py:117-122 | returns exactly the union of every card's multiplier keys, without adding `"default"` |
| `Wallets.Wallet.GetBestCardForCategory` | main.py:124-132 | absent exactly when the wallet is empty; otherwise the first card at the maximum value for the category, paired with its value |
| `Wallets.Wallet.GetBestCardsForAllCategories` | main.py:134-148 | empty for an empty wallet; otherwise keyed by exactly the known categories plus `"default"`, each row being the best card's name and value for that key |
| `Scenario.RecordABuildsCardA` | test_main.py:17-26 | the first test record builds card A |
| `Scenario.RecordBBuildsCardB` | test_main.py:27-35 | the second test record builds card B |
| `Scenario.LoadTestFile` | test_main.py:16-42 | the test file loads as cards A and B in order, with distinct names |
| `Scenario.CardAValues` | test_main.py:51-61 | card A is worth $0.075 for dining and $0.015 for an unknown category |
| `Scenario.TestCategories` | test_main.py:63-68 | the known categories are exactly dining, travel, groceries and pharmacies |
| `Scenario.TestBestCards` | test_main.py:70-97 | A wins dining ($0.075) and travel ($0.045); B wins groceries ($0.04), `"default"` ($0.02) and pharmacies ($0.02 against A's $0.01875) |
| `Scenario.TestReportSize` | test_main.py:99-118 | the report covers five categories |

## Left out

- Reading and writing the JSON file (`open`, `json.load`, `json.dump`) are not modelled. The store is its decoded list of records, or `None` for a missing or undecodable file. A top-level JSON value that is not a list, and I/O errors other than a missing file, are not modelled.
- `float()` conversion is modelled on exact reals: a JSON number converts to itself. IEEE rounding is not modelled. `float()` also accepts numeric strings; the model treats a string in a numeric field as not convertible (a validation error).
- JSON booleans, `null` and arrays cannot be represented by the model's `Json` type (strings, numbers and objects only). Python treats them differently: `float(True)` is `1.0`, so `"point_value": true` is accepted; `"multipliers": null` raises `AttributeError` (main.py:17); a record that is a JSON list raises `TypeError` (main.py:15).
- Card names must be JSON strings in the model. Python would store any value under `card_name`.
- Wallets.Wallet.constructor: requires the store to load and its names to be unique. The source raises from the constructor on a malformed record (`LoadCards` returns that error), and it does not check uniqueness on load.
- `GetCardByName` returns the card's value, not a shared object. Updating the found object in place is modelled as replacing the element at its position, which is equivalent because only the wallet holds cards. `list.remove` of the found object is modelled as removal at its position.
- The store's file path (`data_file`) is not modelled; a wallet has one store.
- `__repr__` (display only) is not modelled.
- The sorted order in which `get_best_cards_for_all_categories` visits categories is not modelled. The result is a map, and the visiting order does not change its contents.
- Concurrent writers to the store (last write wins) are not modelled.
- All of app.py (Flask routes, templates, form parsing and key normalisation) is not part of this model.
