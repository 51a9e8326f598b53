/**
  The persisted form of a wallet: a list of card dictionaries. Reading and
  writing the file are not modelled; the store is the decoded list itself,
  or `None` when the file is absent or is not valid JSON.
 */
module Store {
  import opened Wrappers
  import opened Cards

  /** Builds a card from every record, in order, stopping at the first that fails. */
  function ParseRecords(records: seq<Json>): (r: Result<seq<Card>, Error>)
    ensures r.Success? <==> forall i :: 0 <= i < |records| ==>
      records[i].JObj? && FromDict(records[i].fields).Success?
    ensures r.Success? ==> |r.value| == |records|
    ensures r.Success? ==> forall i :: 0 <= i < |records| ==>
      records[i].JObj? && FromDict(records[i].fields) == Success(r.value[i])
  {
    if records == [] then Success([])
    else if !records[0].JObj? then Failure(ValidationError(CardNameKey))
    else
      match FromDict(records[0].fields)
      case Failure(e) => Failure(e)
      case Success(c) =>
        assert forall i :: 0 < i < |records| ==> records[1..][i - 1] == records[i];
        match ParseRecords(records[1..])
        case Failure(e) => Failure(e)
        case Success(rest) => Success([c] + rest)
  }

  /**
    `load_cards`: a missing or undecodable file yields no cards; otherwise
    every record becomes a card, and a malformed record raises.
   */
  function LoadCards(file: Option<seq<Json>>): (r: Result<seq<Card>, Error>)
    ensures file.None? ==> r == Success([])
    ensures file.Some? ==> (r.Success? <==> forall i :: 0 <= i < |file.value| ==>
      file.value[i].JObj? && FromDict(file.value[i].fields).Success?)
    ensures file.Some? && r.Success? ==> |r.value| == |file.value|
    ensures file.Some? && r.Success? ==> forall i :: 0 <= i < |file.value| ==>
      FromDict(file.value[i].fields) == Success(r.value[i])
  {
    match file
    case None => Success([])
    case Some(records) => ParseRecords(records)
  }

  /** `save_cards`: the list of `to_dict` forms of the cards, in wallet order. */
  function Dump(cs: seq<Card>): (records: seq<Json>)
    ensures |records| == |cs|
    ensures forall i :: 0 <= i < |cs| ==> records[i] == JObj(ToDict(cs[i]))
  {
    if cs == [] then [] else [JObj(ToDict(cs[0]))] + Dump(cs[1..])
  }

  /** Loading what was saved gives back the same cards in the same order. */
  lemma {:induction false} LoadDump(cs: seq<Card>)
    ensures LoadCards(Some(Dump(cs))) == Success(cs)
  {
    if cs != [] {
      FromDictToDict(cs[0]);
      LoadDump(cs[1..]);
      assert Dump(cs)[1..] == Dump(cs[1..]);
      assert [cs[0]] + cs[1..] == cs;
    }
  }
}
