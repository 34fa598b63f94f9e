/** The three option stores of the front end (exchanges, position directions
    and market types). They share one shape: a list of options keyed by
    `value`, with an optional status, edited in place. */
module OptionStores {
  import opened Common
  import opened KeyedLists

  datatype Choice = Choice(value: string, display: string, status: Option<string>, logo: Option<string>)

  /** A partial update: only the keys that are present are written. */
  datatype ChoicePatch = ChoicePatch(value: Option<string>, display: Option<string>, status: Option<string>, logo: Option<string>)

  function ChoiceValue(c: Choice): string
  {
    c.value
  }

  /** `{...c, ...p}`. */
  function Patched(c: Choice, p: ChoicePatch): (r: Choice)
    ensures p.value.None? ==> r.value == c.value
    ensures p.display.None? ==> r.display == c.display
    ensures p.status.None? ==> r.status == c.status
    ensures p.logo.None? ==> r.logo == c.logo
  {
    Choice(
      if p.value.Some? then p.value.value else c.value,
      if p.display.Some? then p.display.value else c.display,
      if p.status.Some? then p.status else c.status,
      if p.logo.Some? then p.logo else c.logo)
  }

  function WithStatus(c: Choice, status: string): (r: Choice)
    ensures r.value == c.value && r.display == c.display && r.logo == c.logo && r.status == Some(status)
  {
    c.(status := Some(status))
  }

  predicate IsActive(c: Choice)
  {
    c.status == Some("active")
  }

  const InitialExchanges: seq<Choice> := [
    Choice("binance", "Binance", Some("active"), None),
    Choice("okx", "OKX", Some("active"), None),
    Choice("bitget", "Bitget", Some("active"), None)]

  const InitialDirections: seq<Choice> := [
    Choice("long", "做多", Some("active"), None),
    Choice("short", "做空", Some("active"), None),
    Choice("both", "双向持仓", Some("active"), None)]

  const InitialMarketTypes: seq<Choice> := [
    Choice("spot", "现货", Some("active"), None),
    Choice("futures", "合约", Some("active"), None)]

  /** Each store starts with distinct values. */
  lemma InitialValuesDistinct()
    ensures Distinct(Keys(InitialExchanges, ChoiceValue))
    ensures Distinct(Keys(InitialDirections, ChoiceValue))
    ensures Distinct(Keys(InitialMarketTypes, ChoiceValue))
  {
    assert Keys(InitialExchanges, ChoiceValue) == ["binance", "okx", "bitget"];
    assert Keys(InitialDirections, ChoiceValue) == ["long", "short", "both"];
    assert Keys(InitialMarketTypes, ChoiceValue) == ["spot", "futures"];
  }

  class ChoiceStore {
    var items: seq<Choice>

    /** No value occurs twice. */
    ghost predicate Valid()
      reads this
    {
      Distinct(Keys(items, ChoiceValue))
    }

    constructor (initial: seq<Choice>)
      ensures items == initial
    {
      items := initial;
    }

    /** The options whose status is `active`, in list order. */
    function Active(): (r: seq<Choice>)
      reads this
      ensures forall c :: c in r <==> c in items && IsActive(c)
      ensures IsSubsequence(r, items)
    {
      SelectExactly(items, IsActive);
      Select(items, IsActive)
    }

    /** The first option with the value. */
    function ByValue(value: string): (r: Option<Choice>)
      reads this
      ensures r.None? <==> value !in Keys(items, ChoiceValue)
      ensures r.Some? ==> r.value in items && r.value.value == value
      ensures r.Some? ==> exists i :: 0 <= i < |items| && items[i] == r.value && forall j :: 0 <= j < i ==> items[j].value != value
    {
      match FindIndex(items, ChoiceValue, value)
      case None => None
      case Some(i) => Some(items[i])
    }

    /** Appends the option unless its value is already listed. */
    method Add(c: Choice)
      modifies this
      ensures items == AddIfAbsent(old(items), ChoiceValue, c)
      ensures old(Valid()) ==> Valid()
    {
      if ChoiceValue(c) !in Keys(items, ChoiceValue) {
        items := items + [c];
      }
      if old(Valid()) {
        AddIfAbsentKeepsKeysDistinct(old(items), ChoiceValue, c);
      }
    }

    /** Merges the patch into the first option with the value. */
    method Update(value: string, p: ChoicePatch)
      modifies this
      ensures items == UpdateFirst(old(items), ChoiceValue, value, Patched, p)
      ensures old(Valid()) && p.value.None? ==> Valid()
    {
      var i := FindIndex(items, ChoiceValue, value);
      if i.Some? {
        items := items[i.value := Patched(items[i.value], p)];
      }
      if p.value.None? {
        UpdateFirstKeepsKeys(old(items), ChoiceValue, value, Patched, p);
      }
    }

    /** Drops every option with the value. */
    method Remove(value: string)
      modifies this
      ensures items == RemoveKey(old(items), ChoiceValue, value)
      ensures old(Valid()) ==> Valid()
    {
      items := RemoveKey(items, ChoiceValue, value);
      if old(Valid()) {
        RemoveKeyKeepsKeysDistinct(old(items), ChoiceValue, value);
      }
    }

    /** Sets the status of the first option with the value. */
    method SetStatus(value: string, status: string)
      modifies this
      ensures items == UpdateFirst(old(items), ChoiceValue, value, WithStatus, status)
      ensures old(Valid()) ==> Valid()
    {
      var i := FindIndex(items, ChoiceValue, value);
      if i.Some? {
        items := items[i.value := WithStatus(items[i.value], status)];
      }
      UpdateFirstKeepsKeys(old(items), ChoiceValue, value, WithStatus, status);
    }
  }
}
