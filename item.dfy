/**
 * One stock-slot input of src/item_component.rs.
 *
 * The user picks an item from suggestions (at most five catalog ids, in
 * name order, whose names start with the typed text, ignoring ASCII case),
 * then a price among the item's possible prices and a quantity. After every
 * message the slot reports an item exactly when all three are chosen.
 */
module ItemComponent {
  import opened Wrappers
  import opened Ints
  import opened Catalog
  import opened Merchant

  const ICON_SIZE: int := 16
  const ICONS_PER_ROW: int := 24
  const SUGGESTION_LIMIT: int := 5

  datatype ItemMessage =
    | ItemFocus(itemFocus: bool)
    | ItemValue(text: string)
    | ItemIndex(index: u16)
    | PriceFocus(priceFocus: bool)
    | PriceValue(price: u16)
    | QuantityFocus(quantityFocus: bool)
    | QuantityValue(quantity: u8)

  // ---------------------------------------------------------------------
  // Icons
  // ---------------------------------------------------------------------

  /** The position of an item's icon in the sprite sheet: 24 icons of 16 pixels a row. */
  function IconOffset(index: u16): (offset: (int, int))
    ensures 0 <= offset.0 < ICONS_PER_ROW * ICON_SIZE && offset.0 % ICON_SIZE == 0
    ensures 0 <= offset.1 && offset.1 % ICON_SIZE == 0
  {
    ((index % ICONS_PER_ROW) * ICON_SIZE, (index / ICONS_PER_ROW) * ICON_SIZE)
  }

  /** The id an icon position belongs to. */
  function IconIndex(offset: (int, int)): int
  {
    (offset.1 / ICON_SIZE) * ICONS_PER_ROW + offset.0 / ICON_SIZE
  }

  /** Every item has its own icon: the id can be read back from the position. */
  lemma IconOffsetRoundTrip(index: u16)
    ensures IconIndex(IconOffset(index)) == index
  {
    var column := index % ICONS_PER_ROW;
    var row := index / ICONS_PER_ROW;
    assert (column * ICON_SIZE) / ICON_SIZE == column;
    assert (row * ICON_SIZE) / ICON_SIZE == row;
    assert index == row * ICONS_PER_ROW + column;
  }

  // ---------------------------------------------------------------------
  // Suggestions
  // ---------------------------------------------------------------------

  /** `to_lowercase` restricted to ASCII letters. */
  function LowerChar(c: char): char
  {
    if 'A' <= c <= 'Z' then (c as int + 32) as char else c
  }

  function Lower(s: string): (r: string)
    ensures |r| == |s|
    ensures forall i :: 0 <= i < |s| ==> r[i] == LowerChar(s[i])
  {
    if s == [] then [] else [LowerChar(s[0])] + Lower(s[1..])
  }

  /** Whether `name` starts with `text`, ignoring ASCII case. */
  predicate Matches(name: string, text: string)
  {
    Lower(text) <= Lower(name)
  }

  /** Each id is in the catalog, and the ids are in (name, id) order. */
  predicate NameOrdered(objects: Objects, ids: seq<u16>)
  {
    && (forall i :: 0 <= i < |ids| ==> ids[i] in objects)
    && (forall i, j :: 0 <= i < j < |ids| ==>
          KeyLess((objects[ids[i]].name, ids[i]), (objects[ids[j]].name, ids[j])))
  }

  lemma NameOrderedTail(objects: Objects, ids: seq<u16>)
    requires NameOrdered(objects, ids) && ids != []
    ensures NameOrdered(objects, ids[1..])
  {
    forall i, j | 0 <= i < j < |ids| - 1
      ensures KeyLess((objects[ids[1..][i]].name, ids[1..][i]), (objects[ids[1..][j]].name, ids[1..][j]))
    {
      assert ids[1..][i] == ids[i + 1] && ids[1..][j] == ids[j + 1];
    }
  }

  /**
   * The suggestion list: the ids of `sorted` whose names match `text`, in
   * the order of `sorted`, stopping after `limit` of them.
   */
  function Suggestions(objects: Objects, sorted: seq<u16>, text: string, limit: nat): (r: seq<u16>)
    requires forall i :: 0 <= i < |sorted| ==> sorted[i] in objects
    ensures |r| <= limit
    ensures forall i :: 0 <= i < |r| ==> r[i] in sorted && r[i] in objects && Matches(objects[r[i]].name, text)
    ensures |r| < limit ==> forall i :: 0 <= i < |sorted| && Matches(objects[sorted[i]].name, text) ==> sorted[i] in r
  {
    if sorted == [] || limit == 0 then []
    else
      var rest := Suggestions(objects, sorted[1..], text, if Matches(objects[sorted[0]].name, text) then limit - 1 else limit);
      assert forall i :: 1 <= i < |sorted| ==> sorted[i] == sorted[1..][i - 1];
      if Matches(objects[sorted[0]].name, text) then [sorted[0]] + rest else rest
  }

  /** Every id of `sorted` whose name matches `text`, in the order of `sorted`: the list before `take`. */
  function Matching(objects: Objects, sorted: seq<u16>, text: string): (m: seq<u16>)
    requires forall i :: 0 <= i < |sorted| ==> sorted[i] in objects
    ensures forall x :: x in m <==> x in sorted && Matches(objects[x].name, text)
  {
    if sorted == [] then []
    else
      var rest := Matching(objects, sorted[1..], text);
      assert forall x :: x in sorted <==> x == sorted[0] || x in sorted[1..];
      if Matches(objects[sorted[0]].name, text) then [sorted[0]] + rest else rest
  }

  /** The suggestions are exactly the first `limit` matches: `filter_map` followed by `take`. */
  lemma {:induction false} SuggestionsTakeMatching(objects: Objects, sorted: seq<u16>, text: string, limit: nat)
    requires forall i :: 0 <= i < |sorted| ==> sorted[i] in objects
    ensures var m := Matching(objects, sorted, text);
      Suggestions(objects, sorted, text, limit) == m[..if |m| < limit then |m| else limit]
  {
    if sorted != [] && limit != 0 {
      var matched := Matches(objects[sorted[0]].name, text);
      var remaining := if matched then limit - 1 else limit;
      SuggestionsTakeMatching(objects, sorted[1..], text, remaining);
      var tail := Matching(objects, sorted[1..], text);
      var rest := Suggestions(objects, sorted[1..], text, remaining);
      var n := if |tail| < remaining then |tail| else remaining;
      assert rest == tail[..n];
      if matched {
        var m := [sorted[0]] + tail;
        assert Matching(objects, sorted, text) == m;
        assert Suggestions(objects, sorted, text, limit) == [sorted[0]] + rest;
        assert (if |m| < limit then |m| else limit) == n + 1;
        assert m[..n + 1] == [sorted[0]] + tail[..n];
      } else {
        assert Matching(objects, sorted, text) == tail;
        assert Suggestions(objects, sorted, text, limit) == rest;
      }
    }
  }

  /** The tail of a list without repeats has none and does not hold the head. */
  lemma DistinctTail(sorted: seq<u16>)
    requires Sorting.Distinct(sorted) && sorted != []
    ensures Sorting.Distinct(sorted[1..]) && sorted[0] !in sorted[1..]
  {
    var tail := sorted[1..];
    forall i, j | 0 <= i < j < |tail| ensures tail[i] != tail[j] {
      assert tail[i] == sorted[i + 1] && tail[j] == sorted[j + 1];
    }
    forall k | 0 <= k < |tail| ensures tail[k] != sorted[0] {
      assert tail[k] == sorted[k + 1];
    }
  }

  /** On a list without repeats the suggestions have no repeats. */
  lemma {:induction false} SuggestionsDistinct(objects: Objects, sorted: seq<u16>, text: string, limit: nat)
    requires forall i :: 0 <= i < |sorted| ==> sorted[i] in objects
    requires Sorting.Distinct(sorted)
    ensures Sorting.Distinct(Suggestions(objects, sorted, text, limit))
  {
    if sorted != [] && limit != 0 {
      var tail := sorted[1..];
      var matched := Matches(objects[sorted[0]].name, text);
      var remaining := if matched then limit - 1 else limit;
      DistinctTail(sorted);
      SuggestionsDistinct(objects, tail, text, remaining);
      var rest := Suggestions(objects, tail, text, remaining);
      if matched {
        var r := [sorted[0]] + rest;
        assert Suggestions(objects, sorted, text, limit) == r;
        forall i, j | 0 <= i < j < |r| ensures r[i] != r[j] {
          assert r[j] == rest[j - 1] && rest[j - 1] in tail;
          if i > 0 {
            assert r[i] == rest[i - 1];
          }
        }
      }
    }
  }

  /** On a list without repeats, a match is left out only when every suggestion comes before it. */
  lemma {:induction false} SuggestionsFirstMatches(objects: Objects, sorted: seq<u16>, text: string, limit: nat)
    requires forall i :: 0 <= i < |sorted| ==> sorted[i] in objects
    requires Sorting.Distinct(sorted)
    ensures var r := Suggestions(objects, sorted, text, limit);
      forall i, j :: 0 <= i < j < |sorted| && sorted[j] in r && Matches(objects[sorted[i]].name, text) ==> sorted[i] in r
  {
    if sorted != [] && limit != 0 {
      var tail := sorted[1..];
      var matched := Matches(objects[sorted[0]].name, text);
      var remaining := if matched then limit - 1 else limit;
      DistinctTail(sorted);
      SuggestionsFirstMatches(objects, tail, text, remaining);
      var rest := Suggestions(objects, tail, text, remaining);
      var r := Suggestions(objects, sorted, text, limit);
      assert r == if matched then [sorted[0]] + rest else rest;
      forall i, j | 0 <= i < j < |sorted| && sorted[j] in r && Matches(objects[sorted[i]].name, text)
        ensures sorted[i] in r
      {
        if i > 0 {
          assert sorted[j] == tail[j - 1] && sorted[i] == tail[i - 1];
          assert sorted[j] in rest;
        }
      }
    }
  }

  /** A name-ordered list stays name-ordered behind an id that precedes all of it. */
  lemma ConsNameOrdered(objects: Objects, head: u16, rest: seq<u16>)
    requires head in objects && NameOrdered(objects, rest)
    requires forall j :: 0 <= j < |rest| ==> KeyLess((objects[head].name, head), (objects[rest[j]].name, rest[j]))
    ensures NameOrdered(objects, [head] + rest)
  {
    var r := [head] + rest;
    forall i, j | 0 <= i < j < |r|
      ensures KeyLess((objects[r[i]].name, r[i]), (objects[r[j]].name, r[j]))
    {
      assert r[j] == rest[j - 1];
      if i > 0 {
        assert r[i] == rest[i - 1];
      }
    }
  }

  /** The head of a name-ordered list precedes every id drawn from its tail. */
  lemma HeadPrecedes(objects: Objects, sorted: seq<u16>, rest: seq<u16>)
    requires NameOrdered(objects, sorted) && sorted != []
    requires forall j :: 0 <= j < |rest| ==> rest[j] in sorted[1..]
    ensures forall j :: 0 <= j < |rest| ==> KeyLess((objects[sorted[0]].name, sorted[0]), (objects[rest[j]].name, rest[j]))
  {
    forall j | 0 <= j < |rest|
      ensures KeyLess((objects[sorted[0]].name, sorted[0]), (objects[rest[j]].name, rest[j]))
    {
      var k :| 0 <= k < |sorted[1..]| && sorted[1..][k] == rest[j];
      assert sorted[k + 1] == rest[j];
    }
  }

  /** Suggestions taken from a name-ordered list are in name order. */
  lemma {:induction false} SuggestionsInNameOrder(objects: Objects, sorted: seq<u16>, text: string, limit: nat)
    requires NameOrdered(objects, sorted)
    ensures NameOrdered(objects, Suggestions(objects, sorted, text, limit))
  {
    if sorted != [] && limit != 0 {
      var matched := Matches(objects[sorted[0]].name, text);
      var remaining := if matched then limit - 1 else limit;
      NameOrderedTail(objects, sorted);
      SuggestionsInNameOrder(objects, sorted[1..], text, remaining);
      var rest := Suggestions(objects, sorted[1..], text, remaining);
      if matched {
        assert Suggestions(objects, sorted, text, limit) == [sorted[0]] + rest;
        HeadPrecedes(objects, sorted, rest);
        ConsNameOrdered(objects, sorted[0], rest);
      } else {
        assert Suggestions(objects, sorted, text, limit) == rest;
      }
    }
  }


  /**
   * The suggestions the item field shows for the catalog's name-sorted ids:
   * the first five matches in name order, each once.
   */
  lemma CatalogSuggestions(t: Tables, text: string)
    requires TablesValid(t)
    ensures var r := Suggestions(t.objects, t.sorted, text, SUGGESTION_LIMIT);
      && |r| <= SUGGESTION_LIMIT
      && NameOrdered(t.objects, r)
      && Sorting.Distinct(r)
      && (|r| < SUGGESTION_LIMIT ==> forall id :: id in t.objects && Matches(t.objects[id].name, text) ==> id in r)
      && (forall i, j :: 0 <= i < j < |t.sorted| && t.sorted[j] in r && Matches(t.objects[t.sorted[i]].name, text) ==> t.sorted[i] in r)
  {
    SortedByNameDistinct(t.objects, t.sorted);
    SuggestionsDistinct(t.objects, t.sorted, text, SUGGESTION_LIMIT);
    SuggestionsFirstMatches(t.objects, t.sorted, text, SUGGESTION_LIMIT);
    SuggestionsInNameOrder(t.objects, t.sorted, text, SUGGESTION_LIMIT);
    var r := Suggestions(t.objects, t.sorted, text, SUGGESTION_LIMIT);
    if |r| < SUGGESTION_LIMIT {
      forall id | id in t.objects && Matches(t.objects[id].name, text) ensures id in r {
        var k :| 0 <= k < |t.sorted| && t.sorted[k] == id;
      }
    }
  }

  // ---------------------------------------------------------------------
  // The slot
  // ---------------------------------------------------------------------

  datatype ItemState = ItemState(
    itemFocus: bool,
    itemValue: string,
    itemIndex: Option<u16>,
    priceFocus: bool,
    priceValue: Option<u16>,
    quantityFocus: bool,
    quantityValue: Option<u8>)

  /** What picking a suggestion demands: the id has a catalog record. */
  predicate Selectable(objects: Objects, msg: ItemMessage)
  {
    msg.ItemIndex? ==> msg.index in objects
  }

  /** The fields after one message. */
  function ItemStep(objects: Objects, s: ItemState, msg: ItemMessage): ItemState
    requires Selectable(objects, msg)
  {
    match msg
    case ItemFocus(focus) => s.(itemFocus := focus)
    case ItemValue(text) => s.(itemValue := text)
    case ItemIndex(index) => s.(itemValue := objects[index].name, itemIndex := Some(index), priceValue := None, quantityValue := None)
    case PriceFocus(focus) => s.(priceFocus := focus)
    case PriceValue(price) => s.(priceValue := Some(price))
    case QuantityFocus(focus) => s.(quantityFocus := focus)
    case QuantityValue(quantity) => s.(quantityValue := Some(quantity))
  }

  /** What the slot reports for its fields. */
  function Reported(s: ItemState): Option<Item>
  {
    match (s.itemIndex, s.priceValue, s.quantityValue)
    case (Some(index), Some(price), Some(quantity)) => Some(Item(index, price, quantity))
    case _ => None
  }

  /** The slot reports an item exactly when index, price and quantity are all chosen, and then reports those. */
  lemma ReportedItem(s: ItemState)
    ensures Reported(s).Some? <==> s.itemIndex.Some? && s.priceValue.Some? && s.quantityValue.Some?
    ensures Reported(s).Some? ==> Reported(s).value == Item(s.itemIndex.value, s.priceValue.value, s.quantityValue.value)
  {
  }

  /** Picking an item shows its name and forgets the price and quantity chosen before, so nothing is reported until both are chosen again. */
  lemma PickingResets(objects: Objects, s: ItemState, index: u16)
    requires index in objects
    ensures var t := ItemStep(objects, s, ItemIndex(index));
      && t.itemIndex == Some(index) && t.itemValue == objects[index].name
      && t.priceValue.None? && t.quantityValue.None?
      && Reported(t).None?
  {
  }

  /** Focus changes and typing change only their own field, never the chosen item or what is reported. */
  lemma OnlyOwnField(objects: Objects, s: ItemState, msg: ItemMessage)
    requires msg.ItemFocus? || msg.ItemValue? || msg.PriceFocus? || msg.QuantityFocus?
    ensures ItemStep(objects, s, msg).itemIndex == s.itemIndex
    ensures Reported(ItemStep(objects, s, msg)) == Reported(s)
    ensures msg.ItemValue? ==> ItemStep(objects, s, msg) == s.(itemValue := msg.text)
    ensures msg.ItemFocus? ==> ItemStep(objects, s, msg) == s.(itemFocus := msg.itemFocus)
    ensures msg.PriceFocus? ==> ItemStep(objects, s, msg) == s.(priceFocus := msg.priceFocus)
    ensures msg.QuantityFocus? ==> ItemStep(objects, s, msg) == s.(quantityFocus := msg.quantityFocus)
  {
  }

  class ItemComponent {
    var itemFocus: bool
    var itemValue: string
    var itemIndex: Option<u16>
    var priceFocus: bool
    var priceValue: Option<u16>
    var quantityFocus: bool
    var quantityValue: Option<u8>

    function State(): ItemState
      reads this
    {
      ItemState(itemFocus, itemValue, itemIndex, priceFocus, priceValue, quantityFocus, quantityValue)
    }

    constructor ()
      ensures State() == ItemState(false, "", None, false, None, false, None)
    {
      itemFocus := false;
      itemValue := "";
      itemIndex := None;
      priceFocus := false;
      priceValue := None;
      quantityFocus := false;
      quantityValue := None;
    }

    method Update(objects: Objects, msg: ItemMessage) returns (emitted: Option<Item>)
      requires Selectable(objects, msg)
      modifies this
      ensures State() == ItemStep(objects, old(State()), msg)
      ensures emitted == Reported(State())
    {
      match msg {
        case ItemFocus(focus) =>
          itemFocus := focus;
        case ItemValue(value) =>
          itemValue := value;
        case ItemIndex(index) =>
          itemValue := objects[index].name;
          itemIndex := Some(index);
          priceValue := None;
          quantityValue := None;
        case PriceFocus(focus) =>
          priceFocus := focus;
        case PriceValue(value) =>
          priceValue := Some(value);
        case QuantityFocus(focus) =>
          quantityFocus := focus;
        case QuantityValue(value) =>
          quantityValue := Some(value);
      }

      match (itemIndex, priceValue, quantityValue) {
        case (Some(index), Some(price), Some(quantity)) =>
          emitted := Some(Item(index, price, quantity));
        case _ =>
          emitted := None;
      }
    }

    /** The price choices the price field offers: the chosen item's possible prices, ascending. */
    method PriceChoices(objects: Objects) returns (prices: seq<u16>)
      requires itemIndex.Some? ==> itemIndex.value in objects && objects[itemIndex.value].price * 5 <= U16_MAX
      ensures itemIndex.None? ==> prices == []
      ensures itemIndex.Some? ==> Elements(prices) == PriceSet(objects[itemIndex.value].price)
      ensures Sorting.StrictlySorted(U16Less, prices)
    {
      match itemIndex {
        case Some(index) =>
          var possible := PossiblePrices(objects, index);
          prices := possible.value;
        case None =>
          prices := [];
      }
    }
  }
}
