/**
  The record-materialisation benchmark. A sample document holds one item per
  index, each a list of name/value properties; only the ItemCost property
  carries the possibly corrupted input. Two loops map the items to entities,
  one parsing the cost under a catch of every exception, the other with
  int.TryParse; both leave 0 where parsing fails. The XML text itself and the
  serializer are not modelled: the document is its sequence of items, and
  deserialising it gives that sequence back.
*/
module XmlParsingExample {
  import opened Wrappers
  import opened Int32Text
  import opened SystemRandom
  import opened InputGeneration

  /** The seed the sample document is always generated with. */
  const SAMPLE_SEED: int := 1

  /** The cost entities get when their cost does not parse. */
  const COST_FALLBACK: int := 0

  const ITEM_ID: string := "ItemId"
  const ITEM_DESCRIPTION: string := "ItemDescription"
  const ITEM_CODE: string := "ItemCode"
  const ITEM_COST: string := "ItemCost"

  /** One `property` element: its name and value attributes. */
  datatype ItemProperty = ItemProperty(name: string, value: string)

  /** One `Item` element, its properties in document order. */
  datatype Item = Item(properties: seq<ItemProperty>)

  /** The domain record. Its strings may be null (None), as a fresh one's are. */
  datatype ItemEntity = ItemEntity(
    itemId: Option<string>,
    itemDescription: Option<string>,
    itemCode: Option<string>,
    itemCost: int)

  /** The value of the first property with the given name, or null when no
      property has that name. */
  function GetPropertyValue(item: Item, name: string): (r: Option<string>)
    ensures r.None? <==> forall i :: 0 <= i < |item.properties| ==> item.properties[i].name != name
    ensures r.Some? ==> exists k :: (0 <= k < |item.properties| && item.properties[k] == ItemProperty(name, r.value)
      && forall j :: 0 <= j < k ==> item.properties[j].name != name)
    decreases |item.properties|
  {
    if item.properties == [] then None
    else if item.properties[0].name == name then Some(item.properties[0].value)
    else
      var rest := Item(item.properties[1..]);
      var r := GetPropertyValue(rest, name);
      assert forall i :: 1 <= i < |item.properties| ==> item.properties[i] == rest.properties[i - 1];
      r
  }

  function ItemDescriptionOf(i: nat): string {
    "ItemId: " + ToDecimal(i) + " Desc"
  }

  function ItemCodeOf(i: nat): string {
    "P123-456-" + ToDecimal(i)
  }

  /** Item i: its index, a description and a code derived from the index, and
      the payload as its cost, in that order. Its four property names are
      distinct, so every lookup on it is unambiguous. */
  function SampleItem(i: nat, payload: string): (item: Item)
    ensures |item.properties| == 4
    ensures forall j, k :: 0 <= j < k < |item.properties| ==> item.properties[j].name != item.properties[k].name
  {
    assert ITEM_CODE[6] != ITEM_COST[6];
    Item([
      ItemProperty(ITEM_ID, ToDecimal(i)),
      ItemProperty(ITEM_DESCRIPTION, ItemDescriptionOf(i)),
      ItemProperty(ITEM_CODE, ItemCodeOf(i)),
      ItemProperty(ITEM_COST, payload)])
  }

  /** Looking up each of a sample item's four names finds the value built for
      it; only ItemCost carries the payload. */
  lemma SampleItemLookup(i: nat, payload: string)
    ensures GetPropertyValue(SampleItem(i, payload), ITEM_ID) == Some(ToDecimal(i))
    ensures GetPropertyValue(SampleItem(i, payload), ITEM_DESCRIPTION) == Some(ItemDescriptionOf(i))
    ensures GetPropertyValue(SampleItem(i, payload), ITEM_CODE) == Some(ItemCodeOf(i))
    ensures GetPropertyValue(SampleItem(i, payload), ITEM_COST) == Some(payload)
  {
    var props := SampleItem(i, payload).properties;
    assert ITEM_CODE[6] != ITEM_COST[6];
    assert GetPropertyValue(Item(props[3..]), ITEM_COST) == Some(payload);
    assert GetPropertyValue(Item(props[2..]), ITEM_CODE) == Some(ItemCodeOf(i));
    assert GetPropertyValue(Item(props[2..]), ITEM_COST) == Some(payload);
    assert GetPropertyValue(Item(props[1..]), ITEM_CODE) == Some(ItemCodeOf(i));
    assert GetPropertyValue(Item(props[1..]), ITEM_COST) == Some(payload);
  }

  /** Looking up a name a sample item does not have finds nothing (null),
      which is not an error. */
  lemma SampleItemMissingName(i: nat, payload: string, name: string)
    requires name != ITEM_ID && name != ITEM_DESCRIPTION && name != ITEM_CODE && name != ITEM_COST
    ensures GetPropertyValue(SampleItem(i, payload), name) == None
  {
  }

  /** The sample document: item k carries the k-th generated input as its cost. */
  function SampleData(samples: nat -> Sample, errorRate: real, count: int): (doc: seq<Item>)
    ensures |doc| == if count < 0 then 0 else count
    ensures forall k :: 0 <= k < |doc| ==> doc[k] == SampleItem(k, InputAt(samples, errorRate, k))
    decreases count
  {
    if count <= 0 then []
    else SampleData(samples, errorRate, count - 1) + [SampleItem(count - 1, InputAt(samples, errorRate, count - 1))]
  }

  /** Builds the document item by item from a generator seeded with 1. */
  method BuildSampleDataBadString(errorRate: real, count: int, seeding: Seeding) returns (doc: seq<Item>)
    ensures doc == SampleData(seeding(SAMPLE_SEED), errorRate, count)
  {
    var random := new Random(SAMPLE_SEED, seeding);
    ghost var samples := seeding(SAMPLE_SEED);
    doc := [];
    var i := 0;
    while i < count
      invariant 0 <= i <= if count < 0 then 0 else count
      invariant random.samples == samples && random.position == 2 * i
      invariant |doc| == i
      invariant forall k :: 0 <= k < i ==> doc[k] == SampleItem(k, InputAt(samples, errorRate, k))
    {
      var randomInput := DrawInput(random, errorRate, i);
      var el := SampleItem(i, randomInput);
      doc := doc + [el];
      i := i + 1;
    }
    assert doc == SampleData(samples, errorRate, count);
  }

  /** int.Parse under a handler that catches every exception (format,
      overflow and null argument alike) and substitutes the fallback. */
  function CatchAllParse(s: Option<string>, fallback: int): (v: int)
    ensures s.Some? && IsDigitString(s.value) && DigitsValue(s.value) <= INT32_MAX_VALUE ==> v == DigitsValue(s.value)
    ensures !(s.Some? && IsDigitString(s.value) && DigitsValue(s.value) <= INT32_MAX_VALUE) ==> v == fallback
  {
    match Int32ParseNullable(s)
    case Success(n) => n
    case Failure(_) => fallback
  }

  /** The entity the exception-guarded loop builds from an item: the three
      strings as looked up, and a cost in [0, Int32.MaxValue] that is the
      parsed ItemCost when it parses and 0 otherwise, a missing ItemCost
      included. */
  function TryCatchEntity(item: Item): (e: ItemEntity)
    ensures e.itemId == GetPropertyValue(item, ITEM_ID)
    ensures e.itemDescription == GetPropertyValue(item, ITEM_DESCRIPTION)
    ensures e.itemCode == GetPropertyValue(item, ITEM_CODE)
    ensures 0 <= e.itemCost <= INT32_MAX_VALUE
    ensures GetPropertyValue(item, ITEM_COST).None? ==> e.itemCost == COST_FALLBACK
    ensures e.itemCost != COST_FALLBACK ==> (GetPropertyValue(item, ITEM_COST).Some?
      && Int32Parse(GetPropertyValue(item, ITEM_COST).value) == Success(e.itemCost))
    ensures GetPropertyValue(item, ITEM_COST).Some? && Int32Parse(GetPropertyValue(item, ITEM_COST).value).Success?
      ==> e.itemCost == Int32Parse(GetPropertyValue(item, ITEM_COST).value).value
  {
    ItemEntity(
      GetPropertyValue(item, ITEM_ID),
      GetPropertyValue(item, ITEM_DESCRIPTION),
      GetPropertyValue(item, ITEM_CODE),
      CatchAllParse(GetPropertyValue(item, ITEM_COST), COST_FALLBACK))
  }

  /** The entity the try-parse loop builds from an item, its cost being
      TryParse's out value for the property named `costSource`. */
  function TryParseEntity(item: Item, costSource: string): (e: ItemEntity)
    ensures e.itemId == GetPropertyValue(item, ITEM_ID)
    ensures e.itemDescription == GetPropertyValue(item, ITEM_DESCRIPTION)
    ensures e.itemCode == GetPropertyValue(item, ITEM_CODE)
    ensures 0 <= e.itemCost <= INT32_MAX_VALUE
    ensures GetPropertyValue(item, costSource).None? ==> e.itemCost == 0
    ensures e.itemCost != 0 ==> (GetPropertyValue(item, costSource).Some?
      && Int32Parse(GetPropertyValue(item, costSource).value) == Success(e.itemCost))
    ensures GetPropertyValue(item, costSource).Some? && Int32Parse(GetPropertyValue(item, costSource).value).Success?
      ==> e.itemCost == Int32Parse(GetPropertyValue(item, costSource).value).value
  {
    ItemEntity(
      GetPropertyValue(item, ITEM_ID),
      GetPropertyValue(item, ITEM_DESCRIPTION),
      GetPropertyValue(item, ITEM_CODE),
      Int32TryParse(GetPropertyValue(item, costSource)).1)
  }

  /** Catching every exception with fallback 0 and reading TryParse's out
      value are the same conversion, for every string and for null. */
  lemma CatchAllMatchesTryParse(s: Option<string>)
    ensures CatchAllParse(s, COST_FALLBACK) == Int32TryParse(s).1
  {
  }

  /** Parsing the cost property, try-parse gives every item the entity the
      exception-guarded loop gives it. */
  lemma TryParseCostMatchesTryCatch(item: Item)
    ensures TryParseEntity(item, ITEM_COST) == TryCatchEntity(item)
  {
  }

  /** A sample item's code never parses, so parsing the code leaves every
      cost at 0 whatever the payload. */
  lemma TryParseCodeCostIsZero(i: nat, payload: string)
    ensures TryParseEntity(SampleItem(i, payload), ITEM_CODE).itemCost == 0
  {
    SampleItemLookup(i, payload);
    assert ItemCodeOf(i)[0] == 'P';
  }

  /** The two loops as written disagree on an item whose cost is valid: the
      exception-guarded one reads 5, the try-parse one 0. */
  lemma TryParseCodeDisagrees()
    ensures TryCatchEntity(SampleItem(0, "5")).itemCost == 5
    ensures TryParseEntity(SampleItem(0, "5"), ITEM_CODE).itemCost == 0
  {
    var item := SampleItem(0, "5");
    SampleItemLookup(0, "5");
    ParseToDecimal(5);
    assert ToDecimal(5) == "5";
    assert CatchAllParse(GetPropertyValue(item, ITEM_COST), COST_FALLBACK) == 5;
    TryParseCodeCostIsZero(0, "5");
  }

  /** A fresh ItemEntity: null strings and a zero cost. */
  function NewItemEntity(): ItemEntity {
    ItemEntity(None, None, None, 0)
  }

  /** The exception-guarded mapping loop: one entity per item, in order. */
  method MapTryCatch(items: seq<Item>) returns (itemEntities: seq<ItemEntity>)
    ensures |itemEntities| == |items|
    ensures forall k :: 0 <= k < |items| ==> itemEntities[k] == TryCatchEntity(items[k])
  {
    itemEntities := [];
    for k := 0 to |items|
      invariant |itemEntities| == k
      invariant forall j :: 0 <= j < k ==> itemEntities[j] == TryCatchEntity(items[j])
    {
      var item := items[k];
      var itemEntity := NewItemEntity();
      itemEntity := itemEntity.(itemId := GetPropertyValue(item, ITEM_ID));
      itemEntity := itemEntity.(itemDescription := GetPropertyValue(item, ITEM_DESCRIPTION));
      itemEntity := itemEntity.(itemCode := GetPropertyValue(item, ITEM_CODE));
      match Int32ParseNullable(GetPropertyValue(item, ITEM_COST)) {
        case Success(cost) =>
          itemEntity := itemEntity.(itemCost := cost);
        case Failure(_) =>
          itemEntity := itemEntity.(itemCost := COST_FALLBACK);
      }
      itemEntities := itemEntities + [itemEntity];
    }
  }

  /** The try-parse mapping loop, reading the cost from the property named
      `costSource`: one entity per item, in order. */
  method MapTryParse(items: seq<Item>, costSource: string) returns (itemEntities: seq<ItemEntity>)
    ensures |itemEntities| == |items|
    ensures forall k :: 0 <= k < |items| ==> itemEntities[k] == TryParseEntity(items[k], costSource)
  {
    itemEntities := [];
    for k := 0 to |items|
      invariant |itemEntities| == k
      invariant forall j :: 0 <= j < k ==> itemEntities[j] == TryParseEntity(items[j], costSource)
    {
      var item := items[k];
      var itemEntity := NewItemEntity();
      itemEntity := itemEntity.(itemId := GetPropertyValue(item, ITEM_ID));
      itemEntity := itemEntity.(itemDescription := GetPropertyValue(item, ITEM_DESCRIPTION));
      itemEntity := itemEntity.(itemCode := GetPropertyValue(item, ITEM_CODE));
      var (_, itemCost) := Int32TryParse(GetPropertyValue(item, costSource));
      itemEntity := itemEntity.(itemCost := itemCost);
      itemEntities := itemEntities + [itemEntity];
    }
  }

  /** The entity a sample item yields, given the cost the conversion gave it. */
  predicate IsSampleEntity(e: ItemEntity, k: nat, cost: int) {
    && e.itemId == Some(ToDecimal(k))
    && e.itemDescription == Some(ItemDescriptionOf(k))
    && e.itemCode == Some(ItemCodeOf(k))
    && e.itemCost == cost
  }

  /** The whole exception-guarded pipeline: entity k carries item k's fields,
      and its cost is the drawn integer, or 0 when the input was corrupted. */
  method TimeTryCatch(errorRate: real, count: int, seeding: Seeding) returns (itemEntities: seq<ItemEntity>)
    ensures |itemEntities| == if count < 0 then 0 else count
    ensures forall k :: 0 <= k < |itemEntities| ==> IsSampleEntity(itemEntities[k], k,
      if Corrupted(seeding(SAMPLE_SEED), errorRate, k) then COST_FALLBACK else Drawn(seeding(SAMPLE_SEED), k))
  {
    var externalData := BuildSampleDataBadString(errorRate, count, seeding);
    var deserializedRawData := externalData;
    itemEntities := MapTryCatch(deserializedRawData);
    ghost var samples := seeding(SAMPLE_SEED);
    forall k | 0 <= k < |itemEntities|
      ensures IsSampleEntity(itemEntities[k], k,
        if Corrupted(samples, errorRate, k) then COST_FALLBACK else Drawn(samples, k))
    {
      var payload := InputAt(samples, errorRate, k);
      assert deserializedRawData[k] == SampleItem(k, payload);
      SampleItemLookup(k, payload);
      assert Int32Parse(payload) == if Corrupted(samples, errorRate, k) then Failure(FormatError) else Success(Drawn(samples, k));
    }
  }

  /** The whole try-parse pipeline as written: it parses ItemCode, so every
      entity's cost is 0, whatever the input. */
  method TimeTryParse(errorRate: real, count: int, seeding: Seeding) returns (itemEntities: seq<ItemEntity>)
    ensures |itemEntities| == if count < 0 then 0 else count
    ensures forall k :: 0 <= k < |itemEntities| ==> IsSampleEntity(itemEntities[k], k, 0)
  {
    var externalData := BuildSampleDataBadString(errorRate, count, seeding);
    var deserializedRawData := externalData;
    itemEntities := MapTryParse(deserializedRawData, ITEM_CODE);
    ghost var samples := seeding(SAMPLE_SEED);
    forall k | 0 <= k < |itemEntities|
      ensures IsSampleEntity(itemEntities[k], k, 0)
    {
      var payload := InputAt(samples, errorRate, k);
      assert deserializedRawData[k] == SampleItem(k, payload);
      SampleItemLookup(k, payload);
      TryParseCodeCostIsZero(k, payload);
    }
  }

  /** The try-parse pipeline as intended, parsing ItemCost: it yields exactly
      the entities of the exception-guarded pipeline. */
  method TimeTryParseCorrected(errorRate: real, count: int, seeding: Seeding) returns (itemEntities: seq<ItemEntity>)
    ensures |itemEntities| == if count < 0 then 0 else count
    ensures forall k :: 0 <= k < |itemEntities| ==> IsSampleEntity(itemEntities[k], k,
      if Corrupted(seeding(SAMPLE_SEED), errorRate, k) then COST_FALLBACK else Drawn(seeding(SAMPLE_SEED), k))
  {
    var externalData := BuildSampleDataBadString(errorRate, count, seeding);
    var deserializedRawData := externalData;
    itemEntities := MapTryParse(deserializedRawData, ITEM_COST);
    ghost var samples := seeding(SAMPLE_SEED);
    forall k | 0 <= k < |itemEntities|
      ensures IsSampleEntity(itemEntities[k], k,
        if Corrupted(samples, errorRate, k) then COST_FALLBACK else Drawn(samples, k))
    {
      var payload := InputAt(samples, errorRate, k);
      assert deserializedRawData[k] == SampleItem(k, payload);
      SampleItemLookup(k, payload);
      TryParseCostMatchesTryCatch(deserializedRawData[k]);
      assert Int32Parse(payload) == if Corrupted(samples, errorRate, k) then Failure(FormatError) else Success(Drawn(samples, k));
    }
  }

  /** The count each point of the error-rate sweep uses. */
  const SWEEP_COUNT: int := 50000

  /** One point of the error-rate sweep, as written: the try-parse pipeline
      agrees with the exception-guarded one on entity k exactly when item k's
      input was corrupted or its drawn integer is 0. */
  method BenchmarksPoint(errorRate: real, seeding: Seeding)
    returns (tryCatchEntities: seq<ItemEntity>, tryParseEntities: seq<ItemEntity>)
    ensures |tryCatchEntities| == |tryParseEntities| == SWEEP_COUNT
    ensures forall k :: 0 <= k < SWEEP_COUNT ==>
      (tryCatchEntities[k] == tryParseEntities[k] <==>
        Corrupted(seeding(SAMPLE_SEED), errorRate, k) || Drawn(seeding(SAMPLE_SEED), k) == 0)
  {
    tryCatchEntities := TimeTryCatch(errorRate, SWEEP_COUNT, seeding);
    tryParseEntities := TimeTryParse(errorRate, SWEEP_COUNT, seeding);
  }

  /** The entity the strict test builds from an item: int.Parse of the cost,
      unguarded, so a bad cost throws. The test takes the id from ItemCode. */
  function StrictEntity(item: Item): (r: Result<ItemEntity, ParseError>)
    ensures r.Success? <==> GetPropertyValue(item, ITEM_COST).Some? && Int32Parse(GetPropertyValue(item, ITEM_COST).value).Success?
    ensures r.Failure? ==> (r.error == ArgumentNullError <==> GetPropertyValue(item, ITEM_COST).None?)
    ensures r.Failure? && GetPropertyValue(item, ITEM_COST).Some? ==> Int32Parse(GetPropertyValue(item, ITEM_COST).value) == Failure(r.error)
    ensures r.Success? ==> r.value.itemCost == Int32Parse(GetPropertyValue(item, ITEM_COST).value).value
    ensures r.Success? ==> r.value.itemId == GetPropertyValue(item, ITEM_CODE) && r.value.itemCode == GetPropertyValue(item, ITEM_CODE)
    ensures r.Success? ==> r.value.itemDescription == GetPropertyValue(item, ITEM_DESCRIPTION)
  {
    match Int32ParseNullable(GetPropertyValue(item, ITEM_COST))
    case Failure(e) => Failure(e)
    case Success(cost) =>
      Success(ItemEntity(
        GetPropertyValue(item, ITEM_CODE),
        GetPropertyValue(item, ITEM_DESCRIPTION),
        GetPropertyValue(item, ITEM_CODE),
        cost))
  }

  /** Materialising the strict mapping item by item: the first exception
      escapes, otherwise one entity per item. */
  function StrictMapping(items: seq<Item>): (r: Result<seq<ItemEntity>, ParseError>)
    ensures r.Success? <==> forall k :: 0 <= k < |items| ==> StrictEntity(items[k]).Success?
    ensures r.Success? ==> |r.value| == |items| && forall k :: 0 <= k < |items| ==> Success(r.value[k]) == StrictEntity(items[k])
    ensures r.Failure? ==> exists k :: (0 <= k < |items| && StrictEntity(items[k]) == Failure(r.error)
      && forall j :: 0 <= j < k ==> StrictEntity(items[j]).Success?)
    decreases |items|
  {
    if items == [] then Success([])
    else
      match StrictEntity(items[0])
      case Failure(e) => Failure(e)
      case Success(first) =>
        var rest := StrictMapping(items[1..]);
        assert forall k :: 1 <= k < |items| ==> items[k] == items[1..][k - 1];
        match rest
        case Failure(e) =>
          FirstFailureShifts(items, e);
          Failure(e)
        case Success(entities) => Success([first] + entities)
  }

  /** When the first item succeeds, the first failure of the remaining items
      is the first failure of all of them. */
  lemma FirstFailureShifts(items: seq<Item>, e: ParseError)
    requires |items| > 0 && StrictEntity(items[0]).Success?
    requires exists k :: (0 <= k < |items| - 1 && StrictEntity(items[1..][k]) == Failure(e)
      && forall j :: 0 <= j < k ==> StrictEntity(items[1..][j]).Success?)
    ensures exists k :: (0 <= k < |items| && StrictEntity(items[k]) == Failure(e)
      && forall j :: 0 <= j < k ==> StrictEntity(items[j]).Success?)
  {
    var k :| 0 <= k < |items| - 1 && StrictEntity(items[1..][k]) == Failure(e)
      && forall j :: 0 <= j < k ==> StrictEntity(items[1..][j]).Success?;
    assert items[k + 1] == items[1..][k];
    forall j | 0 <= j < k + 1
      ensures StrictEntity(items[j]).Success?
    {
      if j > 0 {
        assert items[j] == items[1..][j - 1];
      }
    }
  }

  /** With error rate 1 every cost is corrupted, so materialising the strict
      mapping of a non-empty document throws a FormatException (the test uses
      10 items). */
  lemma StrictMappingThrowsAtRateOne(seeding: Seeding, count: int)
    requires count > 0
    ensures StrictMapping(SampleData(seeding(SAMPLE_SEED), 1.0, count)) == Failure(FormatError)
  {
    var doc := SampleData(seeding(SAMPLE_SEED), 1.0, count);
    var payload := InputAt(seeding(SAMPLE_SEED), 1.0, 0);
    assert doc[0] == SampleItem(0, payload);
    SampleItemLookup(0, payload);
    assert Int32Parse(payload) == Failure(FormatError);
    assert StrictEntity(doc[0]) == Failure(FormatError);
  }
}
