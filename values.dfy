/** The shared constants and enumerations of values.py, and its classifier of
    history rows. */
module Values {
  import opened StringHelper

  /** The five regions of the game, in the order the pages number them:
      index i is region i + 1. */
  const Regions: seq<string> := ["Calopeia", "Sorange", "Tyran", "Entworpe", "Fardo"]

  /** The last simulated day. */
  const LastDay: int := 1460

  /** Days a factory capacity change and a warehouse opening take. */
  const FactoryInvestmentDays: int := 90
  const WarehouseInvestmentDays: int := 60

  /** Days a truck and a mail shipment take. */
  const ShippingTruckDays: int := 7
  const ShippingMailDays: int := 1

  /** Placeholder cells of the summaries. */
  const PlaceholderEmpty: string := "---"
  const PlaceholderIndexError: string := "IDX_ERR"

  /** The categories of a plotted series. */
  datatype Category = Cash | Demand | Wip | Inventory

  /** The kinds of row in the game's history table. */
  datatype HistoryOperationType =
    | Shipping | ServeRegion | ScheduleWarehouse | ScheduleFactory
    | FulfillmentPolicy | OrderPoint | OrderQuantity | OrderPriority
    | Undefined

  /** The substrings that identify each kind, in the order the classifier tries them. */
  const OperationKeys: seq<(string, HistoryOperationType)> := [
    ("Shipping", Shipping),
    ("Satisfy demand in", ServeRegion),
    ("Schedule warehouse", ScheduleWarehouse),
    ("Schedule capacity change", ScheduleFactory),
    ("Fulfillment policy", FulfillmentPolicy),
    ("Order point", OrderPoint),
    ("Order quantity", OrderQuantity),
    ("Order priority", OrderPriority)
  ]

  /** `get_history_operation_type`: the kind named by the first key that
      occurs in the text, or Undefined. */
  function GetHistoryOperationType(typeString: string): HistoryOperationType {
    if Contains(typeString, "Shipping") then Shipping
    else if Contains(typeString, "Satisfy demand in") then ServeRegion
    else if Contains(typeString, "Schedule warehouse") then ScheduleWarehouse
    else if Contains(typeString, "Schedule capacity change") then ScheduleFactory
    else if Contains(typeString, "Fulfillment policy") then FulfillmentPolicy
    else if Contains(typeString, "Order point") then OrderPoint
    else if Contains(typeString, "Order quantity") then OrderQuantity
    else if Contains(typeString, "Order priority") then OrderPriority
    else Undefined
  }

  /** A reference classifier: scan a key table in order and take the kind of
      the first key that occurs. */
  function FirstMatch(keys: seq<(string, HistoryOperationType)>, s: string): HistoryOperationType {
    if keys == [] then Undefined
    else if Contains(s, keys[0].0) then keys[0].1
    else FirstMatch(keys[1..], s)
  }

  /** The if/elif chain is exactly the ordered scan over the key table. */
  lemma {:induction false} ClassifierIsOrderedScan(s: string)
    ensures GetHistoryOperationType(s) == FirstMatch(OperationKeys, s)
  {
    var k0 := OperationKeys;
    var k1 := k0[1..];
    var k2 := k1[1..];
    var k3 := k2[1..];
    var k4 := k3[1..];
    var k5 := k4[1..];
    var k6 := k5[1..];
    var k7 := k6[1..];
    assert k7[1..] == [];
    assert FirstMatch(k7, s) == if Contains(s, "Order priority") then OrderPriority else Undefined;
    assert FirstMatch(k6, s) == if Contains(s, "Order quantity") then OrderQuantity else FirstMatch(k7, s);
    assert FirstMatch(k5, s) == if Contains(s, "Order point") then OrderPoint else FirstMatch(k6, s);
    assert FirstMatch(k4, s) == if Contains(s, "Fulfillment policy") then FulfillmentPolicy else FirstMatch(k5, s);
    assert FirstMatch(k3, s) == if Contains(s, "Schedule capacity change") then ScheduleFactory else FirstMatch(k4, s);
    assert FirstMatch(k2, s) == if Contains(s, "Schedule warehouse") then ScheduleWarehouse else FirstMatch(k3, s);
    assert FirstMatch(k1, s) == if Contains(s, "Satisfy demand in") then ServeRegion else FirstMatch(k2, s);
    assert FirstMatch(k0, s) == if Contains(s, "Shipping") then Shipping else FirstMatch(k1, s);
  }

  /** The scan finds a kind exactly when some key occurs, and then the kind
      belongs to a key that occurs with no earlier key occurring. */
  lemma {:induction false} FirstMatchIsFirst(keys: seq<(string, HistoryOperationType)>, s: string)
    requires forall k :: 0 <= k < |keys| ==> keys[k].1 != Undefined
    ensures FirstMatch(keys, s) == Undefined <==> forall k :: 0 <= k < |keys| ==> !Contains(s, keys[k].0)
    ensures FirstMatch(keys, s) != Undefined ==>
      exists k :: 0 <= k < |keys| && keys[k].1 == FirstMatch(keys, s) && Contains(s, keys[k].0)
        && forall j :: 0 <= j < k ==> !Contains(s, keys[j].0)
  {
    if keys != [] && !Contains(s, keys[0].0) {
      var rest := keys[1..];
      FirstMatchIsFirst(rest, s);
      if FirstMatch(rest, s) != Undefined {
        var k :| 0 <= k < |rest| && rest[k].1 == FirstMatch(rest, s) && Contains(s, rest[k].0)
          && forall j :: 0 <= j < k ==> !Contains(s, rest[j].0);
        assert keys[k + 1] == rest[k];
        forall j | 0 <= j < k + 1 ensures !Contains(s, keys[j].0) {
          if j > 0 { assert keys[j] == rest[j - 1]; }
        }
      } else {
        forall k | 0 <= k < |keys| ensures !Contains(s, keys[k].0) {
          if k > 0 { assert keys[k] == rest[k - 1]; }
        }
      }
    }
  }

  /** `get_history_operation_type` returns Undefined exactly when none of
      the eight keys occurs; otherwise its kind's key occurs and no key
      tried before it does. */
  lemma {:induction false} HistoryOperationTypeIsFirstMatch(s: string)
    ensures GetHistoryOperationType(s) == Undefined <==>
      forall k :: 0 <= k < |OperationKeys| ==> !Contains(s, OperationKeys[k].0)
    ensures GetHistoryOperationType(s) != Undefined ==>
      exists k :: 0 <= k < |OperationKeys| && OperationKeys[k].1 == GetHistoryOperationType(s)
        && Contains(s, OperationKeys[k].0)
        && forall j :: 0 <= j < k ==> !Contains(s, OperationKeys[j].0)
  {
    ClassifierIsOrderedScan(s);
    FirstMatchIsFirst(OperationKeys, s);
  }

  /** The regions are five distinct names. */
  lemma {:induction false} RegionsDistinct()
    ensures |Regions| == 5
    ensures forall i, j :: 0 <= i < j < |Regions| ==> Regions[i] != Regions[j]
  {
  }
}
