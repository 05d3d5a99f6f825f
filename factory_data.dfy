/** The records of a factory's page (factory_data.py): its shipping
    configurations, one per target region, and their one-cell summary. */
module Factory {
  import opened Outcomes

  /** How a factory ships to one target region. */
  datatype ShippingConfig = ShippingConfig(
    target: string,
    shippingMethod: string,
    orderPoint: int,
    quantity: int,
    priority: int)

  /** A factory as read from its page; `None` configurations stand for an
      attribute that was never set. */
  datatype FactoryData = FactoryData(
    name: string,
    capacity: real,
    capacityModifications: seq<string>,
    shippingConfigs: Option<seq<ShippingConfig>>)

  /** A freshly constructed factory record. */
  const EmptyFactory: FactoryData := FactoryData("", 0.0, [], Some([]))

  function Digit(d: int): char
    requires 0 <= d < 10
  {
    "0123456789"[d]
  }

  /** The decimal digits of a natural number, as `str()` writes them. */
  function NatToString(n: nat): (s: string)
    ensures |s| > 0 && forall k :: 0 <= k < |s| ==> '0' <= s[k] <= '9'
  {
    if n < 10 then [Digit(n)] else NatToString(n / 10) + [Digit(n % 10)]
  }

  /** Python's `str()` of an integer: a minus sign for negative numbers,
      then the digits. */
  function IntToString(n: int): string {
    if n < 0 then "-" + NatToString(-n) else NatToString(n)
  }

  /** The value of a string of decimal digits. */
  function DigitsValue(s: string): int
    requires forall k :: 0 <= k < |s| ==> '0' <= s[k] <= '9'
  {
    if s == [] then 0 else 10 * DigitsValue(s[..|s| - 1]) + (s[|s| - 1] - '0') as int
  }

  /** Reading the digits back gives the number. */
  lemma {:induction false} NatToStringRoundTrip(n: nat)
    ensures DigitsValue(NatToString(n)) == n
  {
    if n >= 10 {
      NatToStringRoundTrip(n / 10);
      var s := NatToString(n);
      assert s[..|s| - 1] == NatToString(n / 10);
    }
  }

  /** `short_summary_only_values()`: method, order point, quantity and
      priority, each on its own line behind a tab. */
  function ShortSummaryOnlyValues(c: ShippingConfig): string {
    "SM:\t" + c.shippingMethod + "\nOP:\t" + IntToString(c.orderPoint)
      + "\nQ:\t" + IntToString(c.quantity) + "\nPR:\t" + IntToString(c.priority)
  }

  /** Every summary starts with the shipping-method label. */
  lemma {:induction false} SummaryStartsWithLabel(c: ShippingConfig)
    ensures |ShortSummaryOnlyValues(c)| >= 4 && ShortSummaryOnlyValues(c)[..4] == "SM:\t"
  {
  }
}
