/** src/components/organisms/OrderTable.jsx: which of loader, error, empty
    state or table shows, the badge colour of each status, the padded order
    number, and the status menu. */
module OrderTable {
  import opened Wrappers
  import opened Text
  import opened Entities
  import opened Views

  /** `statusOptions`. */
  const StatusOptions: seq<string> := ["pending", "processing", "shipped", "delivered", "cancelled"]

  /** `getStatusColor`: the badge variant of a status. */
  function StatusColor(status: string): string
  {
    if status == "pending" then "warning"
    else if status == "processing" then "info"
    else if status == "shipped" then "primary"
    else if status == "delivered" then "success"
    else if status == "cancelled" then "error"
    else "default"
  }

  /** Each of the five statuses has its own colour, and only a status outside
      the menu falls back to "default". */
  lemma StatusColors(s: string, t: string)
    ensures StatusColor(s) == "default" <==> s !in StatusOptions
    ensures s in StatusOptions && t in StatusOptions && s != t ==> StatusColor(s) != StatusColor(t)
  {
  }

  /** The menu's labels: each status with its first letter upper-cased. */
  function OptionLabels(): (labels: seq<string>)
    ensures |labels| == |StatusOptions|
    ensures forall i :: 0 <= i < |StatusOptions| ==> labels[i] == Capitalize(StatusOptions[i])
  {
    seq(|StatusOptions|, i requires 0 <= i < |StatusOptions| => Capitalize(StatusOptions[i]))
  }

  /** The five labels as shown. */
  lemma Labels()
    ensures OptionLabels() == ["Pending", "Processing", "Shipped", "Delivered", "Cancelled"]
  {
    var labels := OptionLabels();
    assert labels == [labels[0], labels[1], labels[2], labels[3], labels[4]];
    assert labels[0] == "Pending" by { CapitalizeWord("pending", "Pending"); }
    assert labels[1] == "Processing" by { CapitalizeWord("processing", "Processing"); }
    assert labels[2] == "Shipped" by { CapitalizeWord("shipped", "Shipped"); }
    assert labels[3] == "Delivered" by { CapitalizeWord("delivered", "Delivered"); }
    assert labels[4] == "Cancelled" by { CapitalizeWord("cancelled", "Cancelled"); }
  }

  lemma CapitalizeWord(s: string, r: string)
    requires |s| > 0 && 'a' <= s[0] <= 'z' && |r| == |s|
    requires r[0] as int == s[0] as int - 32 && r[1..] == s[1..]
    ensures Capitalize(s) == r
  {
    assert Capitalize(s)[1..] == r[1..];
  }

  /** The order number after `#`: the decimal `Id` padded with zeros on the
      left to six characters. */
  function DisplayId(id: int): (r: string)
    ensures |r| >= 6
    ensures |IntToString(id)| >= 6 ==> r == IntToString(id)
    ensures r[|r| - |IntToString(id)|..] == IntToString(id)
  {
    PadStart(IntToString(id), 6, '0')
  }

  /** The padded number reads back as the order's `Id`, so no two orders
      with non-negative `Id`s show the same number. */
  lemma DisplayIdRoundTrip(id: nat)
    ensures ParseInt(DisplayId(id)) == Number(id as real)
  {
    var d := NatToString(id);
    NatToStringValue(id);
    var k := if |d| >= 6 then 0 else 6 - |d|;
    assert DisplayId(id) == Repeat('0', k) + d;
    LeadingZerosValue(k, d);
    ParseIntOfDigits(Repeat('0', k) + d);
  }

  lemma DisplayIdInjective(a: nat, b: nat)
    requires DisplayId(a) == DisplayId(b)
    ensures a == b
  {
    DisplayIdRoundTrip(a);
    DisplayIdRoundTrip(b);
  }

  /** `padStart` pads in front of the whole text, minus sign included: the
      order with `Id` -1 shows as "0000-1", which reads back as 0, not -1. */
  lemma NegativeIdMisread()
    ensures DisplayId(-1) == "0000-1"
    ensures ParseInt(DisplayId(-1)) == Number(0.0)
  {
    assert IntToString(-1) == "-1";
    assert DisplayId(-1) == "0000-1";
    var shown := DisplayId(-1);
    NoSpaceStart(shown);
    assert "0000" + "-1" == shown;
    DigitPrefixStops("0000", "-1");
    LeadingZerosValue(4, "");
    assert Repeat('0', 4) + "" == "0000";
  }

  /** What the component renders, in the order it checks: loading, then the
      error, then a missing or empty list, then the table. */
  function Render(loading: bool, error: Option<string>, orders: Option<seq<Order>>): (v: View<Order>)
    ensures v.Loading? <==> loading
    ensures v.Failed? <==> !loading && ShowsError(error)
    ensures v.Empty? <==> !loading && !ShowsError(error) && (orders.None? || |orders.value| == 0)
    ensures v.Showing? ==> orders.Some? && v.items == orders.value
  {
    ListView(loading, error, if orders.None? then [] else orders.value)
  }
}
