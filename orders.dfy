/** The order-tracking page: each status's place on a four-step progress bar. */
module Orders {
  import opened Wrappers
  import MockData

  datatype Icon = Clock | PackageBox | Truck | CheckCircle

  /** How a status is drawn: its icon, its step on the bar and its colour. */
  datatype StatusStyle = StatusStyle(icon: Icon, step: nat, colorClass: string)

  /** The steps of the bar, in order. */
  const Steps: seq<string> := ["pending", "accepted", "outForDelivery", "delivered"]

  /**
   * `statusConfig[status]`: the statuses with a style are exactly the steps
   * of the bar, and each one's step is its position on the bar; any other
   * text has no style.
   */
  function StatusConfig(status: string): (style: Option<StatusStyle>)
    ensures style.Some? <==> status in Steps
    ensures style.Some? ==> style.value.step < |Steps| && Steps[style.value.step] == status
  {
    match status
    case "pending" => Some(StatusStyle(Clock, 0, "text-krishi-wheat"))
    case "accepted" => Some(StatusStyle(PackageBox, 1, "text-secondary"))
    case "outForDelivery" => Some(StatusStyle(Truck, 2, "text-primary"))
    case "delivered" => Some(StatusStyle(CheckCircle, 3, "text-krishi-leaf"))
    case _ => None
  }

  /** The bar: segment `si` is filled exactly when `si` is at most the status's step. */
  function Segments(step: nat): (bar: seq<bool>)
    ensures |bar| == |Steps|
  {
    seq(|Steps|, si requires 0 <= si < |Steps| => si <= step)
  }

  /** The number of filled segments. */
  function Filled(bar: seq<bool>): nat {
    if bar == [] then 0 else (if bar[0] then 1 else 0) + Filled(bar[1..])
  }

  /** The filled segments are a prefix of the bar. */
  predicate PrefixFilled(bar: seq<bool>) {
    forall i, j :: 0 <= i < j < |bar| && bar[j] ==> bar[i]
  }

  /** A bar whose first `k` segments, and only those, are filled has `k` filled segments. */
  lemma {:induction false} FilledCountsPrefix(bar: seq<bool>, k: nat)
    requires k <= |bar|
    requires forall i :: 0 <= i < |bar| ==> (bar[i] <==> i < k)
    ensures Filled(bar) == k
  {
    if bar != [] {
      FilledCountsPrefix(bar[1..], if k == 0 then 0 else k - 1);
    }
  }

  /** The filled segments form a prefix whose length is the step plus one: one for pending, four for delivered. */
  lemma SegmentsForStatus(status: string)
    requires status in Steps
    ensures var bar := Segments(StatusConfig(status).value.step);
      PrefixFilled(bar) && Filled(bar) == StatusConfig(status).value.step + 1
  {
    var step := StatusConfig(status).value.step;
    FilledCountsPrefix(Segments(step), step + 1);
  }

  lemma PendingAndDelivered()
    ensures Filled(Segments(StatusConfig("pending").value.step)) == 1
    ensures Filled(Segments(StatusConfig("delivered").value.step)) == 4
  {
    SegmentsForStatus("pending");
    SegmentsForStatus("delivered");
  }

  /** Every sample order's status has a style, so the lookup the page makes always succeeds. */
  lemma SampleStatusesKnown()
    ensures forall i :: 0 <= i < |MockData.Orders| ==> StatusConfig(MockData.Orders[i].status).Some?
  {
  }
}
