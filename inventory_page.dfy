/**
 * The inventory page: the stock-update form and its guard, the quick +/-
 * adjustment buttons, and the stock badge. A request is what the page posts
 * to `/api/inventory/update-stock`; the page does not change stock itself.
 */
module InventoryPage {
  import opened Wrappers
  import opened Schema
  import opened Text
  import Tables
  import DatabaseStorage

  /** The body of an update-stock request; `None` stands for a stock that `parseInt` read as NaN. */
  datatype StockRequest = StockRequest(productId: Id, newStock: Option<int>, reason: string)

  const ManualReason := "Manual stock adjustment"

  /** `stockUpdate.reason || "Manual stock adjustment"`. */
  function ReasonOr(reason: string): (r: string)
    ensures reason != "" ==> r == reason
    ensures reason == "" ==> r == ManualReason
  {
    if reason != "" then reason else ManualReason
  }

  /** The stock-update form: the selected product and the two text fields. */
  class StockUpdateForm {
    var selectedProduct: Option<Id>
    var newStock: string
    var reason: string

    constructor()
      ensures selectedProduct.None? && newStock == "" && reason == ""
    {
      selectedProduct, newStock, reason := None, "", "";
    }

    /**
     * `handleUpdateStock`: nothing is sent without a selected product or a
     * stock text; otherwise the parsed stock and the reason (or the manual
     * default) are sent for the selected product.
     */
    method HandleUpdateStock() returns (request: Option<StockRequest>)
      ensures request.None? <==> selectedProduct.None? || newStock == ""
      ensures request.Some? ==> request.value.productId == selectedProduct.value
      ensures request.Some? ==> request.value.newStock == ParseIntPrefix(newStock)
      ensures request.Some? ==> request.value.reason == ReasonOr(reason)
    {
      if selectedProduct.None? || newStock == "" {
        request := None;
      } else {
        request := Some(StockRequest(selectedProduct.value, ParseIntPrefix(newStock), ReasonOr(reason)));
      }
    }

    /** After a successful update the form is cleared and no product is selected. */
    method OnUpdateSuccess()
      modifies this
      ensures selectedProduct.None? && newStock == "" && reason == ""
    {
      selectedProduct, newStock, reason := None, "", "";
    }
  }

  /** A stock text that does not start with a number is sent as NaN. */
  lemma NonNumericStockIsNaN(text: string)
    requires text != [] && !IsSpace(text[0]) && !IsDigit(text[0]) && text[0] != '-' && text[0] != '+'
    ensures ParseIntPrefix(text) == None
  {
    TrimStartNoSpace(text);
    assert DigitRun(text) == [];
  }

  /** `Added N units` for a positive adjustment, `Removed |N| units` otherwise. */
  function AdjustReason(adjustment: int): string
  {
    if adjustment > 0 then "Added " + IntToString(adjustment) + " units"
    else "Removed " + IntToString(DatabaseStorage.Abs(adjustment)) + " units"
  }

  /** `quickAdjustStock`: the requested stock is `max(0, current + adjustment)`. */
  function QuickAdjust(productId: Id, current: int, adjustment: int): (r: StockRequest)
    ensures r.productId == productId && r.newStock.Some?
    ensures r.newStock.value >= 0
    ensures current + adjustment >= 0 ==> r.newStock.value == current + adjustment
    ensures current + adjustment < 0 ==> r.newStock.value == 0
    ensures r.reason == AdjustReason(adjustment)
  {
    StockRequest(productId, Some(if current + adjustment > 0 then current + adjustment else 0),
                 AdjustReason(adjustment))
  }

  /** The reason names the direction: "Added" exactly for a positive adjustment. */
  lemma AdjustReasonDirection(adjustment: int)
    ensures adjustment > 0 ==> StartsWith(AdjustReason(adjustment), "Added ")
    ensures adjustment <= 0 ==> StartsWith(AdjustReason(adjustment), "Removed ")
    ensures StartsWith(AdjustReason(adjustment), "Added ") <==> adjustment > 0
  {
    var r := AdjustReason(adjustment);
    if adjustment > 0 {
      assert r[..6] == "Added ";
    } else {
      assert r[..8] == "Removed ";
      assert r[0] == 'R';
    }
  }

  /**
   * Posting a quick adjustment of a product with non-negative stock makes the
   * store log an "add" exactly for a positive adjustment, and never a "sale".
   */
  lemma QuickAdjustLogsDirection(productId: Id, current: int, adjustment: int)
    requires current >= 0
    ensures var change := QuickAdjust(productId, current, adjustment).newStock.value - current;
      (DatabaseStorage.StockAction(change) == Add <==> adjustment > 0)
      && (adjustment < 0 && current > 0 ==> DatabaseStorage.StockAction(change) == Remove)
  {
  }

  /** The badge of a stock level. */
  datatype StockBadge = Critical | Low | Medium | Good

  /** `getStockStatusBadge`: at most 5 critical, at most 10 low, at most 20 medium, else good. */
  function BadgeFor(stock: int): (b: StockBadge)
    ensures b == Critical <==> stock <= 5
    ensures b == Low <==> 5 < stock <= 10
    ensures b == Medium <==> 10 < stock <= 20
    ensures b == Good <==> stock > 20
  {
    if stock <= 5 then Critical
    else if stock <= 10 then Low
    else if stock <= 20 then Medium
    else Good
  }

  function Rank(b: StockBadge): nat
  {
    match b
    case Critical => 0
    case Low => 1
    case Medium => 2
    case Good => 3
  }

  /** More stock never gives a worse badge. */
  lemma BadgeMonotone(a: int, b: int)
    requires a <= b
    ensures Rank(BadgeFor(a)) <= Rank(BadgeFor(b))
  {
  }

  /** Every product in the low-stock alert (stock at most 10) shows a Critical or Low badge. */
  lemma AlertedProductsBadged(rows: seq<Product>, i: nat)
    requires i < |Tables.LowStock(rows, None)|
    ensures BadgeFor(Tables.LowStock(rows, None)[i].stock) in {Critical, Low}
  {
    var low := Tables.LowStock(rows, None);
    assert low[i] in low;
  }
}
