/**
 * The per-service rows of the billing-cycle report: one row per service of the
 * cycle, numbered from 1, with the parsed price, the discount column, the
 * final price after the discount, and an optional observations row.
 *
 * Prices are `real`s: the report's double arithmetic is idealised as exact
 * arithmetic, and `toFixed(2)`, the date formatting and the HTML text around
 * the cells are not part of this model.
 */
module CycleReport {
  import opened Js
  import opened ScanService

  /** The cells of one service's row, plus the observations row when there is one. */
  datatype ReportRow = ReportRow(
    number: nat,
    date: string,
    origin: string,
    destination: string,
    client: string,
    price: real,
    discount: real,
    discountCell: string,
    finalPrice: real,
    observations: Option<string>)

  /** `parseFloat(s) || 0`: NaN becomes 0, any number is kept (negative zero, the other falsy number, is not a `real`). */
  function NumberOrZero(floats: FloatTable, s: string): (r: real)
    ensures ParseFloat(floats, s).None? ==> r == 0.0
    ensures ParseFloat(floats, s).Some? ==> r == ParseFloat(floats, s).value
  {
    match ParseFloat(floats, s)
    case None => 0.0
    case Some(x) => x
  }

  /** The price after taking `discount` percent off it. */
  function FinalPrice(price: real, discount: real): real {
    price - (price * discount) / 100.0
  }

  /**
   * The discount column: `-` when the parsed discount is not positive, otherwise
   * the discount as it was typed (or `0` when nothing was typed) between `-`
   * and `%`.
   */
  function DiscountCell(discount: real, typed: string): (cell: string)
    ensures cell == "-" <==> discount <= 0.0
    ensures discount > 0.0 && typed != "" ==> cell == "-" + typed + "%"
  {
    if discount > 0.0 then
      var shown := if typed != "" then typed else "0";
      "-" + shown + "%"
    else
      "-"
  }

  /** The row of the service at position `index` of the cycle. */
  function Row(floats: FloatTable, s: Service, index: nat): (r: ReportRow)
    ensures r.number == index + 1
    ensures r.price == NumberOrZero(floats, s.price) && r.discount == NumberOrZero(floats, s.discountPercent)
    ensures r.finalPrice == r.price - r.price * r.discount / 100.0
    ensures r.discountCell == DiscountCell(r.discount, s.discountPercent)
    ensures r.date == s.date && r.origin == s.origin && r.destination == s.destination
    ensures s.clientName == "" ==> r.client == "-"
    ensures s.clientName != "" ==> r.client == s.clientName
    ensures r.observations.Some? <==> s.observations != ""
    ensures r.observations.Some? ==> r.observations.value == s.observations
  {
    var price := NumberOrZero(floats, s.price);
    var discount := NumberOrZero(floats, s.discountPercent);
    ReportRow(
      index + 1,
      s.date,
      s.origin,
      s.destination,
      if s.clientName != "" then s.clientName else "-",
      price,
      discount,
      DiscountCell(discount, s.discountPercent),
      FinalPrice(price, discount),
      if s.observations != "" then Some(s.observations) else None)
  }

  /** The report body: the services of the cycle, row by row, in order. */
  function Rows(floats: FloatTable, services: seq<Service>): (r: seq<ReportRow>)
    ensures |r| == |services|
    ensures forall i :: 0 <= i < |r| ==> r[i].number == i + 1
    ensures forall i :: 0 <= i < |r| ==> r[i] == Row(floats, services[i], i)
  {
    seq(|services|, i requires 0 <= i < |services| => Row(floats, services[i], i))
  }

  /**
   * A row depends only on its service and its position in the cycle: the rows
   * of any front part of the cycle are unchanged by what follows it, and the
   * rows after it are those of the rest, numbered on from where it ends.
   */
  lemma RowsAppend(floats: FloatTable, a: seq<Service>, b: seq<Service>)
    ensures Rows(floats, a + b) == Rows(floats, a) + RenumberedRows(floats, b, |a|)
  {
    var left := Rows(floats, a + b);
    var right := Rows(floats, a) + RenumberedRows(floats, b, |a|);
    assert |left| == |right|;
    forall i | 0 <= i < |left|
      ensures left[i] == right[i]
    {
      if i < |a| {
        assert (a + b)[i] == a[i];
      } else {
        assert (a + b)[i] == b[i - |a|];
      }
    }
  }

  /** The rows of `services` when the first of them stands at position `offset` of the cycle. */
  function RenumberedRows(floats: FloatTable, services: seq<Service>, offset: nat): (r: seq<ReportRow>)
    ensures |r| == |services|
    ensures forall i :: 0 <= i < |r| ==> r[i].number == offset + i + 1
  {
    seq(|services|, i requires 0 <= i < |services| => Row(floats, services[i], offset + i))
  }

  /** A price or discount that does not parse counts as 0. */
  lemma {:induction false} UnparsedCountsAsZero(floats: FloatTable, s: Service, index: nat)
    requires ParseFloat(floats, s.discountPercent).None?
    ensures Row(floats, s, index).discount == 0.0
    ensures Row(floats, s, index).discountCell == "-"
    ensures Row(floats, s, index).finalPrice == Row(floats, s, index).price
    ensures ParseFloat(floats, s.price).None? ==> Row(floats, s, index).finalPrice == 0.0
  {
  }

  /** A row whose discount is 0 shows `-` for the discount and the price itself as the final price. */
  lemma {:induction false} NoDiscountKeepsPrice(floats: FloatTable, s: Service, index: nat)
    requires Row(floats, s, index).discount == 0.0
    ensures Row(floats, s, index).finalPrice == Row(floats, s, index).price
    ensures Row(floats, s, index).discountCell == "-"
  {
  }

  /** A discount in [0, 100] on a price that is not negative gives a final price between 0 and the price. */
  lemma {:induction false} FinalPriceBounds(price: real, discount: real)
    requires price >= 0.0 && 0.0 <= discount <= 100.0
    ensures 0.0 <= FinalPrice(price, discount) <= price
  {
    assert 0.0 <= price * discount by {
      MulNonNegative(price, discount);
    }
    assert price * discount <= price * 100.0 by {
      MulNonNegative(price, 100.0 - discount);
    }
  }

  lemma MulNonNegative(x: real, y: real)
    requires x >= 0.0 && y >= 0.0
    ensures x * y >= 0.0
  {
  }

  /**
   * `parseFloat` turns the empty string into NaN, so a positive discount was
   * always typed: the `0` shown for an empty discount never appears.
   */
  lemma {:induction false} PositiveDiscountShownAsTyped(floats: FloatTable, s: Service, index: nat)
    requires EmptyIsNaN(floats)
    requires Row(floats, s, index).discount > 0.0
    ensures Row(floats, s, index).discountCell == "-" + s.discountPercent + "%"
  {
  }

  /**
   * A record saved by the confirmation screen shows its parsed price, its
   * parsed discount and a final price between 0 and that price, under the
   * company's name.
   */
  lemma {:induction false} SavedServiceRow(cycle: Option<BillingCycle>, f: Form, floats: FloatTable, index: nat)
    requires CheckConfirm(cycle, f, floats) == None
    ensures var r := Row(floats, SavedService(f), index);
      && r.price == ParseFloat(floats, f.price).value
      && r.discount == ParseFloat(floats, f.discount).value
      && 0.0 <= r.finalPrice <= r.price
      && r.client == Trim(f.company)
  {
    var s := SavedService(f);
    AcceptedServiceWellFormed(cycle, f, floats);
    FinalPriceBounds(NumberOrZero(floats, s.price), NumberOrZero(floats, s.discountPercent));
  }
}
