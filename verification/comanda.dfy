/** The order-line vocabulary shared by the server (app.py) and the browser
    controller (scripts.js): a line of a table's order, the bill subtotal, the
    filter that removes lines by id, the search for the first line with an id,
    the unit-price patch, and the discount selected by kind. Both sides of the
    HTTP boundary compute these the same way, so they are defined once here. */
module Comanda {

  datatype Option<T> = None | Some(value: T)

  /** Order-scoped line identifier (a millisecond timestamp chosen by the browser). */
  type LineId = int
  /** A table's id ("1" .. "4"). */
  type TableId = string
  /** Key of a catalog entry ("1" .. "5"). */
  type MenuId = string

  /** One line of a table's order: the record with keys
      "id", "item_id", "nome", "valor_unitario" and "quantidade". */
  datatype Line = Line(id: LineId, itemId: MenuId, name: string, unitPrice: real, quantity: int)

  function LineTotal(l: Line): real
  {
    l.unitPrice * l.quantity as real
  }

  /** Sum of unit price times quantity, accumulated from the first line to the last. */
  function Subtotal(lines: seq<Line>): real
  {
    if lines == [] then 0.0
    else Subtotal(lines[..|lines| - 1]) + LineTotal(lines[|lines| - 1])
  }

  /** Lines whose prices and quantities are not negative. */
  predicate NonNegative(lines: seq<Line>)
  {
    forall i :: 0 <= i < |lines| ==> lines[i].unitPrice >= 0.0 && lines[i].quantity >= 0
  }

  lemma {:induction false} SubtotalAppend(a: seq<Line>, b: seq<Line>)
    ensures Subtotal(a + b) == Subtotal(a) + Subtotal(b)
    decreases |b|
  {
    if b == [] {
      assert a + b == a;
    } else {
      var b' := b[..|b| - 1];
      assert (a + b)[..|a + b| - 1] == a + b';
      assert (a + b)[|a + b| - 1] == b[|b| - 1];
      SubtotalAppend(a, b');
    }
  }

  lemma {:induction false} SubtotalNonNegative(lines: seq<Line>)
    requires NonNegative(lines)
    ensures Subtotal(lines) >= 0.0
  {
    if lines != [] {
      var init := lines[..|lines| - 1];
      assert NonNegative(init);
      SubtotalNonNegative(init);
      var last := lines[|lines| - 1];
      assert last.unitPrice >= 0.0 && last.quantity >= 0;
      assert LineTotal(last) >= 0.0;
    }
  }

  /** Replacing one line changes the subtotal by the difference of the two line totals. */
  lemma SubtotalReplaceAt(lines: seq<Line>, i: nat, l: Line)
    requires i < |lines|
    ensures Subtotal(lines[i := l]) == Subtotal(lines) - LineTotal(lines[i]) + LineTotal(l)
  {
    var pre, post := lines[..i], lines[i + 1..];
    assert lines == pre + [lines[i]] + post;
    assert lines[i := l] == pre + [l] + post;
    SubtotalAppend(pre + [lines[i]], post);
    SubtotalAppend(pre, [lines[i]]);
    SubtotalAppend(pre + [l], post);
    SubtotalAppend(pre, [l]);
    assert Subtotal([l]) == LineTotal(l) by { assert [l][..0] == []; }
    assert Subtotal([lines[i]]) == LineTotal(lines[i]) by { assert [lines[i]][..0] == []; }
  }

  /** The lines whose id differs from `id`, in their original order
      (a list comprehension on the server, Array.filter in the browser). */
  function RemoveLines(lines: seq<Line>, id: LineId): (r: seq<Line>)
    ensures forall l :: l in r <==> l in lines && l.id != id
    ensures |r| <= |lines|
  {
    if lines == [] then []
    else (if lines[0].id == id then [] else [lines[0]]) + RemoveLines(lines[1..], id)
  }

  /** Filtering distributes over concatenation, so the kept lines keep their order. */
  lemma {:induction false} RemoveLinesConcat(a: seq<Line>, b: seq<Line>, id: LineId)
    ensures RemoveLines(a + b, id) == RemoveLines(a, id) + RemoveLines(b, id)
    decreases |a|
  {
    if a == [] {
      assert a + b == b;
    } else {
      assert (a + b)[0] == a[0];
      assert (a + b)[1..] == a[1..] + b;
      RemoveLinesConcat(a[1..], b, id);
    }
  }

  /** Removing leaves the order untouched exactly when no line carries the id. */
  lemma {:induction false} RemoveLinesUnchanged(lines: seq<Line>, id: LineId)
    ensures RemoveLines(lines, id) == lines <==> forall i :: 0 <= i < |lines| ==> lines[i].id != id
  {
    if forall i :: 0 <= i < |lines| ==> lines[i].id != id {
      if lines != [] {
        assert forall i :: 0 <= i < |lines[1..]| ==> lines[1..][i].id != id by {
          forall i | 0 <= i < |lines[1..]| ensures lines[1..][i].id != id {
            assert lines[1..][i] == lines[i + 1];
          }
        }
        RemoveLinesUnchanged(lines[1..], id);
        assert lines[0].id != id;
        assert lines == [lines[0]] + lines[1..];
      }
    } else {
      var i :| 0 <= i < |lines| && lines[i].id == id;
      assert lines[i] in lines && lines[i] !in RemoveLines(lines, id);
    }
  }

  /** Removing the same id twice is the same as removing it once. */
  lemma RemoveLinesIdempotent(lines: seq<Line>, id: LineId)
    ensures RemoveLines(RemoveLines(lines, id), id) == RemoveLines(lines, id)
  {
    var r := RemoveLines(lines, id);
    assert forall i :: 0 <= i < |r| ==> r[i].id != id by {
      forall i | 0 <= i < |r| ensures r[i].id != id {
        assert r[i] in r;
      }
    }
    RemoveLinesUnchanged(r, id);
  }

  /** Index of the first line carrying `id` (Array.findIndex; the server's for loop). */
  function FindLine(lines: seq<Line>, id: LineId): (r: Option<nat>)
    ensures r.Some? ==> r.value < |lines| && lines[r.value].id == id
    ensures r.Some? ==> forall j :: 0 <= j < r.value ==> lines[j].id != id
    ensures r.None? <==> forall j :: 0 <= j < |lines| ==> lines[j].id != id
  {
    if lines == [] then None
    else if lines[0].id == id then Some(0)
    else match FindLine(lines[1..], id)
      case None => None
      case Some(k) => Some(k + 1)
  }

  /** The order after the unit price of the first line carrying `id` is set to `price`. */
  function PatchPrice(lines: seq<Line>, id: LineId, price: real): (r: seq<Line>)
    ensures |r| == |lines|
    ensures forall j :: 0 <= j < |lines| ==> r[j] == lines[j].(unitPrice := r[j].unitPrice)
    ensures forall j :: 0 <= j < |lines| && lines[j].id != id ==> r[j] == lines[j]
    ensures forall j :: 0 <= j < |lines| && lines[j].id == id ==>
              (forall k :: 0 <= k < j ==> lines[k].id != id) ==> r[j].unitPrice == price
    ensures forall j, k :: 0 <= j < k < |lines| && lines[j].id == id ==> r[k] == lines[k]
    ensures (forall j :: 0 <= j < |lines| ==> lines[j].id != id) ==> r == lines
  {
    match FindLine(lines, id)
    case None => lines
    case Some(i) => lines[i := lines[i].(unitPrice := price)]
  }

  /** Patching a price changes the subtotal by the price difference times the quantity
      of the patched line, and not at all when no line carries the id. */
  lemma SubtotalAfterPatch(lines: seq<Line>, id: LineId, price: real)
    ensures FindLine(lines, id).None? ==> Subtotal(PatchPrice(lines, id, price)) == Subtotal(lines)
    ensures FindLine(lines, id).Some? ==>
              Subtotal(PatchPrice(lines, id, price)) ==
                Subtotal(lines) + PriceDelta(lines[FindLine(lines, id).value], price)
  {
    match FindLine(lines, id)
    case None =>
    case Some(i) =>
      var l := lines[i];
      assert PatchPrice(lines, id, price) == lines[i := l.(unitPrice := price)];
      SubtotalReplaceAt(lines, i, l.(unitPrice := price));
      LineTotalAfterPrice(l, price);
  }

  /** How much a line's total moves when its unit price becomes `price`. */
  function PriceDelta(l: Line, price: real): real
  {
    (price - l.unitPrice) * l.quantity as real
  }

  lemma LineTotalAfterPrice(l: Line, price: real)
    ensures LineTotal(l.(unitPrice := price)) == LineTotal(l) + PriceDelta(l, price)
  {
  }

  /** The discount the kind selects: "R$" is a fixed amount capped at the subtotal,
      "%" a percentage of the subtotal, any other kind no discount. */
  function Discount(subtotal: real, kind: string, value: real): (d: real)
    ensures kind == "R$" ==> d <= subtotal && d <= value && (d == subtotal || d == value)
    ensures kind == "%" ==> d * 100.0 == subtotal * value
    ensures kind != "R$" && kind != "%" ==> d == 0.0
  {
    if kind == "R$" then (if subtotal < value then subtotal else value)
    else if kind == "%" then subtotal * (value / 100.0)
    else 0.0
  }

  /** With a non-negative subtotal and value the discount is non-negative; it exceeds the
      subtotal only for a percentage above 100 on a positive subtotal. */
  lemma DiscountBounds(subtotal: real, kind: string, value: real)
    requires subtotal >= 0.0 && value >= 0.0
    ensures Discount(subtotal, kind, value) >= 0.0
    ensures Discount(subtotal, kind, value) <= subtotal <==>
              kind != "%" || value <= 100.0 || subtotal == 0.0
  {
    if kind == "%" {
      PercentBounds(subtotal, value, Discount(subtotal, kind, value));
    } else if kind == "R$" {
      assert Discount(subtotal, kind, value) == if subtotal < value then subtotal else value;
    } else {
      assert Discount(subtotal, kind, value) == 0.0;
    }
  }

  /** The percentage branch of DiscountBounds, for `d = subtotal * (value / 100)`. */
  lemma PercentBounds(subtotal: real, value: real, d: real)
    requires subtotal >= 0.0 && value >= 0.0
    requires d == subtotal * (value / 100.0)
    ensures d >= 0.0
    ensures d <= subtotal <==> value <= 100.0 || subtotal == 0.0
  {
    var f := value / 100.0;
    ProductNonNegative(subtotal, f);
    if subtotal == 0.0 {
      assert d == 0.0;
    } else if f <= 1.0 {
      ProductNonNegative(subtotal, 1.0 - f);
      assert subtotal * (1.0 - f) == subtotal - d;
    } else {
      ProductPositive(subtotal, f - 1.0);
      assert subtotal * (f - 1.0) == d - subtotal;
    }
  }

  lemma ProductNonNegative(a: real, b: real)
    requires a >= 0.0 && b >= 0.0
    ensures a * b >= 0.0
  {
  }

  lemma ProductPositive(a: real, b: real)
    requires a > 0.0 && b > 0.0
    ensures a * b > 0.0
  {
  }
}
