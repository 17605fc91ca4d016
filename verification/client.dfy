/** The browser controller (scripts.js) as a view-model: the module-level state
    (selected table, current order, subtotal, discount, total and the line held by
    the edit modal) and the handlers that change it. The DOM, fetch and the dialogs
    are gone: the values read from input fields and the outcome of each request
    (success flag and returned data) are parameters. */
module Client {
  import opened Comanda

  /** The discount value the calculator uses: the parsed input, with a non-numeric
      (None) or negative input read as zero. */
  function Sanitize(raw: Option<real>): (v: real)
    ensures v >= 0.0
    ensures raw.Some? && raw.value >= 0.0 ==> v == raw.value
    ensures raw.None? || raw.value < 0.0 ==> v == 0.0
  {
    if raw.None? || raw.value < 0.0 then 0.0 else raw.value
  }

  /** A total floored at zero. */
  function Floored(x: real): (r: real)
    ensures r >= 0.0 && r >= x
    ensures r == x || r == 0.0
  {
    if x < 0.0 then 0.0 else x
  }

  /** The discount aplicarDesconto shows for a subtotal and the raw input. */
  function ClientDiscount(subtotal: real, kind: string, raw: Option<real>): real
  {
    Discount(subtotal, kind, Sanitize(raw))
  }

  /** The total aplicarDesconto shows for a subtotal and the raw input. */
  function ClientTotal(subtotal: real, kind: string, raw: Option<real>): real
  {
    Floored(subtotal - ClientDiscount(subtotal, kind, raw))
  }

  /** A fixed discount larger than the subtotal is clamped to it and the total is zero. */
  lemma FixedDiscountClamped(subtotal: real, value: real)
    requires 0.0 <= subtotal < value
    ensures ClientDiscount(subtotal, "R$", Some(value)) == subtotal
    ensures ClientTotal(subtotal, "R$", Some(value)) == 0.0
  {
  }

  /** A non-numeric or negative input gives the same figures as an input of zero, and that
      is no discount at all. */
  lemma InvalidInputIsZero(subtotal: real, kind: string, raw: Option<real>)
    requires subtotal >= 0.0
    requires raw.None? || raw.value < 0.0
    ensures ClientDiscount(subtotal, kind, raw) == 0.0
    ensures ClientTotal(subtotal, kind, raw) == subtotal
  {
  }

  /** On a non-negative subtotal the shown discount is not negative, a fixed one never exceeds
      the subtotal, and the shown total never exceeds the subtotal. */
  lemma ClientFiguresBounded(subtotal: real, kind: string, raw: Option<real>)
    requires subtotal >= 0.0
    ensures ClientDiscount(subtotal, kind, raw) >= 0.0
    ensures kind != "%" ==> ClientDiscount(subtotal, kind, raw) <= subtotal
    ensures 0.0 <= ClientTotal(subtotal, kind, raw) <= subtotal
  {
  }

  class OrderView {
    /** currentMesaId: null or the id of the selected table. */
    var currentTable: Option<TableId>
    /** comandaAtual: the selected table's order lines. */
    var order: seq<Line>
    var subtotal: real
    /** descontoAplicado */
    var discountApplied: real
    /** totalFinal */
    var total: real
    /** itemParaEdicao: the line the edit/remove modal is open on. */
    var editing: Option<Line>

    /** The subtotal always matches the order, the total is never negative, and for a
        non-empty order the total is the floored difference of subtotal and discount. */
    ghost predicate Valid()
      reads this
    {
      && subtotal == Subtotal(order)
      && total >= 0.0
      && (order != [] ==> total == Floored(subtotal - discountApplied))
    }

    /** The discount and total renderComanda leaves: the previous ones for an empty order,
        otherwise the calculator's figures for the current subtotal. */
    ghost predicate RenderedFigures(prevDiscount: real, prevTotal: real, raw: Option<real>, kind: string)
      reads this
    {
      if order == [] then discountApplied == prevDiscount && total == prevTotal
      else discountApplied == ClientDiscount(subtotal, kind, raw) && total == ClientTotal(subtotal, kind, raw)
    }

    /** `!currentMesaId` is false: a table is selected and its id is not empty. */
    predicate HasTable()
      reads this
    {
      currentTable.Some? && currentTable.value != ""
    }

    constructor ()
      ensures Valid()
      ensures currentTable == None && order == [] && editing == None
      ensures subtotal == 0.0 && discountApplied == 0.0 && total == 0.0
    {
      currentTable := None;
      order := [];
      subtotal := 0.0;
      discountApplied := 0.0;
      total := 0.0;
      editing := None;
    }

    /** aplicarDesconto: recomputes the discount and the floored total from the current
        subtotal; nothing else changes. */
    method ApplyDiscount(raw: Option<real>, kind: string)
      modifies this
      ensures discountApplied == ClientDiscount(subtotal, kind, raw)
      ensures total == ClientTotal(subtotal, kind, raw)
      ensures subtotal == old(subtotal) && order == old(order)
      ensures currentTable == old(currentTable) && editing == old(editing)
      ensures old(Valid()) ==> Valid()
    {
      var value := if raw.Some? then raw.value else 0.0;
      if raw.None? || value < 0.0 {
        value := 0.0;
      }
      assert value == Sanitize(raw);
      total := subtotal;
      discountApplied := 0.0;
      if kind == "R$" {
        discountApplied := if value < subtotal then value else subtotal;
      } else if kind == "%" {
        discountApplied := subtotal * (value / 100.0);
      }
      assert discountApplied == Discount(subtotal, kind, value);
      total := subtotal - discountApplied;
      if total < 0.0 {
        total := 0.0;
      }
    }

    /** renderComanda: sums the order into the subtotal line by line; an empty order stops
        there with a zero subtotal, otherwise the discount is re-applied. */
    method Render(raw: Option<real>, kind: string)
      requires total >= 0.0
      modifies this
      ensures Valid()
      ensures order == old(order) && currentTable == old(currentTable) && editing == old(editing)
      ensures subtotal == Subtotal(order)
      ensures RenderedFigures(old(discountApplied), old(total), raw, kind)
    {
      subtotal := 0.0;
      if |order| == 0 {
        return;
      }
      var i := 0;
      while i < |order|
        invariant 0 <= i <= |order|
        invariant subtotal == Subtotal(order[..i])
        invariant order == old(order) && currentTable == old(currentTable) && editing == old(editing)
        invariant discountApplied == old(discountApplied) && total == old(total)
      {
        assert order[..i + 1][..i] == order[..i];
        subtotal := subtotal + LineTotal(order[i]);
        i := i + 1;
      }
      assert order[..i] == order;
      ApplyDiscount(raw, kind);
    }

    /** The state part of showComanda: the table becomes the selected one. */
    method ShowTable(tableId: TableId)
      requires Valid()
      modifies this
      ensures Valid()
      ensures currentTable == Some(tableId)
      ensures order == old(order) && editing == old(editing)
      ensures subtotal == old(subtotal) && discountApplied == old(discountApplied) && total == old(total)
    {
      currentTable := Some(tableId);
    }

    /** loadMesa: the order is replaced wholesale by the fetched lines, or by the empty
        order when the request fails, and rendered. */
    method LoadTable(ok: bool, fetched: seq<Line>, raw: Option<real>, kind: string)
      requires Valid()
      modifies this
      ensures Valid()
      ensures order == (if ok then fetched else [])
      ensures currentTable == old(currentTable) && editing == old(editing)
      ensures RenderedFigures(old(discountApplied), old(total), raw, kind)
    {
      order := if ok then fetched else [];
      Render(raw, kind);
    }

    /** addItem: no request without a table, a catalog item or with a quantity below one
        (a quantity that did not parse passes this guard). On success the line the server
        returned is appended; on failure nothing changes. */
    method AddItem(menuItemId: MenuId, quantity: Option<int>, raw: Option<real>, kind: string,
                   ok: bool, returned: Line)
      returns (sent: bool)
      requires Valid()
      modifies this
      ensures Valid()
      ensures sent <==> old(HasTable()) && menuItemId != "" && !(quantity.Some? && quantity.value < 1)
      ensures currentTable == old(currentTable) && editing == old(editing)
      ensures order == if sent && ok then old(order) + [returned] else old(order)
      ensures sent && ok ==> RenderedFigures(old(discountApplied), old(total), raw, kind)
      ensures !(sent && ok) ==>
                subtotal == old(subtotal) && discountApplied == old(discountApplied) && total == old(total)
    {
      if !HasTable() || menuItemId == "" || (quantity.Some? && quantity.value < 1) {
        return false;
      }
      sent := true;
      if ok {
        order := order + [returned];
        Render(raw, kind);
      }
    }

    /** removeItem: no request without a table or with a falsy (zero) id. On success the
        order keeps exactly the lines with another id and the modal closes; on failure
        nothing changes. */
    method RemoveItem(lineId: LineId, raw: Option<real>, kind: string, ok: bool)
      returns (sent: bool)
      requires Valid()
      modifies this
      ensures Valid()
      ensures sent <==> old(HasTable()) && lineId != 0
      ensures currentTable == old(currentTable)
      ensures order == if sent && ok then RemoveLines(old(order), lineId) else old(order)
      ensures editing == if sent && ok then None else old(editing)
      ensures sent && ok ==> RenderedFigures(old(discountApplied), old(total), raw, kind)
      ensures !(sent && ok) ==>
                subtotal == old(subtotal) && discountApplied == old(discountApplied) && total == old(total)
    {
      if !HasTable() || lineId == 0 {
        return false;
      }
      sent := true;
      if ok {
        order := RemoveLines(order, lineId);
        Render(raw, kind);
        CloseModal();
      }
    }

    /** editItemValue: no request without a table, with a zero id or with a price that is
        not positive. On success the first line with the id takes the price the server
        returned (no line changes when none has the id) and the modal closes; on failure
        nothing changes. */
    method EditItemValue(lineId: LineId, newValue: real, raw: Option<real>, kind: string,
                         ok: bool, returnedPrice: real)
      returns (sent: bool)
      requires Valid()
      modifies this
      ensures Valid()
      ensures sent <==> old(HasTable()) && lineId != 0 && newValue > 0.0
      ensures currentTable == old(currentTable)
      ensures order == if sent && ok then PatchPrice(old(order), lineId, returnedPrice) else old(order)
      ensures editing == if sent && ok then None else old(editing)
      ensures sent && ok ==> RenderedFigures(old(discountApplied), old(total), raw, kind)
      ensures !(sent && ok) ==>
                subtotal == old(subtotal) && discountApplied == old(discountApplied) && total == old(total)
    {
      if !HasTable() || lineId == 0 || newValue <= 0.0 {
        return false;
      }
      sent := true;
      if ok {
        var index := FindLine(order, lineId);
        if index.Some? {
          order := order[index.value := order[index.value].(unitPrice := returnedPrice)];
        }
        Render(raw, kind);
        CloseModal();
      }
    }

    /** fecharConta: refused without a table or with an empty order, and sent only once the
        user confirms. On success the order is emptied (rendering it zeroes the subtotal)
        and the table deselected; on failure nothing changes. */
    method CloseBill(confirmed: bool, ok: bool) returns (sent: bool)
      requires Valid()
      modifies this
      ensures Valid()
      ensures sent <==> old(HasTable()) && old(order) != [] && confirmed
      ensures editing == old(editing)
      ensures discountApplied == old(discountApplied) && total == old(total)
      ensures sent && ok ==> order == [] && currentTable == None && subtotal == 0.0
      ensures !(sent && ok) ==>
                order == old(order) && currentTable == old(currentTable) && subtotal == old(subtotal)
    {
      if !HasTable() || |order| == 0 {
        return false;
      }
      if !confirmed {
        return false;
      }
      sent := true;
      if ok {
        order := [];
        // an empty order is rendered without reading the discount inputs
        Render(None, "R$");
        currentTable := None;
      }
    }

    /** openModal: the modal holds this line, replacing any line it held. */
    method OpenModal(line: Line)
      modifies this
      ensures editing == Some(line)
      ensures old(Valid()) ==> Valid()
      ensures currentTable == old(currentTable) && order == old(order)
      ensures subtotal == old(subtotal) && discountApplied == old(discountApplied) && total == old(total)
    {
      editing := Some(line);
    }

    /** closeModal: the modal holds nothing. */
    method CloseModal()
      modifies this
      ensures editing == None
      ensures old(Valid()) ==> Valid()
      ensures currentTable == old(currentTable) && order == old(order)
      ensures subtotal == old(subtotal) && discountApplied == old(discountApplied) && total == old(total)
    {
      editing := None;
    }

    /** The modal's remove button: removes the held line once the user confirms. */
    method RemoveHeld(confirmed: bool, raw: Option<real>, kind: string, ok: bool)
      returns (sent: bool)
      requires Valid()
      modifies this
      ensures Valid()
      ensures sent <==> old(editing).Some? && confirmed && old(HasTable()) && old(editing).value.id != 0
      ensures currentTable == old(currentTable)
      ensures order == if sent && ok then RemoveLines(old(order), old(editing).value.id) else old(order)
      ensures editing == if sent && ok then None else old(editing)
      ensures sent && ok ==> RenderedFigures(old(discountApplied), old(total), raw, kind)
      ensures !(sent && ok) ==>
                subtotal == old(subtotal) && discountApplied == old(discountApplied) && total == old(total)
    {
      sent := false;
      if editing.Some? && confirmed {
        sent := RemoveItem(editing.value.id, raw, kind, ok);
      }
    }

    /** The modal's save button: a new price that did not parse or is not positive is
        refused; otherwise the held line's price is edited. */
    method SaveHeld(newValue: Option<real>, raw: Option<real>, kind: string, ok: bool,
                    returnedPrice: real)
      returns (sent: bool)
      requires Valid()
      modifies this
      ensures Valid()
      ensures sent <==>
                old(editing).Some? && newValue.Some? && newValue.value > 0.0 &&
                old(HasTable()) && old(editing).value.id != 0
      ensures currentTable == old(currentTable)
      ensures order == if sent && ok then PatchPrice(old(order), old(editing).value.id, returnedPrice)
                       else old(order)
      ensures editing == if sent && ok then None else old(editing)
      ensures sent && ok ==> RenderedFigures(old(discountApplied), old(total), raw, kind)
      ensures !(sent && ok) ==>
                subtotal == old(subtotal) && discountApplied == old(discountApplied) && total == old(total)
    {
      sent := false;
      if editing.Some? && newValue.Some? && newValue.value > 0.0 {
        sent := EditItemValue(editing.value.id, newValue.value, raw, kind, ok, returnedPrice);
      }
    }
  }
}
