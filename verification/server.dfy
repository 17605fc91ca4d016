/** The Flask side (app.py): the fixed catalog, the in-memory map from table id to
    the table's order lines, and the four routes that change it. HTTP, JSON and the
    request parsing are gone: each route is a method taking the already-decoded
    fields and returning the status it would answer with plus its payload. */
module Server {
  import opened Comanda

  /** 200, 400 and 404. */
  datatype Status = Ok | BadRequest | NotFound

  /** A catalog entry: {"nome", "valor"}. */
  datatype MenuItem = MenuItem(name: string, price: real)

  /** The catalog served at /cardapio; every item has a positive price. */
  function Menu(): (m: map<MenuId, MenuItem>)
    ensures forall id :: id in m ==> m[id].price > 0.0
  {
    map[
      "1" := MenuItem("Pizza Calabresa", 45.0),
      "2" := MenuItem("Refrigerante Lata", 7.0),
      "3" := MenuItem("Cerveja Long Neck", 12.0),
      "4" := MenuItem("Água Mineral", 4.0),
      "5" := MenuItem("Porção Batata Frita", 28.0)
    ]
  }

  /** Four tables, each with an empty order, at start-up. */
  const InitialTables: map<TableId, seq<Line>> := map["1" := [], "2" := [], "3" := [], "4" := []]

  /** The payload of a successful close-out. */
  datatype Bill = Bill(subtotal: real, discount: real, total: real, closedLines: seq<Line>)

  /** The bill for `lines`: the subtotal, the discount the kind selects and the
      difference of the two, which is not floored at zero. */
  function CloseOut(lines: seq<Line>, kind: string, value: real): Bill
  {
    var subtotal := Subtotal(lines);
    var discount := Discount(subtotal, kind, value);
    Bill(subtotal, discount, subtotal - discount, lines)
  }

  /** A fixed-amount bill never goes below zero and never discounts more than its subtotal. */
  lemma FixedBillNotNegative(lines: seq<Line>, value: real)
    ensures CloseOut(lines, "R$", value).discount <= CloseOut(lines, "R$", value).subtotal
    ensures CloseOut(lines, "R$", value).total >= 0.0
  {
  }

  /** A percentage above 100 on a positive subtotal gives a negative total: the server
      has no floor. */
  lemma PercentBillCanGoNegative(lines: seq<Line>, value: real)
    requires Subtotal(lines) > 0.0 && value > 100.0
    ensures CloseOut(lines, "%", value).total < 0.0
  {
    var s := Subtotal(lines);
    var b := CloseOut(lines, "%", value);
    assert b.discount * 100.0 == s * value;
    assert s * value > s * 100.0;
  }

  /** On a well-formed order and a non-negative value the total lies between zero and the
      subtotal unless the kind is "%" with a value above 100. */
  lemma BillWithinSubtotal(lines: seq<Line>, kind: string, value: real)
    requires NonNegative(lines) && value >= 0.0
    requires kind != "%" || value <= 100.0
    ensures 0.0 <= CloseOut(lines, kind, value).total <= CloseOut(lines, kind, value).subtotal
  {
    SubtotalNonNegative(lines);
    DiscountBounds(Subtotal(lines), kind, value);
  }

  class OrderStore {
    /** MESAS: table id to the table's order lines, in insertion order. */
    var tables: map<TableId, seq<Line>>

    constructor ()
      ensures tables == InitialTables
    {
      tables := InitialTables;
    }

    /** GET /mesa/<id>: the table's lines, or None for 404. */
    function GetTable(tableId: TableId): (r: Option<seq<Line>>)
      reads this
      ensures r.Some? <==> tableId in tables
      ensures r.Some? ==> r.value == tables[tableId]
    {
      if tableId in tables then Some(tables[tableId]) else None
    }

    /** POST /adicionar_item: 400 for an unknown table or catalog id; otherwise one line,
        priced and named from the catalog, appended to that table. The quantity is not
        checked. */
    method AddItem(tableId: TableId, itemId: MenuId, quantity: int, lineId: LineId)
      returns (st: Status, line: Option<Line>)
      modifies this
      ensures tables.Keys == old(tables.Keys)
      ensures st == BadRequest <==> tableId !in old(tables) || itemId !in Menu()
      ensures st != BadRequest ==> st == Ok
      ensures st == BadRequest ==> tables == old(tables) && line == None
      ensures st == Ok ==>
                line == Some(Line(lineId, itemId, Menu()[itemId].name, Menu()[itemId].price, quantity)) &&
                tables == old(tables)[tableId := old(tables)[tableId] + [line.value]]
    {
      if tableId !in tables || itemId !in Menu() {
        return BadRequest, None;
      }
      var entry := Menu()[itemId];
      var newLine := Line(lineId, itemId, entry.name, entry.price, quantity);
      tables := tables[tableId := tables[tableId] + [newLine]];
      return Ok, Some(newLine);
    }

    /** POST /remover_item: 404 for an unknown table; otherwise the table keeps exactly the
        lines with another id. An absent id still answers 200. */
    method RemoveItem(tableId: TableId, lineId: LineId) returns (st: Status)
      modifies this
      ensures tables.Keys == old(tables.Keys)
      ensures st == NotFound <==> tableId !in old(tables)
      ensures st != NotFound ==> st == Ok
      ensures st == NotFound ==> tables == old(tables)
      ensures st == Ok ==> tables == old(tables)[tableId := RemoveLines(old(tables)[tableId], lineId)]
    {
      if tableId !in tables {
        return NotFound;
      }
      tables := tables[tableId := RemoveLines(tables[tableId], lineId)];
      return Ok;
    }

    /** POST /editar_valor: walks the table's lines and sets the unit price of the first one
        with the id; 404 for an unknown table or when no line has the id. */
    method EditValue(tableId: TableId, lineId: LineId, newValue: real)
      returns (st: Status, line: Option<Line>)
      modifies this
      ensures tables.Keys == old(tables.Keys)
      ensures st != NotFound ==> st == Ok
      ensures st == NotFound <==>
                tableId !in old(tables) || FindLine(old(tables)[tableId], lineId).None?
      ensures st == NotFound ==> tables == old(tables) && line == None
      ensures st == Ok ==>
                var i := FindLine(old(tables)[tableId], lineId).value;
                line == Some(old(tables)[tableId][i].(unitPrice := newValue)) &&
                tables == old(tables)[tableId := PatchPrice(old(tables)[tableId], lineId, newValue)]
    {
      if tableId !in tables {
        return NotFound, None;
      }
      var lines := tables[tableId];
      var i := 0;
      while i < |lines|
        invariant 0 <= i <= |lines|
        invariant forall j :: 0 <= j < i ==> lines[j].id != lineId
        invariant tables == old(tables)
      {
        if lines[i].id == lineId {
          var edited := lines[i].(unitPrice := newValue);
          assert FindLine(lines, lineId) == Some(i);
          tables := tables[tableId := lines[i := edited]];
          return Ok, Some(edited);
        }
        i := i + 1;
      }
      return NotFound, None;
    }

    /** POST /fechar_conta: 404 for an unknown table; otherwise the bill of the table's
        lines as they stood, and the table kept with an empty order. */
    method CloseBill(tableId: TableId, kind: string, value: real)
      returns (st: Status, bill: Option<Bill>)
      modifies this
      ensures tables.Keys == old(tables.Keys)
      ensures st != NotFound ==> st == Ok
      ensures st == NotFound <==> tableId !in old(tables)
      ensures st == NotFound ==> tables == old(tables) && bill == None
      ensures st == Ok ==>
                bill == Some(CloseOut(old(tables)[tableId], kind, value)) &&
                tables == old(tables)[tableId := []]
    {
      if tableId !in tables {
        return NotFound, None;
      }
      var lines := tables[tableId];
      var bill' := CloseOut(lines, kind, value);
      tables := tables[tableId := []];
      return Ok, Some(bill');
    }
  }
}
