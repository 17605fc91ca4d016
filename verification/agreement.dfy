/** The browser previews the bill with aplicarDesconto and then sends the table, the
    kind and the raw discount value to /fechar_conta, which recomputes the bill. The
    two computations share the subtotal and the discount selection; they differ in
    that the browser reads a negative value as zero and floors the total at zero,
    while the server does neither. These lemmas say when the preview and the bill
    agree. */
module Agreement {
  import opened Comanda
  import Server
  import Client

  /** For a well-formed order and a non-negative value, the previewed discount is the
      billed one, and the previewed total is the billed total exactly when the kind is
      not "%", the percentage is at most 100, or the subtotal is zero. */
  lemma PreviewMatchesBill(lines: seq<Line>, kind: string, value: real)
    requires NonNegative(lines) && value >= 0.0
    ensures Client.ClientDiscount(Subtotal(lines), kind, Some(value)) ==
            Server.CloseOut(lines, kind, value).discount
    ensures Client.ClientTotal(Subtotal(lines), kind, Some(value)) ==
              Server.CloseOut(lines, kind, value).total
            <==> kind != "%" || value <= 100.0 || Subtotal(lines) == 0.0
  {
    var s := Subtotal(lines);
    SubtotalNonNegative(lines);
    DiscountBounds(s, kind, value);
    assert Client.Sanitize(Some(value)) == value;
  }

  /** A negative fixed or percentage value on a positive subtotal makes the server bill
      more than the browser previewed: the browser drops the discount, the server adds it. */
  lemma NegativeValueBillsMore(lines: seq<Line>, kind: string, value: real)
    requires Subtotal(lines) > 0.0 && value < 0.0
    requires kind == "R$" || kind == "%"
    ensures Client.ClientTotal(Subtotal(lines), kind, Some(value)) == Subtotal(lines)
    ensures Server.CloseOut(lines, kind, value).total > Subtotal(lines)
  {
  }
}
