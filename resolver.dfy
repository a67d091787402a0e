/**
 * The scan-resolution rule of the route handler `find_data`: a QR code names a
 * route (NR_PERCURSO), a delivery (NR_ENTREGA) and a placeholder; the handler
 * filters the spreadsheet rows on those three keys, takes the first match,
 * builds the display payload from it and shows either the full view (the
 * pallet is filled in) or the pending view (the pallet is blank).
 *
 * The spreadsheet fetch is not modelled: its result is the parameter
 * `source`, None when the fetch failed.
 */
module ScanResolver {

  import opened Wrappers
  import opened PyStrip

  /** One spreadsheet row, every cell already a string. */
  datatype Row = Row(
    route: string,        // NR_PERCURSO
    delivery: string,     // NR_ENTREGA
    placeholder: string,  // Placeholder
    pallet: string,       // PALLET
    client: string,       // NM_CLIENTE
    productCode: string,  // CD_PRODUTO
    productName: string,  // NM_PRODUTO
    tonality: string,     // TONALIDADE
    quantity: string,     // QTDE
    unit: string          // UNIDADE
  )

  /** The eight display fields both views share; the full view adds the pallet beside them. */
  datatype Payload = Payload(
    client: string,       // nm_cliente
    route: string,        // nr_percurso
    delivery: string,     // nr_entrega
    productCode: string,  // cd_produto
    tonality: string,     // tonalidade
    productName: string,  // nm_produto
    quantity: string,     // qtde
    unit: string          // unidade
  )

  /** The four responses the handler can give. */
  datatype Outcome =
    | SourceError(message: string)         // HTTP 500, plain text
    | NotFound(description: string)        // HTTP 404 page with a fixed description
    | Pending(data: Payload)               // aguardando.html
    | Full(data: Payload, pallet: string)  // index.html, payload plus the pallet

  const SourceErrorMessage: string := "Erro: Não foi possível conectar à base de dados (Planilha Google)."
  const NotFoundDescription: string := "Registro não encontrado para os dados fornecidos."

  /** The three keys of the row equal the three path segments exactly: no trimming, no case folding. */
  predicate Matches(row: Row, route: string, delivery: string, placeholder: string)
  {
    row.route == route && row.delivery == delivery && row.placeholder == placeholder
  }

  /** `i` is the index of the first row in dataset order that matches the keys. */
  predicate FirstMatchAt(rows: seq<Row>, i: int, route: string, delivery: string, placeholder: string)
  {
    && 0 <= i < |rows|
    && Matches(rows[i], route, delivery, placeholder)
    && forall j :: 0 <= j < i ==> !Matches(rows[j], route, delivery, placeholder)
  }

  /** The payload shows the row's eight display cells unchanged. */
  predicate ShowsRow(data: Payload, row: Row)
  {
    && data.client == row.client
    && data.route == row.route
    && data.delivery == row.delivery
    && data.productCode == row.productCode
    && data.tonality == row.tonality
    && data.productName == row.productName
    && data.quantity == row.quantity
    && data.unit == row.unit
  }

  /** The boolean-mask filter: the matching rows, in dataset order. */
  function Select(rows: seq<Row>, route: string, delivery: string, placeholder: string): (s: seq<Row>)
    ensures |s| <= |rows|
    ensures forall x :: x in s <==> x in rows && Matches(x, route, delivery, placeholder)
  {
    if rows == [] then []
    else if Matches(rows[0], route, delivery, placeholder) then [rows[0]] + Select(rows[1..], route, delivery, placeholder)
    else Select(rows[1..], route, delivery, placeholder)
  }

  /** The display dictionary built from the chosen row. */
  function Display(row: Row): (p: Payload)
  {
    Payload(row.client, row.route, row.delivery, row.productCode, row.tonality,
            row.productName, row.quantity, row.unit)
  }

  /** The whole handler on an already fetched dataset (None: the fetch failed). */
  function Resolve(source: Option<seq<Row>>, route: string, delivery: string, placeholder: string): (o: Outcome)
    ensures o.SourceError? <==> source.None?
    ensures o.SourceError? ==> o.message == SourceErrorMessage
    ensures o.NotFound? ==> o.description == NotFoundDescription
  {
    match source
    case None => SourceError(SourceErrorMessage)
    case Some(rows) =>
      var selected := Select(rows, route, delivery, placeholder);
      if |selected| == 0 then NotFound(NotFoundDescription)
      else
        var found := selected[0];
        var data := Display(found);
        if Strip(found.pallet) != [] then Full(data, found.pallet) else Pending(data)
  }

  /** The head of the filtered rows is the first matching row of the dataset. */
  lemma {:induction false} SelectHead(rows: seq<Row>, i: int, route: string, delivery: string, placeholder: string)
    requires FirstMatchAt(rows, i, route, delivery, placeholder)
    ensures |Select(rows, route, delivery, placeholder)| > 0
    ensures Select(rows, route, delivery, placeholder)[0] == rows[i]
    decreases i
  {
    if i > 0 {
      assert !Matches(rows[0], route, delivery, placeholder);
      assert FirstMatchAt(rows[1..], i - 1, route, delivery, placeholder) by {
        forall j | 0 <= j < i - 1
          ensures !Matches(rows[1..][j], route, delivery, placeholder)
        {
          assert rows[1..][j] == rows[j + 1];
        }
      }
      SelectHead(rows[1..], i - 1, route, delivery, placeholder);
    }
  }

  /** Filtering a concatenation filters each part. */
  lemma {:induction false} SelectAppend(a: seq<Row>, b: seq<Row>, route: string, delivery: string, placeholder: string)
    ensures Select(a + b, route, delivery, placeholder)
         == Select(a, route, delivery, placeholder) + Select(b, route, delivery, placeholder)
    decreases |a|
  {
    if a != [] {
      assert (a + b)[0] == a[0];
      assert (a + b)[1..] == a[1..] + b;
      SelectAppend(a[1..], b, route, delivery, placeholder);
    } else {
      assert a + b == b;
    }
  }

  /** Filtering rows none of which matches leaves nothing. */
  lemma {:induction false} SelectNone(rows: seq<Row>, route: string, delivery: string, placeholder: string)
    requires forall x :: x in rows ==> !Matches(x, route, delivery, placeholder)
    ensures Select(rows, route, delivery, placeholder) == []
    decreases |rows|
  {
    if rows != [] {
      assert rows[0] in rows;
      forall x | x in rows[1..] ensures !Matches(x, route, delivery, placeholder) {
        assert x in rows;
      }
      SelectNone(rows[1..], route, delivery, placeholder);
    }
  }

  /** With a dataset, the 404 is given exactly when no row matches all three keys. */
  lemma NotFoundIffNoMatch(rows: seq<Row>, route: string, delivery: string, placeholder: string)
    ensures Resolve(Some(rows), route, delivery, placeholder) == NotFound(NotFoundDescription)
        <==> forall i :: 0 <= i < |rows| ==> !Matches(rows[i], route, delivery, placeholder)
  {
    var s := Select(rows, route, delivery, placeholder);
    if |s| > 0 {
      assert s[0] in s;
    } else {
      forall i | 0 <= i < |rows|
        ensures !Matches(rows[i], route, delivery, placeholder)
      {
        assert rows[i] in rows;
      }
    }
  }

  /**
   * The first matching row decides: the full view when its pallet is not
   * blank, carrying the pallet cell as it is (not stripped), otherwise the
   * pending view; either way the payload shows the row's cells unchanged.
   */
  lemma FirstMatchDecides(rows: seq<Row>, i: int, route: string, delivery: string, placeholder: string)
    requires FirstMatchAt(rows, i, route, delivery, placeholder)
    ensures Resolve(Some(rows), route, delivery, placeholder).Full?
        <==> !IsBlank(rows[i].pallet)
    ensures Resolve(Some(rows), route, delivery, placeholder).Pending?
        <==> IsBlank(rows[i].pallet)
    ensures Resolve(Some(rows), route, delivery, placeholder).Full?
        ==> Resolve(Some(rows), route, delivery, placeholder).pallet == rows[i].pallet
    ensures ShowsRow(Resolve(Some(rows), route, delivery, placeholder).data, rows[i])
    ensures Resolve(Some(rows), route, delivery, placeholder).data.route == route
    ensures Resolve(Some(rows), route, delivery, placeholder).data.delivery == delivery
  {
    SelectHead(rows, i, route, delivery, placeholder);
    StripEmptyIffBlank(rows[i].pallet);
  }

  /**
   * Unless the response is the 404, a view is shown, and it shows a row that
   * matches the keys and comes before every other match; `i` is its index.
   */
  lemma ShownRowIsFirstMatch(rows: seq<Row>, route: string, delivery: string, placeholder: string)
      returns (i: int)
    ensures Resolve(Some(rows), route, delivery, placeholder).NotFound?
         || (&& FirstMatchAt(rows, i, route, delivery, placeholder)
             && ShowsRow(Resolve(Some(rows), route, delivery, placeholder).data, rows[i]))
  {
    NotFoundIffNoMatch(rows, route, delivery, placeholder);
    if Resolve(Some(rows), route, delivery, placeholder).NotFound? {
      i := -1;
    } else {
      i := FirstIndex(rows, route, delivery, placeholder);
      FirstMatchDecides(rows, i, route, delivery, placeholder);
    }
  }

  /** Some matching row exists, so a first one does. */
  lemma FirstIndex(rows: seq<Row>, route: string, delivery: string, placeholder: string) returns (i: int)
    requires exists k :: 0 <= k < |rows| && Matches(rows[k], route, delivery, placeholder)
    ensures FirstMatchAt(rows, i, route, delivery, placeholder)
  {
    i := 0;
    while !Matches(rows[i], route, delivery, placeholder)
      invariant 0 <= i < |rows|
      invariant forall j :: 0 <= j < i ==> !Matches(rows[j], route, delivery, placeholder)
      invariant exists k :: i <= k < |rows| && Matches(rows[k], route, delivery, placeholder)
      decreases |rows| - i
    {
      i := i + 1;
    }
  }

  /** Rows whose keys do not all match the request can be added anywhere or removed without changing the response. */
  lemma NonMatchingRowsIrrelevant(a: seq<Row>, extra: seq<Row>, b: seq<Row>,
                                  route: string, delivery: string, placeholder: string)
    requires forall x :: x in extra ==> !Matches(x, route, delivery, placeholder)
    ensures Resolve(Some(a + extra + b), route, delivery, placeholder)
         == Resolve(Some(a + b), route, delivery, placeholder)
  {
    SelectAppend(a + extra, b, route, delivery, placeholder);
    SelectAppend(a, extra, route, delivery, placeholder);
    SelectAppend(a, b, route, delivery, placeholder);
    SelectNone(extra, route, delivery, placeholder);
    assert Select(a, route, delivery, placeholder) + [] == Select(a, route, delivery, placeholder);
  }

  /**
   * Filling in the pallet of the row a placeholder resolves to turns the
   * pending view into the full view with the same payload.
   */
  lemma PalletAssignmentShowsFull(rows: seq<Row>, i: int, pallet: string,
                                  route: string, delivery: string, placeholder: string)
    requires FirstMatchAt(rows, i, route, delivery, placeholder)
    requires IsBlank(rows[i].pallet) && !IsBlank(pallet)
    ensures var before := Resolve(Some(rows), route, delivery, placeholder);
            var after := Resolve(Some(rows[i := rows[i].(pallet := pallet)]), route, delivery, placeholder);
      && before.Pending? && after.Full?
      && after.data == before.data && after.pallet == pallet
  {
    var updated := rows[i := rows[i].(pallet := pallet)];
    assert FirstMatchAt(updated, i, route, delivery, placeholder);
    FirstMatchDecides(rows, i, route, delivery, placeholder);
    FirstMatchDecides(updated, i, route, delivery, placeholder);
    SelectHead(rows, i, route, delivery, placeholder);
    SelectHead(updated, i, route, delivery, placeholder);
  }

  /** Keys are compared as they are: a trailing space or a different case in the request finds nothing. */
  lemma ExactKeysExample()
    ensures var row := Row("1001", "555", "ABC", "", "Cliente", "P1", "Produto", "T1", "10", "CX");
      && Resolve(Some([row]), "1001", "555", "ABC").Pending?
      && Resolve(Some([row]), "1001", "555", "ABC ") == NotFound(NotFoundDescription)
      && Resolve(Some([row]), "1001", "555", "abc") == NotFound(NotFoundDescription)
  {
  }

}
