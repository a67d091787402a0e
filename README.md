# QR-code scan resolution

A Flask application turns a scanned QR code into a shipment page. The code
encodes the path `/<route>/<delivery>/<placeholder>`. The handler `find_data`
loads the `QR_CODE_LPN` sheet of a Google spreadsheet and filters its rows on
the three keys NR_PERCURSO, NR_ENTREGA and Placeholder. It then answers in one
of four ways:

- a plain-text HTTP 500 when the sheet could not be loaded;
- the 404 page with the description "Registro não encontrado para os dados fornecidos." when no row matches;
- the pending page (`aguardando.html`) when the first matching row has a blank PALLET cell;
- the full page (`index.html`) otherwise, with the PALLET cell added to the display data.

This project models that rule as pure Dafny functions over an already fetched
dataset:

- `wrappers.dfy` holds the `Option` type. `None` stands for a failed fetch.
- `pystrip.dfy` models Python's `str.strip()` and `str.isspace()`, which decide whether a pallet is blank.
- `resolver.dfy` holds the rows, the display payload, the four outcomes, the row filter `Select` and the handler `Resolve`. It also holds the lemmas about them.

The handler does only what the code at app.py:51-101 does:

- It has a single lookup phase, on the placeholder. A placeholder that matches no row gives the 404 (app.py:69-72).
- It never redirects. `redirect` is imported (app.py:2) but never called, and a filled-in pallet renders the full page directly (app.py:92-96).
- No field has a default value. Every column is indexed directly (app.py:80-92).

## Model

| member | source | states |
|---|---|---|
| `ScanResolver.Resolve` | app.py:51-101 | The outcome is the 500 error exactly when the source returned nothing, so no lookup happens then. The 500 carries its fixed message, and a 404 always carries the fixed description. |
| `ScanResolver.Select` | app.py:63-67 | The filter keeps a row exactly when its route, delivery and placeholder all equal the request's segments. Equality is exact, with no trimming or case folding. Every kept row comes from the dataset. |
| `ScanResolver.Display` | app.py:80-89 | Builds the eight-field display data of both views from the chosen row's NM_CLIENTE, NR_PERCURSO, NR_ENTREGA, CD_PRODUTO, TONALIDADE, NM_PRODUTO, QTDE and UNIDADE cells. It has no contract of its own: the `ShowsRow` ensures of `FirstMatchDecides` and `ShownRowIsFirstMatch` state that the shown payload holds these cells unchanged. |
| `ScanResolver.SelectHead` | app.py:75 | The first filtered row is the first row in dataset order that matches all three keys. |
| `ScanResolver.SelectAppend` | app.py:63-67 | The filter works row by row, so filtering a concatenation concatenates the filtered parts and keeps dataset order. |
| `ScanResolver.SelectNone` | app.py:63-69 | If no row matches, the filtered result is empty. |
| `ScanResolver.FirstIndex` | app.py:75 | When some row matches, there is a first matching row. |
| `ScanResolver.NotFoundIffNoMatch` | app.py:63-72 | Given a dataset, the response is the 404 with its fixed description exactly when no row matches all three keys. |
| `ScanResolver.FirstMatchDecides` | app.py:75-101 | The first matching row decides the view. It is the full view exactly when that row's pallet is not blank after stripping, and the full view then carries the pallet cell unstripped. Otherwise it is the pending view, which has no pallet. In both views the eight payload fields are the row's cells unchanged, and the route and delivery equal the request. |
| `ScanResolver.ShownRowIsFirstMatch` | app.py:63-89 | Given a dataset, every response other than the 404 is a view of a row, and the lemma returns that row's index. That row matches all three keys and comes before every other match, and the view's payload is that row's cells. |
| `ScanResolver.NonMatchingRowsIrrelevant` | app.py:63-75 | Adding rows whose keys do not all match the request, at any position, never changes the response. Removing such rows does not change it either. |
| `ScanResolver.PalletAssignmentShowsFull` | app.py:92-101 | Filling in a pallet on the row that a placeholder resolves to turns the pending view into the full view. The payload stays the same, and the view carries the new pallet. |
| `ScanResolver.ExactKeysExample` | app.py:63-72 | A one-row dataset with a blank pallet gives the pending view for the exact keys. A request with a trailing space or different letter case gets the 404. |
| `PyStrip.IsSpace` | app.py:92 | The whitespace set of Python's `str.isspace()`, which `strip()` removes: U+0009 to U+000D, U+001C to U+0020, U+0085, U+00A0, U+1680, U+2000 to U+200A, U+2028, U+2029, U+202F, U+205F and U+3000. It has no contract of its own: the contracts of `StripLeading`, `StripTrailing`, `Strip` and `StripEmptyIffBlank` are stated over it. |
| `PyStrip.StripLeading` | app.py:92 | The result is a suffix of the input. Only whitespace was removed before it, and it does not start with whitespace. |
| `PyStrip.StripTrailing` | app.py:92 | The result is a prefix of the input. Only whitespace was removed after it, and it does not end with whitespace. |
| `PyStrip.Strip` | app.py:92 | The result is a contiguous slice of the input with only whitespace cut away on either side. It neither starts nor ends with whitespace. |
| `PyStrip.StripEmptyIffBlank` | app.py:92 | A string strips to empty exactly when every character is whitespace. |

## Left out

- Loading the sheet (app.py:13-47) is not modelled: credentials, environment variables, the gspread calls and the pandas DataFrame are I/O and foreign libraries. Its result is the parameter `source`, and `None` stands for any exception caught there. One consequence lies outside the model. A sheet with no records gives a DataFrame without columns, so the column conversions at app.py:40-42 raise and the fetch returns `None`. The real system therefore answers 500 for an empty sheet, while the model answers 404 for `Some([])`. For the same reason, the removing direction of `NonMatchingRowsIrrelevant` does not carry over to the real system when the removal empties the sheet: the answer then changes from 404 to 500.
- The `astype(str)` conversions of the key columns (app.py:40-42) are taken as already done. Every other cell is modelled as a string too, although the sheet may deliver numbers (QTDE, PALLET). The pallet test models `str(PALLET).strip()` on the string form.
- A missing column is not modelled, and the model's rows always have every column. A missing key column (NR_PERCURSO, NR_ENTREGA or Placeholder) raises a `KeyError` at app.py:40-42, inside the `try` of the fetch. That error is caught at app.py:45-47, so the fetch returns `None` and the handler gives the plain-text 500 of app.py:59-60, which is the model's `SourceError`. A missing display column or PALLET column raises a `KeyError` at app.py:80-92 only after a row has matched, and the request then ends in an unhandled server error. With no matching row the answer is still the 404.
- Flask routing, `render_template`, `abort` and the 404 error handler (app.py:50, 96, 101, 104-107) are represented only by the four `Outcome` variants. The HTTP status codes are named in comments.
- The `print` logging, process start-up and port selection (app.py:110-114) are not modelled.
