# Scrap-metal ticket core, modelled in Dafny

This project models the core of Metaleria-API, a back office for a scrap-metal
yard. A ticket ("nota") records a purchase (`compra`) from a supplier or a sale
(`venta`) to a customer. A ticket has material lines whose gross weight, discount
and net weight come either from typed values or from photographed sub-weighings.
The lines are priced from a versioned price table, and the ticket moves through
the states BORRADOR, EN_REVISION, APROBADA and CANCELADA.

The modules follow the source:

- `Common`: shared enumerations, nullable and untyped values, and exact sums.
- `Valuation`: the weight and price valuation of a ticket as pure functions
  (`_recalc_material`, `_recalc_totals`, `apply_prices`).
- `NoteService`: the ticket service. `Line` and `Nota` are classes whose
  methods overwrite their fields in place, and each method is proved to leave
  the object exactly as a function of `Valuation` or `NoteService` says. That
  covers draft creation, `update_state`, `send_to_revision`, `attach_partner`
  and `set_tipo_cliente_and_prices`.
- `Pricing`: the price table and its change log as a class holding two
  sequences, with `create_price_version` as a method.
- `NotesApi`: the request validators and the guards of the ticket endpoints.
- `WorkerForm`: the line parser of the worker web form.
- `AccountingReport`: the movement and outstanding-balance loops of the
  accounting report, `_safe_decimal`, `_xml_escape` and `_safe_filename`.
- `Invoice`: the parts of the invoice PDF that are not layout.
- `Evidence`: the photo-evidence grouping.
- `FolioBackfill`: the folio counter of the migration that adds `folio_seq`.
- `Account`: the account label.
- `TextUtil`: the string helpers (`strip`, `replace`, slugging, truncation,
  PDF escaping).
- `Sorting`: `sorted` with integer-tuple keys.

Modelling conventions:

- `Decimal` is `real` (exact).
- Clock readings are `int` parameters (`now`).
- Database ids that inserts assign are parameters; a new price row's id is only required to exceed the stored ids, since a serial key may skip values.
- The database queries become inputs:
  - the price lookup is `Pricing.ActivePrice` over the stored rows;
  - the material catalogue is a set of ids;
  - the report's selected movements and tickets are sequences.

The model keeps two facts of the code:

- A sub-weighing's `peso_kg` is its NET weight: a line's net is the sum of
  the `peso_kg`, its discount is the sum of the `descuento_kg`, and its gross
  is net + discount (app/services/note_service.py:29-34,
  app/web/worker.py:117-118).
- Without sub-weighings the net is gross − discount with NO floor at zero
  (app/services/note_service.py:37).

Only the photo-evidence view clamps a net at zero
(app/services/evidence_service.py:39).

## Model

| member | source | states |
|---|---|---|
| Common.ValueOrZero | app/services/evidence_service.py:9-13 | a number reads as itself; an absent or unconvertible value reads as 0 |
| NoteService.SumDecimal | app/services/note_service.py:20-24 | the loop's total is the exact sum of the values, each missing value counting as 0 |
| NoteService.SumDecimalSkipsMissing | app/services/note_service.py:20-24 | missing entries add nothing: the sum equals the sum of the present values |
| Valuation.RecalcLine | app/services/note_service.py:27-37 | with sub-weighings, net = Σ peso, discount = Σ descuento and gross = net + discount; without them gross and discount are kept and net = gross − discount (no floor); only the three weights change |
| Valuation.RecalcLineIdempotent | app/services/note_service.py:27-37 | a recalculated line is a fixed point of the recalculation |
| NoteService.Line.Recalc | app/services/note_service.py:27-37 | the line object's fields become exactly `RecalcLine` of their old values |
| NoteService.Nota.RecalcLinesInPlace | app/services/note_service.py:45-46 | every line object of the ticket is recalculated, nothing else changes |
| NoteService.LineTotals | app/services/note_service.py:48-51 | the four sums: gross, discount and net over all lines, the amount over lines whose subtotal is set |
| Valuation.RecalcTotalsSpec | app/services/note_service.py:40-56 | lines recalculated; the totals are the sums of the recalculated line values; total amount sums only the set subtotals; total net = total gross − total discount; no other field changes |
| Valuation.RecalcTotalsIdempotent | app/services/note_service.py:40-56 | recalculating a recalculated ticket changes nothing |
| NoteService.Nota.RecalcTotals | app/services/note_service.py:40-56 | the ticket and its lines become `RecalcTotalsSpec` of their old state |
| Valuation.PriceLineMeaning | app/services/note_service.py:67-88 | a line is priced iff an active row exists for (material, operation, customer class or `regular`); then price, version id and subtotal = price × stored net come from the highest-version active row; otherwise all three are none |
| NoteService.Line.Price | app/services/note_service.py:67-88 | one iteration of the pricing loop: the line object becomes `PriceLine` of its old value |
| NoteService.Nota.PriceLinesInPlace | app/services/note_service.py:67-88 | every line object is priced from the table under the ticket's operation |
| NoteService.Nota.ApplyPrices | app/services/note_service.py:59-89 | the ticket becomes `ApplyPricesSpec`: every line priced, then totals recalculated |
| Valuation.ApplyPricesResult | app/services/note_service.py:59-89 | pricing keeps the number of lines and leaves every line consistent with `_recalc_material` |
| Valuation.ApplyPricesSubtotals | app/services/note_service.py:80-89 | on consistent lines every set subtotal is the set unit price × the line's net |
| Valuation.ApplyPricesIdempotent | app/services/note_service.py:59-89 | on consistent lines (every priced ticket has them) re-pricing with the same table changes nothing |
| NoteService.ParseTipoCliente | app/services/note_service.py:139-145 | `TipoCliente(raw)`: the class whose stored name is the text, none when no class has that name |
| NoteService.TipoClienteRoundTrip | app/services/note_service.py:139-145 | every class is recognised from its own name |
| NoteService.PayloadTipoCliente | app/services/note_service.py:139-145 | a payload class is stored iff the text is the name of a class; blank or unknown text gives none |
| NoteService.DraftSubs | app/services/note_service.py:160-166 | one stored sub-weighing per payload entry, with the same weights and discounts |
| NoteService.FirstMissing | app/services/note_service.py:122-125 | the first payload line whose material does not exist, or none exactly when all exist |
| NoteService.DraftFailure | app/services/note_service.py:122-125 | creation fails iff some material does not exist, and then names the first one |
| NoteService.DraftHeader | app/services/note_service.py:107-118 | a created ticket is BORRADOR, has the supplier only on a purchase and the customer only on a sale, and stores the worker comment stripped (none when blank) |
| NoteService.DraftLineRecalculated | app/services/note_service.py:127-137 | the weights a draft line is created with already satisfy `_recalc_material` |
| NoteService.DraftLinesOutcome | app/services/note_service.py:122-170 | line i of a created ticket comes from payload line i: `orden` = i, parsed customer class, weights from the sub-weighings (gross = net + discount) or typed (net = gross − discount, no floor), priced from the table |
| NoteService.Nota.constructor | app/services/note_service.py:107-113 | a new ticket is a draft with zero totals, no lines, no partner and the comment as given by its caller |
| NoteService.Nota.SetDraftPartner | app/services/note_service.py:114-118 | the supplier is set on a purchase, the customer on a sale |
| NoteService.MakeLine | app/services/note_service.py:126-167 | a fresh line object holding `DraftLine` of its payload |
| NoteService.MakeLines | app/services/note_service.py:122-158 | fails with the first missing material, or builds one fresh line per payload line, in order |
| NoteService.InsertDraft | app/services/note_service.py:107-167 | the inserted ticket is `DraftValue` (header, partner and lines, with the worker comment stripped and none when blank) or the missing-material error |
| NoteService.CreateDraftNote | app/services/note_service.py:92-173 | the result is `DraftSpec`: the error for the first unknown material, or the draft recalculated and priced |
| NoteService.Nota.AssignStateFields | app/services/note_service.py:188-195 | state set; admin, admin comment (stripped, blank as none) and due date overwritten only when given; stamped |
| NoteService.UpdateStateOutcome | app/services/note_service.py:176-201 | the new state and stamp are set, optional fields not given are kept, partners are kept, the amount is the sum of set subtotals, and consistent lines are not changed |
| NoteService.Nota.UpdateState | app/services/note_service.py:176-201 | the ticket becomes `UpdateStateSpec` of its old state |
| NoteService.FillRegular | app/services/note_service.py:214-216 | an unset customer class becomes `regular`, a set one is kept |
| NoteService.Nota.FillRegularInPlace | app/services/note_service.py:214-216 | every line object gets `FillRegular` |
| NoteService.Nota.MoveToReview | app/services/note_service.py:218-219 | the state becomes EN_REVISION and the ticket is stamped |
| NoteService.SendToRevisionOutcome | app/services/note_service.py:204-224 | fails iff the ticket is not a draft; on success the ticket is in review, every line has a class (its own, else `regular`) and the ticket is the re-pricing of the filled ticket |
| NoteService.Nota.SendToRevision | app/services/note_service.py:204-224 | a non-draft is rejected and left unchanged; a draft becomes `SendToRevisionSpec` |
| NoteService.AttachPartnerSpec | app/services/note_service.py:237-242 | the partner matching the operation is set and the other is cleared; nothing else changes |
| NoteService.Nota.AttachPartner | app/services/note_service.py:227-246 | the ticket becomes `AttachPartnerSpec` of its old state |
| NoteService.Retype | app/services/note_service.py:257-260 | a line whose id is in the map takes the mapped class; other lines are unchanged |
| NoteService.Line.SetTipoCliente | app/services/note_service.py:259 | only the line's customer class changes |
| NoteService.Nota.RetypeInPlace | app/services/note_service.py:257-260 | every line object gets `Retype` |
| NoteService.SetTipoClienteOutcome | app/services/note_service.py:249-264 | mapped lines carry the mapped class, other lines keep theirs, and a line is priced iff an active row exists for its key |
| NoteService.Nota.SetTipoClienteAndPrices | app/services/note_service.py:249-264 | the ticket becomes the re-pricing of the retyped ticket |
| Pricing.Highest | app/services/pricing_service.py:32-36 | the row of the key with the highest version (optionally active only); none exactly when the key has no such row |
| Pricing.NextVersion | app/services/pricing_service.py:38-40 | the new version is 1 when the key has no row, else last version + 1, and is above every stored version of the key |
| Pricing.DeactivateAll | app/services/pricing_service.py:43-46 | every active row of the key is closed at `now`; all other rows are unchanged; no row of the key stays active |
| Pricing.PriceTable.CloseActive | app/services/pricing_service.py:43-46 | the deactivation loop leaves the table as `DeactivateAll` and the log unchanged |
| Pricing.AfterCreate | app/services/pricing_service.py:43-59 | after creation the new row is the key's only active row, open from `now`, other keys' rows and lookups are unchanged, and the table invariant is kept |
| Pricing.CreatePreservesInvariant | app/services/pricing_service.py:32-59 | ids increasing in insertion order, versions unique per key and at most one active row per key survive a creation under any id the serial key assigns above the stored ones (gaps allowed) |
| Pricing.LookupAfterCreate | app/services/pricing_service.py:43-59 | after a creation the price lookup of the key returns the new row |
| Pricing.LookupOtherKeysAfterCreate | app/services/pricing_service.py:26-46 | the lookup of every other key is unchanged by a creation |
| Pricing.PriceTable.CreatePriceVersion | app/services/pricing_service.py:10-79 | the table becomes `AfterCreate`, with the new row under the id the database assigns, and the log gains one entry with the old price and version (none on first creation) and the new ones |
| NotesApi.SubErrors | app/api/notes.py:16-24 | a sub-weighing is refused exactly when its weight is not positive |
| NotesApi.MaterialErrors | app/api/notes.py:27-39 | gross > 0, discount ≥ 0, discount ≤ gross checked only when the gross passed, each sub-weighing > 0; no error iff all hold |
| NotesApi.ToPayload | app/api/notes.py:105 | the service payload keeps the material, weights and sub-weighings, with no class, no evidence URL and zero sub-weighing discount |
| NotesApi.ValidLineWeights | app/api/notes.py:27-39 | a validated line is stored with discount ≥ 0 and 0 ≤ net ≤ gross, and with sub-weighings a zero discount and a positive net |
| NotesApi.CreateNoteOutcome | app/api/notes.py:95-110 | an empty line list is refused; otherwise the ticket is the service's draft without partner, one line per request line, each with discount ≥ 0 and 0 ≤ net ≤ gross |
| NotesApi.CreateNote | app/api/notes.py:95-110 | the result is `CreateNoteSpec`: refused, a service error, or the created ticket |
| NotesApi.StateGuard | app/api/notes.py:151-172 | a change is accepted iff allowed; a cancelled ticket never changes; an approved ticket and the target APROBADA are always refused; EN_REVISION goes through `send_to_revision` |
| NotesApi.UpdateNoteStateOutcome | app/api/notes.py:142-182 | the ticket changes exactly on the allowed transitions, as `send_to_revision` or `update_state`, and is never approved here |
| NotesApi.UpdateNoteState | app/api/notes.py:142-182 | a refused request leaves the ticket unchanged; an accepted one applies the service |
| NotesApi.PartnerCheck | app/api/notes.py:199-202 | a purchase needs a supplier and a sale a customer, none and 0 both counting as missing |
| NotesApi.UpdateNotePartnerOutcome | app/api/notes.py:190-210 | an accepted update leaves a real partner of the right kind and none of the other |
| NotesApi.UpdateNotePartner | app/api/notes.py:190-210 | a refused request leaves the ticket unchanged; an accepted one attaches the partner |
| WorkerForm.Zip | app/web/worker.py:91 | the rows pair the five lists position by position, as many as the shortest list |
| WorkerForm.PesoField | app/web/worker.py:106 | the first true value of `peso_kg`, `peso_neto`, else 0 |
| WorkerForm.KeptSubsMeaning | app/web/worker.py:105-116 | for any input, each record contributes its sub-weighing exactly when its weight is positive, in its own place between what the records before and after it keep; every kept weight is positive |
| WorkerForm.KeptSubsAppend | app/web/worker.py:105-116 | the kept sub-weighings of a concatenation are the concatenation of the kept sub-weighings |
| WorkerForm.CollectSubs | app/web/worker.py:105-116 | the loop raises when any element raises, otherwise returns the kept sub-weighings |
| WorkerForm.SubTotalsNet | app/web/worker.py:117-118 | gross − discount of the kept sub-weighings is the sum of their weights |
| WorkerForm.TextOrNone | app/web/worker.py:128 | an empty customer class becomes none, any other text is kept |
| WorkerForm.ParseRowOutcome | app/web/worker.py:91-130 | when a row is skipped, fails uncaught, is refused (bad JSON, discount above gross, bad id), or becomes a line, each as an if-and-only-if; a line holds exactly the kept sub-weighings |
| WorkerForm.EmptySubsGiveZeroLine | app/web/worker.py:96-118 | sub-weighing text with no positive weight still gives a line, with zero weights |
| WorkerForm.ParseOneRow | app/web/worker.py:92-130 | the loop body computes `ParseRow` |
| WorkerForm.ParseFormFailure | app/web/worker.py:90-131 | the form fails iff some row fails, with the error of the first failing row |
| WorkerForm.FormAnswer | app/web/worker.py:170-173 | the handler answers with the form (400) unless the first failing row raised an exception that is not a `ValueError` |
| WorkerForm.ParseFormOrder | app/web/worker.py:122-131 | the lines come from increasing row positions, so order is kept and there are no more lines than rows |
| WorkerForm.ParseFormFailurePersists | app/web/worker.py:90-131 | once a prefix fails, the whole form fails with the same error |
| WorkerForm.ParseMaterialsFromForm | app/web/worker.py:83-131 | the loop computes `ParseForm` of the zipped rows |
| WorkerForm.FormLineDraftAgrees | app/web/worker.py:117-127 | the service stores a parsed line with the weights the form computed |
| AccountingReport.SafeDecimal | app/services/contabilidad_report_service.py:23-27 | a number reads as itself; none or unconvertible input reads as 0 |
| AccountingReport.XmlEscapeIsPerChar | app/services/contabilidad_report_service.py:38-44 | because & is replaced first, the replacement chain escapes each character on its own (no double escaping) |
| AccountingReport.XmlEscapeNoSpecials | app/services/contabilidad_report_service.py:38-44 | the output holds no raw <, > or " |
| AccountingReport.XmlEscapeRoundTrip | app/services/contabilidad_report_service.py:38-44 | decoding the four entities gives back the input |
| AccountingReport.SafeFilename | app/services/contabilidad_report_service.py:47-49 | a non-empty name of [a-zA-Z0-9_-] without a leading or trailing dash, keeping the input's word characters, or "reporte" |
| AccountingReport.Classify | app/services/contabilidad_report_service.py:110-123 | on the lower-cased kind: venta and compra go to their totals, pago and reverso_pago to purchase payments iff the linked ticket is a purchase and to sales payments otherwise, ajuste and reverso to their own, anything else nowhere |
| AccountingReport.TotalsByBucket | app/services/contabilidad_report_service.py:110-123 | each of the six totals is the sum of the amounts of the movements classified into it |
| AccountingReport.MovementLabel | app/services/contabilidad_report_service.py:103-108 | the kind label: "pago <operation>" for a payment on a ticket, "reverso pago", else (including a payment without a ticket) the kind itself, or "-" when empty |
| AccountingReport.AggregateMovements | app/services/contabilidad_report_service.py:101-146 | the loop computes the six totals and one row per movement (upper-cased label and safe amount) |
| AccountingReport.ApprovedNotes | app/services/contabilidad_report_service.py:148 | a ticket is kept iff it is approved (membership in both directions) |
| AccountingReport.ApprovedNotesCount | app/services/contabilidad_report_service.py:148 | each approved ticket is kept as many times as the query returns it; no other ticket is kept |
| AccountingReport.ApprovedNotesAppend | app/services/contabilidad_report_service.py:148 | the filter of a concatenation is the concatenation of the filters |
| AccountingReport.ApprovedNotesOrder | app/services/contabilidad_report_service.py:148 | the query order is kept: each ticket sits between what the tickets before and after it contribute, and only when approved |
| AccountingReport.PendingRowsMeaning | app/services/contabilidad_report_service.py:185-215 | a ticket is listed iff total − paid > 0, and each row carries that balance |
| AccountingReport.OutstandingIsSumOfSaldos | app/services/contabilidad_report_service.py:185-196 | invoiced − paid per operation is the sum of that operation's balances |
| AccountingReport.AggregateNotes | app/services/contabilidad_report_service.py:185-215 | the loop computes invoiced and paid by operation and the pending rows |
| AccountingReport.ReportSummaryOutcome | app/services/contabilidad_report_service.py:217-238 | ticket count = number of approved tickets; cash in = sales payments, cash out = purchase payments, net balance = in − out, pending per operation = invoiced − paid |
| AccountingReport.PendingOnlyApproved | app/services/contabilidad_report_service.py:148-215 | only approved tickets with a positive balance are pending, and every such ticket is |
| AccountingReport.BuildReportData | app/services/contabilidad_report_service.py:93-239 | the report's summary, movement rows and pending rows are the specified ones |
| TextUtil.StripIsSlice | app/services/note_service.py:112 | `strip()` keeps one slice of the text and removes only whitespace at both ends |
| TextUtil.BlankToNone | app/services/note_service.py:192 | a stored comment is the stripped text, and none exactly when the comment is absent or blank |
| TextUtil.EmptyToNone | app/services/note_service.py:165 | `x or None`: empty text becomes none, other text is kept |
| TextUtil.NatToStringRoundTrip | app/services/evidence_service.py:26 | `str(n)` is lossless: reading the digits back gives n |
| TextUtil.CollapseRunsKeepsWords | app/services/contabilidad_report_service.py:48 | the run substitution keeps every word character in order |
| TextUtil.Slugify | app/services/contabilidad_report_service.py:47-49 | the result is a clean slug with the input's word characters, or the fallback |
| TextUtil.SlugifyIdempotent | app/services/invoice_service.py:107-109 | slugging a slug changes nothing |
| TextUtil.SlugifyClean | app/services/invoice_service.py:107-109 | a clean slug is its own file name |
| TextUtil.Trunc | app/services/contabilidad_report_service.py:385 | `int()` of a float truncates toward zero |
| TextUtil.TruncateText | app/services/contabilidad_report_service.py:381-386 | a text that fits is unchanged; otherwise max(1, int(w / (size·0.5)) − 3) characters plus "...", which fits when at least four characters fit |
| TextUtil.EscapePdfIsPerChar | app/services/invoice_service.py:28-29 | because the backslash is replaced first, each character is escaped on its own |
| TextUtil.EscapePdfRoundTrip | app/services/invoice_service.py:28-29 | decoding the escapes gives back the input |
| Invoice.SafeFilename | app/services/invoice_service.py:107-109 | a clean slug keeping the input's word characters, or "factura" |
| Invoice.FolioLabel | app/services/invoice_service.py:136 | the folio when set and non-empty, else "nota-<id>" |
| Invoice.InvoiceFilenameShape | app/services/invoice_service.py:271 | the file name is "factura_" + a clean slug of the label + ".pdf" |
| Invoice.NoFolioFilename | app/services/invoice_service.py:136 | a ticket without a folio gets "factura_nota-<id>.pdf" |
| Invoice.ListedInOrder | app/services/invoice_service.py:204 | each line is listed once, ordered by (orden or 0, id or 0) |
| Invoice.MaterialLabel | app/services/invoice_service.py:206 | the catalogue name, else `str(material_id or "")` |
| Invoice.RowFits | app/services/invoice_service.py:206-207 | the material column fits its 180 points (at most 40 characters) and a short name is shown whole |
| Invoice.PricedLineSubtotal | app/services/invoice_service.py:212-219 | for a line priced by `apply_prices` the shown subtotal is its unit price × net, whether or not a subtotal is stored, and 0 when it has no price |
| Invoice.LineRows | app/services/invoice_service.py:204-235 | one row per line, in sort order |
| Invoice.SaldoAgreesWithReport | app/services/invoice_service.py:248-251 | the invoice balance equals the report's; a ticket is pending in the report iff it is approved and its invoice balance is positive |
| Evidence.SubEntryOf | app/services/evidence_service.py:30-43 | an entry's net is max(peso − descuento, 0), with the readings, order and photo carried over |
| Evidence.BuildSubEntries | app/services/evidence_service.py:29-43 | one entry per sub-weighing, in stored order, numbered from 1 |
| Evidence.GroupOf | app/services/evidence_service.py:25-52 | the group's order is its `orden` when set, else its 1-based position; name and unit fall back to "Material <id>" and "kg" |
| Evidence.BuildEvidenceGroups | app/services/evidence_service.py:16-53 | the loop computes one group per sorted line |
| Evidence.EvidenceOrder | app/services/evidence_service.py:21-24 | the groups follow a rearrangement of the lines: lines with an `orden` first, by `orden` then id, then the rest by id |
| Evidence.PositionsWithoutOrden | app/services/evidence_service.py:49 | without any `orden` the groups are numbered 1..n |
| Evidence.NetsNonNegative | app/services/evidence_service.py:39 | every shown net is ≥ 0 |
| Sorting.SortByCorrect | app/services/evidence_service.py:21-24 | `sorted` returns the elements of its input in key order |
| Sorting.SortBySortedInput | app/services/evidence_service.py:21-24 | input already in key order comes back unchanged |
| FolioBackfill.CountersMeaning | migrations/versions/a3c9d1e7f2b0_add_folio_seq_to_notas.py:32-44 | a counter exists exactly for each key seen, and holds how many of its rows were visited |
| FolioBackfill.BackfillFolios | migrations/versions/a3c9d1e7f2b0_add_folio_seq_to_notas.py:24-48 | one update per row in query order, each with its key's counter after the increment |
| FolioBackfill.SeqIncreasingWithinKey | migrations/versions/a3c9d1e7f2b0_add_folio_seq_to_notas.py:32-48 | within a key the numbers rise strictly with the visiting order, between 1 and the key's count |
| FolioBackfill.SeqCoversKey | migrations/versions/a3c9d1e7f2b0_add_folio_seq_to_notas.py:32-48 | every number from 1 to the key's count is given to some row of that key |
| FolioBackfill.VisitedByIdWithinKey | migrations/versions/a3c9d1e7f2b0_add_folio_seq_to_notas.py:25-31 | rows are visited by (branch, operation, id), so by id within each key |
| Account.Mask | app/models/account.py:39-41 | "****" followed by the last four characters, or the whole number when shorter |
| Account.NonEmpty | app/models/account.py:42 | every kept part is non-empty and there are at most as many as in the input |
| Account.NonEmptyMeaning | app/models/account.py:42 | a part is kept iff it occurs in the input and is not empty |
| Account.NonEmptyAppend | app/models/account.py:42 | the parts kept from a concatenation are those kept from each half, in order, so the input order is kept |
| Account.DisplayLabelCases | app/models/account.py:34-42 | the label is the name, then the bank when set, then the masked number when set, joined by a vertical-bar separator |
| Account.LabelStartsWithNombre | app/models/account.py:36 | the label starts with the name, and is just the name without bank and number |
| Account.LabelEndsWithMask | app/models/account.py:39-42 | with a number the label ends with its masked form |

## Left out

- Valuation.RecalcTotalsSpec: weights and amounts are exact reals. The stored columns are `Numeric(12,3)` and `Numeric(12,2)` (app/models/note.py:51-55, 90-95), and the database rounds each column on its own at commit. So the stored total amount need not equal the sum of the stored subtotals. For example, two lines of 1.001 kg at 25.50 store subtotals of 25.53 each (51.06 together) and a total of 51.05. The model's totals are the in-memory values before commit.
- Valuation.PriceLine: the subtotal is price × net, unrounded. The stored subtotal is rounded to two places at commit.
- NoteService.Nota, NoteService.CreateDraftNote, NoteService.Nota.UpdateState, NoteService.Nota.SendToRevision, NoteService.Nota.SetTipoClienteAndPrices: the ensures describe the objects before `db.commit()`/`db.refresh()`. They do not capture the per-column rounding the reload brings, or the ORM calls.
- NotesApi.CreateNote: request weights are `float` (app/api/notes.py:17, 29-30) and are passed to `Decimal(str(...))`. The model reads them as exact reals and does not capture binary-float rounding.
- Evidence.SubEntryOf, Evidence.BuildEvidenceGroups: `_as_float` and `max(peso - desc, 0.0)` use float arithmetic (app/services/evidence_service.py:9-13, 39). The model uses exact reals.
- Invoice.RowOf, Invoice.Saldo: the invoice shows every weight, price, subtotal and balance through `_format_decimal(value, 2)` (app/services/invoice_service.py:21, 208-252); the model keeps these values as unrounded reals and does not model the two-decimal text.
- AccountingReport.MovementRowOf: `ToUpper` maps ASCII letters only, while Python's `str.upper()` is Unicode. An unclassified kind "devolución" is shown as "DEVOLUCIÓN" by the source and as "DEVOLUCIóN" here, and "ß" becomes "SS" there.
- AccountingReport.Kind: `ToLower` maps ASCII letters only, while Python's `str.lower()` is Unicode. Classification is not affected, because the only non-ASCII character that lower-cases to an ASCII letter (the Kelvin sign, to "k") does not occur in the six keywords.
- WorkerForm.ParseRow: JSON string values inside the sub-weighings are modelled by their decimal value. So a text "0", which is true in Python and stops the `or`, is read like the number 0. Decimal's special values ("NaN", "Infinity") are not modelled; a field is a finite decimal, missing, or refused. The JSON text itself is taken as already decoded.
- TextUtil.TruncateText: requires a positive font size. The source divides by `size * 0.5`, and every caller passes a positive constant.
- Sorting.SortBy: the insertion sort is proved ordered and a permutation, not stable. The keys of `Evidence` and `FolioBackfill` end with the unique database id, so there are no ties and any correct sort gives Python's result. In `Invoice`, ties happen only between lines with equal `orden or 0` and no id.
- Database queries:
  - the material lookup is a set of existing ids;
  - the price query is `Pricing.ActivePrice` over the stored rows;
  - the report's filters by branch and date (`strptime`) are not modelled: the selected movements and approved tickets are inputs;
  - the linked ticket of a movement is its operation field.
- The 404 answers for a missing ticket id, HTTP routing, templates, sessions and authentication are adapters around the modelled operations.
- `note_service.format_folio` is not part of this model. The invoice takes the formatted folio as a parameter, and the report's folio, partner, branch, date, method, account and comment columns are not modelled.
- PDF and XLS layout and byte rendering, and the Firebase upload, are I/O.
- `updated_at = datetime.utcnow()` and `vigente_desde`/`vigente_hasta` are the `now` parameter.
