# Fabric-lot stock and movement ledger, modelled in Dafny

This project models the core of a textile warehouse back end. A **tela** is
a fabric lot with two stock figures: `pesoIngresado`, the received weight,
and `stockReal`, the real stock. Three kinds of operation touch these figures:

* general **movements**: ENTRADA, SALIDA and TRASLADO, and their annulment;
* **issuances to cutting** (*salida de corte*): the reversal of an issuance
  and the recording of the quantity actually consumed;
* **warehouse relations** (*almacén–tela*): assigning a lot to a warehouse
  with a weight, updating that weight, and transferring weight between warehouses.

Beside these state changes, the model covers the pure parts of the core:

* the searches and filters over lots, movements and issuances;
* sorting and the paged results;
* the statistics grouped by a lot field;
* the report dispatch;
* the spreadsheet import. It validates and maps the rows, counts the rejected
  rows, defaults the warehouse name and creates the relations.

Layout, one module per file:

| file | module | what it holds |
|---|---|---|
| `common.dfy` | `Common` | Option/Result, the error kinds, filter, sum, count, first match, single-result finder |
| `text.dfy` | `Text` | `toLowerCase`, `contains`, `trim().isEmpty()`, `compareToIgnoreCase`, `equalsIgnoreCase`, number formatting, `String.join` |
| `sorting.dfy` | `Sorting` | the stable sort `Flux.sort` performs, and its sortedness |
| `paginacion.dfy` | `Paginacion` | Java `int` wrap-around, `skip`/`take`, page slices, `getTotalPaginas` |
| `tela.dfy` | `TelaEntity` | the lot row and the `Tela` class with `aumentarStock` / `disminuirStock` |
| `entities.dfy` | `Entities` | movement, issuance, warehouse and warehouse-relation records |
| `store.dfy` | `Store` | the tables (`DbState`) and the mutable `Database` object |
| `movimiento_tela_service.dfy` | `MovimientoTelaService` | registering and annulling movements, the paged search, statistics |
| `salida_corte_service.dfy` | `SalidaCorteService` | issuing, reversing, recording consumption, the paged search |
| `almacen_tela_service.dfy` | `AlmacenTelaService` | assigning, updating weight, transferring, the warehouse search |
| `tela_service.dfy` | `TelaService` | the lot searches and filters, and the grouped statistics |
| `reporte_service.dfy` | `ReporteService` | the report filter and the format dispatch |
| `tela_importacion_service.dfy` | `TelaImportacionService` | the spreadsheet import |

The repositories are modelled as sequences of rows in `Store.DbState`, and a
row's id is its index. Each state-changing service operation has two parts:

* a pure function `Op(st, …)`, which returns the new tables and the result;
* a method `Op…(db: Database, …)` with `modifies db`. The method changes the
  `Database` object field by field, the way the service loads an entity,
  mutates it and saves it. It is proved to reach exactly the state and the
  result of the function.

The lemmas state the service's promises about the spec functions, such as
"register then annul restores the lot" and "a transfer conserves the weight".

Quantities are `int`. `BigDecimal` amounts and the `Double` warehouse
weights are read as exact integers in a fixed unit. Dates and timestamps are
`int`. The current time (`LocalDateTime.now()`) is a parameter.

Some behaviours of the code are easy to miss; the model follows the code:

* Registering an issuance always records the movement as `SALIDA`, and its
  reversal is recorded as `ANULACION`.
* A spreadsheet row without a stock cell imports with zero stock. It does not
  fall back to the weight, because the cell reader returns `ZERO`, never null.
  See `TelaImportacionService.StockAusenteEsCero`.
* A transfer whose origin and destination are the same warehouse ends with
  the old weight plus the amount, because the second save overwrites the
  first. See `AlmacenTelaService.TransferirMismoAlmacen`.
* Relations created by the import have no weight, so a transfer out of one
  of them fails with a null dereference. See `AlmacenTelaService.TransferirSinPeso`.
* The lot filter of `TelaService` is case-sensitive, while the report filter
  is case-insensitive. See `TelaService.AplicarFiltrosCaseSensitive` and
  `ReporteService.ReporteIgnoraMayusculas`.

## Model

| member | source | states |
|---|---|---|
| TelaEntity.Aumentar | src/main/java/api_backend_tht/model/entity/Tela.java:42-45 | both stock figures grow by the amount, their difference is kept, and every other field is unchanged |
| TelaEntity.Disminuir | src/main/java/api_backend_tht/model/entity/Tela.java:47-50 | both stock figures shrink by the amount, their difference is kept, and every other field is unchanged |
| TelaEntity.AumentarDisminuirInverse | src/main/java/api_backend_tht/model/entity/Tela.java:42-50 | increasing then decreasing by the same amount, in either order, gives back the same lot |
| TelaEntity.DisminuirUnguarded | src/main/java/api_backend_tht/model/entity/Tela.java:47-50 | the entity method has no guard: decreasing by more than the stock leaves a negative stock |
| TelaEntity.Tela.AumentarStock | src/main/java/api_backend_tht/model/entity/Tela.java:42-45 | the object's two stock fields grow by the amount, and its row is the increased row |
| TelaEntity.Tela.DisminuirStock | src/main/java/api_backend_tht/model/entity/Tela.java:47-50 | the object's two stock fields shrink by the amount, and its row is the decreased row |
| TelaEntity.Tela.SetStockReal | src/main/java/api_backend_tht/service/MovimientoTelaService.java:157 | the setter changes the stock field and nothing else of the row |
| TelaEntity.Tela.SetPesoIngresado | src/main/java/api_backend_tht/service/MovimientoTelaService.java:158 | the setter changes the weight field and nothing else of the row |
| Paginacion.WrapInt | src/main/java/api_backend_tht/service/MovimientoTelaService.java:280-281 | `page * size` as a Java `int`: in range, equal to the true value when that fits, and congruent to it modulo 2^32 |
| Paginacion.SkipTake | src/main/java/api_backend_tht/service/AlmacenTelaService.java:270-273 | a negative skip or take count is IllegalArgumentException; otherwise the result is the elements from index n, at most m of them |
| Paginacion.PaginaSlice | src/main/java/api_backend_tht/service/AlmacenTelaService.java:272-273 | for page ≥ 0, size > 0 and no overflow, the page is the slice from `page*size`, at most `size` long, and empty past the end |
| Paginacion.TotalPaginas | src/main/java/api_backend_tht/model/dto/PaginacionResultado.java:20-23 | zero pages exactly for zero rows; otherwise the least page count whose pages hold every row |
| Paginacion.PageStartIff | src/main/java/api_backend_tht/model/dto/PaginacionResultado.java:20-23 | a page starts inside the rows exactly when its number is below the page count |
| Paginacion.PaginaNonEmptyIff | src/main/java/api_backend_tht/model/dto/PaginacionResultado.java:20-23 | a page is non-empty exactly when its number is below `getTotalPaginas` |
| Sorting.Insert | src/main/java/api_backend_tht/service/AlmacenTelaService.java:270-271 | one insertion step of the stable sort: one element longer, same elements plus the new one |
| Sorting.Sort | src/main/java/api_backend_tht/service/AlmacenTelaService.java:270-271 | `Flux.sort` returns a permutation of its input |
| Sorting.InsertSorted | src/main/java/api_backend_tht/service/AlmacenTelaService.java:270-271 | for an antisymmetric comparator, inserting into a sorted sequence keeps it sorted |
| Sorting.SortSorted | src/main/java/api_backend_tht/service/AlmacenTelaService.java:270-271 | for an antisymmetric comparator, `Flux.sort`'s output is in comparator order |
| Text.LowerChar | src/main/java/api_backend_tht/service/TelaService.java:176-178 | `toLowerCase` on one character maps upper case to lower case and leaves every other character alone |
| Text.Lower | src/main/java/api_backend_tht/service/TelaService.java:176-178 | `toLowerCase` keeps the length and lowers each character in place |
| Text.LowerIdempotent | src/main/java/api_backend_tht/service/TelaService.java:176-178 | lowering twice is lowering once |
| Text.ContainsEmpty | src/main/java/api_backend_tht/service/TelaService.java:176-178 | every string contains the empty string |
| Text.ContainsSlice | src/main/java/api_backend_tht/service/TelaService.java:176-178 | every substring is contained |
| Text.ContainsLower | src/main/java/api_backend_tht/service/ReporteService.java:404-406 | a contained substring stays contained after both sides are lowered, so a case-sensitive match is also a case-insensitive one |
| Text.TrimStart | src/main/java/api_backend_tht/service/TelaImportacionService.java:289-295 | the leading-whitespace cut leaves a suffix that does not start with whitespace |
| Text.TrimEnd | src/main/java/api_backend_tht/service/TelaImportacionService.java:289-295 | the trailing-whitespace cut leaves a prefix |
| Text.TrimStartEmpty | src/main/java/api_backend_tht/service/TelaImportacionService.java:289-295 | the leading cut is empty exactly when every character is whitespace |
| Text.TrimEndEmptyAll | src/main/java/api_backend_tht/service/TelaImportacionService.java:289-295 | an empty trailing cut means every character is whitespace |
| Text.BlankIff | src/main/java/api_backend_tht/service/TelaImportacionService.java:289-295 | `trim().isEmpty()` holds exactly when every character is at most U+0020 |
| Text.CompareCharsAntisymmetric | src/main/java/api_backend_tht/service/AlmacenTelaService.java:317 | the character-wise string comparison is antisymmetric |
| Text.CompareCharsZero | src/main/java/api_backend_tht/service/AlmacenTelaService.java:317 | the character-wise comparison is zero exactly for equal strings |
| Text.CompareIgnoreCaseProperties | src/main/java/api_backend_tht/service/AlmacenTelaService.java:317 | `compareToIgnoreCase` is antisymmetric, and zero exactly when the strings are equal after the upper-then-lower character fold; strings equal after `toLowerCase` always compare equal |
| Text.MicroSignFolds | src/main/java/api_backend_tht/service/AlmacenTelaService.java:317 | the micro sign and the Greek small mu compare equal although their lower-cased forms differ, and the micro sign sorts after `ÿ` |
| Text.FoldCoarserThanLower | src/main/java/api_backend_tht/service/AlmacenTelaService.java:317 | strings equal after `toLowerCase` are equal after the fold `compareToIgnoreCase` uses |
| Text.DigitChar | src/main/java/api_backend_tht/service/TelaImportacionService.java:161 | a digit below ten renders as a character '0'..'9' |
| Text.NatToString | src/main/java/api_backend_tht/service/TelaImportacionService.java:161 | a natural number renders as a non-empty run of digits with no leading zero |
| Text.IntToString | src/main/java/api_backend_tht/service/TelaImportacionService.java:161 | an integer renders non-empty, with a leading '-' exactly when it is negative |
| Text.NatToStringInjective | src/main/java/api_backend_tht/service/TelaImportacionService.java:161 | distinct natural numbers render differently |
| Text.NatToStringLength | src/main/java/api_backend_tht/service/TelaImportacionService.java:161 | a number has two or more digits exactly when it is at least ten |
| Text.IntToStringInjective | src/main/java/api_backend_tht/service/TelaImportacionService.java:161 | distinct integers render as distinct strings |
| Text.IntToStringSinDosPuntos | src/main/java/api_backend_tht/service/TelaImportacionService.java:161 | a rendered integer contains no colon, so the ": " after a row number marks where it ends |
| TelaImportacionService.MensajeFilaInjective | src/main/java/api_backend_tht/service/TelaImportacionService.java:161 | equal row-failure messages come from the same row number with the same cause |
| Text.Join | src/main/java/api_backend_tht/service/TelaImportacionService.java:310-311 | `String.join` of no parts is empty, and of one part is that part |
| Common.JavaString | src/main/java/api_backend_tht/service/SalidaCorteService.java:223 | string concatenation renders a null as "null" and any other string as itself |
| Common.Filter | src/main/java/api_backend_tht/service/TelaService.java:185-193 | `Flux.filter` keeps exactly the elements that pass, never more than the input, without duplicating any |
| Common.FilterMultiset | src/main/java/api_backend_tht/service/TelaService.java:185-193 | `Flux.filter` keeps every copy of each passing element and no copy of a failing one |
| Common.FilterConcat | src/main/java/api_backend_tht/service/TelaService.java:185-193 | filtering distributes over concatenation |
| Common.FilterAll | src/main/java/api_backend_tht/service/TelaService.java:185-193 | a filter every element passes returns the input unchanged |
| Common.FilterNone | src/main/java/api_backend_tht/service/AlmacenTelaService.java:236-237 | a filter no element passes returns nothing |
| Common.SumOfAppend | src/main/java/api_backend_tht/service/TelaService.java:346-362 | a sum over a sequence grows by the last element's term |
| Common.SumOfUpdate | src/main/java/api_backend_tht/service/AlmacenTelaService.java:130-131 | replacing one row changes a sum by the difference of that row's terms |
| Common.Count | src/main/java/api_backend_tht/service/MovimientoTelaService.java:316-322 | a count is the size of the matching subsequence |
| Common.FirstIndex | src/main/java/api_backend_tht/service/TelaService.java:336-339 | the index found holds the first element that satisfies the test, and nothing is found exactly when no element does |
| Common.SingleIndex | src/main/java/api_backend_tht/repository/AlmacenTelaRepository.java:12-16 | a single-result finder yields nothing exactly when no row matches, the only matching row when one does, and IncorrectResultSizeDataAccessException exactly when two or more rows match |
| MovimientoTelaService.Registrar | src/main/java/api_backend_tht/service/MovimientoTelaService.java:55-101 | unknown lot is NOT_FOUND; SALIDA/TRASLADO beyond either stock figure is BAD_REQUEST with nothing written; otherwise the lot moves by the type's delta (out, in, or none for other types), one COMPLETADO record with the request's fields is appended, and no other table changes |
| MovimientoTelaService.RegistrarMovimiento | src/main/java/api_backend_tht/service/MovimientoTelaService.java:55-101 | the method leaves the database in the state, and returns the result, of `Registrar` |
| MovimientoTelaService.AnularSpec | src/main/java/api_backend_tht/service/MovimientoTelaService.java:138-195 | unknown movement is NOT_FOUND and a movement not COMPLETADO is BAD_REQUEST; a missing lot completes with nothing written; otherwise the stock change is reversed (checking stock when reversing an entry), a COMPLETADO "ANULACION_" record dated now and carrying the original quantity is appended, and the original becomes ANULADO |
| MovimientoTelaService.AnularMovimiento | src/main/java/api_backend_tht/service/MovimientoTelaService.java:138-195 | the method leaves the database in the state, and returns the result, of `Anular` |
| MovimientoTelaService.RevertirEnBase | src/main/java/api_backend_tht/service/MovimientoTelaService.java:150-189 | once the COMPLETADO movement and its lot are loaded, the method leaves the database in the state, and returns the result, of `Revertir` |
| MovimientoTelaService.RegistrarAnularRestores | src/main/java/api_backend_tht/service/MovimientoTelaService.java:138-195 | registering a movement and then annulling it succeeds and leaves every lot exactly as before |
| MovimientoTelaService.AnularTwiceRejected | src/main/java/api_backend_tht/service/MovimientoTelaService.java:145-148 | a movement is annulled at most once; the second attempt is BAD_REQUEST |
| MovimientoTelaService.AnularAnulacionKeepsStock | src/main/java/api_backend_tht/service/MovimientoTelaService.java:153-177 | the compensating record can itself be annulled, and that leaves every lot untouched |
| MovimientoTelaService.CriterioDe | src/main/java/api_backend_tht/service/MovimientoTelaService.java:244-263 | the search uses the first criterion set, in the source's order; filtering by lot ignores every later criterion; with none set, it lists all |
| MovimientoTelaService.FechaDescAntisymmetric | src/main/java/api_backend_tht/service/MovimientoTelaService.java:261-262 | the newest-first comparator is antisymmetric |
| MovimientoTelaService.SortedFechaDescAll | src/main/java/api_backend_tht/service/MovimientoTelaService.java:261-262 | in a newest-first sorted ledger, a later position never holds a newer movement |
| MovimientoTelaService.Seleccion | src/main/java/api_backend_tht/service/MovimientoTelaService.java:244-263 | the searched movements are exactly those meeting the chosen criterion; with no criterion, all of them, newest first |
| MovimientoTelaService.SortFechaDesc | src/main/java/api_backend_tht/service/MovimientoTelaService.java:261-262 | sorting the ledger newest first yields a sorted permutation of it |
| MovimientoTelaService.SeleccionPorTelaIgnoresRest | src/main/java/api_backend_tht/service/MovimientoTelaService.java:244-245 | two filters with the same lot id select the same movements, whatever else they set |
| MovimientoTelaService.BuscarMovimientosPaginados | src/main/java/api_backend_tht/service/MovimientoTelaService.java:239-294 | IllegalArgumentException exactly when the wrapped `page*size` or `size` is negative; otherwise totalElements is the selection's size and every returned movement meets the criterion |
| MovimientoTelaService.BuscarMovimientosPage | src/main/java/api_backend_tht/service/MovimientoTelaService.java:276-281 | a valid page is the selection's slice from `page*size`, at most `size` long, non-empty exactly below the page count |
| MovimientoTelaService.ObtenerEstadisticasSpec | src/main/java/api_backend_tht/service/MovimientoTelaService.java:299-332 | totalMovimientos is the ledger size; ultimosMovimientos holds min(10, n) of its movements, newest first; the per-type map has exactly the types present, each mapped to its count, which is at least one |
| MovimientoTelaService.UltimosSpec | src/main/java/api_backend_tht/service/MovimientoTelaService.java:302-304 | the reported latest movements are min(10, n) of the ledger's movements, newest first |
| MovimientoTelaService.PorTipoSpec | src/main/java/api_backend_tht/service/MovimientoTelaService.java:316-322 | the per-type map has exactly the types present, each mapped to its count, which is at least one |
| MovimientoTelaService.SortedFechaDescPairs | src/main/java/api_backend_tht/service/MovimientoTelaService.java:303-304 | every pair of positions in a newest-first sorted ledger is in date order |
| MovimientoTelaService.CountTiposPositive | src/main/java/api_backend_tht/service/MovimientoTelaService.java:316-322 | every type present in the ledger has a count of at least one |
| MovimientoTelaService.UltimosAreMostRecent | src/main/java/api_backend_tht/service/MovimientoTelaService.java:302-304 | each of the ten reported movements is at least as recent as every movement left out |
| SalidaCorteService.Registrar | src/main/java/api_backend_tht/service/SalidaCorteService.java:66-125 | unknown lot is ResourceNotFound, and an issuance beyond either stock figure is InsufficientStock, with nothing written; otherwise the lot decreases by the issued quantity, a COMPLETADO issuance carrying every request field and registered and updated now is appended, and so is a SALIDA movement from ALMACEN, dated now, by the request's user, that refers to the issuance's id |
| SalidaCorteService.RegistrarSalidaCorte | src/main/java/api_backend_tht/service/SalidaCorteService.java:66-125 | the method leaves the database in the state, and returns the result, of `Registrar` |
| SalidaCorteService.Anular | src/main/java/api_backend_tht/service/SalidaCorteService.java:131-176 | unknown issuance is ResourceNotFound and one not COMPLETADO is InvalidOperation; a missing lot completes with nothing written; otherwise the issued quantity returns to the lot, the issuance becomes ANULADO, and an ANULACION movement of the issued quantity, dated now, is appended |
| SalidaCorteService.AnularSalidaCorte | src/main/java/api_backend_tht/service/SalidaCorteService.java:131-176 | the method leaves the database in the state, and returns the result, of `Anular` |
| SalidaCorteService.RegistrarConsumo | src/main/java/api_backend_tht/service/SalidaCorteService.java:181-240 | a non-positive consumption is InvalidOperation and an unknown issuance ResourceNotFound; consumption above the issued quantity, or on an issuance not COMPLETADO, is InvalidOperation; an exact consumption changes nothing; a lower one returns the surplus to the lot, lowers the issued quantity to the consumption and records a DEVOLUCION_SOBRANTE movement |
| SalidaCorteService.RegistrarConsumoReal | src/main/java/api_backend_tht/service/SalidaCorteService.java:181-240 | the method leaves the database in the state, and returns the result, of `RegistrarConsumo` |
| SalidaCorteService.CorreccionKeepsPendiente | src/main/java/api_backend_tht/service/SalidaCorteService.java:181-240 | a consumption correction keeps the lot equal to its pre-issue row less the quantity still issued |
| SalidaCorteService.CorreccionesKeepPendiente | src/main/java/api_backend_tht/service/SalidaCorteService.java:181-240 | this stays true through any sequence of corrections, whether each succeeds or is rejected |
| SalidaCorteService.IssueCorrectReverseRestoresStock | src/main/java/api_backend_tht/service/SalidaCorteService.java:131-176 | issuing, then any corrections, then reversing succeeds, leaves the issuance ANULADO and every lot exactly as before the issue |
| SalidaCorteService.AnuladaIsFinal | src/main/java/api_backend_tht/service/SalidaCorteService.java:138-141 | a reversed issuance can be neither reversed again nor corrected: both are InvalidOperation |
| SalidaCorteService.SortRegistroDesc | src/main/java/api_backend_tht/service/SalidaCorteService.java:274-275 | sorting issuances newest first yields a sorted permutation of them |
| SalidaCorteService.SeleccionSalidas | src/main/java/api_backend_tht/service/SalidaCorteService.java:267-276 | the searched issuances are exactly those meeting the first criterion set (OP, destination area, date range); with none set, a newest-first permutation of all of them |
| SalidaCorteService.BuscarSalidasPaginadas | src/main/java/api_backend_tht/service/SalidaCorteService.java:260-307 | IllegalArgumentException exactly when the wrapped `page*size` or `size` is negative; totalElements is the selection's size; a valid page is its slice from `page*size`, at most `size` long |
| SalidaCorteService.PaginaSliceIfInRange | src/main/java/api_backend_tht/service/SalidaCorteService.java:292-294 | a page with page ≥ 0, size > 0 and no overflow is the slice from `page*size`, at most `size` long |
| AlmacenTelaService.Buscar | src/main/java/api_backend_tht/service/AlmacenTelaService.java:82 | the relation finder yields nothing exactly when no row matches, the only matching row when one does, and IncorrectResultSize exactly when two rows match |
| AlmacenTelaService.AsignarRepetidoAmbiguo | src/main/java/api_backend_tht/service/AlmacenTelaService.java:35-55 | assigning a lot that already has an ACTIVO row in the warehouse leaves two, so the ACTIVO finder then fails with IncorrectResultSize |
| AlmacenTelaService.Asignar | src/main/java/api_backend_tht/service/AlmacenTelaService.java:35-56 | a null or non-positive weight is IllegalArgumentException; an unknown warehouse or lot is NOT_FOUND; otherwise exactly one ACTIVO relation with that weight and time is appended and nothing else changes |
| AlmacenTelaService.AsignarTelaAAlmacen | src/main/java/api_backend_tht/service/AlmacenTelaService.java:35-56 | the method leaves the database in the state, and returns the result, of `Asignar` |
| AlmacenTelaService.ActualizarPeso | src/main/java/api_backend_tht/service/AlmacenTelaService.java:77-89 | a null or negative weight is IllegalArgumentException; no relation for the pair is NOT_FOUND and several are IncorrectResultSize; otherwise only that relation's weight becomes the new weight |
| AlmacenTelaService.ActualizarPesoEnAlmacen | src/main/java/api_backend_tht/service/AlmacenTelaService.java:77-89 | the method leaves the database in the state, and returns the result, of `ActualizarPeso` |
| AlmacenTelaService.Descontar | src/main/java/api_backend_tht/service/AlmacenTelaService.java:110-115 | the origin's weight drops by the amount and it becomes CONSUMIDO exactly when nothing is left; its other fields are unchanged |
| AlmacenTelaService.TransferirSpec | src/main/java/api_backend_tht/service/AlmacenTelaService.java:94-135 | a non-positive amount is IllegalArgumentException; no ACTIVO origin is NOT_FOUND; several ACTIVO origins, or several ACTIVO destinations, are IncorrectResultSize; a null origin weight is a null dereference; too little weight is BAD_REQUEST; every error writes nothing; the transfer succeeds exactly when none of these applies, and then only the relation table changes (the rows themselves are stated by TransferirFilas and TransferirMismoAlmacen) |
| AlmacenTelaService.TransferirTela | src/main/java/api_backend_tht/service/AlmacenTelaService.java:94-135 | the method leaves the database in the state, and returns the result, of `Transferir` |
| AlmacenTelaService.MoverEnAlmacen | src/main/java/api_backend_tht/service/AlmacenTelaService.java:109-131 | the decremented source row is saved first and the destination row, read before that save, second; the database ends in the state `Mover` describes |
| AlmacenTelaService.PesoReemplazo | src/main/java/api_backend_tht/service/AlmacenTelaService.java:109-131 | rewriting one row of a lot changes the lot's total weight by the difference of the two weights |
| AlmacenTelaService.MoverConservaPeso | src/main/java/api_backend_tht/service/AlmacenTelaService.java:109-131 | when the destination row is not the source row, the two saves keep the lot's total weight |
| AlmacenTelaService.MoverMismaFila | src/main/java/api_backend_tht/service/AlmacenTelaService.java:117-131 | when the destination lookup finds the source row, the second save leaves it at its stored weight plus the amount |
| AlmacenTelaService.TransferirConservaPeso | src/main/java/api_backend_tht/service/AlmacenTelaService.java:94-135 | between two different warehouses, a transfer keeps the lot's total weight over all its relations |
| AlmacenTelaService.TransferirFilas | src/main/java/api_backend_tht/service/AlmacenTelaService.java:109-131 | between two different warehouses, the origin row loses the amount (CONSUMIDO exactly when nothing is left) and the ACTIVO destination row gains it, or a new ACTIVO row holding it is appended; every other row and every other field is unchanged |
| AlmacenTelaService.TransferirMismoAlmacen | src/main/java/api_backend_tht/service/AlmacenTelaService.java:117-131 | a transfer within one warehouse leaves the row at its old weight plus the amount, since the second save overwrites the first, so the total grows by the amount |
| AlmacenTelaService.TransferirSinPeso | src/main/java/api_backend_tht/service/AlmacenTelaService.java:104 | a transfer out of a relation without a weight fails with a null dereference and writes nothing |
| AlmacenTelaService.ItemsDelAlmacen | src/main/java/api_backend_tht/service/AlmacenTelaService.java:186-195 | the results are exactly the warehouse's ACTIVO relations whose lot exists, each paired with that lot |
| AlmacenTelaService.AplicarFiltro | src/main/java/api_backend_tht/service/AlmacenTelaService.java:200-256 | a null or blank term keeps every item; a null field with items to test is a null dereference; "todos" matches the term, lowered, in any of numGuia/partida/proveedor/cliente; any other field matches in that field |
| AlmacenTelaService.CampoDesconocidoNoCoincide | src/main/java/api_backend_tht/service/AlmacenTelaService.java:236-237 | a field name the switch does not know matches nothing |
| AlmacenTelaService.CompareNullableStrings | src/main/java/api_backend_tht/service/AlmacenTelaService.java:313-318 | null sorts first, two nulls are equal, and two strings compare by `compareToIgnoreCase` (zero exactly when they are equal after the case fold) |
| AlmacenTelaService.CompareNullableStringsAntisymmetric | src/main/java/api_backend_tht/service/AlmacenTelaService.java:313-318 | swapping the arguments negates the result |
| AlmacenTelaService.CompareNullableDates | src/main/java/api_backend_tht/service/AlmacenTelaService.java:323-328 | null sorts first, and dates compare in date order with zero exactly when equal |
| AlmacenTelaService.Comparar | src/main/java/api_backend_tht/service/AlmacenTelaService.java:279-308 | the named field picks the comparison, with fechaIngreso as the default; the result is negated exactly when the direction is "desc" |
| AlmacenTelaService.ComparadorAntisymmetric | src/main/java/api_backend_tht/service/AlmacenTelaService.java:279-308 | the comparator is antisymmetric for every field and direction, so the sort result is well defined |
| AlmacenTelaService.Ordenar | src/main/java/api_backend_tht/service/AlmacenTelaService.java:268-271 | a null sort field is a null dereference exactly when the sort compares something (two items or more); otherwise the result is the stable sort under the comparator, a permutation of the items |
| AlmacenTelaService.BuscarTelasEnAlmacen | src/main/java/api_backend_tht/service/AlmacenTelaService.java:143-181 | a negative page, a non-positive size or a negative wrapped `page*size` is IllegalArgumentException; on success total is the number of filtered items, and the page holds at most `size` of them, in comparator order |
| AlmacenTelaService.BuscarTelasEnAlmacenSpec | src/main/java/api_backend_tht/service/AlmacenTelaService.java:143-181 | the search fails exactly when a paging argument is rejected, the filter throws or the sort throws, the paging check coming first because `skip` rejects its count when the pipeline is built; on success the page is the run of the sorted filtered lots from the int offset `page*size`, at most `size` long, empty past the end |
| AlmacenTelaService.PaginaOrdenada | src/main/java/api_backend_tht/service/AlmacenTelaService.java:270-273 | a page of a sorted sequence is at most `size` long and sorted |
| AlmacenTelaService.PaginaDeOrdenada | src/main/java/api_backend_tht/service/AlmacenTelaService.java:270-273 | any page of a sorted sequence is sorted by the same comparator |
| AlmacenTelaService.BuscarTelasEnAlmacenPagina | src/main/java/api_backend_tht/service/AlmacenTelaService.java:166-180 | without overflow, the page is non-empty exactly when its number is below `getTotalPaginas` of the total |
| TelaService.ContieneCadenaNull | src/main/java/api_backend_tht/service/TelaService.java:176-178 | a null field never matches, and any present field matches the empty term |
| TelaService.Campos | src/main/java/api_backend_tht/service/TelaService.java:153-166 | the twelve text fields the "todos" search looks in |
| TelaService.CampoTexto | src/main/java/api_backend_tht/service/TelaService.java:128-152 | a field name is known exactly when it is one of the twelve, and then selects that field |
| TelaService.FiltrarPorTerminoYCampo | src/main/java/api_backend_tht/service/TelaService.java:123-167 | the empty term matches every lot |
| TelaService.FiltrarPorTerminoYCampoSpec | src/main/java/api_backend_tht/service/TelaService.java:123-167 | for a non-empty term, a known field matches exactly when that field contains the term; any other field name (including "todos") matches when some text field contains it |
| TelaService.BuscarPorTermino | src/main/java/api_backend_tht/service/TelaService.java:107-113 | the result is the lots matching the lowered term in the field (default "todos"); a null or empty term returns every lot |
| TelaService.Criterios | src/main/java/api_backend_tht/service/TelaService.java:204-249 | the nine text criteria paired with the lot's fields |
| TelaService.CumpleFiltroUnfold | src/main/java/api_backend_tht/service/TelaService.java:197-261 | a lot passes a filter exactly when, for every set non-empty criterion, its field is present and contains the criterion as written, and its entry date, when present, lies in the inclusive bounds |
| TelaService.AplicarFiltros | src/main/java/api_backend_tht/service/TelaService.java:197-261 | a null filter passes every lot; otherwise the sequence of checks passes exactly the lots that meet every criterion |
| TelaService.AplicarFiltrosCaseSensitive | src/main/java/api_backend_tht/service/TelaService.java:204-206 | the lot filter is case-sensitive: "A" does not match "a" |
| TelaService.BuscarPorFiltros | src/main/java/api_backend_tht/service/TelaService.java:185-193 | the result is exactly the lots that pass the filter; a null filter returns all of them |
| TelaService.CampoGrupoDe | src/main/java/api_backend_tht/service/TelaService.java:287-313 | a grouping field is accepted exactly when its lowered name is one of the six cases, and then names that field |
| TelaService.DeClave | src/main/java/api_backend_tht/service/TelaService.java:336-339 | the lots of one group are exactly those whose key (null read as "No especificado") is that key |
| TelaService.DeClaveAppend | src/main/java/api_backend_tht/service/TelaService.java:336-339 | adding a lot extends only its own key's group |
| TelaService.DeClaveEmpty | src/main/java/api_backend_tht/service/TelaService.java:336-339 | a key no lot has has an empty group |
| TelaService.Agregar | src/main/java/api_backend_tht/service/TelaService.java:336-339 | adding a lot to the grouping adds at most one group |
| TelaService.ExistenteDistintas | src/main/java/api_backend_tht/service/TelaService.java:336-339 | extending an existing group keeps the keys distinct |
| TelaService.ExistenteExactos | src/main/java/api_backend_tht/service/TelaService.java:336-339 | extending the lot's existing group keeps every group exactly its key's lots |
| TelaService.ExistenteCubre | src/main/java/api_backend_tht/service/TelaService.java:336-339 | extending the lot's existing group keeps every lot's key present |
| TelaService.AgregarExistente | src/main/java/api_backend_tht/service/TelaService.java:336-339 | adding a lot whose key has a group keeps the grouping correct |
| TelaService.NuevoExactos | src/main/java/api_backend_tht/service/TelaService.java:336-339 | opening a new group for an unseen key keeps every group exactly its key's lots |
| TelaService.NuevoCubre | src/main/java/api_backend_tht/service/TelaService.java:336-339 | opening a new group keeps every lot's key present |
| TelaService.NuevoDistintas | src/main/java/api_backend_tht/service/TelaService.java:336-339 | a group with an unseen key keeps the keys distinct |
| TelaService.AgregarNuevo | src/main/java/api_backend_tht/service/TelaService.java:336-339 | adding a lot with an unseen key keeps the grouping correct |
| TelaService.AgregarCorrecto | src/main/java/api_backend_tht/service/TelaService.java:336-339 | adding any lot keeps the grouping correct |
| TelaService.AgruparCorrecto | src/main/java/api_backend_tht/service/TelaService.java:336-339 | `groupingBy` yields distinct keys, one per key present, each group exactly the lots with that key and non-empty |
| TelaService.GenerarEstadisticasAgrupadas | src/main/java/api_backend_tht/service/TelaService.java:330-368 | one entry per distinct key, covering every lot; each entry's count, weight, roll (as a Java `int` sum) and stock totals are those of its key's lots; the counts add up to the number of lots |
| TelaService.EstadisticasDeGrupos | src/main/java/api_backend_tht/service/TelaService.java:341-366 | the per-group entries of a correct grouping meet the statistics' contract |
| TelaService.SumSizesMatch | src/main/java/api_backend_tht/service/TelaService.java:344 | the entries' counts add up to the groups' total size |
| TelaService.EstadisticasPorCampo | src/main/java/api_backend_tht/service/TelaService.java:283-328 | an unknown field is IllegalArgumentException, and only then; otherwise the statistics grouped by the chosen field |
| ReporteService.CumpleReporteUnfold | src/main/java/api_backend_tht/service/ReporteService.java:397-464 | a lot passes the report filter exactly when, for every set non-empty criterion, its field is present and contains the criterion ignoring case, and its entry date, when present, lies in the inclusive bounds |
| ReporteService.AplicarFiltros | src/main/java/api_backend_tht/service/ReporteService.java:397-464 | a null filter passes every lot; otherwise the chain passes exactly the lots meeting every criterion, ignoring case |
| ReporteService.FiltroSensibleImplicaReporte | src/main/java/api_backend_tht/service/ReporteService.java:397-464 | every lot the case-sensitive lot filter passes also passes the report filter |
| ReporteService.ReporteIgnoraMayusculas | src/main/java/api_backend_tht/service/ReporteService.java:404-406 | the two filters differ: "A" matches "a" in the report but not in the lot search |
| ReporteService.GenerarReporte | src/main/java/api_backend_tht/service/ReporteService.java:51-70 | a report is produced exactly for "excel" or "pdf" in any case, Excel exactly for "excel"; anything else (null included) ends as ResourceNotFound; the report holds exactly the filtered lots, all of them with no filter |
| ReporteService.FormatoSinMayusculas | src/main/java/api_backend_tht/service/ReporteService.java:58-64 | "PDF" and "Excel" select their formats, and "csv" is rejected |
| TelaImportacionService.ValorDecimal | src/main/java/api_backend_tht/service/TelaImportacionService.java:433-436 | a missing decimal cell reads as zero, and a present one as its value |
| TelaImportacionService.ErroresValidacion | src/main/java/api_backend_tht/service/TelaImportacionService.java:284-313 | at most five messages, one per check |
| TelaImportacionService.MensajesDistintos | src/main/java/api_backend_tht/service/TelaImportacionService.java:289-309 | the five validation messages are pairwise different |
| TelaImportacionService.EnMensaje | src/main/java/api_backend_tht/service/TelaImportacionService.java:289-309 | a message is in the list after one check exactly when it was there before or that check failed with it |
| TelaImportacionService.EnMensajes | src/main/java/api_backend_tht/service/TelaImportacionService.java:289-309 | a message is in the five checks' list exactly when some check that adds it failed |
| TelaImportacionService.ErroresValidacionSpec | src/main/java/api_backend_tht/service/TelaImportacionService.java:284-313 | each message is present exactly when its check fails, and there are none exactly when the row is valid |
| TelaImportacionService.ValidarCamposObligatorios | src/main/java/api_backend_tht/service/TelaImportacionService.java:284-313 | the accumulated messages are the checks that fail, in order; the row is rejected with "Error en la validación de datos: " and the messages joined by ", " exactly when there is one |
| TelaImportacionService.MapRowToTelaSpec | src/main/java/api_backend_tht/service/TelaImportacionService.java:230-271 | a row is rejected with the validation message exactly when a check fails; an accepted row gives a lot meeting `TelaValida` (ACTIVO, positive weight and rolls) that carries the row's cells and the stock cell as read |
| TelaImportacionService.StockAusenteEsCero | src/main/java/api_backend_tht/service/TelaImportacionService.java:266 | a row without a stock cell imports zero stock although its weight is positive: the null fallback is never taken |
| TelaImportacionService.ExtraerTelasDesdeExcel | src/main/java/api_backend_tht/service/TelaImportacionService.java:133-182 | the loop over data rows returns the extraction: "no data" for a file without data rows, otherwise the lots of valid rows, each rejected row's count and message, and `getPhysicalNumberOfRows() - 1` as the total |
| TelaImportacionService.ProcesarFila | src/main/java/api_backend_tht/service/TelaImportacionService.java:152-165 | one iteration of the row loop: a missing row is skipped, a mapped row adds its lot, a rejected row adds one failure and its numbered message |
| TelaImportacionService.CountUltimo | src/main/java/api_backend_tht/service/TelaImportacionService.java:145 | a slice one row longer counts one more exactly when that row is present |
| TelaImportacionService.PasoCuadra | src/main/java/api_backend_tht/service/TelaImportacionService.java:152-165 | one iteration keeps the accounting: a present row adds one lot or one failure with its message, and any lot added meets `TelaValida` |
| TelaImportacionService.CountAppend | src/main/java/api_backend_tht/service/TelaImportacionService.java:145 | the physical row count grows by one with each present row |
| TelaImportacionService.ProcesarParticion | src/main/java/api_backend_tht/service/TelaImportacionService.java:152-166 | every present data row is imported or failed, never both; there is one message per failure; and every imported lot meets `TelaValida` (ACTIVO, positive weight and rolls) |
| TelaImportacionService.ExtraccionCuenta | src/main/java/api_backend_tht/service/TelaImportacionService.java:133-182 | with the header row present, imported plus failed rows equal the declared total, with one message per failure |
| TelaImportacionService.ExtraccionVacia | src/main/java/api_backend_tht/service/TelaImportacionService.java:145-149 | a file without data rows yields the single "no data" message, nothing to save and a zero total |
| TelaImportacionService.ConAlmacen | src/main/java/api_backend_tht/service/TelaImportacionService.java:103-107 | a lot with a null or blank warehouse takes the warehouse's name; any other lot is unchanged |
| TelaImportacionService.AsignarAlmacenPorDefecto | src/main/java/api_backend_tht/service/TelaImportacionService.java:103-107 | the loop applies the warehouse default to every lot, in place and in order |
| TelaImportacionService.Relaciones | src/main/java/api_backend_tht/service/TelaImportacionService.java:208-223 | one ACTIVO relation without a weight for each saved lot, pointing at its id, in order |
| TelaImportacionService.Guardar | src/main/java/api_backend_tht/service/TelaImportacionService.java:92-127 | nothing to save returns the partial result with nothing written; otherwise the defaulted lots are appended, one relation each is appended, the result counts and lists the saved lots, and nothing else in the result changes |
| TelaImportacionService.GuardarRelacionesApuntan | src/main/java/api_backend_tht/service/TelaImportacionService.java:208-223 | each new relation points into the chosen warehouse at the lot it created, ACTIVO and without weight, one per imported lot |
| TelaImportacionService.GuardarTelasYCrearRelaciones | src/main/java/api_backend_tht/service/TelaImportacionService.java:92-127 | the method leaves the database in the state, and returns the result, of `Guardar` |
| TelaImportacionService.Importar | src/main/java/api_backend_tht/service/TelaImportacionService.java:51-57 | an unknown warehouse is ResourceNotFound with nothing written; otherwise the extraction is saved under the warehouse's name |
| TelaImportacionService.ImportarTelasDesdeExcelParaAlmacen | src/main/java/api_backend_tht/service/TelaImportacionService.java:51-57 | the method leaves the database in the state, and returns the result, of `Importar` |
| TelaImportacionService.ImportarCuenta | src/main/java/api_backend_tht/service/TelaImportacionService.java:51-57 | a whole import succeeds, imported plus failed rows equal the declared total, and the lot table grows by the imported count |

## Left out

- Reactive plumbing: Mono/Flux scheduling, `subscribeOn`, logging and `doOnSuccess`/`doOnError` are not modelled. Each operation is one atomic step on the tables.
- Concurrency is not modelled. Neither are transactions: `transferirTela` has no `@Transactional`, so its two saves could interleave with other requests.
- The `flatMap` enrichment with lots in the two paged searches and the statistics is not modelled. It attaches the lot to each movement, and `flatMap` may reorder elements. The model keeps the repository order.
- AlmacenTelaService.ItemsDelAlmacen: `obtenerTelasDelAlmacen` pairs each relation with its lot through `flatMap`, which may reorder the pairs. The model keeps the repository order. The stable sort then keeps that order among lots that compare equal, so the order of ties on a page of AlmacenTelaService.BuscarTelasEnAlmacenSpec assumes repository order; the source does not guarantee it.
- Null `BigDecimal` stock fields on stored lots are not modelled, so the dereference they would cause is absent. Stored stock figures are always present. Nullable request fields are modelled as `Option`.
- `Double` arithmetic of the warehouse weights is modelled as exact integer arithmetic, without rounding.
- Paginacion.TotalPaginas: the `double` division and `Math.ceil` are exact integer ceiling division. It is defined only for a positive page size and a non-negative total, which `buscarTelasEnAlmacen` guarantees. The source's behaviour for a zero size is not modelled.
- `LocalDate.compareTo` is modelled by its sign only, through CompareNullableDates. The magnitude is not used by any caller.
- Text.LowerChar: `toLowerCase` is modelled for ASCII and Latin-1 letters only. Other scripts, and locale rules, are not modelled.
- Text.FoldChar: the upper-then-lower fold of `compareToIgnoreCase` and `equalsIgnoreCase` is modelled for ASCII, Latin-1 and the micro sign. Other characters whose fold differs from themselves, such as Greek capitals or the Kelvin sign, fold to themselves in the model.
- Text.CompareIgnoreCase: exact on ASCII and Latin-1 text; on other scripts it inherits the gap of Text.FoldChar.
- Text.CompareIgnoreCaseProperties: the fold it states is that of Text.FoldChar, so the same gap applies outside Latin-1.
- AlmacenTelaService.CompareNullableStrings: it compares through Text.CompareIgnoreCase, so the same gap applies outside Latin-1.
- The clock (`LocalDateTime.now()`) is a parameter of each operation.
- Cell reading is not modelled: `getCellValueAs*` and the conversion of numeric and date cells. Rows arrive with converted cells.
- A workbook that fails to open is not modelled. It ends as "Error al procesar el archivo".
- An exception raised by a cell conversion is not modelled. The conversion runs inside `mapRowToTela`, so the row loop's `catch` would count it as one failed row with the message "Error en fila N: …". In the model rows arrive already converted, so only a validation failure takes that path.
- TelaService.GenerarEstadisticasAgrupadas: the entries are in first-seen key order. `HashMap` order is unspecified, so the model does not state any order.
- `getTelasDeAlmacen`, the plain finders (`obtenerHistorialTela`, `buscarMovimientos`, `obtenerSalidasPorTela`, `obtenerDetalleSalida`) and the CRUD methods of `TelaService` are not modelled. They are outside the modelled core.
- The rendering of the workbook and the PDF in `generarExcel` / `generarPDF` is not modelled. GenerarReporte returns which format was chosen and the rows, not the file.
- Java `int` overflow is modelled only for `page * size` and for the roll total in the statistics. The import's `totalRegistros` and the other counts are unbounded.
- The controllers' bean-validation annotations on the request objects are not modelled. The request objects are taken as already validated.
- The creation and update timestamps that the persistence layer fills in are not modelled.
