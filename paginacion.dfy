/** The paginated result object and the skip/take pipeline every paged
    search ends with. */
module Paginacion {
  import opened Common

  const INT_MIN: int := -0x8000_0000
  const INT_MAX: int := 0x7fff_ffff

  /** A value a Java int can hold. */
  predicate IsInt(x: int) {
    INT_MIN <= x <= INT_MAX
  }

  /** Java int arithmetic: the exact result reduced to 32 bits. */
  function WrapInt(x: int): (r: int)
    ensures IsInt(r)
    ensures IsInt(x) ==> r == x
    ensures (r - x) % 0x1_0000_0000 == 0
  {
    (x - INT_MIN) % 0x1_0000_0000 + INT_MIN
  }

  function Min(a: int, b: int): int {
    if a <= b then a else b
  }

  function Max(a: int, b: int): int {
    if a <= b then b else a
  }

  /** Flux.skip(n).take(m): both operators reject a negative count with an
      IllegalArgumentException. */
  function SkipTake<T>(s: seq<T>, n: int, m: int): (r: Result<seq<T>>)
    ensures r.Err? <==> n < 0 || m < 0
    ensures r.Err? ==> r.error == IllegalArgument
    ensures r.Ok? ==> |r.value| == Min(m, Max(0, |s| - n))
    ensures r.Ok? ==> forall i :: 0 <= i < |r.value| ==> r.value[i] == s[n + i]
  {
    if n < 0 || m < 0 then Err(IllegalArgument)
    else
      var rest := if n <= |s| then s[n..] else [];
      Ok(if m <= |rest| then rest[..m] else rest)
  }

  /** `.skip(page * size).take(size)`, the product computed in int. */
  function Pagina<T>(s: seq<T>, page: int, size: int): Result<seq<T>>
    requires IsInt(page) && IsInt(size)
  {
    SkipTake(s, WrapInt(page * size), size)
  }

  /** A page within range is the slice of `size` elements starting at
      `page * size`, cut short at the end of the data. */
  lemma PaginaSlice<T>(s: seq<T>, page: int, size: int)
    requires IsInt(page) && IsInt(size) && IsInt(page * size)
    requires page >= 0 && size > 0
    ensures Pagina(s, page, size).Ok?
    ensures |Pagina(s, page, size).value| <= size
    ensures Pagina(s, page, size).value ==
      if page * size >= |s| then [] else s[page * size..Min(page * size + size, |s|)]
  {
    assert page * size >= 0;
  }

  /** PaginacionResultado: one page of data with the paging request. */
  datatype PaginacionResultado<T> =
    PaginacionResultado(datos: seq<T>, total: int, pagina: int, tamanoPagina: int)

  /** getTotalPaginas: no pages without data, otherwise the ceiling of
      total / tamanoPagina. */
  function TotalPaginas(total: int, tamanoPagina: int): (r: int)
    requires total >= 0 && tamanoPagina > 0
    ensures total == 0 <==> r == 0
    ensures r >= 0
    ensures total > 0 ==> r * tamanoPagina >= total && (r - 1) * tamanoPagina < total
  {
    if total == 0 then 0 else (total + tamanoPagina - 1) / tamanoPagina
  }

  lemma MulMonotonic(a: int, b: int, c: int)
    requires a <= b && c >= 0
    ensures a * c <= b * c
  {
  }

  /** A page starts inside the data exactly when its number is below the
      page count. */
  lemma PageStartIff(n: int, size: int, page: int)
    requires n >= 0 && size > 0 && page >= 0
    ensures page * size < n <==> page < TotalPaginas(n, size)
  {
    var q := TotalPaginas(n, size);
    if page < q {
      MulMonotonic(page, q - 1, size);
    } else if n > 0 {
      MulMonotonic(q, page, size);
    }
  }

  /** Page `page` of `s` is non-empty exactly when it is one of the first
      TotalPaginas(|s|, size) pages. */
  lemma PaginaNonEmptyIff<T>(s: seq<T>, page: int, size: int)
    requires IsInt(page) && IsInt(size) && IsInt(page * size)
    requires page >= 0 && size > 0
    ensures |Pagina(s, page, size).value| > 0 <==> page < TotalPaginas(|s|, size)
  {
    PaginaSlice(s, page, size);
    PageStartIff(|s|, size, page);
  }
}
