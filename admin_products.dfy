/** The admin products page: the case-insensitive name search, the
    ten-per-page window, the page count, the local delete, and the
    previous/next buttons. */
module AdminProducts {
  import opened Wrappers
  import opened Strings
  import opened Cart

  const PerPage: nat := 10

  /** The search callback: the lower-cased name includes the lower-cased search. */
  predicate NameMatches(p: Product, search: string)
  {
    Contains(ToLower(p.name), ToLower(search))
  }

  /** `products.filter(...)` by name, keeping the list's order. */
  function SearchFilter(products: seq<Product>, search: string): (r: seq<Product>)
    ensures |r| <= |products|
    ensures forall p :: p in r <==> p in products && NameMatches(p, search)
  {
    if |products| == 0 then []
    else if NameMatches(products[0], search) then [products[0]] + SearchFilter(products[1..], search)
    else SearchFilter(products[1..], search)
  }

  /** The search keeps the list's order: it filters a concatenation part by part. */
  lemma {:induction false} SearchFilterAppend(a: seq<Product>, b: seq<Product>, search: string)
    ensures SearchFilter(a + b, search) == SearchFilter(a, search) + SearchFilter(b, search)
  {
    if |a| > 0 {
      assert (a + b)[1..] == a[1..] + b;
      SearchFilterAppend(a[1..], b, search);
    } else {
      assert a + b == b;
    }
  }

  /** One product is kept exactly when its name matches. */
  lemma SearchFilterSingle(p: Product, search: string)
    ensures SearchFilter([p], search) == if NameMatches(p, search) then [p] else []
  {
    assert [p][1..] == [];
  }

  /** The empty search matches every product. */
  lemma {:induction false} EmptySearchKeepsAll(products: seq<Product>)
    ensures SearchFilter(products, "") == products
  {
    if |products| > 0 {
      assert OccursAt(ToLower(products[0].name), ToLower(""), 0);
      EmptySearchKeepsAll(products[1..]);
    }
  }

  /** The local delete: `prev.filter(x => x.id !== id)`. */
  function RemoveProduct(products: seq<Product>, id: string): (r: seq<Product>)
    ensures |r| <= |products|
    ensures forall p :: p in r <==> p in products && p.id != id
    ensures (forall i :: 0 <= i < |products| ==> products[i].id != id) ==> r == products
  {
    if |products| == 0 then []
    else
      var rest := RemoveProduct(products[1..], id);
      assert products == [products[0]] + products[1..];
      if products[0].id != id then [products[0]] + rest else rest
  }

  /** The products left after a delete keep their order: removal works on a concatenation part by part. */
  lemma {:induction false} RemoveProductAppend(a: seq<Product>, b: seq<Product>, id: string)
    ensures RemoveProduct(a + b, id) == RemoveProduct(a, id) + RemoveProduct(b, id)
  {
    if |a| > 0 {
      assert (a + b)[1..] == a[1..] + b;
      RemoveProductAppend(a[1..], b, id);
    } else {
      assert a + b == b;
    }
  }

  /** One product survives exactly when it has another id. */
  lemma RemoveProductSingle(p: Product, id: string)
    ensures RemoveProduct([p], id) == if p.id != id then [p] else []
  {
    assert [p][1..] == [];
  }

  /** Deleting and searching commute: the list shown after a delete is the
      old list shown without the deleted product. */
  lemma {:induction false} RemoveThenSearch(products: seq<Product>, id: string, search: string)
    ensures SearchFilter(RemoveProduct(products, id), search) == RemoveProduct(SearchFilter(products, search), id)
  {
    if |products| > 0 {
      RemoveThenSearch(products[1..], id, search);
      var rest := RemoveProduct(products[1..], id);
      var found := SearchFilter(products[1..], search);
      if products[0].id != id {
        assert ([products[0]] + rest)[1..] == rest;
      }
      if NameMatches(products[0], search) {
        assert ([products[0]] + found)[1..] == found;
      }
    }
  }

  /** `Math.ceil(length / perPage)` */
  function TotalPages(n: nat): (t: nat)
    ensures t == 0 <==> n == 0
    ensures n > 0 ==> PerPage * (t - 1) < n <= PerPage * t
  {
    (n + PerPage - 1) / PerPage
  }

  /** The largest page the page number should reach: at least 1. */
  function LastPage(n: nat): nat
  {
    if TotalPages(n) == 0 then 1 else TotalPages(n)
  }

  /** `filtered.slice((page - 1) * perPage, page * perPage)`, clamped to the list. */
  function PageOf(s: seq<Product>, page: nat): (r: seq<Product>)
    requires page >= 1
    ensures |r| <= PerPage
    ensures |r| == 0 || (page - 1) * PerPage + |r| <= |s|
    ensures forall i :: 0 <= i < |r| ==> r[i] == s[(page - 1) * PerPage + i]
    ensures page <= TotalPages(|s|) <==> |r| > 0
    ensures page < TotalPages(|s|) ==> |r| == PerPage
  {
    var start := (page - 1) * PerPage;
    var end := page * PerPage;
    if start >= |s| then [] else s[start..if end <= |s| then end else |s|]
  }

  /** The first `n` pages, one after another. */
  function Pages(s: seq<Product>, n: nat): seq<Product>
  {
    if n == 0 then [] else Pages(s, n - 1) + PageOf(s, n)
  }

  /** The first `n` pages are exactly the first `n * perPage` products. */
  lemma {:induction false} PagesArePrefix(s: seq<Product>, n: nat)
    ensures Pages(s, n) == s[..if n * PerPage <= |s| then n * PerPage else |s|]
  {
    if n > 0 {
      PagesArePrefix(s, n - 1);
      var a := (n - 1) * PerPage;
      var b := n * PerPage;
      assert b == a + PerPage;
      var end := if b <= |s| then b else |s|;
      if a < |s| {
        assert PageOf(s, n) == s[a..end];
        assert s[..a] + s[a..end] == s[..end];
      } else {
        assert PageOf(s, n) == [];
      }
    }
  }

  /** Paging through every page lists every product once, in order. */
  lemma PagesCoverList(s: seq<Product>)
    ensures Pages(s, TotalPages(|s|)) == s
  {
    PagesArePrefix(s, TotalPages(|s|));
    assert s[..|s|] == s;
  }

  /** "Anterior" is disabled on the first page. */
  predicate PrevDisabled(page: int)
  {
    page == 1
  }

  /** "Siguiente" as written: disabled exactly when the page equals the count. */
  predicate NextDisabledAsWritten(page: int, totalPages: nat)
  {
    page == totalPages
  }

  /** "Siguiente" as intended: disabled from the last page on. */
  predicate NextDisabled(page: int, totalPages: nat)
  {
    page >= totalPages
  }

  /** Pressing "Siguiente" as written. */
  function NextPageAsWritten(page: int, totalPages: nat): int
  {
    if NextDisabledAsWritten(page, totalPages) then page else page + 1
  }

  /** Pressing "Siguiente" as intended keeps the page within 1 .. LastPage. */
  function NextPage(page: int, n: nat): (next: int)
    requires 1 <= page <= LastPage(n)
    ensures 1 <= next <= LastPage(n)
    ensures next == page + 1 <==> page < TotalPages(n)
  {
    if NextDisabled(page, TotalPages(n)) then page else page + 1
  }

  /** Pressing "Anterior" keeps the page within 1 .. LastPage. */
  function PrevPage(page: int, n: nat): (prev: int)
    requires 1 <= page <= LastPage(n)
    ensures 1 <= prev <= LastPage(n)
    ensures prev == page - 1 <==> page > 1
  {
    if PrevDisabled(page) then page else page - 1
  }

  /** With no product listed, the page count is 0, so on page 1 "Siguiente"
      as written is enabled and leads past the last page, to an empty page 2
      of 0, and on from there. */
  lemma NextAsWrittenLeavesRange()
    ensures TotalPages(0) == 0
    ensures !NextDisabledAsWritten(1, TotalPages(0))
    ensures NextPageAsWritten(1, TotalPages(0)) == 2 > LastPage(0)
    ensures PageOf([], 2) == []
  {
  }

  /** The two definitions differ only for an empty list. */
  lemma NextAsWrittenAgreesWhenNonEmpty(page: int, n: nat)
    requires 1 <= page <= LastPage(n) && n > 0
    ensures NextDisabledAsWritten(page, TotalPages(n)) == NextDisabled(page, TotalPages(n))
  {
  }

  class ProductsPage {
    var products: seq<Product>
    var filtered: seq<Product>
    var search: string
    var page: int

    /** The list shown is the search over the products, and the page is in range. */
    predicate Valid()
      reads this
    {
      filtered == SearchFilter(products, search) && 1 <= page <= LastPage(|filtered|)
    }

    constructor()
      ensures Valid()
      ensures products == [] && search == "" && page == 1
    {
      products := [];
      filtered := [];
      search := "";
      page := 1;
    }

    /** The effect on `[search, products]`: filter again and go back to page 1. */
    method Refilter()
      modifies this
      ensures filtered == SearchFilter(products, search) && page == 1
      ensures products == old(products) && search == old(search)
      ensures Valid()
    {
      filtered := SearchFilter(products, search);
      page := 1;
    }

    /** The initial load; a failed read changes nothing. */
    method Load(data: Option<seq<Product>>)
      requires Valid()
      modifies this
      ensures Valid()
      ensures data.Some? ==> products == data.value && filtered == SearchFilter(data.value, search) && page == 1
      ensures data.None? ==> products == old(products) && filtered == old(filtered) && page == old(page)
      ensures search == old(search)
    {
      if data.Some? {
        products := data.value;
        filtered := data.value;
        Refilter();
      }
    }

    /** Typing in the search box. */
    method SetSearch(s: string)
      modifies this
      ensures search == s && products == old(products)
      ensures filtered == SearchFilter(products, s) && page == 1
      ensures Valid()
    {
      search := s;
      Refilter();
    }

    /** Confirming a delete; `failed` is the delete's error. */
    method Delete(id: string, failed: bool)
      requires Valid()
      modifies this
      ensures Valid()
      ensures failed ==> products == old(products) && filtered == old(filtered) && page == old(page)
      ensures !failed ==> products == RemoveProduct(old(products), id) && page == 1
      ensures !failed ==> filtered == RemoveProduct(old(filtered), id)
      ensures search == old(search)
    {
      if !failed {
        RemoveThenSearch(products, id, search);
        products := RemoveProduct(products, id);
        Refilter();
      }
    }

    /** `current`: the products on the page shown. */
    function Current(): (r: seq<Product>)
      reads this
      requires Valid()
      ensures |r| <= PerPage
      ensures |filtered| > 0 ==> |r| > 0
      ensures forall p :: p in r ==> p in filtered
    {
      PageOf(filtered, page)
    }

    method PressPrev()
      requires Valid()
      modifies this
      ensures Valid()
      ensures products == old(products) && filtered == old(filtered) && search == old(search)
      ensures page == PrevPage(old(page), |filtered|)
    {
      if !PrevDisabled(page) {
        page := page - 1;
      }
    }

    method PressNext()
      requires Valid()
      modifies this
      ensures Valid()
      ensures products == old(products) && filtered == old(filtered) && search == old(search)
      ensures page == NextPage(old(page), |filtered|)
    {
      if !NextDisabled(page, TotalPages(|filtered|)) {
        page := page + 1;
      }
    }
  }
}
