/** The storefront banner strip: a banner with a (truthy) minimum amount is
    shown while the cart total stays below it, one without is always shown,
    and the strip renders only under `/fruver` and `/sales`. */
module Banner {
  import opened Wrappers
  import opened Strings

  datatype Kind = Info | Warning | Success

  datatype Banner = Banner(id: string, message: string, kind: Option<Kind>, minAmount: Option<int>, subMessage: string)

  /** The one static banner the component installs on mount. */
  const FreeShippingBanner := Banner(
    "free-shipping",
    "🚚 Envío $2.000 superando $15.000 — $1.500 superando $20.000",
    Some(Success),
    Some(15000),
    "* Superá $15.000 y pagás $2.000 de envío. A partir de $20.000, sólo $1.500.")

  const StaticBanners: seq<Banner> := [FreeShippingBanner]

  const VisiblePrefixes: seq<string> := ["/fruver", "/sales"]

  /** `b.minAmount` is truthy: present and not zero. */
  predicate HasMinimum(b: Banner)
  {
    b.minAmount.Some? && b.minAmount.value != 0
  }

  /** The filter callback of `visibles`. */
  function Shown(b: Banner, total: int): (shown: bool)
    ensures shown <==> !HasMinimum(b) || total < b.minAmount.value
  {
    if HasMinimum(b) && total < b.minAmount.value then true
    else if !HasMinimum(b) then true
    else false
  }

  /** `banners.filter(...)`: the shown banners, in their order. */
  function Visibles(banners: seq<Banner>, total: int): (r: seq<Banner>)
    ensures |r| <= |banners|
    ensures forall b :: b in r <==> b in banners && Shown(b, total)
    ensures (forall b :: b in banners ==> Shown(b, total)) ==> r == banners
  {
    if |banners| == 0 then []
    else if Shown(banners[0], total) then [banners[0]] + Visibles(banners[1..], total)
    else Visibles(banners[1..], total)
  }

  /** The shown banners keep their order: the filter works on a concatenation part by part. */
  lemma {:induction false} VisiblesAppend(a: seq<Banner>, b: seq<Banner>, total: int)
    ensures Visibles(a + b, total) == Visibles(a, total) + Visibles(b, total)
  {
    if |a| > 0 {
      assert (a + b)[1..] == a[1..] + b;
      VisiblesAppend(a[1..], b, total);
      var head := if Shown(a[0], total) then [a[0]] else [];
      assert Visibles(a, total) == head + Visibles(a[1..], total);
      assert Visibles(a + b, total) == head + Visibles(a[1..] + b, total);
    } else {
      assert a + b == b;
    }
  }

  /** One banner is kept exactly when it is shown. */
  lemma VisiblesSingle(b: Banner, total: int)
    ensures Visibles([b], total) == if Shown(b, total) then [b] else []
  {
    assert [b][1..] == [];
  }

  /** What the component renders: nothing (`None`) off the listed prefixes
      or when no banner is shown, else the shown banners. */
  function Render(pathname: string, total: int, banners: seq<Banner>): (r: Option<seq<Banner>>)
    ensures r.Some? <==> StartsWithAny(pathname, VisiblePrefixes) && exists b :: b in banners && Shown(b, total)
    ensures r.Some? ==> r.value == Visibles(banners, total) && |r.value| > 0
  {
    if !StartsWithAny(pathname, VisiblePrefixes) then None
    else
      var visibles := Visibles(banners, total);
      if |visibles| == 0 then None else assert visibles[0] in visibles; Some(visibles)
  }

  /** The colour classes chosen by the banner's type; no type means blue. */
  function Style(kind: Option<Kind>): (classes: string)
    ensures kind == Some(Success) <==> classes == "bg-green-100 text-green-800 border-green-300"
    ensures kind == Some(Warning) <==> classes == "bg-yellow-100 text-yellow-800 border-yellow-300"
  {
    if kind == Some(Success) then "bg-green-100 text-green-800 border-green-300"
    else if kind == Some(Warning) then "bg-yellow-100 text-yellow-800 border-yellow-300"
    else "bg-blue-100 text-blue-800 border-blue-300"
  }

  /** With the static banners, the strip shows on the listed prefixes
      exactly while the total is below $15.000. */
  lemma FreeShippingShownBelowThreshold(pathname: string, total: int)
    ensures Render(pathname, total, StaticBanners).Some? <==>
      (StartsWith(pathname, "/fruver") || StartsWith(pathname, "/sales")) && total < 15000
    ensures Render(pathname, total, StaticBanners).Some? ==>
      Render(pathname, total, StaticBanners).value == StaticBanners
  {
    assert StartsWithAny(pathname, VisiblePrefixes) <==>
      StartsWith(pathname, VisiblePrefixes[0]) || StartsWith(pathname, VisiblePrefixes[1]);
    assert (exists b :: b in StaticBanners && Shown(b, total)) <==> Shown(FreeShippingBanner, total) by {
      if Shown(FreeShippingBanner, total) {
        assert FreeShippingBanner in StaticBanners;
      }
    }
  }
}
