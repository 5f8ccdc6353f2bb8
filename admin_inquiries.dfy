/** The admin inquiries page: twenty rows per page fetched by an inclusive
    row range, the "seen" toggle, and the previous/next buttons. */
module AdminInquiries {
  import opened Wrappers

  const PerPage: nat := 20

  datatype Inquiry = Inquiry(id: string, name: string, email: string, message: string, createdAt: string, seen: bool)

  /** The inclusive row range `[from, to]` requested for a page. */
  datatype Range = Range(from: int, to: int)

  function RangeOf(page: int): (r: Range)
    ensures r.to - r.from + 1 == PerPage
    ensures r.from == (page - 1) * PerPage
    ensures page >= 1 ==> r.from >= 0
  {
    var from := (page - 1) * PerPage;
    Range(from, from + PerPage - 1)
  }

  /** Consecutive pages are contiguous and do not overlap, and page `p`
      starts after `p - 1` full pages. */
  lemma RangesTile(page: int)
    ensures RangeOf(page + 1).from == RangeOf(page).to + 1
    ensures page >= 1 ==> RangeOf(page).from == PerPage * (page - 1)
  {
  }

  /** The local update after a successful toggle. */
  function ToggleSeen(inquiries: seq<Inquiry>, id: string): (r: seq<Inquiry>)
    ensures |r| == |inquiries|
    ensures forall i :: 0 <= i < |inquiries| && inquiries[i].id != id ==> r[i] == inquiries[i]
    ensures forall i :: 0 <= i < |inquiries| && inquiries[i].id == id ==> r[i] == inquiries[i].(seen := !inquiries[i].seen)
  {
    if |inquiries| == 0 then []
    else
      var head := if inquiries[0].id == id then inquiries[0].(seen := !inquiries[0].seen) else inquiries[0];
      [head] + ToggleSeen(inquiries[1..], id)
  }

  /** Toggling twice gives back the original list. */
  lemma {:induction false} ToggleTwice(inquiries: seq<Inquiry>, id: string)
    ensures ToggleSeen(ToggleSeen(inquiries, id), id) == inquiries
  {
    if |inquiries| > 0 {
      ToggleTwice(inquiries[1..], id);
      var once := ToggleSeen(inquiries, id);
      assert once[1..] == ToggleSeen(inquiries[1..], id);
    }
  }

  /** The button text of an inquiry. */
  function SeenCaption(q: Inquiry): (s: string)
    ensures q.seen <==> s == "Vista"
  {
    if q.seen then "Vista" else "Marcar vista"
  }

  class InquiriesPage {
    var inquiries: seq<Inquiry>
    var page: int

    predicate Valid()
      reads this
    {
      page >= 1
    }

    constructor()
      ensures Valid() && inquiries == [] && page == 1
    {
      inquiries := [];
      page := 1;
    }

    /** The range the page's fetch asks for. */
    function Requested(): (r: Range)
      reads this
      requires Valid()
      ensures r.from >= 0 && r.to - r.from + 1 == PerPage
    {
      RangeOf(page)
    }

    /** The fetch for the current page; a failed read keeps the old rows. */
    method Load(data: Option<seq<Inquiry>>)
      modifies this
      ensures data.Some? ==> inquiries == data.value
      ensures data.None? ==> inquiries == old(inquiries)
      ensures page == old(page)
    {
      if data.Some? {
        inquiries := data.value;
      }
    }

    /** Clicking an inquiry's button; `failed` is the update's error. */
    method Toggle(id: string, failed: bool)
      modifies this
      ensures failed ==> inquiries == old(inquiries)
      ensures !failed ==> inquiries == ToggleSeen(old(inquiries), id)
      ensures page == old(page)
    {
      if !failed {
        inquiries := ToggleSeen(inquiries, id);
      }
    }

    /** The buttons exist only when some row is listed. */
    predicate ButtonsShown()
      reads this
    {
      |inquiries| > 0
    }

    predicate PrevDisabled()
      reads this
    {
      page == 1
    }

    /** A short page means there is no next one. */
    predicate NextDisabled()
      reads this
    {
      |inquiries| < PerPage
    }

    method PressPrev()
      requires Valid()
      modifies this
      ensures Valid()
      ensures inquiries == old(inquiries)
      ensures page == if |inquiries| > 0 && old(page) != 1 then old(page) - 1 else old(page)
    {
      if ButtonsShown() && !PrevDisabled() {
        page := page - 1;
      }
    }

    method PressNext()
      requires Valid()
      modifies this
      ensures Valid()
      ensures inquiries == old(inquiries)
      ensures page == if |inquiries| >= PerPage then old(page) + 1 else old(page)
    {
      if ButtonsShown() && !NextDisabled() {
        page := page + 1;
      }
    }
  }
}
