/**
 * The podcast list: podcasts split into drafts and published ones, each
 * section paged five at a time with clamped Previous/Next buttons and one
 * button per page, and deletion after confirmation.
 */
module ViewPodcasts {
  import opened JsValues
  import opened Lists

  /** The part of a podcast the list acts on. */
  datatype Podcast = Podcast(id: string, slug: string, title: string, status: string)

  const ItemsPerPage: nat := 5

  // ---------------------------------------------------------------------------
  // Partition

  function IsDraft(p: Podcast): bool { p.status == "draft" }

  function IsPublished(p: Podcast): bool { p.status == "published" }

  /** `draftPodcasts`: the podcasts with status `draft`, in order; none when the state is not an array. */
  function Drafts(podcasts: JsArray<Podcast>): (r: seq<Podcast>)
    ensures podcasts.NotArray? ==> r == []
    ensures podcasts.Array? ==> SubseqOf(r, podcasts.items)
    ensures forall p :: p in r <==> podcasts.Array? && p in podcasts.items && p.status == "draft"
  {
    if podcasts.NotArray? then []
    else
      FilterIsSubseq(podcasts.items, IsDraft);
      Filter(podcasts.items, IsDraft)
  }

  /** `publishedPodcasts`: the podcasts with status `published`, in order. */
  function Published(podcasts: JsArray<Podcast>): (r: seq<Podcast>)
    ensures podcasts.NotArray? ==> r == []
    ensures podcasts.Array? ==> SubseqOf(r, podcasts.items)
    ensures forall p :: p in r <==> podcasts.Array? && p in podcasts.items && p.status == "published"
  {
    if podcasts.NotArray? then []
    else
      FilterIsSubseq(podcasts.items, IsPublished);
      Filter(podcasts.items, IsPublished)
  }

  /**
   * No podcast is in both sections, one with any other status is in neither,
   * and together the sections hold every copy of every draft and published podcast.
   */
  lemma PartitionIsExact(podcasts: seq<Podcast>, p: Podcast)
    ensures !(p in Drafts(Array(podcasts)) && p in Published(Array(podcasts)))
    ensures p.status != "draft" && p.status != "published" ==>
              p !in Drafts(Array(podcasts)) && p !in Published(Array(podcasts))
    ensures multiset(Drafts(Array(podcasts)))[p] + multiset(Published(Array(podcasts)))[p]
         == if p.status in {"draft", "published"} then multiset(podcasts)[p] else 0
  {
    FilterCounts(podcasts, IsDraft);
    FilterCounts(podcasts, IsPublished);
  }

  // ---------------------------------------------------------------------------
  // Paging

  /** Where `slice` puts an index into a list of `n`: negative ones count from the end, all are clamped. */
  function ClampIndex(i: int, n: nat): (r: nat)
    ensures r <= n
  {
    if i < 0 then (if n + i < 0 then 0 else n + i) else if i < n then i else n
  }

  /** `s.slice(start, end)`. */
  function Slice<T>(s: seq<T>, start: int, end: int): (r: seq<T>)
    ensures start <= end ==> |r| <= end - start
  {
    var from := ClampIndex(start, |s|);
    var to := ClampIndex(end, |s|);
    ClampNarrows(start, end, |s|);
    if from < to then s[from..to] else []
  }

  /** Clamping never moves two ordered indices further apart. */
  lemma ClampNarrows(i: int, j: int, n: nat)
    ensures i <= j ==> ClampIndex(j, n) - ClampIndex(i, n) <= j - i
  {
    if i < 0 && j < 0 {
      assert ClampIndex(i, n) == Max(0, n + i) && ClampIndex(j, n) == Max(0, n + j);
    } else if i >= 0 && j >= 0 {
      assert ClampIndex(i, n) == Min(i, n) && ClampIndex(j, n) == Min(j, n);
    }
  }

  function Min(a: int, b: int): int { if a < b then a else b }

  function Max(a: int, b: int): int { if a < b then b else a }

  /**
   * `getDraftPageData`/`getPublishedPageData`: page `p` of a section. It never
   * holds more than five podcasts, and from page 1 on it is the stretch of the
   * list from `(p-1)*5` to `p*5`, cut short at the list's end.
   */
  function PageData<T>(s: seq<T>, p: int): (r: seq<T>)
    ensures |r| <= ItemsPerPage
    ensures p >= 1 ==> r == s[Min((p - 1) * ItemsPerPage, |s|)..Min(p * ItemsPerPage, |s|)]
  {
    var start := (p - 1) * ItemsPerPage;
    Slice(s, start, start + ItemsPerPage)
  }

  /** `Math.ceil(totalItems / 5)`. */
  function TotalPages(totalItems: nat): (r: nat)
    ensures r == 0 <==> totalItems == 0
    ensures totalItems <= r * ItemsPerPage
    ensures r > 0 ==> (r - 1) * ItemsPerPage < totalItems
  {
    (totalItems + ItemsPerPage - 1) / ItemsPerPage
  }

  /** Pages 1 to `k` one after the other. */
  function PagesUpTo<T>(s: seq<T>, k: nat): seq<T>
  {
    if k == 0 then [] else PagesUpTo(s, k - 1) + PageData(s, k)
  }

  lemma {:induction false} PagesUpToIsPrefix<T>(s: seq<T>, k: nat)
    ensures PagesUpTo(s, k) == s[..Min(k * ItemsPerPage, |s|)]
  {
    if k > 0 {
      PagesUpToIsPrefix(s, k - 1);
      var a := Min((k - 1) * ItemsPerPage, |s|);
      var b := Min(k * ItemsPerPage, |s|);
      assert s[..a] + s[a..b] == s[..b];
    }
  }

  /** Read one after the other, the pages of a section give back the whole section. */
  lemma AllPagesGiveTheList<T>(s: seq<T>)
    ensures PagesUpTo(s, TotalPages(|s|)) == s
  {
    PagesUpToIsPrefix(s, TotalPages(|s|));
  }

  /** A page beyond the last is empty. */
  lemma PastLastPageIsEmpty<T>(s: seq<T>, p: int)
    requires p > TotalPages(|s|)
    ensures PageData(s, p) == []
  {
  }

  /** Where Previous leads: `Math.max(1, p - 1)`. */
  function PreviousPage(p: int): int
  {
    Max(1, p - 1)
  }

  /** Where Next leads: `Math.min(totalPages, p + 1)`. */
  function NextPage(p: int, totalPages: nat): int
  {
    Min(totalPages, p + 1)
  }

  /**
   * Previous and Next keep a page that starts in range in range; Previous is
   * disabled on page 1, exactly where it would not move, and Next on the last
   * page, exactly where it would not move.
   */
  lemma NavigationStaysInRange(p: int, totalPages: nat)
    requires 1 <= p <= totalPages
    ensures 1 <= PreviousPage(p) <= totalPages && 1 <= NextPage(p, totalPages) <= totalPages
    ensures p == 1 <==> PreviousPage(p) == p
    ensures p == totalPages <==> NextPage(p, totalPages) == p
    ensures p > 1 ==> PreviousPage(p) == p - 1
    ensures p < totalPages ==> NextPage(p, totalPages) == p + 1
  {
  }

  /** A numbered page button. */
  datatype PageButton = PageButton(page: nat, disabled: bool)

  /** The loop in `renderPagination`: one button per page, from 1 to the last, only the current one disabled. */
  method PageButtons(currentPage: int, totalItems: nat) returns (buttons: seq<PageButton>)
    ensures |buttons| == TotalPages(totalItems)
    ensures forall k :: 0 <= k < |buttons| ==> buttons[k].page == k + 1
    ensures forall k :: 0 <= k < |buttons| ==> (buttons[k].disabled <==> currentPage == k + 1)
  {
    var totalPages := TotalPages(totalItems);
    buttons := [];
    var i := 1;
    while i <= totalPages
      invariant 1 <= i <= totalPages + 1
      invariant |buttons| == i - 1
      invariant forall k :: 0 <= k < |buttons| ==> buttons[k].page == k + 1
      invariant forall k :: 0 <= k < |buttons| ==> (buttons[k].disabled <==> currentPage == k + 1)
    {
      buttons := buttons + [PageButton(i, currentPage == i)];
      i := i + 1;
    }
  }

  // ---------------------------------------------------------------------------
  // The list state

  /** What the podcast fetch gives: `response.data.data`, absent, or a failure. */
  datatype ListReply = Listed(data: Option<JsArray<Podcast>>) | ListFailed

  datatype Section = DraftSection | PublishedSection

  /** The list screen's state. */
  class PodcastList {
    var podcasts: JsArray<Podcast>
    var loading: bool
    var error: Option<string>
    var deletingId: Option<string>
    var draftPage: int
    var publishedPage: int

    /** Both sections are on a real page. */
    ghost predicate Valid()
      reads this
    {
      draftPage >= 1 && publishedPage >= 1
    }

    function SectionItems(section: Section): seq<Podcast>
      reads this
    {
      if section == DraftSection then Drafts(podcasts) else Published(podcasts)
    }

    function CurrentPage(section: Section): int
      reads this
    {
      if section == DraftSection then draftPage else publishedPage
    }

    /** The rows shown in a section. */
    function ShownRows(section: Section): (r: seq<Podcast>)
      reads this
      ensures |r| <= ItemsPerPage
      ensures forall p :: p in r ==> p in SectionItems(section)
      ensures CurrentPage(section) >= 1 ==>
                r == SectionItems(section)[Min((CurrentPage(section) - 1) * ItemsPerPage, |SectionItems(section)|)
                                           ..Min(CurrentPage(section) * ItemsPerPage, |SectionItems(section)|)]
    {
      var s := SectionItems(section);
      var rows := PageData(s, CurrentPage(section));
      assert forall p :: p in rows ==> p in s by {
        var page := CurrentPage(section);
        if page < 1 {
          var from := ClampIndex((page - 1) * ItemsPerPage, |s|);
          var to := ClampIndex((page - 1) * ItemsPerPage + ItemsPerPage, |s|);
          assert from < to ==> rows == s[from..to];
        }
      }
      rows
    }

    /** A row's Edit and Delete buttons are disabled while that podcast is being deleted. */
    predicate RowBusy(id: string)
      reads this
    {
      deletingId == Some(id)
    }

    constructor ()
      ensures Valid()
      ensures podcasts == Array([]) && loading && error == None && deletingId == None
      ensures draftPage == 1 && publishedPage == 1
    {
      podcasts, loading, error, deletingId := Array([]), true, None, None;
      draftPage, publishedPage := 1, 1;
    }

    /** `fetchPodcasts`: the list becomes `response.data.data || []`; a failure keeps it and shows the error. */
    method FetchPodcasts(reply: ListReply)
      modifies this
      ensures !loading && deletingId == old(deletingId)
      ensures draftPage == old(draftPage) && publishedPage == old(publishedPage)
      ensures reply.Listed? ==> podcasts == OrEmpty(reply.data) && error == old(error)
      ensures reply.ListFailed? ==> podcasts == old(podcasts) && error == Some("Failed to fetch podcasts")
    {
      if reply.Listed? {
        podcasts := OrEmpty(reply.data);
      } else {
        error := Some("Failed to fetch podcasts");
      }
      loading := false;
    }

    /** A numbered page button. */
    method GoTo(section: Section, page: nat)
      requires Valid() && 1 <= page <= TotalPages(|SectionItems(section)|)
      modifies this
      ensures Valid()
      ensures CurrentPage(section) == page
      ensures podcasts == old(podcasts) && deletingId == old(deletingId)
      ensures section == DraftSection ==> publishedPage == old(publishedPage)
      ensures section == PublishedSection ==> draftPage == old(draftPage)
    {
      if section == DraftSection {
        draftPage := page;
      } else {
        publishedPage := page;
      }
    }

    /** The Previous button of a section (shown only when the section is not empty). */
    method Previous(section: Section)
      requires Valid()
      modifies this
      ensures Valid()
      ensures CurrentPage(section) == PreviousPage(old(CurrentPage(section)))
      ensures podcasts == old(podcasts) && deletingId == old(deletingId)
      ensures section == DraftSection ==> publishedPage == old(publishedPage)
      ensures section == PublishedSection ==> draftPage == old(draftPage)
    {
      if section == DraftSection {
        draftPage := PreviousPage(draftPage);
      } else {
        publishedPage := PreviousPage(publishedPage);
      }
    }

    /** The Next button of a section, which is shown only when the section is not empty. */
    method Next(section: Section)
      requires Valid() && |SectionItems(section)| > 0
      modifies this
      ensures Valid()
      ensures CurrentPage(section) == NextPage(old(CurrentPage(section)), TotalPages(|SectionItems(section)|))
      ensures podcasts == old(podcasts) && deletingId == old(deletingId)
      ensures section == DraftSection ==> publishedPage == old(publishedPage)
      ensures section == PublishedSection ==> draftPage == old(draftPage)
    {
      var total := TotalPages(|SectionItems(section)|);
      if section == DraftSection {
        draftPage := NextPage(draftPage, total);
      } else {
        publishedPage := NextPage(publishedPage, total);
      }
    }

    /**
     * `handleDelete`: without confirmation nothing happens. Otherwise the
     * podcast is marked as being deleted while the request runs, the list is
     * fetched again when the server reports success, and the mark is cleared
     * whatever the outcome.
     */
    method HandleDelete(id: string, confirmed: bool, deleted: bool, refetch: ListReply)
      returns (sent: Option<string>)
      modifies this
      ensures sent == (if confirmed then Some(id) else None)
      ensures confirmed ==> deletingId == None
      ensures !confirmed ==> deletingId == old(deletingId)
      ensures draftPage == old(draftPage) && publishedPage == old(publishedPage)
      ensures confirmed && deleted && refetch.Listed? ==> podcasts == OrEmpty(refetch.data)
      ensures !(confirmed && deleted && refetch.Listed?) ==> podcasts == old(podcasts)
      ensures !(confirmed && deleted) ==> error == old(error) && loading == old(loading)
      ensures confirmed && deleted ==> !loading
      ensures confirmed && deleted && refetch.Listed? ==> error == old(error)
      ensures confirmed && deleted && refetch.ListFailed? ==> error == Some("Failed to fetch podcasts")
    {
      if !confirmed {
        return None;
      }
      deletingId := Some(id);
      sent := Some(id);
      if deleted {
        FetchPodcasts(refetch);
      }
      deletingId := None;
    }
  }

  function OrEmpty(data: Option<JsArray<Podcast>>): JsArray<Podcast>
  {
    if data.Some? then data.value else Array([])
  }
}
