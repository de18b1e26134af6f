/**
 * The orders page's list: the static orders narrowed by a status slug chosen
 * in the select ("all" keeps every status) and by a case-insensitive search
 * over the client name, the id and the project type (empty keeps every order).
 */
module OrdersPage {
  import opened Domain
  import Seqs
  import Text

  /** The slug a status is compared as: lowercased, its first space turned into "-". */
  function StatusSlug(status: string): string
  {
    Text.ReplaceFirst(Text.Lower(status), ' ', '-')
  }

  /** A status whose lowercase has no space slugs to that lowercase. */
  lemma OneWordSlug(status: string, lowered: string)
    requires Text.Lower(status) == lowered && ' ' !in lowered
    ensures StatusSlug(status) == lowered
  {
  }

  /** A status whose lowercase has its first space at `k` slugs to that lowercase with a dash at `k`. */
  lemma SpacedSlug(status: string, lowered: string, k: nat)
    requires Text.Lower(status) == lowered
    requires k < |lowered| && lowered[k] == ' ' && ' ' !in lowered[..k]
    ensures StatusSlug(status) == lowered[..k] + "-" + lowered[k + 1..]
  {
    assert Text.FirstIndex(lowered, ' ') == k;
  }

  /** The lowercase of "In Progress", with no space before its third character. */
  lemma LowerInProgress()
    ensures Text.Lower("In Progress") == "in progress" && ' ' !in "in progress"[..2]
  {
  }

  /** "In Progress" becomes "in-progress": the space turns into a dash. */
  lemma InProgressSlug()
    ensures StatusSlug("In Progress") == "in-progress"
  {
    LowerInProgress();
    SpacedSlug("In Progress", "in progress", 2);
    assert "in progress"[..2] + "-" + "in progress"[3..] == "in-progress";
  }

  /** The statuses without a space are only lowercased. */
  lemma OneWordSlugs()
    ensures StatusSlug("Pending") == "pending"
    ensures StatusSlug("Completed") == "completed"
    ensures StatusSlug("Cancelled") == "cancelled"
  {
    assert Text.Lower("Pending") == "pending";
    OneWordSlug("Pending", "pending");
    assert Text.Lower("Completed") == "completed";
    OneWordSlug("Completed", "completed");
    assert Text.Lower("Cancelled") == "cancelled";
    OneWordSlug("Cancelled", "cancelled");
  }

  /** The status filter's test. */
  predicate StatusMatches(statusFilter: string, o: Order)
  {
    StatusSlug(o.status) == statusFilter
  }

  /** The search's test: the lowercased query inside the lowercased client name, id or project type. */
  predicate SearchMatches(query: string, o: Order)
  {
    var q := Text.Lower(query);
    Text.Contains(Text.Lower(o.clientName), q) || Text.Contains(Text.Lower(o.id), q)
    || Text.Contains(Text.Lower(o.projectType), q)
  }

  /** `filteredData`: the status filter first, unless "all", then the search, unless empty. */
  function FilteredOrders(data: seq<Order>, statusFilter: string, searchQuery: string): (r: seq<Order>)
    ensures Seqs.IsSubsequence(r, data)
    ensures statusFilter == "all" && searchQuery == "" ==> r == data
    ensures forall i :: 0 <= i < |r| ==>
      && (statusFilter == "all" || StatusMatches(statusFilter, r[i]))
      && (searchQuery == "" || SearchMatches(searchQuery, r[i]))
    ensures forall i ::
      && 0 <= i < |data|
      && (statusFilter == "all" || StatusMatches(statusFilter, data[i]))
      && (searchQuery == "" || SearchMatches(searchQuery, data[i]))
      ==> data[i] in r
  {
    var byStatus := if statusFilter != "all" then Seqs.Filter(data, o => StatusMatches(statusFilter, o)) else data;
    var r := if searchQuery != "" then Seqs.Filter(byStatus, o => SearchMatches(searchQuery, o)) else byStatus;
    if statusFilter != "all" && searchQuery != "" then
      Seqs.FilterFilter(data, o => StatusMatches(statusFilter, o), o => SearchMatches(searchQuery, o));
      r
    else
      Seqs.SubsequenceOfSelf(data);
      r
  }

  /** The two filters commute: searching first and then filtering by status gives the same list. */
  lemma FiltersCommute(data: seq<Order>, statusFilter: string, searchQuery: string)
    requires statusFilter != "all" && searchQuery != ""
    ensures FilteredOrders(data, statusFilter, searchQuery)
      == Seqs.Filter(Seqs.Filter(data, o => SearchMatches(searchQuery, o)), o => StatusMatches(statusFilter, o))
  {
    Seqs.FilterFilter(data, o => StatusMatches(statusFilter, o), o => SearchMatches(searchQuery, o));
  }

  /** An "in-progress" selection keeps exactly the orders whose status is "In Progress", among valid ones. */
  lemma InProgressSlugSelects(o: Order)
    requires IsOrderStatus(o.status)
    ensures StatusMatches("in-progress", o) <==> o.status == "In Progress"
  {
    InProgressSlug();
    OneWordSlugs();
  }
}
