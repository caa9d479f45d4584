/** The proposals dashboard (`src/app/page.tsx`): the search filter over
    the loaded proposals, the local removal of a deleted proposal, and the
    handling of the load result. */
module Dashboard {
  import opened Wrappers
  import opened JsText
  import opened Types
  import Seqs

  /** The filter's test: the lower-cased name contains the lower-cased term,
      or the application number is present and non-empty and its lower-cased
      form contains it. */
  predicate Matches(p: Proposal, searchTerm: string)
  {
    Includes(ToLower(p.name), ToLower(searchTerm)) ||
    (Truthy(p.applicationNumber) && Includes(ToLower(p.applicationNumber.value), ToLower(searchTerm)))
  }

  /** `filteredProposals`. */
  function SearchFilter(ps: seq<Proposal>, searchTerm: string): seq<Proposal>
  {
    Seqs.Filter(ps, (p: Proposal) => Matches(p, searchTerm))
  }

  /** A proposal matches exactly when the lower-cased term occurs somewhere
      in its lower-cased name, or in its non-empty application number. */
  lemma MatchesIffOccurs(p: Proposal, searchTerm: string)
    ensures Matches(p, searchTerm) <==>
      (exists i :: OccursAt(ToLower(p.name), ToLower(searchTerm), i)) ||
      (Truthy(p.applicationNumber) && exists i :: OccursAt(ToLower(p.applicationNumber.value), ToLower(searchTerm), i))
  {
    IncludesIffOccurs(ToLower(p.name), ToLower(searchTerm));
    if Truthy(p.applicationNumber) {
      IncludesIffOccurs(ToLower(p.applicationNumber.value), ToLower(searchTerm));
    }
  }

  /** The filter keeps exactly the matching proposals, each as often as it
      is listed, in their original order. */
  lemma SearchFilterKeepsMatches(ps: seq<Proposal>, searchTerm: string)
    ensures forall p :: p in SearchFilter(ps, searchTerm) <==> p in ps && Matches(p, searchTerm)
    ensures forall p :: multiset(SearchFilter(ps, searchTerm))[p] == if Matches(p, searchTerm) then multiset(ps)[p] else 0
    ensures Seqs.IsSubsequence(SearchFilter(ps, searchTerm), ps)
  {
    Seqs.FilterCounts(ps, (p: Proposal) => Matches(p, searchTerm));
    var r := SearchFilter(ps, searchTerm);
    forall p | p in r
      ensures p in ps && Matches(p, searchTerm)
    {
      var i :| 0 <= i < |r| && r[i] == p;
    }
    forall p | p in ps && Matches(p, searchTerm)
      ensures p in r
    {
      var i :| 0 <= i < |ps| && ps[i] == p;
    }
    Seqs.FilterIsSubsequence(ps, (p: Proposal) => Matches(p, searchTerm));
  }

  /** An empty search term keeps every proposal. */
  lemma EmptyTermKeepsAll(ps: seq<Proposal>)
    ensures SearchFilter(ps, "") == ps
  {
    forall i | 0 <= i < |ps|
      ensures Matches(ps[i], "")
    {
      IncludesEmpty(ToLower(ps[i].name));
    }
  }

  /** Searching is case-insensitive: terms that lower-case alike filter
      alike. */
  lemma SearchIgnoresCase(ps: seq<Proposal>, a: string, b: string)
    requires ToLower(a) == ToLower(b)
    ensures SearchFilter(ps, a) == SearchFilter(ps, b)
  {
    Seqs.FilterSameTest(ps, (p: Proposal) => Matches(p, a), (p: Proposal) => Matches(p, b));
  }

  /** `prevProposals.filter(p => p.id !== deletedProposalId)`. */
  function WithoutId(ps: seq<Proposal>, id: int): seq<Proposal>
  {
    Seqs.Filter(ps, (p: Proposal) => p.id != id)
  }

  /** Removing a deleted proposal drops every proposal with its id and keeps
      every occurrence of all the others, in order. */
  lemma WithoutIdRemovesOnlyThatId(ps: seq<Proposal>, id: int)
    ensures forall i :: 0 <= i < |WithoutId(ps, id)| ==> WithoutId(ps, id)[i].id != id
    ensures forall i :: 0 <= i < |ps| && ps[i].id != id ==> ps[i] in WithoutId(ps, id)
    ensures forall p :: multiset(WithoutId(ps, id))[p] == if p.id != id then multiset(ps)[p] else 0
    ensures Seqs.IsSubsequence(WithoutId(ps, id), ps)
    ensures (forall i :: 0 <= i < |ps| ==> ps[i].id != id) ==> WithoutId(ps, id) == ps
  {
    Seqs.FilterCounts(ps, (p: Proposal) => p.id != id);
    Seqs.FilterIsSubsequence(ps, (p: Proposal) => p.id != id);
  }

  /** The dashboard's state. */
  class DashboardState {
    var proposals: seq<Proposal>
    var isLoading: bool
    var error: Option<string>
    var searchTerm: string

    constructor ()
      ensures proposals == [] && isLoading && error == None && searchTerm == ""
    {
      proposals := [];
      isLoading := true;
      error := None;
      searchTerm := "";
    }

    /** The proposals drawn as cards. */
    function Filtered(): seq<Proposal>
      reads this
    {
      SearchFilter(proposals, searchTerm)
    }

    /** The hint shown when no card is drawn. */
    function EmptyHint(): (r: string)
      reads this
      ensures searchTerm != "" <==> r == "Try adjusting your search term."
    {
      if searchTerm != "" then "Try adjusting your search term." else "Get started by creating a new proposal."
    }

    method SetSearchTerm(term: string)
      modifies this
      ensures searchTerm == term
      ensures proposals == old(proposals) && isLoading == old(isLoading) && error == old(error)
    {
      searchTerm := term;
    }

    /** `fetchProposals`, given what the awaited `getProposalsAction` did. An
        error empties the list, success takes the returned list (or none), and
        loading ends on every path. */
    method FetchProposals(result: Outcome<Reply<seq<Proposal>>>)
      modifies this
      ensures result.Returned? && Truthy(result.value.error) ==> error == result.value.error && proposals == []
      ensures result.Returned? && !Truthy(result.value.error) ==>
                error == None &&
                proposals == (if result.value.value.Some? then result.value.value.value else [])
      ensures result.Threw? ==>
                error == Some("Failed to load proposals. Please try again later: " + result.message) && proposals == []
      ensures !isLoading && searchTerm == old(searchTerm)
    {
      isLoading := true;
      error := None;
      match result {
        case Returned(reply) =>
          if Truthy(reply.error) {
            error := reply.error;
            proposals := [];
          } else {
            proposals := if reply.value.Some? then reply.value.value else [];
          }
        case Threw(message) =>
          error := Some("Failed to load proposals. Please try again later: " + message);
          proposals := [];
      }
      isLoading := false;
    }

    /** `handleProposalDeleted`: the local list loses the deleted proposal. */
    method HandleProposalDeleted(deletedProposalId: int)
      modifies this
      ensures proposals == WithoutId(old(proposals), deletedProposalId)
      ensures isLoading == old(isLoading) && error == old(error) && searchTerm == old(searchTerm)
    {
      proposals := WithoutId(proposals, deletedProposalId);
    }
  }
}
