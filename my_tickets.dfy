/**
 * The buyer's ticket list: loaded once per session token, then narrowed by a status
 * choice and a name search, each skipped while empty.
 */
module MyTickets {
  import opened Wrappers
  import opened Seqs
  import opened Text

  /** One ticket as the list shows it. */
  datatype Ticket = Ticket(id: nat, nombre: string, estado: string, ubicacion: string)

  const NotAuthenticated: string := "No estás autenticado."
  const LoadFailed: string := "No se pudieron cargar tus entradas. Revisa la consola para más detalles."

  // ---------------------------------------------------------------- filters

  /** No status chosen passes every ticket; otherwise the status must be exactly the one chosen. */
  predicate StatusOk(filter: string, t: Ticket)
  {
    filter == "" || t.estado == filter
  }

  /** No search passes every ticket; otherwise the lower-cased name includes the lower-cased term. */
  predicate NameOk(term: string, t: Ticket)
  {
    term == "" || ContainsIgnoringCase(t.nombre, term)
  }

  function StatusTest(filter: string): Ticket -> bool
  {
    t => StatusOk(filter, t)
  }

  function NameTest(term: string): Ticket -> bool
  {
    t => NameOk(term, t)
  }

  function BothTest(filter: string, term: string): Ticket -> bool
  {
    t => StatusOk(filter, t) && NameOk(term, t)
  }

  /** The tickets that pass both filters, in their original order. */
  function Visible(all: seq<Ticket>, filter: string, term: string): seq<Ticket>
  {
    Filter(all, BothTest(filter, term))
  }

  /** The list shown is an order-preserving selection of exactly the tickets passing both filters. */
  lemma VisibleSpec(all: seq<Ticket>, filter: string, term: string)
    ensures IsSubsequence(Visible(all, filter, term), all)
    ensures forall t :: t in Visible(all, filter, term) <==> t in all && StatusOk(filter, t) && NameOk(term, t)
    ensures filter == "" && term == "" ==> Visible(all, filter, term) == all
  {
    FilterIsSubsequence(all, BothTest(filter, term));
    forall t ensures t in Visible(all, filter, term) <==> t in all && StatusOk(filter, t) && NameOk(term, t) {
      FilterMember(all, BothTest(filter, term), t);
    }
    if filter == "" && term == "" {
      FilterKeepsAll(all, BothTest(filter, term));
    }
  }

  // ---------------------------------------------------------------- page state

  class TicketsPage {
    var allTickets: seq<Ticket>
    var filteredTickets: seq<Ticket>
    var isLoading: bool
    var error: Option<string>
    var searchTerm: string
    var filter: string

    /** The list shown is the one both filters leave. */
    predicate Synced()
      reads this
    {
      filteredTickets == Visible(allTickets, filter, searchTerm)
    }

    constructor ()
      ensures Synced()
      ensures allTickets == [] && isLoading && error.None? && searchTerm == "" && filter == ""
    {
      allTickets := [];
      filteredTickets := [];
      isLoading := true;
      error := None;
      searchTerm := "";
      filter := "";
    }

    /** The filter effect: the status filter when one is chosen, then the search when there is one. */
    method Refilter()
      modifies this
      ensures Synced()
      ensures allTickets == old(allTickets) && filter == old(filter) && searchTerm == old(searchTerm)
      ensures isLoading == old(isLoading) && error == old(error)
    {
      var tickets := allTickets;
      if filter != "" {
        tickets := Filter(tickets, StatusTest(filter));
      }
      if searchTerm != "" {
        tickets := Filter(tickets, NameTest(searchTerm));
      }
      var both := BothTest(filter, searchTerm);
      if filter != "" && searchTerm != "" {
        FilterCompose(allTickets, StatusTest(filter), NameTest(searchTerm), both);
      } else if filter != "" {
        FilterCongruent(allTickets, StatusTest(filter), both);
      } else if searchTerm != "" {
        FilterCongruent(allTickets, NameTest(searchTerm), both);
      } else {
        FilterKeepsAll(allTickets, both);
      }
      filteredTickets := tickets;
    }

    /** Choosing a status. */
    method SetFilter(status: string)
      modifies this
      ensures Synced()
      ensures filter == status && allTickets == old(allTickets) && searchTerm == old(searchTerm)
      ensures isLoading == old(isLoading) && error == old(error)
    {
      filter := status;
      Refilter();
    }

    /** Typing in the search box. */
    method SetSearch(term: string)
      modifies this
      ensures Synced()
      ensures searchTerm == term && allTickets == old(allTickets) && filter == old(filter)
      ensures isLoading == old(isLoading) && error == old(error)
    {
      searchTerm := term;
      Refilter();
    }

    /**
     * The load effect, with the reply as an input (`None` when the request fails): returns
     * whether a request was made. Without a token an error is set instead.
     */
    method Fetch(token: Option<string>, reply: Option<seq<Ticket>>) returns (requested: bool)
      modifies this
      ensures Synced()
      ensures requested <==> Truthy(token)
      ensures !isLoading
      ensures !requested ==> allTickets == old(allTickets) && error == Some(NotAuthenticated)
      ensures requested && reply.Some? ==> allTickets == reply.value && error == old(error)
      ensures requested && reply.None? ==> allTickets == old(allTickets) && error == Some(LoadFailed)
      ensures filter == old(filter) && searchTerm == old(searchTerm)
    {
      if !Truthy(token) {
        isLoading := false;
        error := Some(NotAuthenticated);
        Refilter();
        return false;
      }
      if reply.Some? {
        allTickets := reply.value;
        filteredTickets := reply.value;
      } else {
        error := Some(LoadFailed);
      }
      isLoading := false;
      Refilter();
      return true;
    }
  }
}
