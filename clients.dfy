/** The back-office client list: a searchable list, the selected client's appointment history,
    and the dialog that produces a testimonial link for a finished appointment. */
module Clients {
  import opened Api
  import opened JsText
  import opened JsArray
  import opened TestimonialLinks

  datatype Client = Client(id: string, name: string, phone: string)

  /** One past appointment of the selected client. */
  datatype HistoryItem = HistoryItem(id: string, date: Option<string>, time: string, status: string,
                                     serviceName: Option<string>)

  /** The shapes of the client-list body the page handles: a paged object with `items`,
      a bare array, or null. */
  datatype ClientsBody = Paged(items: seq<Client>) | Bare(list: seq<Client>) | Null

  /** The client-detail body; `appointments` may be missing. */
  datatype ClientDetail = ClientDetail(appointments: Option<seq<HistoryItem>>)

  /** The search test: the lower-cased search text occurs in the lower-cased name or phone.
      The empty search matches every client, and a match needs a field at least as long as
      the search. */
  function MatchesSearch(c: Client, search: string): (m: bool)
    ensures search == [] ==> m
    ensures m ==> |search| <= |c.name| || |search| <= |c.phone|
  {
    IncludesEmpty(Lower(c.name));
    Includes(Lower(c.name), Lower(search)) || Includes(Lower(c.phone), Lower(search))
  }

  function Matches(search: string): Client -> bool {
    c => MatchesSearch(c, search)
  }

  /** `filteredClients`: the matching clients, in the loaded order. */
  function FilterClients(clients: seq<Client>, search: string): (shown: seq<Client>)
    ensures |shown| <= |clients|
    ensures forall c :: c in shown <==> c in clients && MatchesSearch(c, search)
  {
    Filter(clients, Matches(search))
  }

  /** The list shows exactly the clients whose name or phone contains the search text, ignoring
      case, in the loaded order. */
  lemma ShownIffMatches(clients: seq<Client>, search: string, c: Client)
    ensures c in FilterClients(clients, search) <==> c in clients && MatchesSearch(c, search)
  {
  }

  /** An empty search shows every client. */
  lemma EmptySearchShowsAll(clients: seq<Client>)
    ensures FilterClients(clients, "") == clients
  {
    forall i | 0 <= i < |clients|
      ensures Matches("")(clients[i])
    {
      IncludesEmpty(Lower(clients[i].name));
    }
    FilterKeepsAll(clients, Matches(""));
  }

  /** Case does not matter: searching the lower-cased text shows the same list. */
  lemma SearchIgnoresCase(clients: seq<Client>, search: string)
    ensures FilterClients(clients, Lower(search)) == FilterClients(clients, search)
  {
    LowerIdempotent(search);
    FilterCongruent(clients, Matches(Lower(search)), Matches(search));
  }

  /** Typing more characters only narrows the list: the longer search shows what filtering the
      current list again would show. */
  lemma TypingNarrows(clients: seq<Client>, search: string, more: string)
    ensures FilterClients(FilterClients(clients, search), search + more) == FilterClients(clients, search + more)
    ensures |FilterClients(clients, search + more)| <= |FilterClients(clients, search)|
  {
    LowerAppend(search, more);
    assert OccursAt(Lower(search + more), Lower(search), 0);
    forall i | 0 <= i < |clients| && Matches(search + more)(clients[i])
      ensures Matches(search)(clients[i])
    {
      if Includes(Lower(clients[i].name), Lower(search + more)) {
        IncludesPiece(Lower(clients[i].name), Lower(search + more), Lower(search), 0);
      } else {
        IncludesPiece(Lower(clients[i].phone), Lower(search + more), Lower(search), 0);
      }
    }
    FilterSubsumed(clients, Matches(search), Matches(search + more));
  }

  /** The service cell of a history row: `apt.service?.name || "-"`. */
  function ServiceCell(item: HistoryItem): (cell: string)
    ensures cell != ""
    ensures cell == "-" <==> !Truthy(item.serviceName) || item.serviceName.value == "-"
  {
    if Truthy(item.serviceName) then item.serviceName.value else "-"
  }

  /** The invitation the page puts in the WhatsApp message (before URL encoding). */
  function InviteMessage(name: string, link: string): (text: string)
    ensures Includes(text, name) && Includes(text, link)
  {
    var head := "Ol\U{00E1} ";
    var middle := "! \U{1F44B}\n\nGostaria de saber sua opini\U{00E3}o sobre o atendimento! Deixe seu depoimento aqui:\n\n";
    var tail := "\n\nObrigada! \U{1F495}";
    var text := head + name + middle + link + tail;
    assert text[|head|..|head| + |name|] == name;
    assert OccursAt(text, name, |head|);
    assert text[|head| + |name| + |middle|..|head| + |name| + |middle| + |link|] == link;
    assert OccursAt(text, link, |head| + |name| + |middle|);
    text
  }

  class ClientsPage {
    const origin: string                  // `window.location.origin`
    var clients: seq<Client>
    var search: string
    var selectedClient: Option<Client>
    var history: seq<HistoryItem>
    var showTestimonialModal: bool
    var selectedAppointment: Option<HistoryItem>
    var testimonialLink: Option<string>

    /** The dialog state: nothing is remembered while it is closed, and it only ever concerns
        a finished appointment. */
    ghost predicate Valid()
      reads this
    {
      (!showTestimonialModal ==> selectedAppointment == None && testimonialLink == None)
      && (selectedAppointment.Some? ==> selectedAppointment.value.status == "done")
    }

    constructor (origin: string)
      ensures Valid() && this.origin == origin
      ensures clients == [] && search == "" && selectedClient == None && history == []
      ensures !showTestimonialModal && selectedAppointment == None && testimonialLink == None
    {
      this.origin := origin;
      clients := [];
      search := "";
      selectedClient := None;
      history := [];
      showTestimonialModal := false;
      selectedAppointment := None;
      testimonialLink := None;
    }

    /** The rows on screen. */
    function Shown(): seq<Client>
      reads this
    {
      FilterClients(clients, search)
    }

    /** `loadClients`: `data.items || data || []`. A null body makes `data.items` throw, which
        is caught like a failed request and keeps the list. */
    method LoadClients(reply: Reply<ClientsBody>)
      modifies this`clients
      ensures reply.Ok? && reply.value.Paged? ==> clients == reply.value.items
      ensures reply.Ok? && reply.value.Bare? ==> clients == reply.value.list
      ensures reply.Fail? || (reply.Ok? && reply.value.Null?) ==> clients == old(clients)
    {
      match reply
      case Ok(Paged(items)) => clients := items;
      case Ok(Bare(list)) => clients := list;
      case Ok(Null) =>
      case Fail(_, _) =>
    }

    /** Typing into the search box. */
    method SetSearch(text: string)
      modifies this`search
      ensures search == text
    {
      search := text;
    }

    /** `handleSelectClient`: the client is selected at once; the history is replaced by the
        fetched one (`data.appointments || []`), and a failure (or a null body) leaves the
        previous client's history on screen. */
    method SelectClient(c: Client, reply: Reply<Option<ClientDetail>>) returns (requested: string)
      requires c in Shown()
      modifies this`selectedClient, this`history
      ensures requested == c.id && selectedClient == Some(c)
      ensures reply.Ok? && reply.value.Some? ==> history == OrEmpty(reply.value.value.appointments)
      ensures reply.Fail? || (reply.Ok? && reply.value.None?) ==> history == old(history)
    {
      selectedClient := Some(c);
      requested := c.id;
      if reply.Ok? && reply.value.Some? {
        history := OrEmpty(reply.value.value.appointments);
      }
    }

    /** The "generate testimonial link" button, shown only on finished appointments: it opens
        the dialog and runs the get-or-generate sequence; the dialog shows the public address
        of the link obtained, and keeps what it showed when the sequence fails. */
    method GenerateTestimonialLink(apt: HistoryItem, first: Reply<Option<LinkInfo>>, generated: Reply<()>,
                                   second: Reply<Option<LinkInfo>>) returns (calls: seq<Call>)
      requires Valid() && apt in history && apt.status == "done"
      modifies this`showTestimonialModal, this`selectedAppointment, this`testimonialLink
      ensures Valid() && showTestimonialModal && selectedAppointment == Some(apt)
      ensures calls == GetOrGenerate(apt.id, first, generated, second).calls
      ensures var info := GetOrGenerate(apt.id, first, generated, second).info;
              (info.Some? ==> testimonialLink == Some(LinkUrl(origin, info.value.uniqueLink)))
              && (info.None? ==> testimonialLink == old(testimonialLink))
    {
      showTestimonialModal := true;
      selectedAppointment := Some(apt);
      var out := GetOrGenerate(apt.id, first, generated, second);
      calls := out.calls;
      if out.info.Some? {
        testimonialLink := Some(LinkUrl(origin, out.info.value.uniqueLink));
      }
    }

    /** `handleCopyLink`: the text put on the clipboard, if any. */
    method CopyLink() returns (copied: Option<string>)
      ensures copied.Some? <==> Truthy(testimonialLink)
      ensures copied.Some? ==> copied == testimonialLink
    {
      copied := if Truthy(testimonialLink) then testimonialLink else None;
    }

    /** `handleSendWhatsApp`: with a link and a selected client, the WhatsApp address url
        carries the client's phone digits and an invitation holding the client's name and the
        link; otherwise nothing happens. */
    method SendWhatsApp() returns (url: Option<string>)
      ensures url.Some? <==> Truthy(testimonialLink) && selectedClient.Some?
      ensures url.Some? ==>
                url.value == WhatsAppUrl(selectedClient.value.phone,
                                            InviteMessage(selectedClient.value.name, testimonialLink.value))
    {
      if !Truthy(testimonialLink) || selectedClient.None? {
        return None;
      }
      url := Some(WhatsAppUrl(selectedClient.value.phone,
                                 InviteMessage(selectedClient.value.name, testimonialLink.value)));
    }

    /** `closeModal`: the dialog closes and forgets its appointment and link. */
    method CloseModal()
      modifies this`showTestimonialModal, this`selectedAppointment, this`testimonialLink
      ensures Valid() && !showTestimonialModal && selectedAppointment == None && testimonialLink == None
    {
      showTestimonialModal := false;
      selectedAppointment := None;
      testimonialLink := None;
    }
  }
}
