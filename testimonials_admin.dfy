/** The back-office testimonial list: pending and published tabs with their counts, the star
    display, and the link actions of pending testimonials. */
module TestimonialsAdmin {
  import opened Api
  import opened JsArray
  import opened TestimonialLinks
  import TestimonialPage

  datatype Testimonial = Testimonial(id: string, appointmentId: string, clientName: string,
                                     clientPhone: string, rating: int, text: string,
                                     status: string, uniqueLink: string, createdAt: string)

  datatype Tab = Pending | Published

  function TabStatus(tab: Tab): string {
    match tab
    case Pending => "pending"
    case Published => "published"
  }

  function HasStatus(status: string): Testimonial -> bool {
    (t: Testimonial) => t.status == status
  }

  /** `testimonials.filter(t => t.status === status)`: the tab lists and the badge counts. */
  function WithStatus(ts: seq<Testimonial>, status: string): seq<Testimonial> {
    Filter(ts, HasStatus(status))
  }

  /** `filteredTestimonials`: the list of the selected tab. */
  function TabList(ts: seq<Testimonial>, tab: Tab): (shown: seq<Testimonial>)
    ensures forall t :: t in shown <==> t in ts && t.status == TabStatus(tab)
  {
    WithStatus(ts, TabStatus(tab))
  }

  /** The two badges never count more than there are testimonials, and count all of them
      exactly when every testimonial is pending or published. */
  lemma BadgesCountEachOnce(ts: seq<Testimonial>)
    ensures |WithStatus(ts, "pending")| + |WithStatus(ts, "published")| <= |ts|
    ensures (forall t :: t in ts ==> t.status in {"pending", "published"}) ==>
              |WithStatus(ts, "pending")| + |WithStatus(ts, "published")| == |ts|
  {
    FilterDisjointCount(ts, HasStatus("pending"), HasStatus("published"));
  }

  /** `renderStars`: star `i` (from 0) is gold when `i < rating`. */
  function RenderStars(rating: int): (row: seq<bool>)
    ensures |row| == 5
    ensures forall i :: 0 <= i < 5 ==> (row[i] <==> i < rating)
  {
    seq(5, i => i < rating)
  }

  /** The back office draws a rating with the same stars the client filled in when giving it. */
  lemma StarsAgreeWithPicker(rating: int)
    ensures RenderStars(rating) == TestimonialPage.StarRow(rating)
  {
    var a, b := RenderStars(rating), TestimonialPage.StarRow(rating);
    assert forall i :: 0 <= i < 5 ==> a[i] == b[i];
  }

  /** The status badge of a card. */
  function StatusBadge(status: string): (text: string)
    ensures text == "Publicado" <==> status == "published"
    ensures text == "Pendente" <==> status != "published"
  {
    if status == "published" then "Publicado" else "Pendente"
  }

  /** Every card of a tab wears that tab's badge: "Publicado" on the published tab and
      "Pendente" on the pending tab. */
  lemma BadgeMatchesTab(ts: seq<Testimonial>, tab: Tab, t: Testimonial)
    requires t in TabList(ts, tab)
    ensures StatusBadge(t.status) == (if tab == Published then "Publicado" else "Pendente")
  {
  }

  /** `testimonials.filter((t) => t.id !== id)`. */
  function RemoveTestimonial(ts: seq<Testimonial>, id: string): (r: seq<Testimonial>)
    ensures forall t :: t in r <==> t in ts && t.id != id
    ensures |r| <= |ts|
  {
    Filter(ts, (t: Testimonial) => t.id != id)
  }

  /** Removing by id keeps the remaining testimonials in order: it removes from each part of
      the list separately, and leaves a list without that id unchanged. */
  lemma RemoveTestimonialKeepsOrder(a: seq<Testimonial>, b: seq<Testimonial>, id: string)
    ensures RemoveTestimonial(a + b, id) == RemoveTestimonial(a, id) + RemoveTestimonial(b, id)
    ensures (forall t :: t in a ==> t.id != id) ==> RemoveTestimonial(a, id) == a
  {
    FilterAppend(a, b, (t: Testimonial) => t.id != id);
    if forall t :: t in a ==> t.id != id {
      FilterKeepsAll(a, (t: Testimonial) => t.id != id);
    }
  }

  /** The copy-link and WhatsApp buttons appear only on pending testimonials. */
  predicate ActionsShown(t: Testimonial) {
    t.status == "pending"
  }

  class TestimonialsPage {
    const origin: string                  // `window.location.origin`
    var testimonials: seq<Testimonial>
    var selectedTab: Tab

    constructor (origin: string)
      ensures this.origin == origin && testimonials == [] && selectedTab == Pending
    {
      this.origin := origin;
      testimonials := [];
      selectedTab := Pending;
    }

    function Shown(): seq<Testimonial>
      reads this
    {
      TabList(testimonials, selectedTab)
    }

    /** `loadTestimonials`: the fetched list; a failure keeps the list shown. */
    method Load(reply: Reply<seq<Testimonial>>)
      modifies this`testimonials
      ensures reply.Ok? ==> testimonials == reply.value
      ensures reply.Fail? ==> testimonials == old(testimonials)
    {
      if reply.Ok? {
        testimonials := reply.value;
      }
    }

    method SelectTab(tab: Tab)
      modifies this`selectedTab
      ensures selectedTab == tab
    {
      selectedTab := tab;
    }

    /** `handleCopyLink`: the public address of a pending testimonial's link. */
    method CopyLink(t: Testimonial) returns (copied: string)
      requires t in Shown() && ActionsShown(t)
      ensures copied == LinkUrl(origin, t.uniqueLink)
    {
      copied := LinkUrl(origin, t.uniqueLink);
    }

    /** `handleSendWhatsApp`: the get-or-generate sequence for the testimonial's appointment;
        when it yields the link's details, the WhatsApp address opened carries the client's
        phone digits and the server's `whatsappMessage`; otherwise nothing opens. The list is
        not changed. */
    method SendWhatsApp(t: Testimonial, first: Reply<Option<LinkInfo>>, generated: Reply<()>,
                        second: Reply<Option<LinkInfo>>) returns (calls: seq<Call>, url: Option<string>)
      requires t in Shown() && ActionsShown(t)
      ensures calls == GetOrGenerate(t.appointmentId, first, generated, second).calls
      ensures var info := GetOrGenerate(t.appointmentId, first, generated, second).info;
              (url.Some? <==> info.Some?)
              && (url.Some? ==> url.value == WhatsAppUrl(t.clientPhone, info.value.whatsappMessage))
    {
      var out := GetOrGenerate(t.appointmentId, first, generated, second);
      calls := out.calls;
      url := if out.info.Some? then Some(WhatsAppUrl(t.clientPhone, out.info.value.whatsappMessage)) else None;
    }

    /** `handleDelete`: after the confirmation, one delete request; on success exactly the
        testimonials with that id leave the list, on failure nothing changes. */
    method Delete(id: string, confirmed: bool, reply: Reply<()>) returns (requested: Option<string>)
      modifies this`testimonials
      ensures requested.Some? <==> confirmed
      ensures requested.Some? ==> requested.value == id
      ensures confirmed && reply.Ok? ==> testimonials == RemoveTestimonial(old(testimonials), id)
      ensures !confirmed || reply.Fail? ==> testimonials == old(testimonials)
    {
      if !confirmed {
        return None;
      }
      requested := Some(id);
      if reply.Ok? {
        testimonials := RemoveTestimonial(testimonials, id);
      }
    }
  }
}
