/** The testimonial-link protocol the back office follows for a finished appointment: ask for
    the link's details, and when the server answers 404 (no link yet) generate one and ask again.
    The client list and the testimonial list both follow it. */
module TestimonialLinks {
  import opened Api
  import opened JsText

  /** What `link-info` returns for an appointment. */
  datatype LinkInfo = LinkInfo(uniqueLink: string, whatsappMessage: string)

  /** The two requests of the protocol, each naming the appointment. */
  datatype Call = GetLinkInfo(appointmentId: string) | GenerateLink(appointmentId: string)

  /** The requests made, in order, and the details obtained (None when the attempt failed). */
  datatype Outcome = Outcome(calls: seq<Call>, info: Option<LinkInfo>)

  /** The get-or-generate sequence. `first` is how the first `getLinkInfo` ended, `generated`
      how `generateLink` ended and `second` how the second `getLinkInfo` ended; a request that
      is not made leaves its parameter unused. A successful `getLinkInfo` may carry a null body
      (`Ok(None)`): reading the link's fields then throws, which ends the attempt like any
      failure other than the first 404. */
  function GetOrGenerate(id: string, first: Reply<Option<LinkInfo>>, generated: Reply<()>,
                         second: Reply<Option<LinkInfo>>): (out: Outcome)
    ensures 1 <= |out.calls| <= 3 && out.calls[0] == GetLinkInfo(id)
    ensures first.Ok? ==> out == Outcome([GetLinkInfo(id)], first.value)
    ensures first.Fail? && !IsNotFound(first) ==> out == Outcome([GetLinkInfo(id)], None)
    ensures IsNotFound(first) ==> |out.calls| >= 2 && out.calls[1] == GenerateLink(id)
    ensures IsNotFound(first) && generated.Fail? ==> out == Outcome([GetLinkInfo(id), GenerateLink(id)], None)
    ensures IsNotFound(first) && generated.Ok? ==>
              out.calls == [GetLinkInfo(id), GenerateLink(id), GetLinkInfo(id)]
              && (out.info.Some? <==> second.Ok? && second.value.Some?)
              && (second.Ok? ==> out.info == second.value)
  {
    match first
    case Ok(body) => Outcome([GetLinkInfo(id)], body)
    case Fail(status, _) =>
      if status != 404 then Outcome([GetLinkInfo(id)], None)
      else if generated.Fail? then Outcome([GetLinkInfo(id), GenerateLink(id)], None)
      else
        match second
        case Ok(body) => Outcome([GetLinkInfo(id), GenerateLink(id), GetLinkInfo(id)], body)
        case Fail(_, _) => Outcome([GetLinkInfo(id), GenerateLink(id), GetLinkInfo(id)], None)
  }

  /** Every request of the sequence concerns the appointment asked about, and a link is
      generated at most once, and only after the server said there was none. */
  lemma GenerateOnlyAfterNotFound(id: string, first: Reply<Option<LinkInfo>>, generated: Reply<()>,
                                  second: Reply<Option<LinkInfo>>)
    ensures var out := GetOrGenerate(id, first, generated, second);
            (forall i :: 0 <= i < |out.calls| ==> out.calls[i].appointmentId == id)
            && (GenerateLink(id) in out.calls <==> IsNotFound(first))
            && (forall i, j :: 0 <= i < j < |out.calls| && out.calls[i].GenerateLink? ==> !out.calls[j].GenerateLink?)
  {
  }

  /** Details are obtained exactly when the first request returns a body, or when it was a
      404 and both later requests succeed with a body; and they always are a `getLinkInfo`
      body. A null body never triggers generation. */
  lemma InfoComesFromLinkInfo(id: string, first: Reply<Option<LinkInfo>>, generated: Reply<()>,
                              second: Reply<Option<LinkInfo>>)
    ensures var out := GetOrGenerate(id, first, generated, second);
            (out.info.Some? <==> (first.Ok? && first.value.Some?)
                                 || (IsNotFound(first) && generated.Ok? && second.Ok? && second.value.Some?))
            && (out.info.Some? ==> (first.Ok? && out.info == first.value)
                                   || (second.Ok? && out.info == second.value))
            && (first == Ok(None) ==> out == Outcome([GetLinkInfo(id)], None))
  {
  }

  const LinkPath := "/depoimento/"

  /** The public address of a testimonial link: `${origin}/depoimento/${uniqueLink}`. */
  function LinkUrl(origin: string, uniqueLink: string): (url: string)
    ensures |url| == |origin| + |LinkPath| + |uniqueLink|
    ensures url[..|origin|] == origin && url[|origin| + |LinkPath|..] == uniqueLink
  {
    origin + LinkPath + uniqueLink
  }

  /** The address determines the link: two different links never share an address. */
  lemma LinkUrlInjective(origin: string, a: string, b: string)
    requires LinkUrl(origin, a) == LinkUrl(origin, b)
    ensures a == b
  {
    assert a == LinkUrl(origin, a)[|origin| + |LinkPath|..];
  }

  const WaMe := "https://wa.me/"
  const TextParam := "?text="

  /** `https://wa.me/${digits}?text=${text}`. */
  function WhatsAppUrl(phone: string, text: string): (url: string)
    ensures |url| >= 14 && url[..14] == "https://wa.me/"
    ensures |url| >= 20 + |text| && url[|url| - |text|..] == text
  {
    WaMe + (DigitsOnly(phone) + TextParam + text)
  }

  /** The message text is carried whole inside the address. */
  lemma WhatsAppUrlCarriesText(phone: string, text: string)
    ensures Includes(WhatsAppUrl(phone, text), text)
  {
    var url := WhatsAppUrl(phone, text);
    assert OccursAt(url, text, |url| - |text|);
  }

  /** The position of the first `?` in `s`, or its length when there is none. */
  function FirstQuestion(s: string): (k: nat)
    ensures k <= |s|
    ensures k < |s| ==> s[k] == '?'
    ensures forall i :: 0 <= i < k ==> s[i] != '?'
  {
    if s == [] then 0 else if s[0] == '?' then 0 else 1 + FirstQuestion(s[1..])
  }

  lemma {:induction false} QuestionAfterDigits(d: string, rest: string)
    requires forall i :: 0 <= i < |d| ==> IsDigit(d[i])
    ensures FirstQuestion(d + "?" + rest) == |d|
  {
    if d != [] {
      assert (d + "?" + rest)[1..] == d[1..] + "?" + rest;
      QuestionAfterDigits(d[1..], rest);
    }
  }

  /** The address can be read back: the number is everything between `wa.me/` and the first
      `?`, the text everything after `?text=`. Two messages to the same phone digits and text
      get the same address, and different ones never do. */
  lemma WhatsAppUrlInjective(phone1: string, text1: string, phone2: string, text2: string)
    requires WhatsAppUrl(phone1, text1) == WhatsAppUrl(phone2, text2)
    ensures DigitsOnly(phone1) == DigitsOnly(phone2) && text1 == text2
  {
    var d1, d2 := DigitsOnly(phone1), DigitsOnly(phone2);
    var u1, u2 := d1 + TextParam + text1, d2 + TextParam + text2;
    SamePrefixSameRest(WaMe, u1, u2);
    ReadBack(d1, text1);
    ReadBack(d2, text2);
  }

  lemma SamePrefixSameRest(p: string, a: string, b: string)
    requires p + a == p + b
    ensures a == b
  {
    assert a == (p + a)[|p|..];
  }

  /** The part after `wa.me/` splits at its first `?`. */
  lemma ReadBack(d: string, t: string)
    requires forall i :: 0 <= i < |d| ==> IsDigit(d[i])
    ensures var u := d + TextParam + t;
            FirstQuestion(u) == |d| && u[..|d|] == d && u[|d| + |TextParam|..] == t
  {
    assert d + TextParam + t == d + "?" + ("text=" + t);
    QuestionAfterDigits(d, "text=" + t);
  }
}
