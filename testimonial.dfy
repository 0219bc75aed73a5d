/** The public page a client opens from the link they received to leave a testimonial. */
module TestimonialPage {
  import opened Api
  import opened JsText

  /** What the public endpoint says about the link. */
  datatype PublicInfo = PublicInfo(status: string, clientName: Option<string>, serviceName: Option<string>)

  /** The screen the page shows. */
  datatype Phase = Loading | Form | Success | Error

  /** The toast a handler leaves on screen. */
  datatype Toast = NoToast | Info(text: string) | Problem(text: string)

  /** The body of the submit request: the text goes as typed, untrimmed. */
  datatype Submission = Submission(rating: int, text: string)

  const MinLength := 10
  const MaxLength := 500

  const NoRating := "Por favor, selecione uma avalia\U{00E7}\U{00E3}o"
  const TooShort := "O depoimento deve ter pelo menos 10 caracteres"
  const SubmitFailed := "Erro ao enviar depoimento"
  const Submitted := "Depoimento enviado com sucesso!"

  /** The two checks of `handleSubmit`, in order; None when both pass. */
  function Validate(rating: int, text: string): (problem: Option<string>)
    ensures problem.None? <==> rating != 0 && Utf16Length(Trim(text)) >= MinLength
    ensures rating == 0 ==> problem == Some(NoRating)
    ensures rating != 0 && problem.Some? ==> problem == Some(TooShort)
  {
    if rating == 0 then Some(NoRating)
    else if Utf16Length(Trim(text)) < MinLength then Some(TooShort)
    else None
  }

  /** The `disabled` expression of the submit button: always disabled while a submission
      runs, and otherwise exactly when the handler's checks would refuse. */
  function SubmitDisabled(submitting: bool, rating: int, text: string): (disabled: bool)
    ensures submitting ==> disabled
    ensures !submitting ==> (disabled <==> Validate(rating, text).Some?)
  {
    submitting || rating == 0 || Utf16Length(Trim(text)) < MinLength
  }

  /** When no submission is running, the button is enabled exactly when the handler's checks
      pass. */
  lemma ButtonAgreesWithChecks(rating: int, text: string)
    ensures !SubmitDisabled(false, rating, text) <==> Validate(rating, text).None?
  {
  }

  /** The "minimum reached" hint under the text area counts the untrimmed text: ten
      characters always show it, and fewer than five never do. */
  function MinimumHint(text: string): (shown: bool)
    ensures |text| >= MinLength ==> shown
    ensures shown ==> 2 * |text| >= MinLength
  {
    Utf16Length(text) >= MinLength
  }

  /** Trimming never lengthens, so whenever the checks pass the hint is shown. */
  lemma ValidTextShowsHint(rating: int, text: string)
    requires Validate(rating, text).None?
    ensures MinimumHint(text)
  {
    TrimUtf16Shorter(text);
  }

  /** The converse fails: ten spaces show the hint while the submit button stays disabled. */
  lemma HintWithoutValidText()
    ensures var text := "          "; MinimumHint(text) && SubmitDisabled(false, 5, text)
  {
    var text := "          ";
    BlankIffAllWhitespace(text);
    assert IsBlank(text);
    Utf16LengthBmp(text);
  }

  /** Lengths are UTF-16 code units: five emoji outside the Basic Multilingual Plane make a
      text of length 10, which passes the minimum. */
  lemma AstralCharactersCountTwice()
    ensures var text := "\U{1F60D}\U{1F60D}\U{1F60D}\U{1F60D}\U{1F60D}";
            |text| == 5 && Validate(5, text).None?
  {
    var text := "\U{1F60D}\U{1F60D}\U{1F60D}\U{1F60D}\U{1F60D}";
    assert TrimStart(text) == text;
    assert TrimEnd(text) == text;
  }

  /** The five stars of the picker: star `i + 1` is filled when it is at most the rating. */
  function StarRow(rating: int): (row: seq<bool>)
    ensures |row| == 5
    ensures forall i :: 0 <= i < 5 ==> (row[i] <==> i + 1 <= rating)
  {
    seq(5, i => i + 1 <= rating)
  }

  function CountTrue(row: seq<bool>): nat {
    if row == [] then 0 else (if row[0] then 1 else 0) + CountTrue(row[1..])
  }

  lemma {:induction false} CountPrefixRow(row: seq<bool>, k: int)
    requires 0 <= k <= |row|
    requires forall i :: 0 <= i < |row| ==> (row[i] <==> i < k)
    ensures CountTrue(row) == k
  {
    if row != [] {
      if k == 0 {
        assert !row[0];
        CountPrefixRow(row[1..], 0);
      } else {
        assert row[0];
        forall i | 0 <= i < |row[1..]|
          ensures row[1..][i] <==> i < k - 1
        {
          assert row[1..][i] == row[i + 1];
        }
        CountPrefixRow(row[1..], k - 1);
      }
    }
  }

  /** A rating from 0 to 5 fills exactly that many stars, all at the front. */
  lemma FilledStarsMatchRating(rating: int)
    requires 0 <= rating <= 5
    ensures CountTrue(StarRow(rating)) == rating
  {
    CountPrefixRow(StarRow(rating), rating);
  }

  /** `error.response?.data?.message || "Erro ao enviar depoimento"`. */
  function ErrorNotice(message: Option<string>): (text: string)
    ensures text != ""
    ensures Truthy(message) ==> text == message.value
    ensures !Truthy(message) ==> text == SubmitFailed
  {
    if Truthy(message) then message.value else SubmitFailed
  }

  class TestimonialForm {
    const uniqueLink: Option<string>   // the route parameter
    var phase: Phase
    var info: Option<PublicInfo>
    var rating: int
    var text: string

    ghost predicate Valid()
      reads this
    {
      0 <= rating <= 5 && Utf16Length(text) <= MaxLength
    }

    /** The page mounts on the loading screen with an empty form. */
    constructor (link: Option<string>)
      ensures Valid() && uniqueLink == link && phase == Loading && info == None
      ensures rating == 0 && text == ""
    {
      uniqueLink := link;
      phase := Loading;
      info := None;
      rating := 0;
      text := "";
    }

    /** `loadTestimonialInfo`: without a link, or when the request fails, the error screen
        (which sends the visitor home after three seconds); a testimonial already published
        goes straight to the thank-you screen; anything else opens the form. A null body is
        stored first and then throws on `data.status`, so it too ends on the error screen. */
    method Load(reply: Reply<Option<PublicInfo>>) returns (fetched: Option<string>, toast: Toast)
      modifies this`phase, this`info
      ensures fetched.Some? <==> Truthy(uniqueLink)
      ensures fetched.Some? ==> fetched.value == uniqueLink.value
      ensures fetched.None? || reply.Fail? ==> phase == Error && info == old(info)
      ensures fetched.Some? && reply == Ok(None) ==> phase == Error && info == None
      ensures fetched.None? || reply.Fail? || reply.value.None? ==>
                toast == Problem("Link de depoimento inv\U{00E1}lido ou expirado")
      ensures fetched.Some? && reply.Ok? && reply.value.Some? ==> info == reply.value && toast == NoToast
      ensures fetched.Some? && reply.Ok? && reply.value.Some? ==>
                (phase == Success <==> reply.value.value.status == "published")
                && (phase == Form <==> reply.value.value.status != "published")
      ensures phase == Form ==> Truthy(uniqueLink) && info.Some?
    {
      if !Truthy(uniqueLink) {
        phase := Error;
        return None, Problem("Link de depoimento inv\U{00E1}lido ou expirado");
      }
      fetched := Some(uniqueLink.value);
      match reply
      case Fail(_, _) =>
        phase := Error;
        toast := Problem("Link de depoimento inv\U{00E1}lido ou expirado");
      case Ok(None) =>
        info := None;
        phase := Error;
        toast := Problem("Link de depoimento inv\U{00E1}lido ou expirado");
      case Ok(Some(data)) =>
        info := Some(data);
        phase := if data.status == "published" then Success else Form;
        toast := NoToast;
    }

    /** Clicking star `star` sets the rating to it. */
    method ClickStar(star: int)
      requires Valid() && phase == Form && 1 <= star <= 5
      modifies this`rating
      ensures Valid() && rating == star
    {
      rating := star;
    }

    /** Typing in the text area, which accepts at most 500 UTF-16 code units. */
    method SetText(t: string)
      requires Valid() && phase == Form && Utf16Length(t) <= MaxLength
      modifies this`text
      ensures Valid() && text == t
    {
      text := t;
    }

    /** The "Limpar" button empties the form. */
    method Clear()
      requires Valid() && phase == Form
      modifies this`rating, this`text
      ensures Valid() && rating == 0 && text == ""
      ensures Validate(rating, text) == Some(NoRating)
    {
      rating := 0;
      text := "";
    }

    /** `handleSubmit`: a failed check sends nothing and leaves the form as it is; a missing
        link fails like the request; otherwise the rating and the untrimmed text are sent once,
        and only a successful request leads to the thank-you screen. */
    method Submit(reply: Reply<()>) returns (sent: Option<Submission>, toast: Toast)
      requires Valid() && phase == Form
      modifies this`phase
      ensures Valid() && rating == old(rating) && text == old(text)
      ensures Validate(rating, text).Some? ==> sent == None && phase == Form
      ensures Validate(rating, text).Some? ==> toast == Problem(Validate(rating, text).value)
      ensures Validate(rating, text).None? && !Truthy(uniqueLink) ==>
                sent == None && phase == Form && toast == Problem(SubmitFailed)
      ensures sent.Some? <==> Validate(rating, text).None? && Truthy(uniqueLink)
      ensures sent.Some? ==> sent.value == Submission(rating, text)
      ensures phase == Success <==> sent.Some? && reply.Ok?
      ensures phase != Success ==> phase == Form
      ensures phase == Success ==> toast == Info(Submitted)
      ensures sent.Some? && reply.Fail? ==> toast == Problem(ErrorNotice(reply.message))
    {
      var problem := Validate(rating, text);
      if problem.Some? {
        return None, Problem(problem.value);
      }
      if !Truthy(uniqueLink) {
        return None, Problem(SubmitFailed);
      }
      sent := Some(Submission(rating, text));
      match reply
      case Ok(_) =>
        phase := Success;
        toast := Info(Submitted);
      case Fail(_, message) =>
        toast := Problem(ErrorNotice(message));
    }
  }
}
