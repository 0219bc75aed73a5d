/** The back-office gallery: the list of images and the form that adds one by URL. */
module GalleryAdmin {
  import opened Api
  import opened JsText

  datatype GalleryImage = GalleryImage(id: string, url: string, alt: Option<string>)

  /** The body of the create request; both fields go as typed, untrimmed. */
  datatype NewImage = NewImage(url: string, alt: string)

  const MissingUrl := "Informe a URL da imagem"
  const MissingAlt := "Informe a descri\U{00E7}\U{00E3}o (alt) da imagem"

  /** The two checks of `handleAdd`, in order; None when both pass. */
  function ValidateAdd(url: string, alt: string): (problem: Option<string>)
    ensures problem.None? <==> !IsBlank(url) && !IsBlank(alt)
    ensures IsBlank(url) ==> problem == Some(MissingUrl)
    ensures !IsBlank(url) && IsBlank(alt) ==> problem == Some(MissingAlt)
  {
    if IsBlank(url) then Some(MissingUrl)
    else if IsBlank(alt) then Some(MissingAlt)
    else None
  }

  /** The `disabled` expression of the add button: always disabled while an image is
      being added, and otherwise exactly when the handler's checks would refuse. */
  function AddDisabled(adding: bool, url: string, alt: string): (disabled: bool)
    ensures adding ==> disabled
    ensures !adding ==> (disabled <==> ValidateAdd(url, alt).Some?)
  {
    adding || IsBlank(url) || IsBlank(alt)
  }

  /** When nothing is being added, the button is enabled exactly when the checks pass, that is
      when each field holds a character that is not white space. */
  lemma AddButtonAgreesWithChecks(url: string, alt: string)
    ensures !AddDisabled(false, url, alt) <==> ValidateAdd(url, alt).None?
    ensures ValidateAdd(url, alt).None? <==>
              (exists i :: 0 <= i < |url| && !IsWhitespace(url[i]))
              && (exists i :: 0 <= i < |alt| && !IsWhitespace(alt[i]))
  {
    BlankIffAllWhitespace(url);
    BlankIffAllWhitespace(alt);
  }

  /** The `alt` attribute of a card: `img.alt || "Imagem da galeria"`. */
  function AltAttribute(img: GalleryImage): (text: string)
    ensures text != ""
    ensures Truthy(img.alt) ==> text == img.alt.value
    ensures !Truthy(img.alt) ==> text == "Imagem da galeria"
  {
    if Truthy(img.alt) then img.alt.value else "Imagem da galeria"
  }

  /** The caption of a card: `img.alt || "Sem descrição"`. */
  function Caption(img: GalleryImage): (text: string)
    ensures text != ""
    ensures Truthy(img.alt) ==> text == img.alt.value
    ensures !Truthy(img.alt) ==> text == "Sem descri\U{00E7}\U{00E3}o"
  {
    if Truthy(img.alt) then img.alt.value else "Sem descri\U{00E7}\U{00E3}o"
  }

  class GalleryPage {
    var images: seq<GalleryImage>
    var newUrl: string
    var newAlt: string

    constructor ()
      ensures images == [] && newUrl == "" && newAlt == ""
    {
      images := [];
      newUrl := "";
      newAlt := "";
    }

    /** `loadGallery`: `data || []`; a failure keeps the list shown. */
    method Load(reply: Reply<Option<seq<GalleryImage>>>)
      modifies this`images
      ensures reply.Ok? ==> images == OrEmpty(reply.value)
      ensures reply.Fail? ==> images == old(images)
    {
      if reply.Ok? {
        images := OrEmpty(reply.value);
      }
    }

    method SetUrl(url: string)
      modifies this`newUrl
      ensures newUrl == url
    {
      newUrl := url;
    }

    method SetAlt(alt: string)
      modifies this`newAlt
      ensures newAlt == alt
    {
      newAlt := alt;
    }

    /** `handleAdd`: a failed check sends nothing; otherwise the typed URL and description are
        sent once; on success the form is emptied and the list reloaded, on failure the form
        and the list stay as they were. */
    method Add(createReply: Reply<()>, reload: Reply<Option<seq<GalleryImage>>>)
      returns (sent: Option<NewImage>, problem: Option<string>)
      modifies this`images, this`newUrl, this`newAlt
      ensures problem == ValidateAdd(old(newUrl), old(newAlt))
      ensures sent.Some? <==> problem.None?
      ensures sent.Some? ==> sent.value == NewImage(old(newUrl), old(newAlt))
      ensures sent.Some? && createReply.Ok? ==> newUrl == "" && newAlt == ""
      ensures sent.Some? && createReply.Ok? && reload.Ok? ==> images == OrEmpty(reload.value)
      ensures sent.None? || createReply.Fail? ==>
                newUrl == old(newUrl) && newAlt == old(newAlt) && images == old(images)
      ensures reload.Fail? ==> images == old(images)
    {
      problem := ValidateAdd(newUrl, newAlt);
      if problem.Some? {
        return None, problem;
      }
      sent := Some(NewImage(newUrl, newAlt));
      if createReply.Ok? {
        newUrl := "";
        newAlt := "";
        Load(reload);
      }
    }

    /** `handleDelete`: after the confirmation, one delete request; on success the list is
        reloaded from the server (not filtered locally); a cancelled confirmation or a failure
        leaves it as it was. */
    method Delete(id: string, confirmed: bool, reply: Reply<()>, reload: Reply<Option<seq<GalleryImage>>>)
      returns (requested: Option<string>)
      modifies this`images
      ensures requested.Some? <==> confirmed
      ensures requested.Some? ==> requested.value == id
      ensures confirmed && reply.Ok? && reload.Ok? ==> images == OrEmpty(reload.value)
      ensures !confirmed || reply.Fail? || reload.Fail? ==> images == old(images)
    {
      if !confirmed {
        return None;
      }
      requested := Some(id);
      if reply.Ok? {
        Load(reload);
      }
    }
  }
}
