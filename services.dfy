/** The back-office services page: the service table, the create/edit form, activation, and the
    image panel of the selected service. */
module ServicesAdmin {
  import opened Api
  import opened JsText
  import opened JsArray
  import opened GalleryAdmin

  datatype Service = Service(id: string, name: string, description: Option<string>,
                             durationMinutes: int, price: int, active: bool)

  /** An image attached to a service: either its own URL or a gallery entry. */
  datatype ServiceImage = ServiceImage(id: string, url: Option<string>, alt: Option<string>,
                                       galleryUrl: Option<string>, galleryAlt: Option<string>)

  datatype ServiceForm = ServiceForm(name: string, description: string, durationMinutes: int, price: int)

  /** The body of the create and update requests. */
  datatype Payload = Payload(name: string, description: string, durationMinutes: int, price: int,
                             active: bool)

  datatype SaveCall = Create(payload: Payload) | Update(id: string, payload: Payload)

  /** The two ways of attaching an image. */
  datatype ImageCall = ByUrl(serviceId: string, url: string, alt: string)
                     | FromGallery(serviceId: string, galleryId: string)

  /** The form's initial and reset value. */
  const EmptyForm := ServiceForm("", "", 60, 0)

  /** What the browser lets the form submit: a name (`required`), a duration of at least 15
      minutes and a price of at least 0 (the `min` attributes). The reset form only needs a
      name. */
  function Submittable(f: ServiceForm): (ok: bool)
    ensures f == EmptyForm.(name := f.name) ==> (ok <==> f.name != "")
  {
    f.name != "" && f.durationMinutes >= 15 && f.price >= 0
  }

  /** `handleCreate`'s payload: the form's fields, always with `active: true`. */
  function PayloadOf(f: ServiceForm): (p: Payload)
    ensures p.active
    ensures p.name == f.name && p.description == f.description
    ensures p.durationMinutes == f.durationMinutes && p.price == f.price
  {
    Payload(f.name, f.description, f.durationMinutes, f.price, true)
  }

  /** Editing a service loads its fields into the form (`description || ""`). */
  function FormOf(s: Service): (f: ServiceForm)
    ensures f.name == s.name && f.durationMinutes == s.durationMinutes && f.price == s.price
    ensures f.description == (if Truthy(s.description) then s.description.value else "")
  {
    ServiceForm(s.name, if Truthy(s.description) then s.description.value else "",
                s.durationMinutes, s.price)
  }

  /** Editing and saving unchanged sends the service back as it was, but active. */
  lemma EditThenSaveReactivates(s: Service)
    requires Truthy(s.description)
    ensures var p := PayloadOf(FormOf(s));
            p.name == s.name && p.description == s.description.value
            && p.durationMinutes == s.durationMinutes && p.price == s.price && p.active
  {
  }

  /** The list after a delete: `prev.filter(s => s.id !== id)`; no entry with that id
      remains. */
  function RemoveById(services: seq<Service>, id: string): (r: seq<Service>)
    ensures |r| <= |services|
    ensures forall s :: s in r ==> s in services && s.id != id
  {
    Filter(services, (s: Service) => s.id != id)
  }

  /** Deleting removes every service with that id and keeps the others in order: it removes
      from each part of the list separately, and leaves a list without that id unchanged. */
  lemma RemoveByIdSpec(services: seq<Service>, more: seq<Service>, id: string)
    ensures forall s :: s in RemoveById(services, id) <==> s in services && s.id != id
    ensures |RemoveById(services, id)| <= |services|
    ensures (forall s :: s in services ==> s.id != id) ==> RemoveById(services, id) == services
    ensures RemoveById(services + more, id) == RemoveById(services, id) + RemoveById(more, id)
  {
    FilterAppend(services, more, (s: Service) => s.id != id);
    if forall s :: s in services ==> s.id != id {
      FilterKeepsAll(services, (s: Service) => s.id != id);
    }
  }

  /** The list after an activation toggle: the service with that id flips `active`. */
  function ToggleById(services: seq<Service>, id: string): (r: seq<Service>)
    ensures |r| == |services|
    ensures forall i :: 0 <= i < |services| && services[i].id != id ==> r[i] == services[i]
    ensures forall i :: 0 <= i < |services| && services[i].id == id ==>
              r[i] == services[i].(active := !services[i].active)
  {
    Map(services, (s: Service) => if s.id == id then s.(active := !s.active) else s)
  }

  /** Toggling twice gives the list back. */
  lemma ToggleTwice(services: seq<Service>, id: string)
    ensures ToggleById(ToggleById(services, id), id) == services
  {
    var once := ToggleById(services, id);
    assert forall i :: 0 <= i < |services| ==> once[i].id == services[i].id;
  }

  /** The image of a card: `img.url || img.gallery?.url`. The card shows an image exactly when
      the image has a URL of its own or a gallery entry with one; its own URL comes first, and
      the address shown is always one of the two. */
  function ImageSource(img: ServiceImage): (src: Option<string>)
    ensures src.None? <==> !Truthy(img.url) && img.galleryUrl.None?
    ensures src.Some? ==> src == img.url || src == img.galleryUrl
    ensures Truthy(img.url) ==> src == img.url
  {
    if Truthy(img.url) then img.url else img.galleryUrl
  }

  /** The caption of a card: `img.alt || img.gallery?.alt || "Imagem"`. */
  function ImageCaption(img: ServiceImage): (text: string)
    ensures text != ""
    ensures Truthy(img.alt) ==> text == img.alt.value
    ensures !Truthy(img.alt) && Truthy(img.galleryAlt) ==> text == img.galleryAlt.value
    ensures !Truthy(img.alt) && !Truthy(img.galleryAlt) ==> text == "Imagem"
  {
    if Truthy(img.alt) then img.alt.value
    else if Truthy(img.galleryAlt) then img.galleryAlt.value
    else "Imagem"
  }

  class ServicesPage {
    var services: seq<Service>
    var selectedService: Option<Service>
    var serviceImages: seq<ServiceImage>
    var gallery: seq<GalleryImage>
    var newImageUrl: string
    var selectedGalleryId: Option<string>
    var form: ServiceForm
    var editingId: Option<string>

    /** The form edits a service or the image panel is open, never both. */
    ghost predicate Valid()
      reads this
    {
      editingId.Some? ==> selectedService.None?
    }

    constructor ()
      ensures Valid() && services == [] && selectedService == None && serviceImages == []
      ensures gallery == [] && newImageUrl == "" && selectedGalleryId == None
      ensures form == EmptyForm && editingId == None
    {
      services := [];
      selectedService := None;
      serviceImages := [];
      gallery := [];
      newImageUrl := "";
      selectedGalleryId := None;
      form := EmptyForm;
      editingId := None;
    }

    /** `loadServices`: `data || []`; a failure keeps the table. */
    method LoadServices(reply: Reply<Option<seq<Service>>>)
      modifies this`services
      ensures reply.Ok? ==> services == OrEmpty(reply.value)
      ensures reply.Fail? ==> services == old(services)
    {
      if reply.Ok? {
        services := OrEmpty(reply.value);
      }
    }

    /** `loadGallery`: `data || []`; a failure keeps the list. */
    method LoadGallery(reply: Reply<Option<seq<GalleryImage>>>)
      modifies this`gallery
      ensures reply.Ok? ==> gallery == OrEmpty(reply.value)
      ensures reply.Fail? ==> gallery == old(gallery)
    {
      if reply.Ok? {
        gallery := OrEmpty(reply.value);
      }
    }

    /** `loadServiceImages`: `imgs || []`; a failure keeps the panel's images. */
    method LoadServiceImages(reply: Reply<Option<seq<ServiceImage>>>)
      modifies this`serviceImages
      ensures reply.Ok? ==> serviceImages == OrEmpty(reply.value)
      ensures reply.Fail? ==> serviceImages == old(serviceImages)
    {
      if reply.Ok? {
        serviceImages := OrEmpty(reply.value);
      }
    }

    /** `handleSelectService`: opens the image panel of `s`, abandons any edit, empties the
        form and loads the images of `s`. */
    method SelectService(s: Service, imagesReply: Reply<Option<seq<ServiceImage>>>) returns (requested: string)
      modifies this`selectedService, this`editingId, this`form, this`serviceImages
      ensures Valid() && selectedService == Some(s) && editingId == None && form == EmptyForm
      ensures requested == s.id
      ensures imagesReply.Ok? ==> serviceImages == OrEmpty(imagesReply.value)
      ensures imagesReply.Fail? ==> serviceImages == old(serviceImages)
    {
      selectedService := Some(s);
      editingId := None;
      form := EmptyForm;
      requested := s.id;
      LoadServiceImages(imagesReply);
    }

    /** Typing into the form. */
    method SetForm(f: ServiceForm)
      modifies this`form
      ensures form == f
    {
      form := f;
    }

    /** `handleEdit`: the form takes the service's fields and the image panel closes. */
    method Edit(s: Service)
      modifies this`editingId, this`form, this`selectedService
      ensures Valid() && editingId == Some(s.id) && form == FormOf(s) && selectedService == None
    {
      editingId := Some(s.id);
      form := FormOf(s);
      selectedService := None;
    }

    /** The "Cancelar" button, shown while editing: back to creating, with an empty form. */
    method CancelEdit()
      requires Truthy(editingId)
      modifies this`editingId, this`form
      ensures Valid() && editingId == None && form == EmptyForm
    {
      editingId := None;
      form := EmptyForm;
    }

    /** `handleCreate`: an update of the edited service when one is being edited, otherwise a
        create, always with `active: true`. On success the form is reset, the edit ends, the
        image panel closes and the table is reloaded; on failure nothing changes. */
    method Save(reply: Reply<()>, reload: Reply<Option<seq<Service>>>) returns (call: SaveCall)
      requires Valid() && Submittable(form)
      modifies this`form, this`editingId, this`selectedService, this`services
      ensures Valid()
      ensures Truthy(old(editingId)) ==> call == Update(old(editingId).value, PayloadOf(old(form)))
      ensures !Truthy(old(editingId)) ==> call == Create(PayloadOf(old(form)))
      ensures reply.Ok? ==> form == EmptyForm && selectedService == None && !Truthy(editingId)
      ensures reply.Ok? && reload.Ok? ==> services == OrEmpty(reload.value)
      ensures reply.Fail? ==> form == old(form) && editingId == old(editingId)
                              && selectedService == old(selectedService) && services == old(services)
      ensures reload.Fail? ==> services == old(services)
    {
      var payload := PayloadOf(form);
      if Truthy(editingId) {
        call := Update(editingId.value, payload);
      } else {
        call := Create(payload);
      }
      if reply.Ok? {
        if Truthy(editingId) {
          editingId := None;
        }
        form := EmptyForm;
        selectedService := None;
        LoadServices(reload);
      }
    }

    /** `handleDelete`: after the confirmation, one delete request; on success the service
        leaves the table, and the edit and the image panel close if they were about it. */
    method Delete(id: string, confirmed: bool, reply: Reply<()>) returns (requested: Option<string>)
      requires Valid()
      modifies this`services, this`editingId, this`form, this`selectedService
      ensures Valid()
      ensures requested.Some? <==> confirmed
      ensures requested.Some? ==> requested.value == id
      ensures confirmed && reply.Ok? ==> services == RemoveById(old(services), id)
      ensures confirmed && reply.Ok? && old(editingId) == Some(id) ==> editingId == None && form == EmptyForm
      ensures confirmed && reply.Ok? && old(selectedService).Some? && old(selectedService).value.id == id ==>
                selectedService == None
      ensures confirmed && reply.Ok? && old(selectedService).Some? && old(selectedService).value.id != id ==>
                selectedService == old(selectedService)
      ensures confirmed && reply.Ok? && old(editingId) != Some(id) ==> editingId == old(editingId) && form == old(form)
      ensures !confirmed || reply.Fail? ==>
                services == old(services) && editingId == old(editingId) && form == old(form)
                && selectedService == old(selectedService)
    {
      if !confirmed {
        return None;
      }
      requested := Some(id);
      if reply.Ok? {
        services := RemoveById(services, id);
        if editingId == Some(id) {
          editingId := None;
          form := EmptyForm;
        }
        if selectedService.Some? && selectedService.value.id == id {
          selectedService := None;
        }
      }
    }

    /** `toggleActive`: sends the service with `active` flipped; on success the table flips
        that service, on failure the table is unchanged. */
    method ToggleActive(s: Service, reply: Reply<()>) returns (sent: Service)
      modifies this`services
      ensures sent == s.(active := !s.active)
      ensures reply.Ok? ==> services == ToggleById(old(services), s.id)
      ensures reply.Fail? ==> services == old(services)
    {
      sent := s.(active := !s.active);
      if reply.Ok? {
        services := ToggleById(services, s.id);
      }
    }

    method SetNewImageUrl(url: string)
      modifies this`newImageUrl
      ensures newImageUrl == url
    {
      newImageUrl := url;
    }

    /** Choosing in the gallery select; the "-- selecione --" option has the value "". */
    method SelectGalleryImage(value: string)
      modifies this`selectedGalleryId
      ensures selectedGalleryId == Some(value)
    {
      selectedGalleryId := Some(value);
    }

    /** `handleAddImageByUrl`: needs a selected service and a URL that is not blank; attaches
        the typed URL with the service's name as its description; on success the URL field is
        emptied and the images reloaded. */
    method AddImageByUrl(reply: Reply<()>, imagesReply: Reply<Option<seq<ServiceImage>>>)
      returns (call: Option<ImageCall>)
      modifies this`newImageUrl, this`serviceImages
      ensures call.Some? <==> selectedService.Some? && !IsBlank(old(newImageUrl))
      ensures call.Some? ==> call.value == ByUrl(selectedService.value.id, old(newImageUrl), selectedService.value.name)
      ensures call.Some? && reply.Ok? ==> newImageUrl == ""
      ensures call.Some? && reply.Ok? && imagesReply.Ok? ==> serviceImages == OrEmpty(imagesReply.value)
      ensures call.None? || reply.Fail? ==> newImageUrl == old(newImageUrl) && serviceImages == old(serviceImages)
      ensures imagesReply.Fail? ==> serviceImages == old(serviceImages)
    {
      if selectedService.None? || IsBlank(newImageUrl) {
        return None;
      }
      call := Some(ByUrl(selectedService.value.id, newImageUrl, selectedService.value.name));
      if reply.Ok? {
        newImageUrl := "";
        LoadServiceImages(imagesReply);
      }
    }

    /** `handleAddImageFromGallery`: needs a selected service and a chosen gallery image; on
        success the choice is cleared and the images reloaded. */
    method AddImageFromGallery(reply: Reply<()>, imagesReply: Reply<Option<seq<ServiceImage>>>)
      returns (call: Option<ImageCall>)
      modifies this`selectedGalleryId, this`serviceImages
      ensures call.Some? <==> selectedService.Some? && Truthy(old(selectedGalleryId))
      ensures call.Some? ==> call.value == FromGallery(selectedService.value.id, old(selectedGalleryId).value)
      ensures call.Some? && reply.Ok? ==> selectedGalleryId == None
      ensures call.Some? && reply.Ok? && imagesReply.Ok? ==> serviceImages == OrEmpty(imagesReply.value)
      ensures call.None? || reply.Fail? ==>
                selectedGalleryId == old(selectedGalleryId) && serviceImages == old(serviceImages)
      ensures imagesReply.Fail? ==> serviceImages == old(serviceImages)
    {
      if selectedService.None? || !Truthy(selectedGalleryId) {
        return None;
      }
      call := Some(FromGallery(selectedService.value.id, selectedGalleryId.value));
      if reply.Ok? {
        selectedGalleryId := None;
        LoadServiceImages(imagesReply);
      }
    }

    /** `handleDeleteImage`: after the confirmation, one delete request; on success the images
        of the selected service are reloaded (the panel is not filtered locally). */
    method DeleteImage(id: string, confirmed: bool, reply: Reply<()>,
                       imagesReply: Reply<Option<seq<ServiceImage>>>) returns (requested: Option<string>)
      modifies this`serviceImages
      ensures requested.Some? <==> confirmed
      ensures requested.Some? ==> requested.value == id
      ensures confirmed && reply.Ok? && selectedService.Some? && imagesReply.Ok? ==>
                serviceImages == OrEmpty(imagesReply.value)
      ensures !confirmed || reply.Fail? || selectedService.None? || imagesReply.Fail? ==>
                serviceImages == old(serviceImages)
    {
      if !confirmed {
        return None;
      }
      requested := Some(id);
      if reply.Ok? && selectedService.Some? {
        LoadServiceImages(imagesReply);
      }
    }
  }
}
