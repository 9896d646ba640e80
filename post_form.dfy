/**
 * The report form (components/PostForm.tsx): field slots filled by the user or
 * by the attribute extraction, validated before the report is handed over.
 */
module PostForm {
  import opened Wrappers
  import opened Types
  import opened Seed
  import Gateway

  const MissingFieldsAlert := "Por favor, completa todos los campos."
  const DescriptionAlertPrefix := "Error al generar descripción: "

  /** A picked image file; the preview URL the browser makes for it is passed alongside. */
  datatype PhotoFile = PhotoFile(name: string, mimeType: string)

  /** Where the form starts: the clicked point when there is one, otherwise the centre of Iquique. */
  function InitialLocation(initial: Option<GeoPoint>): (g: GeoPoint)
    ensures initial.Some? ==> g == initial.value
    ensures initial.None? ==> g == IquiqueCenter
  {
    initial.GetOr(IquiqueCenter)
  }

  /** The submit guard: a photo and every text field filled in. */
  predicate Complete(photo: Option<PhotoFile>, breed: string, color: string, size: string, description: string) {
    photo.Some? && breed != "" && description != "" && color != "" && size != ""
  }

  class PostForm {
    var kind: PostType
    var breed: string
    var color: string
    var size: string
    var description: string
    var photo: Option<PhotoFile>
    var photoPreview: Option<string>
    var location: GeoPoint
    var isGeneratingDescription: bool

    /** A picked photo always has its preview. */
    ghost predicate Valid()
      reads this
    {
      photo.Some? ==> photoPreview.Some?
    }

    constructor (initialLocation: Option<GeoPoint>)
      ensures Valid()
      ensures kind == Lost && breed == "" && color == "" && size == "" && description == ""
      ensures photo.None? && photoPreview.None? && !isGeneratingDescription
      ensures location == InitialLocation(initialLocation)
    {
      kind := Lost;
      breed, color, size, description := "", "", "", "";
      photo, photoPreview := None, None;
      location := InitialLocation(initialLocation);
      isGeneratingDescription := false;
    }

    /** The type buttons and the four text inputs: each sets its own slot and nothing else. */
    method SetFields(newKind: PostType, newBreed: string, newColor: string, newSize: string, newDescription: string)
      requires Valid()
      modifies this
      ensures Valid()
      ensures kind == newKind && breed == newBreed && color == newColor && size == newSize && description == newDescription
      ensures photo == old(photo) && photoPreview == old(photoPreview) && location == old(location)
      ensures isGeneratingDescription == old(isGeneratingDescription)
    {
      kind, breed, color, size, description := newKind, newBreed, newColor, newSize, newDescription;
    }

    /** `handlePhotoChange`: the first picked file becomes the photo and its object URL the preview; no file changes nothing. */
    method HandlePhotoChange(files: seq<PhotoFile>, objectUrl: string)
      requires Valid()
      modifies this
      ensures Valid()
      ensures files != [] ==> photo == Some(files[0]) && photoPreview == Some(objectUrl)
      ensures files == [] ==> photo == old(photo) && photoPreview == old(photoPreview)
      ensures kind == old(kind) && breed == old(breed) && color == old(color) && size == old(size)
      ensures description == old(description) && location == old(location)
      ensures isGeneratingDescription == old(isGeneratingDescription)
    {
      if files != [] {
        photo := Some(files[0]);
        photoPreview := Some(objectUrl);
      }
    }

    /** A click on the form's map or the end of a marker drag: the point becomes the report's location. */
    method SetLocation(point: GeoPoint)
      requires Valid()
      modifies this
      ensures Valid()
      ensures location == point
      ensures kind == old(kind) && breed == old(breed) && color == old(color) && size == old(size)
      ensures description == old(description) && photo == old(photo) && photoPreview == old(photoPreview)
      ensures isGeneratingDescription == old(isGeneratingDescription)
    {
      location := point;
    }

    /**
     * `handleGenerateDescription`: without a photo nothing happens; otherwise a
     * successful extraction overwrites exactly breed, colour, size and description,
     * a failed one raises an alert and keeps them; generation is off afterwards.
     */
    method HandleGenerateDescription(reply: Gateway.DescriptionReply) returns (alert: Option<string>)
      requires Valid()
      modifies this
      ensures Valid()
      ensures old(photo).None? ==>
                alert.None? && breed == old(breed) && color == old(color) && size == old(size) &&
                description == old(description) && isGeneratingDescription == old(isGeneratingDescription)
      ensures old(photo).Some? && reply.DescriptionParsed? ==>
                alert.None? && breed == reply.attributes.breed && color == reply.attributes.color &&
                size == reply.attributes.size && description == reply.attributes.description
      ensures old(photo).Some? && reply.DescriptionFailed? ==>
                alert == Some(DescriptionAlertPrefix + Gateway.DescriptionError) && breed == old(breed) &&
                color == old(color) && size == old(size) && description == old(description)
      ensures old(photo).Some? ==> !isGeneratingDescription
      ensures kind == old(kind) && photo == old(photo) && photoPreview == old(photoPreview) && location == old(location)
    {
      if photo.None? {
        return None;
      }
      isGeneratingDescription := true;
      var result := Gateway.GeneratePetDescription(reply);
      alert := None;
      match result {
        case Success(attributes) =>
          breed := attributes.breed;
          color := attributes.color;
          size := attributes.size;
          description := attributes.description;
        case Failure(message) =>
          alert := Some(DescriptionAlertPrefix + message);
      }
      isGeneratingDescription := false;
    }

    /**
     * `handleSubmit`: with a photo and every field filled in, the report data
     * carrying exactly the current slots and the preview as photo; otherwise no
     * data and the "complete every field" alert.
     */
    method HandleSubmit() returns (payload: Option<NewPostData>, alert: Option<string>)
      requires Valid()
      ensures payload.Some? <==> Complete(photo, breed, color, size, description)
      ensures payload.Some? ==> payload.value == NewPostData(kind, breed, color, size, description, photoPreview.value, location)
      ensures alert.Some? <==> payload.None?
      ensures alert.Some? ==> alert.value == MissingFieldsAlert
    {
      if photo.None? || breed == "" || description == "" || color == "" || size == "" {
        return None, Some(MissingFieldsAlert);
      }
      payload := Some(NewPostData(kind, breed, color, size, description, photoPreview.value, location));
      alert := None;
    }
  }
}
