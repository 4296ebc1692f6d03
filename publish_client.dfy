/** The client side of publishing (app/publicar/client.tsx): the chosen image
    files, their previews and uploaded URLs, the upload flag, the department
    and city selection, and the conversion of the form values on submit.
    `URL.createObjectURL` is the parameter `objectUrl`, and the result of
    `startUpload` is an `Upload` value. */
module PublishClient {

  import opened Wrappers
  import opened JsNumbers
  import Seqs
  import Publish
  import Db
  import Text

  const MAX_IMAGES: nat := 10

  /** An image file chosen in the browser. */
  datatype File = File(name: string)

  /** What `startUpload(files)` gave: the uploaded URLs, nothing, or an error. */
  datatype Upload = Uploaded(urls: seq<string>) | NoResult | UploadError

  /** The message `alert` shows, if any. */
  datatype Alert = NoAlert | TooManyImages | UploadFailed

  const Departamentos: seq<string> := ["Montevideo", "Canelones", "Maldonado", "Rocha", "Colonia"]

  const Ciudades: map<string, seq<string>> := map[
    "Montevideo" := ["Centro", "Pocitos", "Carrasco", "Punta Carretas"],
    "Canelones" := ["Ciudad de la Costa", "Pando", "Las Piedras"],
    "Maldonado" := ["Punta del Este", "Maldonado", "San Carlos"],
    "Rocha" := ["Rocha", "La Paloma", "Castillos"],
    "Colonia" := ["Colonia del Sacramento", "Carmelo", "Nueva Helvecia"]]

  /** `files.map(file => URL.createObjectURL(file))`. */
  function Previews(files: seq<File>, objectUrl: File -> string): (r: seq<string>)
    ensures |r| == |files| && forall i :: 0 <= i < |files| ==> r[i] == objectUrl(files[i])
  {
    seq(|files|, i requires 0 <= i < |files| => objectUrl(files[i]))
  }

  /** `values.precio ? Number(values.precio) : undefined`. */
  function PrecioToSend(precio: Option<string>): (r: Publish.PriceField)
    ensures precio.None? || precio == Some("") ==> r == Publish.NoPrice
    ensures precio.Some? && precio.value != "" ==> r == Publish.Price(Number(precio.value))
  {
    if precio.Some? && precio.value != "" then Publish.Price(Number(precio.value)) else Publish.NoPrice
  }

  /** A price typed as digits reaches the server as its value. */
  lemma PrecioDigits(n: nat)
    ensures PrecioToSend(Some(Text.NatToString(n))) == Publish.Price(Some(n))
  {
    NumberOfNatToString(n);
  }

  /** The form state of the publishing page. */
  class PublishForm {
    var imagenes: seq<File>
    var imagenesPreview: seq<string>
    var imageUrls: seq<string>
    var isUploading: bool
    var selectedDepartamento: string
    var departamento: Option<string>
    var ciudad: Option<string>
    var whatsapp: bool
    var contactoPor: Option<string>

    /** At most ten files, each with its preview. */
    ghost predicate Valid()
      reads this
    {
      |imagenes| <= MAX_IMAGES && |imagenesPreview| == |imagenes|
    }

    /** The initial state: no images, nothing selected, `whatsapp` off and contact by email. */
    constructor ()
      ensures Valid()
      ensures imagenes == [] && imagenesPreview == [] && imageUrls == [] && !isUploading
      ensures selectedDepartamento == "" && departamento.None? && ciudad.None?
      ensures !whatsapp && contactoPor == Some("email")
    {
      imagenes := [];
      imagenesPreview := [];
      imageUrls := [];
      isUploading := false;
      selectedDepartamento := "";
      departamento := None;
      ciudad := None;
      whatsapp := false;
      contactoPor := Some("email");
    }

    /** `handleImageUpload`: a selection that would pass ten files is refused
        and changes nothing; otherwise previews and files are appended in
        order, and the URLs when the upload gives some. */
    method HandleImageUpload(files: seq<File>, objectUrl: File -> string, upload: Upload) returns (alert: Alert)
      requires Valid()
      modifies this
      ensures Valid()
      ensures |files| + |old(imagenes)| > MAX_IMAGES ==>
                alert == TooManyImages &&
                imagenes == old(imagenes) && imagenesPreview == old(imagenesPreview) &&
                imageUrls == old(imageUrls) && isUploading == old(isUploading)
      ensures |files| + |old(imagenes)| <= MAX_IMAGES ==>
                imagenes == old(imagenes) + files &&
                imagenesPreview == old(imagenesPreview) + Previews(files, objectUrl) &&
                imageUrls == old(imageUrls) + (if upload.Uploaded? then upload.urls else []) &&
                !isUploading &&
                alert == (if upload.UploadError? then UploadFailed else NoAlert)
      ensures selectedDepartamento == old(selectedDepartamento) && departamento == old(departamento)
      ensures ciudad == old(ciudad) && whatsapp == old(whatsapp) && contactoPor == old(contactoPor)
    {
      if |files| + |imagenes| > MAX_IMAGES {
        return TooManyImages;
      }
      imagenesPreview := imagenesPreview + Previews(files, objectUrl);
      imagenes := imagenes + files;
      isUploading := true;
      alert := NoAlert;
      if upload.Uploaded? {
        imageUrls := imageUrls + upload.urls;
      } else if upload.UploadError? {
        alert := UploadFailed;
      }
      isUploading := false;
    }

    /** `removeImage(index)`: the same position leaves all three lists. */
    method RemoveImage(index: int)
      requires Valid()
      modifies this
      ensures Valid()
      ensures imagenes == Seqs.RemoveAt(old(imagenes), index)
      ensures imagenesPreview == Seqs.RemoveAt(old(imagenesPreview), index)
      ensures imageUrls == Seqs.RemoveAt(old(imageUrls), index)
      ensures isUploading == old(isUploading) && selectedDepartamento == old(selectedDepartamento)
      ensures departamento == old(departamento) && ciudad == old(ciudad)
      ensures whatsapp == old(whatsapp) && contactoPor == old(contactoPor)
    {
      imagenes := Seqs.RemoveAt(imagenes, index);
      imagenesPreview := Seqs.RemoveAt(imagenesPreview, index);
      imageUrls := Seqs.RemoveAt(imageUrls, index);
    }

    /** A preview tile shows "Subiendo..." while its URL is missing. */
    predicate TileUploading(index: nat)
      reads this
    {
      index >= |imageUrls|
    }

    /** The upload tile is offered while fewer than ten files are chosen. */
    predicate CanAddImages()
      reads this
    {
      |imagenes| < MAX_IMAGES
    }

    /** Choosing a department records it and clears the city. */
    method ChooseDepartamento(value: string)
      modifies this
      ensures departamento == Some(value) && selectedDepartamento == value && ciudad == Some("")
      ensures imagenes == old(imagenes) && imagenesPreview == old(imagenesPreview)
      ensures imageUrls == old(imageUrls) && isUploading == old(isUploading)
      ensures whatsapp == old(whatsapp) && contactoPor == old(contactoPor)
    {
      departamento := Some(value);
      selectedDepartamento := value;
      ciudad := Some("");
    }

    /** The cities offered for the selected department; the selector is
        disabled while no department is selected. */
    function CityOptions(): (r: seq<string>)
      reads this
      ensures selectedDepartamento == "" ==> r == []
      ensures selectedDepartamento in Ciudades ==> r == Ciudades[selectedDepartamento]
    {
      if selectedDepartamento != "" && selectedDepartamento in Ciudades then Ciudades[selectedDepartamento] else []
    }

    /** `onSubmit(values)`: send the values with the converted price and the
        uploaded URLs; navigate home on success, alert otherwise. */
    method OnSubmit(store: Db.Store, values: Publish.FormInput, precio: Option<string>,
                    isEmail: string -> bool, insertOk: bool, indexOk: bool) returns (home: bool)
      requires store.Valid()
      modifies store
      ensures store.Valid() && store.categories == old(store.categories)
      ensures home <==> Publish.Writable(values.(precio := PrecioToSend(precio)), isEmail, old(store.categories)) &&
                        insertOk && indexOk
      ensures var sent := values.(precio := PrecioToSend(precio));
              Publish.Writable(sent, isEmail, old(store.categories)) && insertOk ==>
                var category := old(store.categories)[sent.categoria.value];
                var row := Publish.NewRecord(Publish.Parse(sent, isEmail).value, imageUrls, category.id)
                             .(id := |old(store.services)|);
                store.services == old(store.services) + [row] &&
                store.users == old(store.users) + {sent.email} &&
                store.index == old(store.index) + (if indexOk then [Db.Document(row, category, sent.email)] else [])
      ensures !(Publish.Writable(values.(precio := PrecioToSend(precio)), isEmail, old(store.categories)) && insertOk) ==>
                store.services == old(store.services) && store.users == old(store.users) && store.index == old(store.index)
    {
      var result := Publish.CreateService(store, values.(precio := PrecioToSend(precio)), imageUrls,
                                          isEmail, insertOk, indexOk);
      home := result.Created?;
    }
  }
}
