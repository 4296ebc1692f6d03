/** The service detail page (components/service-client.tsx): the shown image
    and the selected thumbnail, the price line and the contact links. */
module ServiceClient {

  import opened Wrappers
  import opened Text
  import Db

  const NO_IMAGE := "https://images.unsplash.com/photo-1516156008625-3a9d6067fab5?w=800&h=600&fit=crop"
  const ERROR_IMAGE := "https://images.unsplash.com/photo-1594322436404-5a0526db4d13?w=800&h=600&fit=crop"

  /** `ServiceImage`'s source, `error ? ERROR_IMAGE : src || NO_IMAGE`, where
      `src` may be `undefined`. */
  function ImageSource(src: Option<string>, error: bool): (r: string)
    ensures error ==> r == ERROR_IMAGE
    ensures !error && src.Some? && src.value != "" ==> r == src.value
    ensures !error && (src.None? || src == Some("")) ==> r == NO_IMAGE
  {
    if error then ERROR_IMAGE
    else if src.Some? && src.value != "" then src.value
    else NO_IMAGE
  }

  /** `servicio.imagenes[selectedImage]`: `undefined` past the end. */
  function ImageAt(imagenes: seq<string>, index: nat): (r: Option<string>)
    ensures r.Some? <==> index < |imagenes|
    ensures r.Some? ==> r.value == imagenes[index]
  {
    if index < |imagenes| then Some(imagenes[index]) else None
  }

  /** The large image never shows a broken source: it is the selected image
      when that exists and is not empty, and a fixed fallback otherwise; a
      service without images shows `NO_IMAGE`. */
  lemma MainImageSpec(imagenes: seq<string>, selected: nat, error: bool)
    ensures var r := ImageSource(ImageAt(imagenes, selected), error);
            (r == ERROR_IMAGE || r == NO_IMAGE || (selected < |imagenes| && r == imagenes[selected])) &&
            (imagenes == [] && !error ==> r == NO_IMAGE) &&
            (selected < |imagenes| && imagenes[selected] != "" && !error ==> r == imagenes[selected])
  {
  }

  /** A truthy string: present and not empty. */
  predicate Truthy(s: Option<string>) {
    s.Some? && s.value != ""
  }

  /** The contact buttons: the WhatsApp and call links when shown, and the
      email link, which is always shown. */
  datatype Contact = Contact(whatsapp: Option<string>, call: Option<string>, mailto: string)

  function ContactLinks(s: Db.Record): Contact {
    var phone := s.telefonoPrincipal;
    Contact(
      if s.whatsapp && Truthy(phone) then Some("https://wa.me/" + RemoveWhitespace(phone.value)) else None,
      if Truthy(phone) then Some("tel:" + RemoveWhitespace(phone.value)) else None,
      "mailto:" + s.email)
  }

  /** The WhatsApp button appears exactly when the service accepts WhatsApp and
      has a phone, the call button exactly when it has a phone, so the first
      never appears without the second; both carry the phone with its white
      space removed, which leaves a phone without white space unchanged. */
  lemma ContactLinksSpec(s: Db.Record)
    ensures var c := ContactLinks(s);
            (c.whatsapp.Some? <==> s.whatsapp && Truthy(s.telefonoPrincipal)) &&
            (c.call.Some? <==> Truthy(s.telefonoPrincipal)) &&
            (c.whatsapp.Some? ==> c.call.Some?) &&
            c.mailto == "mailto:" + s.email
    ensures var c := ContactLinks(s);
            c.whatsapp.Some? ==>
              StartsWith(c.whatsapp.value, "https://wa.me/") &&
              c.whatsapp.value[|"https://wa.me/"|..] == c.call.value[|"tel:"|..] == RemoveWhitespace(s.telefonoPrincipal.value)
    ensures var c := ContactLinks(s);
            c.call.Some? ==>
              var n := c.call.value[|"tel:"|..];
              (forall i :: 0 <= i < |n| ==> !IsWhitespace(n[i])) &&
              ((forall i :: 0 <= i < |s.telefonoPrincipal.value| ==> !IsWhitespace(s.telefonoPrincipal.value[i])) ==>
                 n == s.telefonoPrincipal.value)
  {
    if Truthy(s.telefonoPrincipal) {
      RemoveWhitespaceKeeps(s.telefonoPrincipal.value, "");
      assert s.telefonoPrincipal.value + "" == s.telefonoPrincipal.value;
    }
  }

  /** What `{precio && (<div>…</div>)}` renders: nothing for a missing
      price; for a price of 0, which is falsy, the number itself, so the bare
      text "0"; and the price line with the currency for any other price. */
  datatype PriceView = NoPrice | BareZero | PriceShown(precio: int, moneda: Option<string>)

  /** The price part of a service card or of the detail page. */
  function PriceLine(precio: Option<int>, moneda: Option<string>): (r: PriceView)
    ensures r.NoPrice? <==> precio.None?
    ensures r.BareZero? <==> precio == Some(0)
    ensures r.PriceShown? <==> precio.Some? && precio.value != 0
    ensures r.PriceShown? ==> r.precio == precio.value && r.moneda == moneda
  {
    if precio.None? then NoPrice
    else if precio.value == 0 then BareZero
    else PriceShown(precio.value, moneda)
  }

  /** The page's state: which image is selected, and the error flag of
      each `ServiceImage` on it. The main image is one component whose
      `src` changes with the selection; it has no `key`, so its flag
      survives a change of selection. Each thumbnail is its own component,
      keyed by its position. */
  class ServicePage {
    const imagenes: seq<string>
    var selectedImage: nat
    var mainError: bool
    var thumbErrors: seq<bool>

    /** One thumbnail flag per image. */
    ghost predicate Valid()
      reads this
    {
      |thumbErrors| == |imagenes|
    }

    constructor(imagenes: seq<string>)
      ensures Valid()
      ensures this.imagenes == imagenes && selectedImage == 0 && !mainError
      ensures forall i :: 0 <= i < |thumbErrors| ==> !thumbErrors[i]
    {
      this.imagenes := imagenes;
      selectedImage := 0;
      mainError := false;
      thumbErrors := seq(|imagenes|, i => false);
    }

    /** Clicking thumbnail `index`, one of the rendered buttons. */
    method Select(index: nat)
      requires Valid() && index < |imagenes|
      modifies this
      ensures Valid()
      ensures selectedImage == index && mainError == old(mainError) && thumbErrors == old(thumbErrors)
    {
      selectedImage := index;
    }

    /** The main image fails to load: its `onError` sets its flag. */
    method OnMainError()
      requires Valid()
      modifies this
      ensures Valid()
      ensures mainError && selectedImage == old(selectedImage) && thumbErrors == old(thumbErrors)
    {
      mainError := true;
    }

    /** Thumbnail `index` fails to load: only its own flag is set. */
    method OnThumbnailError(index: nat)
      requires Valid() && index < |imagenes|
      modifies this
      ensures Valid()
      ensures thumbErrors == old(thumbErrors)[index := true]
      ensures selectedImage == old(selectedImage) && mainError == old(mainError)
    {
      thumbErrors := thumbErrors[index := true];
    }

    /** The main image: once it has failed it shows the error image whatever
        is selected; before that, the selected image, or the fallback for a
        missing or empty one. */
    function MainImage(): (r: string)
      reads this
      ensures mainError ==> r == ERROR_IMAGE
      ensures !mainError && selectedImage < |imagenes| && imagenes[selectedImage] != "" ==> r == imagenes[selectedImage]
      ensures !mainError && (selectedImage >= |imagenes| || imagenes[selectedImage] == "") ==> r == NO_IMAGE
    {
      ImageSource(ImageAt(imagenes, selectedImage), mainError)
    }

    /** One thumbnail per image, in order, each showing its image or its own
        error image; the highlighted one is the selected one. */
    function Thumbnails(): (r: seq<(string, bool)>)
      requires Valid()
      reads this
      ensures |r| == |imagenes|
      ensures forall i :: 0 <= i < |r| ==>
                r[i].0 == (if thumbErrors[i] then ERROR_IMAGE else if imagenes[i] != "" then imagenes[i] else NO_IMAGE) &&
                (r[i].1 <==> i == selectedImage)
    {
      seq(|imagenes|, i requires 0 <= i < |imagenes| && i < |thumbErrors| reads this => (ImageSource(Some(imagenes[i]), thumbErrors[i]), i == selectedImage))
    }
  }

  /** On a fresh page the first image is shown and highlighted. */
  method OpenPage(imagenes: seq<string>) returns (shown: string, highlighted: seq<bool>)
    ensures imagenes != [] && imagenes[0] != "" ==> shown == imagenes[0]
    ensures imagenes == [] ==> shown == NO_IMAGE
    ensures |highlighted| == |imagenes| && forall i :: 0 <= i < |highlighted| ==> (highlighted[i] <==> i == 0)
  {
    var page := new ServicePage(imagenes);
    shown := page.MainImage();
    var thumbs := page.Thumbnails();
    highlighted := seq(|thumbs|, i requires 0 <= i < |thumbs| => thumbs[i].1);
  }

  /** After the main image has failed, clicking any thumbnail still shows
      the error image, while the clicked thumbnail is highlighted. */
  method ErrorOutlivesSelection(imagenes: seq<string>, index: nat) returns (shown: string, highlighted: seq<bool>)
    requires index < |imagenes|
    ensures shown == ERROR_IMAGE
    ensures |highlighted| == |imagenes| && forall i :: 0 <= i < |highlighted| ==> (highlighted[i] <==> i == index)
  {
    var page := new ServicePage(imagenes);
    page.OnMainError();
    page.Select(index);
    shown := page.MainImage();
    var thumbs := page.Thumbnails();
    highlighted := seq(|thumbs|, i requires 0 <= i < |thumbs| => thumbs[i].1);
  }
}
