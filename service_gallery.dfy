/** The image gallery of a service (components/service-gallery.tsx): a main
    image chosen by the selected thumbnail, and a thumbnail strip shown only
    when there is more than one image. */
module ServiceGallery {

  const NO_IMAGE := "https://images.unsplash.com/photo-1516156008625-3a9d6067fab5?w=800&h=600&fit=crop"

  class Gallery {
    const images: seq<string>
    var selected: nat

    /** The selection points at an image whenever there is one. */
    ghost predicate Valid()
      reads this
    {
      images != [] ==> selected < |images|
    }

    constructor(images: seq<string>)
      ensures Valid()
      ensures this.images == images && selected == 0
    {
      this.images := images;
      selected := 0;
    }

    /** Clicking thumbnail `index`, one of the rendered buttons. */
    method Select(index: nat)
      requires Valid() && index < |images|
      modifies this
      ensures Valid() && selected == index
    {
      selected := index;
    }

    /** `mainImage`. */
    function MainImage(): (r: string)
      requires Valid()
      reads this
      ensures images == [] ==> r == NO_IMAGE
      ensures images != [] ==> r == images[selected] && r in images
    {
      if |images| > 0 then images[selected] else NO_IMAGE
    }

    /** The strip is rendered for more than one image. */
    predicate ShowThumbnails()
      reads this
    {
      |images| > 1
    }

    /** The thumbnails, in order, each flagged when it is the selected one;
        empty when the strip is not rendered. */
    function Thumbnails(): (r: seq<(string, bool)>)
      requires Valid()
      reads this
      ensures ShowThumbnails() ==>
                |r| == |images| && forall i :: 0 <= i < |r| ==> r[i].0 == images[i] && (r[i].1 <==> i == selected)
      ensures !ShowThumbnails() ==> r == []
    {
      if |images| > 1 then seq(|images|, i requires 0 <= i < |images| reads this => (images[i], i == selected))
      else []
    }
  }

  /** Opening the gallery shows the first image; clicking thumbnail `index`
      then shows that image and highlights that thumbnail alone. */
  method OpenAndClick(images: seq<string>, index: nat) returns (first: string, main: string, thumbs: seq<(string, bool)>)
    requires index < |images|
    ensures first == images[0] && main == images[index]
    ensures |images| <= 1 ==> thumbs == []
    ensures |images| > 1 ==> |thumbs| == |images| && forall i :: 0 <= i < |thumbs| ==> (thumbs[i].1 <==> i == index)
  {
    var g := new Gallery(images);
    first := g.MainImage();
    g.Select(index);
    main := g.MainImage();
    thumbs := g.Thumbnails();
  }
}
