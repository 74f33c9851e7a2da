/** The image gallery: a main image chosen from the product's images, and a
    strip of thumbnails scrolled by 150 pixels at a time, never to the left
    of its start. */
module ImageGallery {
  import opened Wrappers

  datatype Image = Image(id: int, imageUrl: string, alt: Option<string>)

  datatype Direction = Left | Right

  const ScrollAmount := 150

  /** `images[0] || null`: the first image, or none for an empty list. */
  function InitialMainImage(images: seq<Image>): (r: Option<Image>)
    ensures r.None? <==> images == []
    ensures r.Some? ==> r.value == images[0]
  {
    if images == [] then None else Some(images[0])
  }

  /** The new offset computed by `scrollThumbnails`; it is never negative,
      whatever the offset before. */
  function NextScroll(offset: int, direction: Direction): (r: int)
    ensures direction == Left ==> r >= 0 && r <= if offset >= 0 then offset else 0
    ensures offset >= 0 ==> r >= 0
  {
    if direction == Left then (if offset - ScrollAmount > 0 then offset - ScrollAmount else 0)
    else offset + ScrollAmount
  }

  /** The offset after a run of scroll clicks, in order; no run of clicks
      from a non-negative offset makes it negative. */
  function ScrollAfter(offset: int, directions: seq<Direction>): (r: int)
    ensures offset >= 0 ==> r >= 0
    decreases |directions|
  {
    if directions == [] then offset else ScrollAfter(NextScroll(offset, directions[0]), directions[1..])
  }

  /** A thumbnail is outlined when its id is the main image's. */
  predicate Highlighted(mainImage: Option<Image>, image: Image)
  {
    mainImage.Some? && mainImage.value.id == image.id
  }

  /** The scroll arrows appear only for more than five images; without them
      the strip cannot be scrolled. */
  predicate ShowsArrows(images: seq<Image>)
  {
    |images| > 5
  }

  ghost predicate UniqueIds(images: seq<Image>)
  {
    forall i, j :: 0 <= i < j < |images| ==> images[i].id != images[j].id
  }

  /** A right scroll adds exactly 150; a left scroll takes 150 off, stopping at 0. */
  lemma ScrollSteps(offset: int)
    requires offset >= 0
    ensures NextScroll(offset, Right) == offset + 150
    ensures NextScroll(offset, Left) == if offset >= 150 then offset - 150 else 0
    ensures NextScroll(offset, Left) >= 0 && NextScroll(offset, Right) >= 0
  {
  }

  /** Right then left restores any reachable offset. */
  lemma RightThenLeft(offset: int)
    requires offset >= 0
    ensures NextScroll(NextScroll(offset, Right), Left) == offset
  {
  }

  /** Left then right restores the offset exactly when it was at least 150. */
  lemma LeftThenRight(offset: int)
    ensures NextScroll(NextScroll(offset, Left), Right) == offset <==> offset >= 150
  {
  }

  /** After a thumbnail is clicked it is the only one outlined, provided
      the ids are distinct. */
  lemma OnlyClickedHighlighted(images: seq<Image>, k: nat)
    requires UniqueIds(images) && k < |images|
    ensures forall j :: 0 <= j < |images| ==> (Highlighted(Some(images[k]), images[j]) <==> j == k)
  {
  }

  /** The gallery's state: the images it was mounted with, the main image and
      the strip's offset, which never goes negative and stays at 0 when the
      arrows are not shown. */
  class Gallery {
    const images: seq<Image>
    var mainImage: Option<Image>
    var thumbnailScroll: int

    ghost predicate Valid()
      reads this
    {
      thumbnailScroll >= 0 && (!ShowsArrows(images) ==> thumbnailScroll == 0)
    }

    constructor (images: seq<Image>)
      ensures Valid()
      ensures this.images == images && thumbnailScroll == 0
      ensures mainImage == InitialMainImage(images)
      ensures ShowsPlaceholder() <==> images == []
    {
      this.images := images;
      mainImage := InitialMainImage(images);
      thumbnailScroll := 0;
    }

    /** Whether the "No images" placeholder is shown instead of the gallery. */
    predicate ShowsPlaceholder()
      reads this
    {
      mainImage.None?
    }

    /** A click on one of the arrows, which are there only for more than
        five images. */
    method ScrollThumbnails(direction: Direction)
      requires Valid() && ShowsArrows(images)
      modifies this
      ensures Valid()
      ensures thumbnailScroll == NextScroll(old(thumbnailScroll), direction)
      ensures mainImage == old(mainImage)
    {
      thumbnailScroll := NextScroll(thumbnailScroll, direction);
    }

    /** A click on the `k`th thumbnail. */
    method SelectThumbnail(k: nat)
      requires Valid() && k < |images|
      modifies this
      ensures Valid()
      ensures mainImage == Some(images[k]) && thumbnailScroll == old(thumbnailScroll)
      ensures UniqueIds(images) ==> forall j :: 0 <= j < |images| ==> (Highlighted(mainImage, images[j]) <==> j == k)
    {
      mainImage := Some(images[k]);
    }
  }
}
