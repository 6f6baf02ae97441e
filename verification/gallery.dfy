/** The image gallery view: an empty-state card for no images, otherwise one
    card per image in input order. */
module Gallery {
  import opened Types
  import Initials

  /** What one grid card shows. `key` is the list key React uses. The upload
      time line (`formatDistanceToNow`) is not modelled. */
  datatype Card = Card(
    key: string,
    src: Url,
    alt: string,
    avatarSrc: string,
    avatarFallback: string,
    caption: string,
    hint: Option<string>)

  datatype GalleryView = EmptyState | Grid(cards: seq<Card>)

  /** The card for one image: keyed by its id, showing its url, the
      uploader's photo and name, and the name's initials as avatar fallback. */
  function CardFor(image: ImageData): (c: Card)
    ensures c.key == image.id && c.src == image.url
    ensures c.caption == image.userName && c.alt == "Image uploaded by " + c.caption
    ensures |c.avatarFallback| <= 2
  {
    Card(image.id, image.url, "Image uploaded by " + image.userName,
         image.userPhotoUrl, Initials.GetInitials(Some(image.userName)),
         image.userName, image.aiHint)
  }

  /** `images.map(...)`: one card per image, same order. */
  function Cards(images: seq<ImageData>): (cs: seq<Card>)
    ensures |cs| == |images|
    ensures forall i :: 0 <= i < |images| ==> cs[i] == CardFor(images[i])
  {
    if |images| == 0 then [] else [CardFor(images[0])] + Cards(images[1..])
  }

  /** The gallery body for a list of images. */
  function View(images: seq<ImageData>): (v: GalleryView)
    ensures v.EmptyState? <==> |images| == 0
    ensures v.Grid? ==> |v.cards| == |images|
    ensures v.Grid? ==> forall i :: 0 <= i < |images| ==> v.cards[i].key == images[i].id
    ensures v.Grid? ==> forall i :: 0 <= i < |images| ==> v.cards[i].src == images[i].url
  {
    if |images| == 0 then EmptyState else Grid(Cards(images))
  }

  function Keys(cards: seq<Card>): seq<string> {
    if |cards| == 0 then [] else [cards[0].key] + Keys(cards[1..])
  }

  function Ids(images: seq<ImageData>): seq<string> {
    if |images| == 0 then [] else [images[0].id] + Ids(images[1..])
  }

  /** The grid's key sequence is the image id sequence, position by
      position. */
  lemma {:induction false} KeysAreIds(images: seq<ImageData>)
    ensures Keys(Cards(images)) == Ids(images)
  {
    if |images| > 0 {
      KeysAreIds(images[1..]);
      assert Cards(images)[1..] == Cards(images[1..]);
    }
  }
}
