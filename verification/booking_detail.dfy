/**
 * The room detail screen's pure parts: the storage URL of an image, the
 * list of images in the carousel, and the parameters passed to the booking
 * form.
 */
module BookingDetail {
  import opened Wrappers
  import opened JsString

  /** The fields of a room that the screen uses. */
  datatype RoomData = RoomData(
    id: int,
    name: string,
    memberPrice: string,
    extraPerson: string,
    extraMattress: string,
    featuredImage: string,
    images: string)

  /**
   * The outcome of `JSON.parse` on the room's `images` field when it parses:
   * a list (its entries stand for the image paths), a string, or any other value.
   */
  datatype Json = JArray(items: seq<string>) | JString(text: string) | JOther

  const StorageBase := "https://doonclub.in/storage/"
  const PublicDir := "public/"

  /** `getImageUrl`: the storage address, followed by the path without its first `public/`. */
  function ImageUrl(path: string): (url: string)
    ensures (forall j :: !OccursAt(path, PublicDir, j)) ==> url == StorageBase + path
    ensures forall i :: (OccursAt(path, PublicDir, i) && (forall j :: 0 <= j < i ==> !OccursAt(path, PublicDir, j)))
                        ==> url == StorageBase + path[..i] + path[i + |PublicDir|..]
  {
    StorageBase + ReplaceFirst(path, PublicDir, "")
  }

  /**
   * A path that starts with `public/` loses that prefix and nothing else,
   * even when the rest holds `public/` again.
   */
  lemma ImageUrlRemovesOnlyFirst(rest: string)
    ensures ImageUrl(PublicDir + rest) == StorageBase + rest
  {
    var path := PublicDir + rest;
    assert path[0..|PublicDir|] == PublicDir;
    assert OccursAt(path, PublicDir, 0);
    assert path[..0] + path[|PublicDir|..] == rest;
  }

  /** What spreading a parsed value yields: its elements, or `None` when it is not iterable. */
  function Spread(j: Json): Option<seq<string>>
  {
    match j
    case JArray(items) => Some(items)
    case JString(text) => Some(seq(|text|, i requires 0 <= i < |text| => [text[i]]))
    case JOther => None
  }

  /**
   * `getRoomImages`: nothing without room data; otherwise the featured image
   * first, then the parsed additional images, or the featured image alone if
   * parsing or spreading throws. `parse` stands for `JSON.parse`.
   */
  function RoomImages(room: Option<RoomData>, parse: string -> Option<Json>): (images: seq<string>)
    ensures room.None? ==> images == []
    ensures room.Some? ==> |images| >= 1 && images[0] == room.value.featuredImage
    ensures room.Some? && parse(room.value.images).Some? && parse(room.value.images).value.JArray? ==>
      images[1..] == parse(room.value.images).value.items
    ensures room.Some? && parse(room.value.images).None? ==> images == [room.value.featuredImage]
    ensures room.Some? && parse(room.value.images) == Some(JOther) ==> images == [room.value.featuredImage]
    ensures room.Some? && parse(room.value.images).Some? && parse(room.value.images).value.JString? ==>
      var text := parse(room.value.images).value.text;
      |images| == 1 + |text| && forall i :: 0 <= i < |text| ==> images[i + 1] == [text[i]]
  {
    if room.None? then []
    else
      var featured := [room.value.featuredImage];
      match parse(room.value.images)
      case None => featured
      case Some(j) =>
        match Spread(j)
        case None => featured
        case Some(more) => featured + more
  }

  /** The parameters the booking form is opened with. */
  datatype BookingFormParams = BookingFormParams(
    roomId: string,
    roomName: string,
    memberPrice: string,
    extraPersonPrice: string,
    extraMattressPrice: string)

  /**
   * `handleBookNow`: nothing without room data; otherwise the room's id as a
   * string, which the booking form's `parseInt` reads back as the same id,
   * and its name and three prices unchanged.
   */
  function BookNowParams(room: Option<RoomData>): (p: Option<BookingFormParams>)
    ensures p.Some? <==> room.Some?
    ensures room.Some? ==> ParseInt(p.value.roomId) == Some(room.value.id)
    ensures room.Some? ==>
              && p.value.roomName == room.value.name
              && p.value.memberPrice == room.value.memberPrice
              && p.value.extraPersonPrice == room.value.extraPerson
              && p.value.extraMattressPrice == room.value.extraMattress
  {
    if room.None? then None
    else
      var r := room.value;
      ParseIntOfIntToString(r.id);
      Some(BookingFormParams(IntToString(r.id), r.name, r.memberPrice, r.extraPerson, r.extraMattress))
  }
}
