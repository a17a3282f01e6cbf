/**
 * The media records shared by the server and the client, and their database
 * rows: ids are stored as `i64`, a music track number as an `i64`, and the
 * conversions between the two are `as` casts.
 */
module CommonMedia {
  import opened Wrappers
  import opened StdInt

  /** `MediaImage`. */
  datatype MediaImage = MediaImage(id: u64, title: string)

  /** `MediaMusic`. */
  datatype MediaMusic = MediaMusic(id: u64, title: string, artist: Option<string>, album: Option<string>, track: Option<u16>)

  /** The media types behind the `Media` trait. */
  datatype AnyMedia = ImageMedia(image: MediaImage) | MusicMedia(music: MediaMusic)

  /** `Media::title`: the record's own title, for either type. */
  function Title(m: AnyMedia): (r: string)
    ensures m.ImageMedia? ==> r == m.image.title
    ensures m.MusicMedia? ==> r == m.music.title
  {
    match m
    case ImageMedia(i) => i.title
    case MusicMedia(mu) => mu.title
  }

  /** `DbMediaImage`. */
  datatype DbMediaImage = DbMediaImage(id: i64, title: string)

  /** `DbMediaMusic`. */
  datatype DbMediaMusic = DbMediaMusic(id: i64, title: string, artist: Option<string>, album: Option<string>, track: Option<i64>)

  /** `From<MediaImage> for DbMediaImage`. */
  function DbFromImage(m: MediaImage): (r: DbMediaImage)
    ensures I64AsU64(r.id) == m.id && r.title == m.title
  {
    U64I64RoundTrip(m.id, 0);
    DbMediaImage(U64AsI64(m.id), m.title)
  }

  /** `From<DbMediaImage> for MediaImage`. */
  function ImageFromDb(d: DbMediaImage): (r: MediaImage)
    ensures U64AsI64(r.id) == d.id && r.title == d.title
  {
    U64I64RoundTrip(0, d.id);
    MediaImage(I64AsU64(d.id), d.title)
  }

  /** `track.map(|n| n as i64)`. */
  function WidenTrack(t: Option<u16>): (r: Option<i64>)
    ensures r.Some? <==> t.Some?
    ensures r.Some? ==> r.value == t.value as int
  {
    match t
    case None => None
    case Some(n) => Some(U16AsI64(n))
  }

  /** `track.map(|n| n as u16)`: the low 16 bits. */
  function NarrowTrack(t: Option<i64>): (r: Option<u16>)
    ensures r.Some? <==> t.Some?
    ensures r.Some? ==> (t.value - r.value) % TWO_16 == 0
  {
    match t
    case None => None
    case Some(n) => Some(I64AsU16(n))
  }

  /** `From<MediaMusic> for DbMediaMusic`. */
  function DbFromMusic(m: MediaMusic): (r: DbMediaMusic)
    ensures I64AsU64(r.id) == m.id && r.title == m.title && r.artist == m.artist && r.album == m.album
    ensures r.track == WidenTrack(m.track)
  {
    U64I64RoundTrip(m.id, 0);
    DbMediaMusic(U64AsI64(m.id), m.title, m.artist, m.album, WidenTrack(m.track))
  }

  /** `From<DbMediaMusic> for MediaMusic`. */
  function MusicFromDb(d: DbMediaMusic): (r: MediaMusic)
    ensures U64AsI64(r.id) == d.id && r.title == d.title && r.artist == d.artist && r.album == d.album
    ensures r.track == NarrowTrack(d.track)
  {
    U64I64RoundTrip(0, d.id);
    MediaMusic(I64AsU64(d.id), d.title, d.artist, d.album, NarrowTrack(d.track))
  }

  /** An image survives storage, and a stored image row survives being read. */
  lemma ImageRoundTrip(m: MediaImage, d: DbMediaImage)
    ensures ImageFromDb(DbFromImage(m)) == m
    ensures DbFromImage(ImageFromDb(d)) == d
  {
    U64I64RoundTrip(m.id, d.id);
  }

  /** A music record survives storage: the `u16` track widens without loss. */
  lemma MusicRoundTrip(m: MediaMusic)
    ensures MusicFromDb(DbFromMusic(m)) == m
  {
    U64I64RoundTrip(m.id, 0);
  }

  /** A stored music row survives being read exactly when its track number fits in 16 bits. */
  lemma DbMusicRoundTrip(d: DbMediaMusic)
    ensures DbFromMusic(MusicFromDb(d)) == d <==> (d.track.Some? ==> 0 <= d.track.value < TWO_16)
  {
    U64I64RoundTrip(0, d.id);
  }

  /** Reading keeps the low bits: a track of 65 537 reads as 1, an id of -1 as 2^64 - 1. */
  lemma MusicFromDbTruncates()
    ensures MusicFromDb(DbMediaMusic(-1, "", None, None, Some(65537))).track == Some(1)
    ensures MusicFromDb(DbMediaMusic(-1, "", None, None, Some(65537))).id == TWO_64 - 1
  {
  }

  /** The title a client shows is the one stored, whichever the media type. */
  lemma TitleIsStoredTitle(i: DbMediaImage, m: DbMediaMusic)
    ensures Title(ImageMedia(ImageFromDb(i))) == i.title
    ensures Title(MusicMedia(MusicFromDb(m))) == m.title
  {
  }
}
