/** The track record and its mapping from a search-result object. */
module Models {
  import opened Values

  /** TheAudioDBTrackInfo. Every field holds whatever JSON value the result object had under its key;
      `JNull` stands for Python's `None`, which is also what a JSON `null` decodes to. */
  datatype TrackInfo = TrackInfo(
    artistName: Json,
    alternateArtistName: Json,
    albumName: Json,
    name: Json,
    description: Json,
    trackThumb: Json)

  /** The six fields of a record, to state field-wise properties once. */
  datatype Field = ArtistName | AlternateArtistName | AlbumName | Name | Description | TrackThumb

  function Get(t: TrackInfo, f: Field): Json {
    match f
    case ArtistName => t.artistName
    case AlternateArtistName => t.alternateArtistName
    case AlbumName => t.albumName
    case Name => t.name
    case Description => t.description
    case TrackThumb => t.trackThumb
  }

  /** The result-object key each field is read from. */
  function SourceKey(f: Field): string {
    match f
    case ArtistName => "strArtist"
    case AlternateArtistName => "strArtistAlternate"
    case AlbumName => "strAlbum"
    case Name => "strTrack"
    case Description => "strDescriptionEN"
    case TrackThumb => "strTrackThumb"
  }

  /** The class-level defaults: every field None. */
  const Blank: TrackInfo := TrackInfo(JNull, JNull, JNull, JNull, JNull, JNull)

  /** Lookup with a fallback: the value under `key`, or `fallback` when the key is absent. */
  function TryGet(data: map<string, Json>, key: string, fallback: Json): Json {
    if key in data then data[key] else fallback
  }

  /** The constructor: starting from the defaults, each field in turn takes the value under its key,
      with the field's current value as the fallback. */
  function FromDict(data: map<string, Json>): (t: TrackInfo)
    ensures forall f: Field :: Get(t, f) == if SourceKey(f) in data then data[SourceKey(f)] else JNull
  {
    var t0 := Blank;
    var t1 := t0.(name := TryGet(data, "strTrack", t0.name));
    var t2 := t1.(artistName := TryGet(data, "strArtist", t1.artistName));
    var t3 := t2.(albumName := TryGet(data, "strAlbum", t2.albumName));
    var t4 := t3.(alternateArtistName := TryGet(data, "strArtistAlternate", t3.alternateArtistName));
    var t5 := t4.(description := TryGet(data, "strDescriptionEN", t4.description));
    t5.(trackThumb := TryGet(data, "strTrackThumb", t5.trackThumb))
  }

  /** Every field of a new record defaults to None. */
  lemma BlankIsNone(f: Field)
    ensures Get(Blank, f) == JNull
  {
  }

  /** No two fields read the same key. */
  lemma SourceKeysDistinct(f: Field, g: Field)
    requires f != g
    ensures SourceKey(f) != SourceKey(g)
  {
  }

  /** A field depends on its own key only: inputs that agree on that key give the same field,
      whatever else they hold. */
  lemma FieldLocality(d1: map<string, Json>, d2: map<string, Json>, f: Field)
    requires SourceKey(f) in d1 <==> SourceKey(f) in d2
    requires SourceKey(f) in d1 ==> d1[SourceKey(f)] == d2[SourceKey(f)]
    ensures Get(FromDict(d1), f) == Get(FromDict(d2), f)
  {
  }

  /** Two records with the same six fields are the same record. */
  lemma FieldsDetermineRecord(a: TrackInfo, b: TrackInfo)
    requires forall f: Field :: Get(a, f) == Get(b, f)
    ensures a == b
  {
    assert Get(a, ArtistName) == Get(b, ArtistName);
    assert Get(a, AlternateArtistName) == Get(b, AlternateArtistName);
    assert Get(a, AlbumName) == Get(b, AlbumName);
    assert Get(a, Name) == Get(b, Name);
    assert Get(a, Description) == Get(b, Description);
    assert Get(a, TrackThumb) == Get(b, TrackThumb);
  }

  /** Adding or changing a key that no field reads leaves the record unchanged. */
  lemma UnreadKeyIgnored(data: map<string, Json>, key: string, v: Json)
    requires forall f: Field :: SourceKey(f) != key
    ensures FromDict(data[key := v]) == FromDict(data)
  {
    forall f: Field ensures Get(FromDict(data[key := v]), f) == Get(FromDict(data), f) {
      FieldLocality(data[key := v], data, f);
    }
    FieldsDetermineRecord(FromDict(data[key := v]), FromDict(data));
  }
}
