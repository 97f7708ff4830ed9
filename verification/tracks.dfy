/**
 Normalisation of the upstream search results (server.js, lines 60-72): each
 loosely typed upstream track becomes a fixed output record, field by field,
 through JavaScript `||` fallbacks. The values the runtime supplies while a
 track is normalised (the clock, a random number, the current time as ISO-8601
 text) are explicit inputs.
 */
module Tracks {
  import opened JsValues

  /** The uploader object nested in an upstream track. */
  datatype User = User(
    username: Field<string>,
    fullName: Field<string>,
    avatarUrl: Field<string>,
    permalink: Field<string>)

  /** An upstream `id`: a JSON number or a JSON string. */
  datatype TrackId = NumericId(number: int) | TextId(text: string)

  /** An upstream track as parsed from JSON; every property may be missing
      or null. */
  datatype UpstreamTrack = UpstreamTrack(
    id: Field<TrackId>,
    title: Field<string>,
    description: Field<string>,
    artworkUrl: Field<string>,
    user: Field<User>,
    duration: Field<int>,
    playbackCount: Field<int>,
    createdAt: Field<string>,
    streamUrl: Field<string>,
    permalinkUrl: Field<string>,
    permalink: Field<string>)

  /** An element of the upstream `collection` array. Reading a property of a
      null element throws; a non-null primitive element has none of the
      properties and is represented as an `Entry` whose fields are all
      undefined. */
  datatype Item = Entry(track: UpstreamTrack) | NullEntry

  /** What the runtime supplies while one track is normalised: `Date.now()`,
      the text of `Math.random()`, and `new Date().toISOString()`. */
  datatype Moment = Moment(nowMillis: int, randomText: string, isoNow: string)

  /** The normalised track the proxy returns. */
  datatype Track = Track(
    id: string,
    title: string,
    description: string,
    thumbnail: string,
    channelTitle: string,
    duration: int,
    viewCount: int,
    publishedAt: string,
    source: string,
    streamUrl: Field<string>,
    permalinkUrl: string)

  const Source := "soundcloud"
  const UntitledTitle := "Untitled"
  const UnknownArtist := "Unknown Artist"
  const PermalinkHost := "https://soundcloud.com/"

  /** The message of the TypeError thrown by reading `id` of a null element. */
  const NullTrackMessage := "Cannot read properties of null (reading 'id')"

  /** `track.user?.x` reads undefined when `user` is undefined or null, so a
      missing uploader reads like one without any properties. */
  function Uploader(t: UpstreamTrack): User {
    if t.user.Defined? then t.user.value else User(Undefined, Undefined, Undefined, Undefined)
  }

  /** `track.id?.toString()`: a number's decimal text, a string itself, and
      undefined when the id is undefined or null. */
  function IdText(id: Field<TrackId>): Field<string> {
    match id
    case Defined(NumericId(n)) => Defined(NumberToString(n))
    case Defined(TextId(s)) => Defined(s)
    case _ => Undefined
  }

  /** The track's own id takes part in the `id` chain: any number (even 0,
      whose text "0" is truthy) or a non-empty string. */
  predicate HasOwnId(t: UpstreamTrack) {
    t.id.Defined? && (t.id.value.NumericId? || t.id.value.text != "")
  }

  /** The generated id `sc_${Date.now()}_${Math.random()}`. */
  function GeneratedId(m: Moment): string {
    "sc_" + (NumberToString(m.nowMillis) + ("_" + m.randomText))
  }

  /** The permalink built from the uploader's and the track's permalink
      segments, each interpolated as a template literal does. */
  function BuiltPermalink(t: UpstreamTrack): string {
    PermalinkHost + Interpolate(Uploader(t).permalink) + "/" + Interpolate(t.permalink)
  }

  /** Every field that has a default is filled with a non-empty value. */
  predicate Complete(r: Track) {
    && r.id != ""
    && r.title != ""
    && r.channelTitle != ""
    && r.source == Source
    && r.permalinkUrl != ""
  }

  /** The normalised form of one upstream track: whatever the upstream omits,
      every defaulted field is filled. */
  function Normalize(t: UpstreamTrack, m: Moment): (r: Track)
    ensures Complete(r)
  {
    var owner := Uploader(t);
    Track(
      id := FirstTruthy([IdText(t.id), t.permalinkUrl]).GetOr(GeneratedId(m)),
      title := FirstTruthy([t.title]).GetOr(UntitledTitle),
      description := FirstTruthy([t.description]).GetOr(""),
      thumbnail := FirstTruthy([t.artworkUrl, owner.avatarUrl]).GetOr(""),
      channelTitle := FirstTruthy([owner.username, owner.fullName]).GetOr(UnknownArtist),
      duration := NumberOr(t.duration, 0),
      viewCount := NumberOr(t.playbackCount, 0),
      publishedAt := FirstTruthy([t.createdAt]).GetOr(m.isoNow),
      source := Source,
      streamUrl := t.streamUrl,
      permalinkUrl := FirstTruthy([t.permalinkUrl]).GetOr(BuiltPermalink(t)))
  }

  /** Field by field, which upstream value or default each normalised field
      takes, and in which order the fallbacks are tried. */
  lemma NormalizedFields(t: UpstreamTrack, m: Moment, r: Track)
    requires r == Normalize(t, m)
    ensures t.id.Defined? && t.id.value.NumericId? ==> r.id == NumberToString(t.id.value.number)
    ensures t.id.Defined? && t.id.value.TextId? && t.id.value.text != "" ==> r.id == t.id.value.text
    ensures !HasOwnId(t) && Truthy(t.permalinkUrl) ==> r.id == t.permalinkUrl.value
    ensures !HasOwnId(t) && !Truthy(t.permalinkUrl) ==> r.id == GeneratedId(m)
    ensures r.title == (if Truthy(t.title) then t.title.value else UntitledTitle)
    ensures r.description == (if Truthy(t.description) then t.description.value else "")
    ensures Truthy(t.artworkUrl) ==> r.thumbnail == t.artworkUrl.value
    ensures !Truthy(t.artworkUrl) && Truthy(Uploader(t).avatarUrl) ==> r.thumbnail == Uploader(t).avatarUrl.value
    ensures !Truthy(t.artworkUrl) && !Truthy(Uploader(t).avatarUrl) ==> r.thumbnail == ""
    ensures Truthy(Uploader(t).username) ==> r.channelTitle == Uploader(t).username.value
    ensures !Truthy(Uploader(t).username) && Truthy(Uploader(t).fullName) ==> r.channelTitle == Uploader(t).fullName.value
    ensures !Truthy(Uploader(t).username) && !Truthy(Uploader(t).fullName) ==> r.channelTitle == UnknownArtist
    ensures r.duration == (if t.duration.Defined? then t.duration.value else 0)
    ensures r.viewCount == (if t.playbackCount.Defined? then t.playbackCount.value else 0)
    ensures r.publishedAt == (if Truthy(t.createdAt) then t.createdAt.value else m.isoNow)
    ensures r.streamUrl == t.streamUrl
    ensures r.permalinkUrl == (if Truthy(t.permalinkUrl) then t.permalinkUrl.value else BuiltPermalink(t))
  {
    var owner := Uploader(t);
    FirstTruthyOfTwo(IdText(t.id), t.permalinkUrl);
    FirstTruthyOfTwo(t.artworkUrl, owner.avatarUrl);
    FirstTruthyOfTwo(owner.username, owner.fullName);
  }

  /** Two generated ids are equal only when they were generated from the same
      clock reading and the same random text. */
  lemma GeneratedIdInjective(m1: Moment, m2: Moment)
    requires GeneratedId(m1) == GeneratedId(m2)
    ensures m1.nowMillis == m2.nowMillis && m1.randomText == m2.randomText
  {
    var d1, d2 := NumberToString(m1.nowMillis), NumberToString(m2.nowMillis);
    CancelPrefix("sc_", d1 + ("_" + m1.randomText), d2 + ("_" + m2.randomText));
    SplitAtSeparator(d1, "_" + m1.randomText, d2, "_" + m2.randomText, '_');
    CancelPrefix("_", m1.randomText, m2.randomText);
    NumberToStringInjective(m1.nowMillis, m2.nowMillis);
  }

  /** Tracks that have neither an id nor a permalink URL get different ids
      whenever the clock or the random text differs between them. */
  lemma GeneratedIdsDiffer(t1: UpstreamTrack, m1: Moment, t2: UpstreamTrack, m2: Moment)
    requires !HasOwnId(t1) && !Truthy(t1.permalinkUrl)
    requires !HasOwnId(t2) && !Truthy(t2.permalinkUrl)
    requires m1.nowMillis != m2.nowMillis || m1.randomText != m2.randomText
    ensures Normalize(t1, m1).id != Normalize(t2, m2).id
  {
    NormalizedFields(t1, m1, Normalize(t1, m1));
    NormalizedFields(t2, m2, Normalize(t2, m2));
    if Normalize(t1, m1).id == Normalize(t2, m2).id {
      GeneratedIdInjective(m1, m2);
    }
  }

  /** Without a permalink URL, and with neither the uploader nor the track
      carrying a permalink segment, the built permalink has the text
      "undefined" in both segments. */
  lemma UndefinedPermalinkSegments(t: UpstreamTrack, m: Moment)
    requires !Truthy(t.permalinkUrl)
    requires t.user.Undefined? || t.user.Null? || t.user.value.permalink.Undefined?
    requires t.permalink.Undefined?
    ensures Normalize(t, m).permalinkUrl == "https://soundcloud.com/undefined/undefined"
  {
    assert Uploader(t).permalink == Undefined;
    assert BuiltPermalink(t) == "https://soundcloud.com/undefined/undefined";
    assert FirstTruthy([t.permalinkUrl]) == None;
  }

  /** The runtime's clock and randomness only matter to a track that needs a
      generated id or a generated publication time. */
  lemma MomentOnlyFillsGaps(t: UpstreamTrack, m1: Moment, m2: Moment)
    requires HasOwnId(t) || Truthy(t.permalinkUrl)
    requires Truthy(t.createdAt)
    ensures Normalize(t, m1) == Normalize(t, m2)
  {
  }

  /** `collection.map(f)` where the element at position `i` is mapped with
      the runtime values `clock(i)`; None when some element is null, since
      reading a property of it throws. */
  function MapEntries(items: seq<Item>, clock: nat -> Moment, f: (UpstreamTrack, Moment) -> Track): (r: Option<seq<Track>>)
    ensures r.None? <==> exists i :: 0 <= i < |items| && items[i].NullEntry?
    ensures r.Some? ==> |r.value| == |items|
    ensures r.Some? ==> forall i :: 0 <= i < |items| ==> r.value[i] == f(items[i].track, clock(i))
    decreases |items|
  {
    if |items| == 0 then Some([])
    else
      var front := MapEntries(items[..|items| - 1], clock, f);
      var last := items[|items| - 1];
      if front.None? then
        assert exists i :: 0 <= i < |items| && items[i].NullEntry? by {
          var k :| 0 <= k < |items| - 1 && items[..|items| - 1][k].NullEntry?;
          assert items[k].NullEntry?;
        }
        None
      else if last.NullEntry? then None
      else
        var tracks := front.value + [f(last.track, clock(|items| - 1))];
        assert forall i :: 0 <= i < |items| - 1 ==> items[..|items| - 1][i] == items[i];
        assert forall i :: 0 <= i < |items| - 1 ==> tracks[i] == front.value[i];
        Some(tracks)
  }

  /** The normalised collection: same length and order as the upstream one,
      each track normalised with the runtime values of its position. */
  function NormalizeAll(items: seq<Item>, clock: nat -> Moment): (r: Option<seq<Track>>)
    ensures r.None? <==> exists i :: 0 <= i < |items| && items[i].NullEntry?
    ensures r.Some? ==> |r.value| == |items|
    ensures r.Some? ==> forall i :: 0 <= i < |items| ==> r.value[i] == Normalize(items[i].track, clock(i))
  {
    MapEntries(items, clock, Normalize)
  }
}
