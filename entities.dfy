/**
 * The parts of the `troi` package that the country element and the `playlist`
 * command rely on: optional values, the recording entities, the type tags an
 * element declares, and the shared pipeline state that elements append to.
 */
module Troi {

  datatype Option<+T> = None | Some(value: T)

  /** Outcome of a step that may fail with an error of type `E`. */
  datatype Result<+T, +E> = Ok(value: T) | Err(error: E)

  /** A JSON value that may be `null`. */
  datatype Nullable<+T> = Null | NonNull(value: T)

  /** The entity classes an element names in its `inputs()` and `outputs()`. */
  datatype EntityType = RecordingType | ArtistType | ArtistCreditType | ReleaseType

  datatype ArtistCredit = ArtistCredit(name: Nullable<string>)

  /** The `listenbrainz` attribute bag of a recording. */
  datatype ListenStats = ListenStats(listenCount: Nullable<int>)

  /**
   * A recording. Every attribute but `mbid` is `None` while it has not been
   * assigned (it then keeps the class default); once assigned it holds the
   * JSON value it was given, which may itself be `null`.
   */
  datatype Recording = Recording(
    mbid: string,
    artist: Option<ArtistCredit>,
    name: Option<Nullable<string>>,
    year: Option<Nullable<int>>,
    listenbrainz: Option<ListenStats>)

  /**
   * The shared pipeline state (`local_storage["data_cache"]`), reduced to the
   * one entry the modelled code uses: the `"element-descriptions"` log.
   */
  class DataCache {
    var elementDescriptions: seq<string>
  }
}
