/**
 * `LBRadioCountryRecordingElement`: a data-origin element that looks up the
 * MusicBrainz area of a country, fetches that country's popular recordings
 * from ListenBrainz, turns the response rows into candidate recordings and
 * hands a percentile window of them to the ranked-list sampler.
 *
 * The two HTTP calls are parameters: the successive answers of the area
 * search, and the answer of the bulk recordings fetch. The sampler is a
 * parameter too.
 */
module Country {
  import opened Troi

  const HttpOk := 200
  const ServiceUnavailable := 503

  // ---------------------------------------------------------------------
  // Rows of the popular-recordings-by-country response
  // ---------------------------------------------------------------------

  /** One response row; a field is `None` when its key is absent from the row. */
  datatype Row = Row(
    recordingMbid: Option<Nullable<string>>,
    artistCreditName: Option<Nullable<string>>,
    recordingName: Option<Nullable<string>>,
    year: Option<Nullable<int>>,
    listenCount: Option<Nullable<int>>)

  /**
   * What `recording_from_row` yields: a candidate (a recording, or `None` as a
   * placeholder), or the `KeyError` raised when the row has no
   * `recording_mbid` key at all.
   */
  datatype RowDecode = KeyMissing | Decoded(candidate: Option<Recording>)

  /** Turns a response row into a candidate, copying only the keys the row has. */
  function RecordingFromRow(row: Row): (d: RowDecode)
    ensures d.KeyMissing? <==> row.recordingMbid.None?
    ensures d == Decoded(None) <==> row.recordingMbid == Some(Null)
    ensures d.Decoded? && d.candidate.Some? ==>
      var rec := d.candidate.value;
      && row.recordingMbid == Some(NonNull(rec.mbid))
      && (rec.artist.Some? <==> row.artistCreditName.Some?)
      && (rec.artist.Some? ==> rec.artist.value.name == row.artistCreditName.value)
      && rec.name == row.recordingName
      && rec.year == row.year
      && (rec.listenbrainz.Some? <==> row.listenCount.Some?)
      && (rec.listenbrainz.Some? ==> rec.listenbrainz.value.listenCount == row.listenCount.value)
  {
    match row.recordingMbid
    case None => KeyMissing
    case Some(Null) => Decoded(None)
    case Some(NonNull(mbid)) =>
      var r := Recording(mbid, None, None, None, None);
      var r := if row.artistCreditName.Some? then r.(artist := Some(ArtistCredit(row.artistCreditName.value))) else r;
      var r := if row.recordingName.Some? then r.(name := Some(row.recordingName.value)) else r;
      var r := if row.year.Some? then r.(year := Some(row.year.value)) else r;
      var r := if row.listenCount.Some? then r.(listenbrainz := Some(ListenStats(row.listenCount.value))) else r;
      Decoded(Some(r))
  }

  /** The row a recording is read back from: every assigned attribute as a present key. */
  function RowOf(rec: Recording): Row {
    Row(
      Some(NonNull(rec.mbid)),
      if rec.artist.Some? then Some(rec.artist.value.name) else None,
      rec.name,
      rec.year,
      if rec.listenbrainz.Some? then Some(rec.listenbrainz.value.listenCount) else None)
  }

  /** Every recording is decoded back from its row unchanged. */
  lemma RecordingFromRowOf(rec: Recording)
    ensures RecordingFromRow(RowOf(rec)) == Decoded(Some(rec))
  {
  }

  /**
   * A row with a non-null `recording_mbid` decodes to a recording whose row
   * is the original one: no key is dropped, invented or altered.
   */
  lemma RowOfRecordingFromRow(row: Row)
    requires row.recordingMbid.Some? && row.recordingMbid.value.NonNull?
    ensures RecordingFromRow(row).Decoded? && RecordingFromRow(row).candidate.Some?
    ensures RowOf(RecordingFromRow(row).candidate.value) == row
  {
  }

  /**
   * The candidate list the loop in `read` builds: one entry per row, in row
   * order, placeholders kept; or the index of the first row whose missing
   * `recording_mbid` key stops the loop.
   */
  function Candidates(rows: seq<Row>): (r: Result<seq<Option<Recording>>, nat>)
    ensures r.Ok? <==> forall k :: 0 <= k < |rows| ==> rows[k].recordingMbid.Some?
    ensures r.Ok? ==>
      |r.value| == |rows| &&
      forall k :: 0 <= k < |rows| ==> RecordingFromRow(rows[k]) == Decoded(r.value[k])
    ensures r.Err? ==>
      r.error < |rows| && rows[r.error].recordingMbid.None? &&
      forall k :: 0 <= k < r.error ==> rows[k].recordingMbid.Some?
  {
    if rows == [] then Ok([])
    else
      match RecordingFromRow(rows[0])
      case KeyMissing => Err(0)
      case Decoded(c) =>
        match Candidates(rows[1..])
        case Ok(rest) => Ok([c] + rest)
        case Err(i) => Err(i + 1)
  }

  // ---------------------------------------------------------------------
  // Difficulty modes
  // ---------------------------------------------------------------------

  /** A percentile window `[start, stop)` of the ranked candidate list. */
  datatype Window = Window(start: int, stop: int)

  /** The mode table of `read`; an unknown mode is the table's `KeyError`. */
  function ModeWindow(mode: string): (w: Option<Window>)
    ensures w.Some? <==> mode == "easy" || mode == "medium" || mode == "hard"
    ensures w.Some? ==> 0 <= w.value.start < w.value.stop <= 100
    ensures mode == "easy" ==> w == Some(Window(66, 100))
    ensures mode == "medium" ==> w == Some(Window(33, 66))
    ensures mode == "hard" ==> w == Some(Window(0, 33))
  {
    if mode == "easy" then Some(Window(66, 100))
    else if mode == "medium" then Some(Window(33, 66))
    else if mode == "hard" then Some(Window(0, 33))
    else None
  }

  predicate InWindow(mode: string, p: int) {
    ModeWindow(mode).Some? && ModeWindow(mode).value.start <= p < ModeWindow(mode).value.stop
  }

  /**
   * The three windows are adjacent: hard starts at 0, medium starts where
   * hard stops, easy starts where medium stops and stops at 100. So every
   * percentile lies in exactly one of them.
   */
  lemma ModeWindowsTile(p: int)
    requires 0 <= p < 100
    ensures ModeWindow("hard").value.start == 0
    ensures ModeWindow("hard").value.stop == ModeWindow("medium").value.start
    ensures ModeWindow("medium").value.stop == ModeWindow("easy").value.start
    ensures ModeWindow("easy").value.stop == 100
    ensures InWindow("easy", p) || InWindow("medium", p) || InWindow("hard", p)
    ensures !(InWindow("easy", p) && InWindow("medium", p))
    ensures !(InWindow("medium", p) && InWindow("hard", p))
    ensures !(InWindow("easy", p) && InWindow("hard", p))
  {
  }

  // ---------------------------------------------------------------------
  // Area lookup
  // ---------------------------------------------------------------------

  /** An answer of the MusicBrainz area search: its status and the ids of the `areas` it lists. */
  datatype AreaResponse = AreaResponse(status: int, areaIds: seq<string>)

  /**
   * What one answer of the area search leads to: another attempt, the first
   * area's id, the `PipelineError` for a failing status, or the `IndexError`
   * of a successful answer that lists no area.
   */
  datatype AreaStep = Retry | Found(areaMbid: string) | Failed(status: int) | NoArea

  /** The decision `lookup_area` takes on one answer. */
  function ClassifyArea(resp: AreaResponse): (s: AreaStep)
    ensures s.Retry? <==> resp.status == ServiceUnavailable
    ensures s.Failed? <==> resp.status != ServiceUnavailable && resp.status != HttpOk
    ensures s.Failed? ==> s.status == resp.status
    ensures s.Found? <==> resp.status == HttpOk && |resp.areaIds| > 0
    ensures s.Found? ==> s.areaMbid == resp.areaIds[0]
  {
    if resp.status == ServiceUnavailable then Retry
    else if resp.status != HttpOk then Failed(resp.status)
    else if |resp.areaIds| == 0 then NoArea
    else Found(resp.areaIds[0])
  }

  /** Where the retry loop stops, and how many requests it made to get there. */
  datatype Settlement = Settlement(step: AreaStep, attempts: nat)

  /**
   * The retry loop over a finite run of answers: the first answer that is not
   * 503 decides. `Retry` here means every answer was 503 and the loop would
   * still be waiting.
   */
  function Settle(responses: seq<AreaResponse>): (s: Settlement)
    ensures s.attempts <= |responses|
    ensures forall j :: 0 <= j < s.attempts - 1 ==> responses[j].status == ServiceUnavailable
    ensures s.step.Retry? ==>
      s.attempts == |responses| &&
      forall j :: 0 <= j < |responses| ==> responses[j].status == ServiceUnavailable
    ensures !s.step.Retry? ==>
      0 < s.attempts && s.step == ClassifyArea(responses[s.attempts - 1])
  {
    if responses == [] then Settlement(Retry, 0)
    else
      var first := ClassifyArea(responses[0]);
      if first.Retry? then
        var rest := Settle(responses[1..]);
        Settlement(rest.step, rest.attempts + 1)
      else Settlement(first, 1)
  }

  /** `lookup_area`: query until an answer other than 503 arrives. */
  method LookupArea(responses: seq<AreaResponse>) returns (step: AreaStep, attempts: nat)
    ensures Settlement(step, attempts) == Settle(responses)
  {
    step, attempts := Retry, 0;
    while step.Retry? && attempts < |responses|
      invariant attempts <= |responses|
      invariant step.Retry? ==> forall j :: 0 <= j < attempts ==> responses[j].status == ServiceUnavailable
      invariant !step.Retry? ==>
        0 < attempts && step == ClassifyArea(responses[attempts - 1]) &&
        forall j :: 0 <= j < attempts - 1 ==> responses[j].status == ServiceUnavailable
    {
      step := ClassifyArea(responses[attempts]);
      attempts := attempts + 1;
    }
    SettleDeterminedByFirstAnswer(responses, step, attempts);
  }

  /** The facts `Settle` promises pin its result down. */
  lemma SettleDeterminedByFirstAnswer(responses: seq<AreaResponse>, step: AreaStep, attempts: nat)
    requires attempts <= |responses|
    requires step.Retry? ==>
      attempts == |responses| &&
      forall j :: 0 <= j < |responses| ==> responses[j].status == ServiceUnavailable
    requires !step.Retry? ==>
      0 < attempts && step == ClassifyArea(responses[attempts - 1]) &&
      forall j :: 0 <= j < attempts - 1 ==> responses[j].status == ServiceUnavailable
    ensures Settle(responses) == Settlement(step, attempts)
  {
  }

  // ---------------------------------------------------------------------
  // The element
  // ---------------------------------------------------------------------

  /** The answer of the bulk recordings fetch. */
  datatype RecordingsResponse = RecordingsResponse(status: int, text: string, rows: seq<Row>)

  /** The HTTP requests `read` makes, in order. */
  datatype Query = AreaQuery(areaName: string) | RecordingsQuery(areaMbid: string)

  /** Why `read` gives no recordings. */
  datatype CountryError =
    | UnknownMode(mode: string)                          // `KeyError` of the mode table
    | AreaNotResolved(step: AreaStep)                    // the lookup failed, or is still retrying
    | RecordingsFetchFailed(status: int, text: string)   // `PipelineError` of the bulk fetch
    | RowWithoutMbid(row: nat)                           // `KeyError` in `recording_from_row`

  /** `plist.random_item` with the target size fixed: draws from a window of the candidates. */
  type Sampler = (Window, seq<Option<Recording>>) -> seq<Option<Recording>>

  class CountryRecordingElement {
    const areaName: string
    const mode: string
    /** `self.data_cache`, bound by `read` to the shared state once both fetches have succeeded. */
    var dataCache: DataCache?

    constructor (areaName: string, mode: string)
      ensures this.areaName == areaName && this.mode == mode
      ensures dataCache == null
    {
      this.areaName := areaName;
      this.mode := mode;
      dataCache := null;
    }

    /** A data-origin element: it takes no inputs. */
    static function Inputs(): (r: seq<EntityType>)
      ensures |r| == 0
    {
      []
    }

    /** It produces recordings and nothing else. */
    static function Outputs(): (r: seq<EntityType>)
      ensures |r| == 1 && r[0] == RecordingType
    {
      [RecordingType]
    }

    /** `read` gets past both fetches and writes to the description log. */
    predicate ReachesDescription(areaResponses: seq<AreaResponse>, recordings: RecordingsResponse) {
      ModeWindow(mode).Some? && Settle(areaResponses).step.Found? && recordings.status == HttpOk
    }

    /** The entry `read` appends to the description log. */
    function Description(): string {
      "country " + areaName
    }

    method Read(storage: DataCache, areaResponses: seq<AreaResponse>, recordings: RecordingsResponse, sample: Sampler)
      returns (r: Result<seq<Option<Recording>>, CountryError>, queries: seq<Query>)
      modifies this, storage
      // an unknown mode fails before any request
      ensures ModeWindow(mode).None? ==> r == Err(UnknownMode(mode)) && queries == []
      // the area is searched for by name until an answer other than 503 arrives,
      // and only a found area is used for the recordings fetch
      ensures ModeWindow(mode).Some? ==>
        var s := Settle(areaResponses);
        && |queries| == s.attempts + (if s.step.Found? then 1 else 0)
        && (forall j :: 0 <= j < s.attempts ==> queries[j] == AreaQuery(areaName))
        && (s.step.Found? ==> queries[s.attempts] == RecordingsQuery(s.step.areaMbid))
        && (!s.step.Found? ==> r == Err(AreaNotResolved(s.step)))
        && (s.step.Found? && recordings.status != HttpOk ==>
              r == Err(RecordingsFetchFailed(recordings.status, recordings.text)))
      // the log gains exactly one entry once both fetches succeeded, and no entry otherwise
      ensures storage.elementDescriptions ==
        if ReachesDescription(areaResponses, recordings)
        then old(storage.elementDescriptions) + [Description()]
        else old(storage.elementDescriptions)
      ensures dataCache == if ReachesDescription(areaResponses, recordings) then storage else old(dataCache)
      // the candidates, one per row in row order, go to the sampler with the mode's window
      ensures ReachesDescription(areaResponses, recordings) ==>
        match Candidates(recordings.rows)
        case Err(i) => r == Err(RowWithoutMbid(i))
        case Ok(candidates) => r == Ok(sample(ModeWindow(mode).value, candidates))
    {
      queries := [];
      var window := ModeWindow(mode);
      if window.None? {
        r := Err(UnknownMode(mode));
        return;
      }
      var step, attempts := LookupArea(areaResponses);
      queries := seq(attempts, j => AreaQuery(areaName));
      if !step.Found? {
        r := Err(AreaNotResolved(step));
        return;
      }
      queries := queries + [RecordingsQuery(step.areaMbid)];
      if recordings.status != HttpOk {
        r := Err(RecordingsFetchFailed(recordings.status, recordings.text));
        return;
      }

      dataCache := storage;
      storage.elementDescriptions := storage.elementDescriptions + [Description()];

      var rows := recordings.rows;
      var candidates: seq<Option<Recording>> := [];
      var i := 0;
      while i < |rows|
        invariant 0 <= i <= |rows|
        invariant |candidates| == i
        invariant forall k :: 0 <= k < i ==> RecordingFromRow(rows[k]) == Decoded(candidates[k])
      {
        var d := RecordingFromRow(rows[i]);
        if d.KeyMissing? {
          r := Err(RowWithoutMbid(i));
          return;
        }
        candidates := candidates + [d.candidate];
        i := i + 1;
      }
      assert Candidates(rows).Ok?;
      assert Candidates(rows).value == candidates;
      r := Ok(sample(window.value, candidates));
    }
  }
}
