# troi: country recordings element and the `playlist` command

This project models two pieces of the troi playlist generator.

- **`LBRadioCountryRecordingElement`** (module `Country`, `country.dfy`). This data-origin
  element looks up a country's MusicBrainz area and retries while the search answers
  503 "Service Unavailable" (section 15.6.4 of RFC 9110). It then fetches the country's
  popular recordings from ListenBrainz and decodes each response row into a candidate:
  a recording, or a `None` placeholder. It appends `"country <area name>"` to the shared
  description log. Last, it passes the candidates to the ranked-list sampler with the
  percentile window of its difficulty mode (easy 66–100, medium 33–66, hard 0–33).
  The element is a class with the constructor's `areaName` and `mode` and the
  `data_cache` binding. The shared state is a `DataCache` object whose
  `elementDescriptions` log `Read` extends in place. The row loop and the retry loop
  are `while` loops proved against the functions `Candidates` and `Settle`.
- **The `playlist` command** (module `Command`, `command.dfy`). It looks up a patch by
  slug. It then walks the patch's declared inputs position by position and coerces each
  raw argument, building `checked_args`. Next it builds the pipeline and generates the
  playlist, and it prints and launches the result only when generation succeeds.
  `ValidateArgs` is the loop, proved equal to `CheckedArgs`. Lemmas characterise that
  function: when it succeeds, the values it yields, and where it stops when it fails.

Module `Troi` (`entities.dfy`) holds the entity values the two rely on (`Recording`,
`ArtistCredit`), `Option`/`Result`, and the `DataCache` class.

Modelling choices:
- A JSON row field has type `Option<Nullable<T>>`. `None` means the key is absent;
  `Some(Null)` means the key is present with a JSON `null`. A `Recording` attribute that
  was never assigned is `None`.
- Every HTTP call is a parameter. The area search is a finite `seq<AreaResponse>` holding
  the successive answers. The bulk fetch is one `RecordingsResponse`. `Read` returns the
  requests it would make as `queries`.
- Each Python exception that ends a step is an error value:
  - an unknown mode is a `KeyError`;
  - a status 200 area answer with no areas is an `IndexError` (`NoArea`);
  - a row without a `recording_mbid` key is a `KeyError`, raised after the description
    was already logged;
  - a required input with no argument is an `IndexError`.
- In `troi.py` the click arguments are strings, so `args[i] == None` at line 35 never
  holds. A missing required argument therefore ends the command with the uncaught
  `IndexError` of that line, not with the message of line 36. That message line would
  itself fail, since it indexes the list `inputs` with `'name'`. The model follows the
  code: `MissingRequired(i)`, with no call made.

## Model

| member | source | states |
|---|---|---|
| `Country.RecordingFromRow` | troi/patches/lb_radio_classes/country.py:48-65 | a missing `recording_mbid` key is the `KeyError`; a null one gives the `None` placeholder; otherwise the recording's `mbid` is the row's, artist credit name, recording name, year and `listen_count` are each set iff their key is present and then hold the row's value unchanged |
| `Country.RecordingFromRowOf` | troi/patches/lb_radio_classes/country.py:52-63 | every recording is decoded back unchanged from the row that lists its assigned attributes |
| `Country.RowOfRecordingFromRow` | troi/patches/lb_radio_classes/country.py:49-63 | a row with a non-null `recording_mbid` decodes to a model recording whose row is the original: no key dropped, added or altered (a key holding `null` is kept apart from an absent key) |
| `Country.Candidates` | troi/patches/lb_radio_classes/country.py:80-82 | the candidate list has one entry per row, in row order, each the decoding of the row at that position, `None` placeholders kept; it fails exactly when some row lacks the `recording_mbid` key, at the first such row |
| `Country.ModeWindow` | troi/patches/lb_radio_classes/country.py:69 | only "easy", "medium" and "hard" have a window: easy (66, 100), medium (33, 66), hard (0, 33); any other mode has none |
| `Country.ModeWindowsTile` | troi/patches/lb_radio_classes/country.py:69 | hard starts at 0, medium at hard's stop, easy at medium's stop and easy stops at 100, so each percentile lies in exactly one mode's window |
| `Country.ClassifyArea` | troi/patches/lb_radio_classes/country.py:39-46 | 503 means retry; any other status than 200 is a failure carrying that status; 200 yields the id of the first listed area, or the `IndexError` when none is listed |
| `Country.Settle` | troi/patches/lb_radio_classes/country.py:37-46 | the lookup is decided by the first answer that is not 503, after one request per answer up to it; if every answer is 503 the loop is still retrying |
| `Country.LookupArea` | troi/patches/lb_radio_classes/country.py:35-46 | the retry loop stops where `Settle` says, with the same decision and number of requests |
| `Country.SettleDeterminedByFirstAnswer` | troi/patches/lb_radio_classes/country.py:37-46 | the first-non-503 characterisation of the retry loop has exactly one solution |
| `Country.CountryRecordingElement.constructor` | troi/patches/lb_radio_classes/country.py:22-25 | the element stores `area_name` and `mode` unchanged |
| `Country.CountryRecordingElement.Inputs` | troi/patches/lb_radio_classes/country.py:27-29 | the element declares no inputs |
| `Country.CountryRecordingElement.Outputs` | troi/patches/lb_radio_classes/country.py:31-33 | the element declares exactly one output type, `Recording` |
| `Country.CountryRecordingElement.Read` | troi/patches/lb_radio_classes/country.py:67-84 | an unknown mode fails before any request; the area is searched for by name until a non-503 answer, and only a found area's id is used for the recordings fetch; a failed lookup or a non-200 fetch fails without touching the description log; otherwise exactly `"country " + area_name` is appended to the log with earlier entries unchanged, `data_cache` is bound to the shared state, and the sampler receives the mode's window and the row-ordered candidates |
| `Command.CheckFromAccepts` | troi.py:34-46 | from input `i` on, the loop succeeds iff every input is accepted, yields one value per remaining argument position, coerced from the argument at that position, and otherwise stops at the first input not accepted |
| `Command.CheckedArgsSucceed` | troi.py:33-46 | `checked_args` is built iff every declared input has an argument its type accepts or is optional without one; it then has `min(len(inputs), len(args))` values, at most `len(inputs)`, the `j`-th coerced from `args[j]` |
| `Command.CheckedArgsFail` | troi.py:35-44 | a failure names the first input not accepted: a required input with no argument (the uncaught `IndexError` of line 35), or an argument whose coercion raised `ValueError` |
| `Command.CheckedArgsIgnoreExtra` | troi.py:34 | arguments beyond the declared inputs do not change the outcome |
| `Command.CheckFromIgnoresExtra` | troi.py:34-46 | the same, for the loop from any input on |
| `Command.ValidateArgs` | troi.py:33-46 | the `for` loop builds exactly `CheckedArgs`: optional inputs with no argument are skipped and the loop continues, a missing required argument or a `ValueError` stops it |
| `Command.PlaylistCommand` | troi.py:25-56 | an unknown slug stops before any input is examined; rejected arguments stop before `patch.create`; otherwise the patch is created from the checked arguments and generated; a `RuntimeError` is reported and neither print nor launch runs; on success the playlist is printed and launched |

## Left out

- HTTP requests, `sleep(1)` and the JSON parsing of answers are left out. The answers are
  parameters, and a response that is not the expected shape (a missing `areas` key, a
  body that is not a list) is not modelled.
- Country.LookupArea: the source retries forever. The model reads a finite run of answers,
  and if all of them are 503 it reports that it is still retrying (`Retry`).
- `plist.random_item` and `TARGET_NUMBER_OF_RECORDINGS`: the sampler is a parameter that
  receives the window and the candidates. Its source is not part of this model and it
  draws at random, so no property of it is stated.
- Country.CountryRecordingElement.Read: the `inputs` argument is unused by the source and
  is dropped. `local_storage["data_cache"]["element-descriptions"]` is a typed field
  (`DataCache.elementDescriptions`), so the `KeyError` of a missing key is not modelled.
- The Element base class, the `PlaylistElement` container, `set_sources` and `generate`
  are not part of this model. `PlaylistCommand` keeps `patch.create` as its own
  parameter `create`. Constructing `PlaylistElement`, `set_sources` and `generate`
  (troi.py:51-53) together become the single parameter `generate`, which either returns
  the entities or raises `RuntimeError`. Other exceptions from them, and exceptions from
  `patch.create`, are not modelled.
- Country.RowOfRecordingFromRow: the `Recording` class is not part of this model. The
  model assumes that an attribute assigned a JSON `null` differs from one never
  assigned. If the class default is `None`, the source cannot tell a row whose key
  holds `null` from a row without that key. The round trip then holds only for the
  model's record, not for the source's object.
- Country.RecordingFromRowOf: the same assumption applies. The round trip is proved
  for the model's record, in which an attribute set to `null` differs from an unset one.
- Command.PlaylistCommand: `troi.utils.discover_patches` is a filesystem scan; the model
  takes its result as a map from slug to patch. Printing, `quit()`, the `--debug` flag,
  `playlist.print()` and `playlist.launch()` are output only: `quit()` becomes an
  outcome, and print and launch become entries of `calls`. A coercion that raises
  anything other than `ValueError` is not modelled.
- The `info` and `list` commands only print, and `info` calls the nonexistent
  `troi.util`. They are not modelled. Neither is logging.
