# Smith cloud catalog in Dafny

Smith is a small iOS app. It shows a fixed catalog of ten cloud types, grouped
into one table section per altitude band, and a detail screen for the selected
cloud. This project models the app's non-UI logic and proves properties of it:

- `CloudModel` (`cloud_model.dfy`) covers `CloudAltitude`: its raw values
  (`low = 0`, `mid`, `high`, sentinel `count = 3`), the failable `init(rawValue:)`,
  and the `longName` and `feet` tables. It also covers the `Cloud` class with its
  five fields, `cloudMaker` and `sampleData`.
  - `Cloud` is a Dafny class whose fields `CloudMaker` assigns.
  - `CloudRecord` is the value those fields hold.
  - `Catalog()` is the ten values that `sampleData` appends, in append order.
  - The source's spellings are kept as written, including "Cumulonibmbus" and
    "Mid-level Clouds".
- `ListScreen` (`list_screen.dfy`) covers the table data source of `ViewController`:
  `sectionData`, `rowData`, `numberOfSections` and `numberOfRowsInSection`. These are
  pure functions of the screen's `model` list, and the lemmas about the fixture
  apply them to `Catalog()`.
- `DetailScreen` (`detail_screen.dfy`) covers `CloudDetailViewController`:
  - `textFor(altitudeRange:)` is a loop that appends one token per band. It is
    proved equal to the recursive `AltitudeText`.
  - The precipitation text is "True" or "False".
  - `updateView()` sets the five label texts.
- `Wrappers` (`wrappers.dfy`) holds `Option`, which stands for Swift's optionals.

Three facts about the code shape the model:

- Index 3 is a valid raw value (`.count`), so section 3 is an empty list, not
  `nil`. Only indices below 0 or above 3 give `nil`.
- The three band sections hold 5 + 4 + 4 = 13 rows. Only two sample clouds span
  more than one band: record 0 spans three bands and record 4 spans two.
- An out-of-bounds row makes the Swift subscript trap, so `RowData` requires the
  row to be in bounds.

## Model

| member | source | states |
|---|---|---|
| `CloudModel.RawValue` | Smith/CloudModel.swift:11-13 | raw values lie in 0..3, and 3 is exactly the sentinel `count` |
| `CloudModel.FromRaw` | Smith/CloudModel.swift:11-13 | the raw-value initialiser succeeds exactly for 0..3, and the case it yields has that raw value |
| `CloudModel.RawValueRoundTrip` | Smith/CloudModel.swift:11-13 | every case is recovered from its raw value |
| `CloudModel.RawValueInjective` | Smith/CloudModel.swift:11-13 | distinct cases have distinct raw values |
| `CloudModel.LongName` | Smith/CloudModel.swift:15-26 | `longName` is empty exactly for the sentinel; every real band's name ends in " Clouds" |
| `CloudModel.Feet` | Smith/CloudModel.swift:28-39 | `feet` is empty exactly for the sentinel; every real band's height ends in " feet" |
| `CloudModel.DisplayTablesDistinguishBands` | Smith/CloudModel.swift:15-39 | both tables give different strings to different real bands |
| `CloudModel.Cloud.constructor` | Smith/CloudModel.swift:42-47 | `Cloud()` starts with every field at its declared default |
| `CloudModel.Cloud.CloudMaker` | Smith/CloudModel.swift:125-138 | `cloudMaker` returns a fresh object whose five fields equal its five arguments |
| `CloudModel.Cloud.SampleData` | Smith/CloudModel.swift:49-123 | `sampleData` returns ten distinct objects whose values are, in append order, the fixture catalog |
| `CloudModel.Catalog` | Smith/CloudModel.swift:52-120 | the fixture holds exactly ten records, in append order |
| `CloudModel.CatalogObjectsDistinct` | Smith/CloudModel.swift:49-123 | objects that hold the fixture values are pairwise distinct |
| `CloudModel.CatalogNames` | Smith/CloudModel.swift:49-123 | the fixture has ten records, named Cumulonibmbus, Cumulus, …, Cirrus, in append order |
| `CloudModel.CatalogNamesDistinct` | Smith/CloudModel.swift:49-123 | no two fixture records share a name |
| `CloudModel.CatalogRanges` | Smith/CloudModel.swift:54-118 | the altitude range of each of the ten fixture records |
| `CloudModel.CatalogValid` | Smith/CloudModel.swift:54-118 | every fixture range is non-empty, and none contains the sentinel |
| `CloudModel.CatalogMultiBandRecords` | Smith/CloudModel.swift:52-118 | only records 0 (`[low, mid, high]`) and 4 (`[low, mid]`) span more than one band, and exactly these two have the precipitation flag set |
| `ListScreen.FilterByAltitude` | Smith/ViewController.swift:30 | the filtered list is no longer than the model |
| `ListScreen.FilterMembership` | Smith/ViewController.swift:30 | the section filter keeps a record exactly when the record is in the model and its range contains the band |
| `ListScreen.FilterAppend` | Smith/ViewController.swift:30 | filtering a concatenation gives the concatenation of the filtered parts, so catalog order is kept |
| `ListScreen.FilterSingle` | Smith/ViewController.swift:30 | a single record is kept exactly when its range contains the band |
| `ListScreen.SectionData` | Smith/ViewController.swift:28-34 | `sectionData` is `nil` exactly for sections below 0 or above 3; otherwise it lists exactly the model's records whose range contains the section's band |
| `ListScreen.NumberOfSections` | Smith/ViewController.swift:46-52 | there are 3 sections, one for each raw value of a real band |
| `ListScreen.NumberOfRows` | Smith/ViewController.swift:54-57 | the row count is between 0 and the model's size; it is positive exactly when the section is a raw value and some record lists its band |
| `ListScreen.RowData` | Smith/ViewController.swift:36-42 | `rowData` is `nil` exactly for an invalid section; otherwise it is a model record whose range contains the section's band; an out-of-bounds row is excluded because the subscript traps |
| `ListScreen.EveryMatchingCloudHasARow` | Smith/ViewController.swift:28-42 | every record that lists a band is shown in some row of that band's section |
| `ListScreen.SectionRowsTotal` | Smith/ViewController.swift:46-57 | the three band sections together hold one row per record per real band it lists |
| `ListScreen.TotalBandsAtLeastLength` | Smith/CloudModel.swift:54-118 | in a well-formed catalog the band count summed over all records is at least the number of records |
| `ListScreen.ValidCatalogRowsCoverModel` | Smith/ViewController.swift:46-57 | with non-empty, sentinel-free ranges, the three sections hold at least as many rows as there are records |
| `ListScreen.SampleSectionSize` | Smith/ViewController.swift:30 | a list with the fixture's ranges gives 5, 4, 4 and 0 records for low, mid, high and the sentinel |
| `ListScreen.SampleRowCounts` | Smith/ViewController.swift:46-57 | for the fixture, there are 3 sections with 5, 4 and 4 rows; section 3 has 0 rows and is an empty, non-nil list |
| `ListScreen.SampleRowsTotal` | Smith/ViewController.swift:46-57 | the fixture's ten records fill 13 rows across the three sections |
| `ListScreen.FirstCloudHeadsEverySection` | Smith/ViewController.swift:36-42 | the first fixture cloud is row 0 of each of the three band sections |
| `DetailScreen.Token` | Smith/CloudDetailViewController.swift:31-40 | each band's token is at least four characters and ends in a space |
| `DetailScreen.AltitudeText` | Smith/CloudDetailViewController.swift:27-44 | the text for n bands is between 4n and 6n characters long |
| `DetailScreen.AltitudeTextAppend` | Smith/CloudDetailViewController.swift:29-43 | the text for `a + b` is the text for `a` followed by the text for `b` |
| `DetailScreen.AltitudeTextEndsInSpace` | Smith/CloudDetailViewController.swift:28-43 | the text is empty exactly for an empty range; otherwise it ends in a space |
| `DetailScreen.AltitudeTextLength` | Smith/CloudDetailViewController.swift:30-41 | the text length is 4 per low or mid band, 5 per high band and 6 per sentinel |
| `DetailScreen.AltitudeTextInjective` | Smith/CloudDetailViewController.swift:30-41 | different band lists never give the same text |
| `DetailScreen.TextFor` | Smith/CloudDetailViewController.swift:27-44 | the loop's result is the text for the whole range: one token per band, in input order |
| `DetailScreen.PrecipitationText` | Smith/CloudDetailViewController.swift:51 | the precipitation label is "True" exactly when the flag is set and "False" exactly when it is not |
| `DetailScreen.FirstCloudDetail` | Smith/CloudDetailViewController.swift:46-52 | the first fixture cloud shows "Low Mid High " and "True" |
| `DetailScreen.CloudDetailView.constructor` | Smith/CloudDetailViewController.swift:11-19 | a detail screen holds the cloud it is given, and its labels start empty |
| `DetailScreen.CloudDetailView.UpdateView` | Smith/CloudDetailViewController.swift:46-52 | `updateView` copies name, abbreviation and description unchanged, shows the bands as their text and the flag as "True" or "False", and leaves the cloud unchanged; the cloud must be set |

## Left out

- `CloudModel.Cloud.SampleData`: does not state that the ten objects are newly allocated, only that they are distinct. No member relies on freshness; the objects' distinctness, their values and their order are stated.
- The list screen's functions work on the values of the catalog objects, not on their references. The objects are never mutated after `sampleData`, so the values give the same sections, rows and counts. Object identity is not modelled.
- `viewDidLoad`, the navigation-bar and large-title settings, cell dequeueing and label assignment in `cellForRowAt`, and the segue in `didSelectRowAt` are UIKit presentation calls with no data logic.
- The segue passes no cloud, and no `prepare(for:sender:)` is part of this model. The hand-off from the list to the detail screen is therefore not modelled; the detail screen's constructor takes its cloud as a parameter.
- The `@IBOutlet` labels are represented only by the text they are given, as string fields of `CloudDetailView`.
- No section header text is produced in this code, so none is modelled. Only `longName` and `feet` exist.
- Swift `String` is modelled as `seq<char>`, with equality and concatenation only. Unicode details are not modelled.
