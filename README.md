# Job search dashboard — application tracker, CSV export, job-board catalog

A model of the logic inside the single React component `JobSearchDashboard`
(`job_search_dashboard.jsx`). The component does three things:

- It keeps an ordered list of job applications. Each record has a company, a role, a status and a date. The list sits next to three form-field strings (company, role, status). It is loaded once from a browser storage slot and written back to that slot after every change.
- It exports the list as CSV text: a fixed header row, then one row per application. There is no quoting or escaping.
- It holds a constant catalog that maps a category to an ordered list of (name, url) job boards. "Search All Job Sites" opens every URL in catalog order.

Modules:

- `Wrappers` (`wrappers.dfy`): `Option`.
- `Applications` (`applications.dfy`): the `Application` record, the add guard `CanAdd`, and `NewApplication`, which builds the record (a blank status becomes `"Applied"`).
- `Tracker` (`tracker.dfy`): class `Dashboard`.
  - Fields: `applications: seq<Application>`, the three form fields, and `stored`, the persisted slot.
  - `Valid()` says the slot mirrors the list.
  - `AddApplication` takes the date as a parameter.
- `Csv` (`csv.dfy`): the export as pure functions (`Join`, `Table`, `Export`).
  - The other direction is modelled too: `Split` (JavaScript `String.prototype.split` on one character), `Parse` and `Decode`.
  - These exist to state what the exported text means.
- `Catalog` (`catalog.dfy`): the `JobSites` constant, `Flatten` (`Object.values(...).flat()`) and `OpenAllUrls`, the URLs "Search All Job Sites" opens, in order.

Modelling decisions:

- JavaScript truthiness on the form strings is modelled as a non-empty test. `company && role` becomes `company != "" && role != ""`, and `status || 'Applied'` gives `"Applied"` for the empty string.
- The storage slot holds the decoded list (`Option<seq<Application>>`), not JSON text. An absent slot loads as the empty list.
- The mirroring effect also runs once on mount, so the constructor already writes the slot. After every successful write the slot equals the list; storage is assumed never to fail (see "## Left out").
- The object's keys are all non-integer strings, so `Object.values` and `Object.entries` enumerate the categories in declaration order. `JobSites` is a sequence in that order.

## Model

| member | source | states |
|---|---|---|
| `Applications.CanAdd` | job_search_dashboard.jsx:22 | The add guard, `company && role` on two strings: true exactly when both are non-empty. |
| `Applications.NewApplication` | job_search_dashboard.jsx:23 | Company, role and date are kept verbatim. The status is never empty: a blank status becomes `"Applied"`, and any other status is kept verbatim. |
| `Tracker.Load` | job_search_dashboard.jsx:8-11 | The list at start: an absent slot gives the empty list, and a present one gives the stored list. |
| `Tracker.Dashboard.Valid` | job_search_dashboard.jsx:17-19 | The object invariant kept by the mirroring effect: the slot holds exactly the in-memory list. |
| `Tracker.Dashboard.constructor` | job_search_dashboard.jsx:8-19 | At start the list is the stored list, or empty when the slot is absent. The three fields are blank. The slot mirrors the list (`Valid`). |
| `Tracker.Dashboard.SetCompany` | job_search_dashboard.jsx:105 | The company field takes the typed value. Nothing else changes, so `Valid` is kept. |
| `Tracker.Dashboard.SetRole` | job_search_dashboard.jsx:106 | The role field takes the typed value. Nothing else changes, so `Valid` is kept. |
| `Tracker.Dashboard.SetStatus` | job_search_dashboard.jsx:107 | The status field takes the typed value. Nothing else changes, so `Valid` is kept. |
| `Tracker.Dashboard.AddApplication` | job_search_dashboard.jsx:17-29 | If company and role are non-empty, the list becomes the old list plus the new record at the end: one longer, earlier records unchanged in place. The three fields become `""` and the slot equals the new list. Otherwise the list, the slot and all three fields are unchanged. |
| `Tracker.Dashboard.ExportCsv` | job_search_dashboard.jsx:31-34 | The exported text is the CSV of the current list. |
| `Tracker.Dashboard.Reload` | job_search_dashboard.jsx:8-19 | Starting again from the slot gives a dashboard holding the same list, with blank fields. |
| `Tracker.Example` | job_search_dashboard.jsx:21-34 | From an empty slot, add Acme / Engineer with a blank status on any date `today`. The export is then `Company,Role,Status,Date\nAcme,Engineer,Applied,<today>`. |
| `Csv.Join` | job_search_dashboard.jsx:34 | `Array.prototype.join`: the parts with the separator between each two, `""` for no parts, the part itself for one. Its properties are the `Join…` and `Split…` lemma rows. |
| `Csv.Row` | job_search_dashboard.jsx:33 | A record's four fields `[company, role, status, date]`, in that order. |
| `Csv.Rows` | job_search_dashboard.jsx:33 | One row per record: as many rows as records, and row i is record i's four fields. |
| `Csv.Table` | job_search_dashboard.jsx:32-33 | One more row than there are applications. Row 0 is the header; row i + 1 is application i's four fields in the order company, role, status, date. |
| `Csv.JoinRows` | job_search_dashboard.jsx:34 | `.map(r => r.join(','))`: one line per row, and line i is row i joined. |
| `Csv.Export` | job_search_dashboard.jsx:31-34 | The CSV text: the table's rows each joined by `,`, and the lines joined by `\n`. Its properties are the `Export…` lemma rows below. |
| `Csv.Split` | job_search_dashboard.jsx:34 | The reading side of `join`: splitting always gives at least one piece, and no piece holds the separator. |
| `Csv.JoinSplit` | job_search_dashboard.jsx:34 | Joining the pieces of a split gives back the original text, for every text. |
| `Csv.SplitJoin` | job_search_dashboard.jsx:34 | Splitting a join gives back the parts, when there is at least one part and no part holds the separator. |
| `Csv.JoinAvoids` | job_search_dashboard.jsx:34 | Joining adds no character other than the separator. |
| `Csv.JoinStartsWithFirst` | job_search_dashboard.jsx:34 | A join begins with its first part, followed by the separator when more parts follow. |
| `Csv.JoinEndsWithLast` | job_search_dashboard.jsx:34 | A join ends with its last part, with nothing after it. |
| `Csv.HeaderLineIsJoin` | job_search_dashboard.jsx:32-34 | The header row joins to exactly `Company,Role,Status,Date`. |
| `Csv.RowLine` | job_search_dashboard.jsx:33-34 | A record's line is company, role, status and date with one comma between each two. |
| `Csv.ExportStartsWithHeader` | job_search_dashboard.jsx:32-34 | The text starts with `Company,Role,Status,Date`, for any list. With no applications it is exactly that; otherwise the header line is followed by `\n`. |
| `Csv.ExportLines` | job_search_dashboard.jsx:32-34 | When no field holds `\n`, N records give exactly N + 1 lines. Line 0 is the header, and line i + 1 is record i's fields joined by `,` in column order. |
| `Csv.ExportNoTrailingNewline` | job_search_dashboard.jsx:34 | When no field holds `\n`, the text is non-empty and does not end with a newline. |
| `Csv.ExportParse` | job_search_dashboard.jsx:33-34 | When no field holds `,` or `\n`, splitting on `\n` and then on `,` gives back the header and every record's four fields, in order. |
| `Csv.FromRowsOfRows` | job_search_dashboard.jsx:33 | Reading the application rows back as records gives the original list. |
| `Csv.ExportRoundTrip` | job_search_dashboard.jsx:32-34 | When no field holds `,` or `\n`, the export decodes back to exactly the list it was made from. |
| `Csv.FiveFieldLine` | job_search_dashboard.jsx:33-34 | A record whose company is `x,y` gives the same line as the five fields `x`, `y`, role, status, date. |
| `Csv.CommaInCompanySplitsIt` | job_search_dashboard.jsx:34 | Without the restriction the round trip fails. A company `x,y` comes back as two fields, so its line has five fields and does not decode. |
| `Csv.ExportOne` | job_search_dashboard.jsx:32-34 | A one-record list exports as the header line, `\n`, and that record's line, for every record. |
| `Csv.ExampleExport` | job_search_dashboard.jsx:23-34 | For any date `today`, the Acme / Engineer record with a blank status exports as `Company,Role,Status,Date\nAcme,Engineer,Applied,<today>`. |
| `Catalog.Flatten` | job_search_dashboard.jsx:72 | `Object.values(...).flat()`: every category's sites, one category after another. It has as many entries as all categories list together. |
| `Catalog.Urls` | job_search_dashboard.jsx:72 | The `url` of each site, same length and same order. |
| `Catalog.OpenAllUrls` | job_search_dashboard.jsx:71-73 | The URLs "Search All Job Sites" opens: the URL of every site of the flattened `JobSites` constant, in order. Its properties are the `OpenAll…` lemma rows below. |
| `Catalog.OpenAllOrder` | job_search_dashboard.jsx:42-72 | "Search All Job Sites" opens exactly the eighteen declared URLs, in category order and then site order. |
| `Catalog.FlattenJobSites` | job_search_dashboard.jsx:42-72 | The declared catalog flattens to its four site lists, Data, Development, Research and Nonprofit, in that order. |
| `Catalog.Labels` | job_search_dashboard.jsx:85 | The category names, one per category, in catalog order. |
| `Catalog.Names` | job_search_dashboard.jsx:89 | The site names, one per site, in list order. |
| `Catalog.Find` | job_search_dashboard.jsx:85 | The first position whose category has the given name, or the length when none does: no earlier category has that name. The source never looks a category up by name; it only walks `Object.entries(jobSites)` here. `Find` stands for the keyed access `jobSites[title]`. A JavaScript object cannot hold two equal keys, so "first" only matters for catalogs the model allows and the source cannot build. |
| `Catalog.SitesOf` | job_search_dashboard.jsx:85-89 | The sites of a category, as the keyed access `jobSites[title]` would give them (the source itself reaches each list by walking the entries). The result is None exactly when no category has that name; otherwise it is the site list of the category `Find` picks, the first with that name. With unique keys, as in every JavaScript object, that is the only category with the name. |
| `Catalog.FlattenAppend` | job_search_dashboard.jsx:72 | Flattening two runs of categories gives the first run's sites followed by the second's. |
| `Catalog.FlattenAt` | job_search_dashboard.jsx:72 | Site j of category k is at position (sites of categories before k) + j. That is category order first, then site order. |
| `Catalog.FlattenMembership` | job_search_dashboard.jsx:72 | A site is in the flattening exactly when some category lists it. |
| `Catalog.CatalogLabels` | job_search_dashboard.jsx:42-69 | The categories are Data, Development, Research, Nonprofit, in that order. |
| `Catalog.DataSites` | job_search_dashboard.jsx:43-49 | `Data` has exactly five sites: Remotive, We Work Remotely, Remote OK, Otta, AngelList (Wellfound), in that order. |
| `Catalog.DeclaredUrlsDistinct` | job_search_dashboard.jsx:42-69 | The eighteen declared URLs are pairwise distinct. |
| `Catalog.OpenAllEachOnce` | job_search_dashboard.jsx:42-72 | The URLs opened are 18 entries with no repeats, and every site of every category is among them. So each declared URL is opened exactly once. |

## Left out

- Rendering is not modelled: JSX, framer-motion animation, the Card/Button/Input components and CSS classes (`job_search_dashboard.jsx:75-123`). These are presentation only.
- `localStorage` and `JSON.stringify`/`JSON.parse` (lines 9-10 and 18) are foreign browser and library calls. The slot is an abstract `Option<seq<Application>>`, so the model does not show the text encoding. Malformed stored text makes `JSON.parse` throw with no handler, so that behaviour is not modelled. `getItem` and `setItem` are assumed not to throw. The source has no handler around either: a blocked storage read would stop the component from mounting, and a quota error on write would leave the slot holding the previous list while the in-memory list has the new record. `Tracker.Dashboard.Valid` is the invariant only under that assumption. A stored empty string would also be falsy and load as `[]`, but the component never writes one.
- `new Date().toLocaleDateString()` (line 23) depends on the locale and the clock. The date is the `today` parameter of `AddApplication`.
- The download side of `exportCSV` is not modelled: `Blob`, `URL.createObjectURL`, the anchor element, the file name `applications.csv` and `link.click()` (lines 35-39). Only the CSV text is.
- `window.open` (lines 72 and 90) is a navigation side effect, and popup blocking goes unhandled. The model gives only the URLs opened, in order. The per-site button at line 90 opens that site's `url` field and is not modelled separately.
- React's update scheduling (batching, effect timing) is not modelled. Each state update takes effect at once and is followed by the mirroring write.
