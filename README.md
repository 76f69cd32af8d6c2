# data-merger wizard core, modelled in Dafny

data-merger is a Qt wizard that adds profilometer and/or Brillouin
measurements to an elemental (pew² `.npz`) raster. This project models the
parts of it that hold decision logic:

- **Page order and `nextId`** (`Pages`). The wizard's pages have fixed ids: select 0, load 1,
  profilometer alignment 2, Brillouin alignment 3, output 4, done 5, and the terminator -1.
  `nextId` filters this list, keeping an alignment page only when its data path is non-empty.
  It then returns the successor of the current page.
  The model proves the shape of that list.
  It proves that `nextId` never moves backwards, and that it fails (Python's `ValueError` or
  `IndexError`) exactly for pages missing from the list and for the terminator.
- **The back-past-load rule** (`History`). The `__on_current_id_changed` handler records the
  new page as the previous one. When the new page is load and the page before it was not
  select, it calls `back()`.
  The model includes the QWizard operations that fire the handler: `back()`, `next()` and
  `restart()`. The handler runs inside them, so they are mutually recursive.
  It proves the following:
  - restarting rests on select, with select recorded as the previous page;
  - forward moves never bounce;
  - going back from a settled wizard drops at most two pages;
  - a back move from a settled wizard never comes to rest on the load page.
- **The two wizard classes**. `PathWizard` models `datamerger/wizard/wizard.py`, which reads the
  paths from the select page. `FieldWizard` models `datamerger/wizard/__init__.py`, which reads
  them through QWizard fields.
  Each is a `class` whose fields are the page history, `__previous_page_id` and the paths.
  Its methods are proved to produce the states that the `History` functions describe.
  A lemma shows that the two `nextId` variants agree whenever both fields are registered.
- **The select page's completeness rule** (`SelectData`): `isComplete` and the three field names.
- **The profilometer text loader** (`Profilometer`). It splits the text into lines and requires
  at least four. It drops the three header lines, splits each remaining line on tabs, turns
  the sentinel `-3.4028235E+38` into the placeholder and passes every other field through
  `float`.
  Python's `float` is a parameter `parse: string -> Option<V>`, where `None` stands for
  `ValueError`. The model proves the following:
  - the row and cell correspondence;
  - that the sentinel match is exact;
  - the success condition;
  - that the error reported is the first rejected field in row-major order;
  - the split/join round trips.

The alignment, resampling and colour-mapping engine the application is built around, with its
overlap extraction, does not appear in these source files. The alignment page refers to names that do not
exist, so nothing of that engine is modelled. The model follows the code that is present.

## Model

| member | source | states |
|---|---|---|
| `Pages.PageIds` | datamerger/wizard/wizard.py:57-77 | the list starts select, load and ends output, done, -1; it is strictly increasing before the -1; page 2 is in it iff profilometer is included, page 3 iff Brillouin is included |
| `Pages.IndexOf` | datamerger/wizard/wizard.py:78 | `list.index`: None exactly when the id is absent, otherwise the first position holding it |
| `Pages.NextId` | datamerger/wizard/wizard.py:56-79 | fails with NotInPageList iff the page is not listed and with NoPageAfter iff it is -1; otherwise gives a listed page: -1 after done, else the smallest listed page above the current one (never backwards) |
| `Pages.NextFromSelect` | datamerger/wizard/__init__.py:53-76 | from select the next page is load whatever paths are set |
| `Pages.NextFromLoad` | datamerger/wizard/wizard.py:57-79 | from load: 2 if profilometer is included, else 3 if Brillouin is included, else 4 |
| `Pages.NextFromDone` | datamerger/wizard/wizard.py:72-79 | from done the next id is -1 |
| `Pages.NextFromExcludedAlignPage` | datamerger/wizard/wizard.py:78 | an alignment page left out of the list makes `nextId` fail with NotInPageList |
| `History.RestartShowsSelect` | datamerger/wizard/wizard.py:25-34 | after restart the history is [select] and the previous page is select, from any state |
| `History.ForwardNoBounce` | datamerger/wizard/wizard.py:85-95 | from a settled state a forward move to a higher page appends it, records it as previous and calls no `back()` |
| `History.FirstMoveStaysOnLoad` | datamerger/wizard/wizard.py:25-27 | the first move select→load after restart does not bounce: history [0, 1], previous 1 |
| `History.BackSkipsLoad` | datamerger/wizard/wizard.py:81-95 | back from a settled state pops one page, or two when the popped-to page is load; the result is settled (previous equals current) and not on load |
| `History.BackFromFirstPageAfterLoad` | datamerger/wizard/wizard.py:81-84 | back from the first page after load goes through load and ends on select with previous select; the bounce stops after one step |
| `History.StepKeepsSettled` | datamerger/wizard/wizard.py:56-95 | `next()` from a settled state to a page `nextId` can give (-1, or a page above the current one) stays put on -1 or appends the page, and stays settled |
| `PathWizard.NextPage` | datamerger/wizard/wizard.py:56-79 | fails iff the id is -1, not a page id, or an alignment page whose path is ""; select→load; load→2 if profilometer path set, else 3 if Brillouin path set, else 4; done→-1 |
| `PathWizard.Wizard.constructor` | datamerger/wizard/wizard.py:25-27 | a new wizard has no current page and `__previous_page_id` is select |
| `PathWizard.Wizard.SelectPaths` | datamerger/wizard/wizard.py:103-113 | the profilometer and Brillouin paths take the chosen values and navigation state is untouched |
| `PathWizard.Wizard.OnCurrentIdChanged` | datamerger/wizard/wizard.py:85-95 | records `new_id` as previous before anything else, then calls `back()` iff `new_id` is load and the old previous page is not select; the paths are unchanged |
| `PathWizard.Wizard.Back` | datamerger/wizard/wizard.py:81-95 | QWizard `back()` with the handler re-entered; from a valid wizard it ends valid and not on load |
| `PathWizard.Wizard.Next` | datamerger/wizard/wizard.py:56-79 | QWizard `next()`: reports `nextId`'s error with no state change; otherwise steps to the page `nextId` gives; keeps the wizard valid |
| `PathWizard.Wizard.Restart` | datamerger/wizard/wizard.py:29-34 | the wizard ends on select with previous select and is valid |
| `FieldWizard.Field` | datamerger/wizard/__init__.py:60 | `field(name)`: the registered value, or None for an unregistered name |
| `FieldWizard.Includes` | datamerger/wizard/__init__.py:58-66 | a page is included iff its field is unregistered or holds a non-empty value |
| `FieldWizard.NextPage` | datamerger/wizard/__init__.py:52-76 | select→load for any fields; load→first included alignment page, else output; done→-1; on an alignment page it fails iff that page's field holds "" |
| `FieldWizard.AgreesWithPathWizard` | datamerger/wizard/__init__.py:52-76 | with both fields registered, the field-driven `nextId` equals the path-driven one on every page |
| `FieldWizard.UnregisteredFieldIncludesPage` | datamerger/wizard/__init__.py:58-62 | an unregistered profilometer field counts as set: load→profilometer alignment |
| `FieldWizard.Wizard.constructor` | datamerger/wizard/__init__.py:25-41 | no current page, previous select, and the fields the added pages register (the select page's three paths, the output page's `output_path`) registered empty |
| `FieldWizard.Wizard.SetField` | datamerger/wizard/select_data_page.py:28-50 | a registered field takes the new value, an unknown name changes nothing, navigation is untouched |
| `FieldWizard.Wizard.OnCurrentIdChanged` | datamerger/wizard/__init__.py:82-92 | records `new_id` as previous first, then calls `back()` iff `new_id` is load and the old previous page is not select |
| `FieldWizard.Wizard.Back` | datamerger/wizard/__init__.py:78-92 | QWizard `back()` with the handler re-entered; from a valid wizard it ends valid and not on load |
| `FieldWizard.Wizard.Next` | datamerger/wizard/__init__.py:52-76 | QWizard `next()` driven by field values: an error leaves the state alone; otherwise steps to the next page; keeps the wizard valid |
| `FieldWizard.Wizard.Restart` | datamerger/wizard/__init__.py:29-32 | the wizard ends on select with previous select and is valid |
| `SelectData.FieldNamesDistinct` | datamerger/wizard/select_data_page.py:5-7 | the three field names are pairwise distinct |
| `SelectData.IsComplete` | datamerger/wizard/select_data_page.py:62-66 | false when the elemental path is empty; true when elemental and profilometer are set, or elemental and Brillouin are set; false when both optional paths are empty |
| `SelectData.CompleteIffElementalAndAnother` | datamerger/wizard/select_data_page.py:62-66 | complete iff elemental is among the chosen sources and at least two sources are chosen |
| `Profilometer.Split` | datamerger/io/profilometer.py:22 | `str.split(sep)`: at least one piece; no piece contains the separator |
| `Profilometer.JoinSplit` | datamerger/io/profilometer.py:22 | joining the pieces of a split with the separator gives the line back |
| `Profilometer.SplitJoin` | datamerger/io/profilometer.py:22 | splitting the join of separator-free pieces gives the pieces back |
| `Profilometer.TrailingSeparatorGivesEmptyField` | datamerger/io/profilometer.py:22 | a line ending in the separator has an empty last piece |
| `Profilometer.SplitLines` | datamerger/io/profilometer.py:16 | `splitlines` over "\n": empty iff the text is empty; no line contains "\n" |
| `Profilometer.SplitLinesJoin` | datamerger/io/profilometer.py:16 | the lines, joined with "\n" and followed by the final "\n" if any, give the text back |
| `Profilometer.ParseRow` | datamerger/io/profilometer.py:20-23 | succeeds iff every field is the sentinel or parses; one cell per field, in order; otherwise fails naming the first rejected field |
| `Profilometer.ParseRows` | datamerger/io/profilometer.py:18-25 | succeeds iff every line's row succeeds; one row per line, in order; otherwise fails with the first failing line's error |
| `Profilometer.LoadLines` | datamerger/io/profilometer.py:17-25 | fewer than four lines give TooFewLines; success has exactly `len(lines) - 3` rows |
| `Profilometer.Load` | datamerger/io/profilometer.py:15-26 | on text: too few lines give TooFewLines; success has one row per line after the header |
| `Profilometer.LoadCells` | datamerger/io/profilometer.py:18-25 | row i comes from line i+3: one cell per tab-separated field; the placeholder exactly at sentinel fields, `float(field)` elsewhere |
| `Profilometer.LoadSucceedsIff` | datamerger/io/profilometer.py:17-25 | load succeeds iff there are at least four lines and every field after the header is the sentinel or parses |
| `Profilometer.SentinelMatchIsExact` | datamerger/io/profilometer.py:21 | the sentinel gives the placeholder; "-3.4028235e+38" (lower-case e) goes to `float` |
| `Profilometer.TrailingTabFails` | datamerger/io/profilometer.py:21-22 | a data line ending in a tab makes load fail when `float("")` is rejected |

## Left out

- The alignment page (datamerger/wizard/align_profilometer_data_page.py) is not modelled. It imports field names that load_data_page.py does not define and calls `DataAlignmentView` with arguments it does not accept. The resampling, colour mapping and overlap extraction it would drive are not in the source.
- The loading page (datamerger/wizard/load_data_page.py) is not modelled. It runs background thread-pool jobs, Qt signals and library file loaders.
- datamerger/io/brillouin.py is not modelled. It only wraps `pandas.read_excel`.
- The file open is left out: `Profilometer.Load` takes the file's text. Line breaks other than "\n", which Python's `splitlines` also honours, are not modelled.
- The numeric value of `float(s)` is left out. It is the parameter `parse`, so nothing about floating point is modelled.
- The conversion of the rows with `np.array` is not modelled, and the result is a sequence of rows. NumPy's treatment of rows with different lengths is therefore not captured.
- Qt's button states are not modelled. In particular, QWizard disables Back when the previous page is a commit page, as the select page is. `Back` models the `back()` slot itself, which has no such check.
- Qt's `validatePage` calls in `next()` are not modelled, because no page of these wizards overrides it. The button text, options and title set in the constructors are not modelled either.
- The host's reaction to a Python exception raised inside the `nextId` override is left out. `Next` reports the error and leaves the state unchanged.
- wizard.py reads `profilometer_data_path` and `brillouin_data_path` from the select page, but the select page shown defines no such properties. `PathWizard.Wizard` holds the two path strings the page's widgets would provide.
- The load-page data properties of wizard.py (lines 115-131) and the message boxes, path widgets, graphics views and other UI pages are not modelled.
