# Collapsed Topics course format: a Dafny model

This project models the core of the Collapsed Topics (`format_topcoll`) course
format for Moodle, the class in `lib.php`:

- the section arithmetic and labels: the week and day dates of a section, the
  date range shown in a section title, the section title with its " - Toggle"
  suffix, the "is this section current" test, and the choice of the view URL;
- the settings reconciliation: the eight reset directives taken out of a
  submitted edit form, the migration of options from a previous course format,
  the write of the options through the host, the "all courses" and "this
  course" resets that follow it, the reset of named categories to their
  defaults once per run of option rows of one course, the restore of a legacy
  course's settings and the columns correction;
- the memoisation of the settings.

Modules:

- `Wrappers` holds the `Option` datatype.
- `TopcollOptions` holds the option table (twelve keys and their defaults) and the
  host's option storage. The host's `update_format_options` is modelled as an
  upsert of the known option keys (`Upsert`). Its return value is modelled as
  "some known key differs" (`Changes`).
- `SectionResolver` holds the pure per-section functions.
- `TopcollReset` holds `reset_topcoll_setting` as a function of the store.
  Its method counterpart is proved equal to it.
- `TopcollUpdate` holds `update_course_format_options` as a function of the
  store. It also holds the two source defects described under "## Findings",
  as written and corrected.
- `TopcollFormat` holds the imperative part. `OptionStore` is the host's storage:
  the per-course option records and the `course_format_options` rows in database
  order. `Format` is the format object, with its course id and memoised
  settings. Its methods update the store in place. Each method is proved equal to
  the function that specifies it.

The week layouts that test the clock in `is_section_current` are structures 2
(week) and 3 (latest week first), as the code tests them (`lib.php:589`).

## Model

| member | source | states |
|---|---|---|
| SectionResolver.SectionDates | lib.php:619-630 | a week section starts 7200 s after the course start plus one week per earlier section, and lasts exactly 604800 s |
| SectionResolver.SectionDay | lib.php:639-648 | a day section's date is 7200 s after the course start plus one day per earlier section |
| SectionResolver.WeeksAdjoin | lib.php:619-630 | each week section starts exactly where the previous one ends |
| SectionResolver.DaysAdjoin | lib.php:639-648 | consecutive day sections are exactly 86400 s apart |
| SectionResolver.SectionDateLabel | lib.php:104-123 | the day layout (5), and only it, shows a single date, the section's day; otherwise the range starts at the week start, its shown last day is 518400 s later, and it precedes the exclusive week end |
| SectionResolver.SectionName | lib.php:66-102 | a non-empty name wins (null counts as empty); else section 0 is the general label; else structures 1 and 4 number the section; else the date label. The Toggle suffix is added iff single-page display, section not 0 and layoutelement in 1..4, whatever the text |
| SectionResolver.GeneralSectionTitle | lib.php:74-99 | an unnamed section 0 gets the general label under every structure and never the Toggle suffix |
| SectionResolver.Digits | lib.php:80 | the decimal text of a section number is non-empty, all digits, has no leading zero unless it is "0", starts with "0" exactly for 0, and reads back as the number |
| SectionResolver.RenderText | lib.php:74-84 | a custom name renders through format_string; an unnamed section 0 renders the general label; a numbered section renders the section word and a space, followed only by decimal digits without a leading zero that read back as its number; a single date renders that date; a range renders both dates joined by " - " |
| SectionResolver.RenderTitle | lib.php:74-101 | the rendered title starts with the rendered text; with the suffix, what follows the text is exactly " - " and the localised toggle word, and without it nothing follows |
| SectionResolver.IsSectionCurrent | lib.php:587-610 | structures 2 and 3: current iff section >= 1 and start <= now < end; structure 5: current iff section >= 1 and day <= now < day + 86400; any other structure: the host's rule |
| SectionResolver.AtMostOneCurrent | lib.php:587-610 | in the dated structures no two sections are current at the same instant |
| SectionResolver.SomeSectionCurrent | lib.php:587-648 | in the dated structures every instant from the first section's start on lies in some current section |
| SectionResolver.WeekEndExclusive | lib.php:104-123 | a week section is not current at its end instant, yet its last displayed day is current |
| SectionResolver.GetViewUrl | lib.php:135-169 | no section gives the course page; the result is a section page exactly when a section is given and either sr is given and non-zero, or sr is absent, the section is non-zero and the course is multipage; a non-zero sr gives the page of sr; null only when navigation is asked; otherwise an anchor on the section asked for |
| TopcollOptions.DefaultOptions | lib.php:232-287 | the default table has exactly the twelve option keys |
| TopcollOptions.EffectiveOptions | lib.php:44-49 | the options read for a course hold every option key: the stored value where one is stored, the default otherwise |
| TopcollOptions.Upsert | lib.php:567 | the host write stores every known key of the data with the data's value, ignores unknown keys and keeps every other stored key |
| TopcollOptions.ChangesIffUpsertDiffers | lib.php:567 | the host reports a change exactly when the write alters the stored record |
| TopcollOptions.UpsertIdempotent | lib.php:567 | writing the same data twice stores what writing it once does |
| TopcollOptions.UpsertKeepsSchema | lib.php:567 | a write never stores a key outside the option table |
| TopcollReset.ResetData | lib.php:667-685 | the reset data holds exactly the keys of the requested categories (layout 5 keys, alignment 1, colour 3, icon set 1), each at its default, and only option keys |
| TopcollReset.NextRowId | lib.php:567 | a fresh row id lies above every id already in the rows |
| TopcollReset.WriteRowsAdds | lib.php:567 | the host write keeps every existing row in place and adds at most one: none when the course already has rows, otherwise one of that course with a fresh id; afterwards the course has a row |
| TopcollReset.WriteExisting | lib.php:567 | writing a course that already has rows leaves the rows as they are |
| TopcollReset.TargetRows | lib.php:661-665 | target 0 fetches every row; any other target fetches that course's rows, all of them and nothing else |
| TopcollReset.RunStarts | lib.php:688-697 | the loop writes no more courses than it reads rows |
| TopcollReset.RunStartsOncePerRun | lib.php:688-697 | the loop never writes the same course twice in a row, and writes last the course of the last row |
| TopcollReset.RunStartsCover | lib.php:688-697 | every course written has a row, and every course other than 0 with a row is written |
| TopcollReset.RunStartsPrefix | lib.php:688-697 | the writes over the first n rows are the run starts among them: the rows whose course differs from the previous row's (from 0 for the first row) |
| TopcollReset.RunStartsAtCount | lib.php:688-690 | each row that starts a run adds exactly one write |
| TopcollReset.RunStartsAtIndex | lib.php:688-697 | the row that starts the j-th run gives the j-th write |
| TopcollReset.RunStartsAtSource | lib.php:688-697 | every write comes from the row that starts its run |
| TopcollReset.RunStartsExact | lib.php:688-697 | the loop writes once per run ("only do once per course"): as many writes as rows that start a run, and the row that starts the j-th run gives the j-th write |
| TopcollReset.RunStartsSources | lib.php:688-697 | every write of the loop is the course of the row that starts the matching run, so the loop writes nothing else and in row order |
| TopcollReset.OneCourseWrittenOnce | lib.php:688-697 | rows of one course, however many, are written once |
| TopcollReset.UpdateCoursesKeys | lib.php:688-697 | the writes add to the store exactly the courses written |
| TopcollReset.UpdateCoursesAt | lib.php:688-697 | after the writes each written course holds the upsert of its old record, and every other course is untouched |
| TopcollReset.ResetLoopStep | lib.php:688-697 | one more row: a new course id appends one write of that course, a repeated one appends nothing |
| TopcollReset.ResetStore | lib.php:658-699 | with no category requested the store is unchanged; otherwise the courses in the store afterwards are those before plus the courses the reset visits |
| TopcollReset.ResetStoreAt | lib.php:658-699 | in each course the reset visits, the requested keys hold their defaults and the other keys are as before; every other course is untouched; with no category requested nothing changes |
| TopcollReset.ResetIdempotent | lib.php:658-699 | resetting twice stores what resetting once does |
| TopcollReset.SingleCourseReset | lib.php:658-699 | a reset of one course writes that course only, and writes it whenever it has rows |
| TopcollReset.AllCoursesReset | lib.php:658-699 | a reset of all courses writes only courses that have rows, and every such course other than 0 |
| TopcollUpdate.FlagsOutsideTable | lib.php:504-543 | no reset directive is an option key |
| TopcollUpdate.ResetRequestOf | lib.php:504-543 | on object data, some reset is requested exactly when at least one of the eight reset flags is set |
| TopcollUpdate.FlagScopes | lib.php:512-543 | each flag, set alone, asks for its own category: resetlayout, resetcolour, resettogglealignment and resettoggleiconset for this course, and the resetall* flags for all courses |
| TopcollUpdate.ReadResetRequest | lib.php:494-543 | the flag tests use property syntax, so a reset is requested exactly when the data is an object and sets some reset flag; array data never asks for one |
| TopcollUpdate.StripResetFlagsAsWritten | lib.php:504-543 | as written, none of the seven other flags is set afterwards, and a set resetallcolour stays set |
| TopcollUpdate.ResetAllColourLeaks | lib.php:532-535 | a submission carrying only resetallcolour asks for an all-course colour reset and reaches the host with the flag still in it |
| TopcollUpdate.StripResetFlags | lib.php:504-543 | corrected: every key other than a flag is kept, and nothing is added or altered |
| TopcollUpdate.StripResetFlagsClears | lib.php:504-543 | corrected: no reset flag remains set |
| TopcollUpdate.AfterFlagTests | lib.php:512-543 | corrected (see "## Findings"): after the flag tests, with resetallcolour unsetting itself, object data has no reset flag set and array data is untouched, flags included; either way every other key keeps its value and nothing is added |
| TopcollUpdate.StripsAgreeOnOptions | lib.php:504-543 | both versions leave every option key of the data as it was |
| TopcollUpdate.Migrate | lib.php:545-566 | the migration keeps every key of the data |
| TopcollUpdate.MigrateAt | lib.php:545-566 | keys in the data are never overwritten; a listed key the data lacks is copied from the old course, else numsections takes a non-zero (truthy) maximum section number; no other key is added |
| TopcollUpdate.MigrateKeyPreservesAgreement | lib.php:549-564 | one pass of the migration loop keeps two records that agree on the option keys in agreement |
| TopcollUpdate.MigratePreservesAgreement | lib.php:545-566 | migrating two records that agree on the option keys gives records that agree on the option keys |
| TopcollUpdate.MigrateAsWritten | lib.php:545-566 | as written, a migration that completes keeps every value of the data, and it fails only when numsections is listed and neither the data nor the old course has it |
| TopcollUpdate.MigrateAsWrittenFails | lib.php:545-566 | as written, migrating from a format without numsections, when the data has none, always reaches the undeclared $DB and fails |
| TopcollUpdate.MigrateAsWrittenAgrees | lib.php:545-566 | where the migration as written does not fail, it gives what the corrected migration gives |
| TopcollUpdate.ApplyUpdate | lib.php:567-578 | any reset flag forces the return value to true, and the rows are those after the host write |
| TopcollUpdate.UpdateOutcome | lib.php:499-579 | any reset flag read from object data returns true; with none, the store is the single host write of the data after the flag tests and the corrected migration (see "## Findings"), the return value is whether that write changed the course's record, and the rows are those after the host write |
| TopcollUpdate.UpsertAgrees | lib.php:567 | two payloads that agree on the option keys store the same record and report the same change |
| TopcollUpdate.StripFixUnobservable | lib.php:504-578 | the misplaced unset at line 534 changes neither the stored options nor the returned value, because the host stores only option keys |
| TopcollUpdate.ResetAllApplies | lib.php:567-573 | an all-course flag resets the requested keys of every course with rows, including the current course on its first save, to their defaults after the ordinary write, keeps its other keys as written, returns true, and the course flags play no part |
| TopcollUpdate.CourseResetStaysInCourse | lib.php:567-576 | without an all-course flag, no course other than the current one changes |
| TopcollUpdate.CourseResetApplies | lib.php:574-576 | a course flag alone resets the requested keys of the current course, whether or not it had rows before, to their defaults after the ordinary write, keeps its other keys as written, and returns true |
| TopcollUpdate.UpdateKeepsSchema | lib.php:499-579 | a store that holds only option keys keeps holding only option keys, so no reset flag is ever persisted |
| TopcollFormat.MigrateFromPreviousFormat | lib.php:545-566 | the foreach over the option table computes the migration, and the data's own values survive |
| TopcollFormat.PrepareUpdate | lib.php:504-566 | corrected (see "## Findings"): reads the reset request from the data (none from an array) and computes the payload: the corrected flag tests, then the corrected migration (see "## Findings") when an old course is given; every key other than a flag keeps its value |
| TopcollFormat.PlainUpdate | lib.php:499-579 | array data, whatever it holds, and object data with no reset flag set go through update_course_format_options as a single host write: the course's record is upserted, its rows are added if it had none, and the return value is whether the record changed |
| TopcollFormat.Format.constructor | lib.php:38 | a new format object has no memoised settings, and its defaults are the option table's |
| TopcollFormat.Format.FormatOptions | lib.php:44-49 | the options read for the object's course hold every option key |
| TopcollFormat.Format.GetSettings | lib.php:44-49 | empty settings are fetched from the store once; non-empty settings are returned unchanged; the result holds every option key |
| TopcollFormat.Format.UpdateFormatOptions | lib.php:567 | the object's course record receives the upsert of the data, the course gets its rows if it had none, and the result says whether the record changed |
| TopcollFormat.Format.ResetTopcollSetting | lib.php:658-699 | the store ends as the reset function says, the rows are unchanged, and the object's course id is back to its value on entry |
| TopcollFormat.Format.WriteRuns | lib.php:688-697 | the loop over the fetched rows writes the reset data to each run's course in turn, and only when some category is requested; the rows and the course id are unchanged |
| TopcollFormat.Format.WriteCourse | lib.php:692-695 | one write of the loop: the given course receives the upsert of the data, gets its rows if it had none, and the object's course id is back to its value on entry |
| TopcollFormat.Format.RunResets | lib.php:569-576 | the all-course reset if any all-course flag is set, else the reset of the current course if any of its flags is set, else nothing; the rows are unchanged; the result says whether a reset ran |
| TopcollFormat.Format.UpdateCourseFormatOptions | lib.php:499-579 | the options, the rows and the return value are those of the update function, with the corrected migration (see "## Findings"), for object or array data; the object's course id is unchanged |
| TopcollFormat.Format.RestoreTopcollSetting | lib.php:713-728 | the data array goes through update_course_format_options, so the given course receives exactly the six restored options, gets its rows if it had none, and the object's course id is back to its value on entry |
| TopcollFormat.Format.UpdateTopcollColumnsSetting | lib.php:734-739 | the data array goes through update_course_format_options, so the object's course receives exactly the new layoutcolumns value, and gets its rows if it had none |

## Left out

- Edit-form wiring is not modelled. This covers the labels, element types, colour pickers and section menu of `course_format_options` and `create_edit_form_elements`. They are UI; only the key and default table is kept.
- `ajax_section_move` and `supports_ajax` are not modelled. They are renderer and AJAX glue.
- `get_default_blocks`, `uses_sections` and the navigation callbacks are not modelled. They are constants or delegate to the host.
- `format_topcoll_delete_course` is not modelled. It is a single database delete.
- The SQL of the row and maximum-section queries is replaced by the store's row sequence and a `maxSection` parameter.
- The host's `get_format_options` and `update_format_options` are modelled as `EffectiveOptions` and `Upsert`. Their database internals are not modelled.
- TopcollReset.WriteRows: the host's first write for a course inserts one row per option key, and the model appends a single `Row` that stands for all of them. Later writes insert no rows. The host's filling of keys the data lacks with their defaults on that first write is left to `EffectiveOptions`.
- TopcollFormat.Format.ResetTopcollSetting: the rows are fetched once before the loop, and every course the loop writes already has rows, so a reset leaves the rows as they are.
- TopcollUpdate.StripResetFlagsAsWritten and TopcollFormat.PrepareUpdate: the `unset($data->...)` calls at lib.php:512-543 act on the caller's `$data` object, because PHP objects are shared handles. The caller therefore sees the seven flags removed, and `resetalllayout` too when `resetallcolour` is set. Only line 546 makes a local array copy. The model treats the data as a value, so this effect on the caller is not modelled.
- The format's own defaults table (`CollapsedTopicsDefaults`) and the site's course configuration are not modelled. They enter as a `SiteConfig` value. The file that defines them is not part of this model.
- Localisation is given by a `Localiser` value: `get_string`, `format_string` and `userdate` with the short date format. Dates are rendered through it, so the exact date text is not modelled.
- The clock (`time()`) is a `now` parameter. The parent format's `is_section_current` is a `parentCurrent` parameter.
- SectionResolver.SectionName: takes `layoutstructure` and `layoutelement` as integers rather than reading them through `get_settings`. PHP's loose comparison of a stored string such as "1" with an integer is not modelled.
- SectionResolver.IsSectionCurrent: takes `layoutstructure` as an integer rather than reading it through `get_settings`.
- PHP integers are 64-bit, but dates are modelled as unbounded integers. Overflow would need dates beyond the year 292 billion.
- The data given to `update_course_format_options` is either an object or an array (`stdClass|array`, lib.php:494). The model keeps its fields as an `Options` map and says which of the two it is with an `isObject` flag. The form passes objects; `restore_topcoll_setting` and `update_topcoll_columns_setting` pass arrays.
- `get_view_url` returns a `ViewUrl` value in place of a `moodle_url`. The course id parameter, common to every URL, is not modelled.
- The values of submitted options are stored as given. PARAM cleaning is done by the form, outside this class.

## Findings

| source | as written | input that shows it | evidently intended | confidence | as-written member | corrected member |
|---|---|---|---|---|---|---|
| lib.php:532-535 | the test of `resetallcolour` unsets `resetalllayout`, so `resetallcolour` stays in the data handed to the host | data `{resetallcolour: 1}` keeps `resetallcolour` after the flag tests | unset `resetallcolour`, as every other test unsets its own flag; the host ignores unknown keys, so the stored result is the same either way | high, from reading; not executed | TopcollUpdate.StripResetFlagsAsWritten (TopcollUpdate.ResetAllColourLeaks) | TopcollUpdate.StripResetFlags (TopcollUpdate.StripResetFlagsClears, TopcollUpdate.StripFixUnobservable, TopcollUpdate.AfterFlagTests, TopcollFormat.PrepareUpdate) |
| lib.php:557 | the numsections fallback calls `$DB->get_field_sql` but the method never declares `global $DB`, so `$DB` is null and the call is a fatal error | an old course and data both without `numsections` | read the highest section number from the database and use it when non-zero | high, from reading; not executed | TopcollUpdate.MigrateAsWritten (TopcollUpdate.MigrateAsWrittenFails) | TopcollUpdate.Migrate (TopcollUpdate.MigrateAt, TopcollFormat.MigrateFromPreviousFormat) |
