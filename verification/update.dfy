/**
 * update_course_format_options as a function of the store: the reset
 * directives taken out of the submitted data, the migration of options from
 * a previous format, the ordinary update, and the resets that follow it.
 */
module TopcollUpdate {

  import opened Wrappers
  import opened TopcollOptions
  import opened TopcollReset

  /** The reset directives of the course edit form. */
  const ResetLayoutFlag: string := "resetlayout"
  const ResetColourFlag: string := "resetcolour"
  const ResetToggleAlignmentFlag: string := "resettogglealignment"
  const ResetToggleIconSetFlag: string := "resettoggleiconset"
  const ResetAllLayoutFlag: string := "resetalllayout"
  const ResetAllColourFlag: string := "resetallcolour"
  const ResetAllToggleAlignmentFlag: string := "resetalltogglealignment"
  const ResetAllToggleIconSetFlag: string := "resetalltoggleiconset"

  const ResetFlagKeys: set<string> :=
    {ResetLayoutFlag, ResetColourFlag, ResetToggleAlignmentFlag, ResetToggleIconSetFlag,
     ResetAllLayoutFlag, ResetAllColourFlag, ResetAllToggleAlignmentFlag, ResetAllToggleIconSetFlag}

  /** No reset directive is an option key. */
  lemma FlagsOutsideTable()
    ensures ResetFlagKeys !! OptionKeySet
  {
  }

  /** PHP's isset on a field of the data: present and not null. */
  predicate IsSet(data: Options, key: string)
  {
    key in data && data[key] != Null
  }

  /** The resets asked for: for the current course, and for all courses. */
  datatype ResetRequest = ResetRequest(course: Categories, all: Categories)

  /** The resets the data asks for: some reset runs exactly when some reset flag is set. */
  function ResetRequestOf(data: Options): (r: ResetRequest)
    ensures r.course.Any() || r.all.Any() <==> exists k :: k in ResetFlagKeys && IsSet(data, k)
  {
    ResetRequest(
      Categories(IsSet(data, ResetLayoutFlag), IsSet(data, ResetColourFlag),
                 IsSet(data, ResetToggleAlignmentFlag), IsSet(data, ResetToggleIconSetFlag)),
      Categories(IsSet(data, ResetAllLayoutFlag), IsSet(data, ResetAllColourFlag),
                 IsSet(data, ResetAllToggleAlignmentFlag), IsSet(data, ResetAllToggleIconSetFlag)))
  }

  /** The reset flags of no request at all. */
  const NoCategories: Categories := Categories(false, false, false, false)

  /**
   * The resets update_course_format_options reads: its flag tests use
   * property syntax, which finds nothing on array data, so only object data
   * can ask for a reset.
   */
  function ReadResetRequest(data: Options, isObject: bool): (r: ResetRequest)
    ensures r.course.Any() || r.all.Any() <==> isObject && exists k :: k in ResetFlagKeys && IsSet(data, k)
    ensures isObject ==> r == ResetRequestOf(data)
  {
    if isObject then ResetRequestOf(data) else ResetRequest(NoCategories, NoCategories)
  }

  /**
   * Each flag names its own category and scope: the reset* flags ask for a
   * reset of this course, the resetall* flags for one of all courses.
   */
  lemma FlagScopes()
    ensures ResetRequestOf(map[ResetLayoutFlag := Int(1)]) == ResetRequest(Categories(true, false, false, false), NoCategories)
    ensures ResetRequestOf(map[ResetColourFlag := Int(1)]) == ResetRequest(Categories(false, true, false, false), NoCategories)
    ensures ResetRequestOf(map[ResetToggleAlignmentFlag := Int(1)]) == ResetRequest(Categories(false, false, true, false), NoCategories)
    ensures ResetRequestOf(map[ResetToggleIconSetFlag := Int(1)]) == ResetRequest(Categories(false, false, false, true), NoCategories)
    ensures ResetRequestOf(map[ResetAllLayoutFlag := Int(1)]) == ResetRequest(NoCategories, Categories(true, false, false, false))
    ensures ResetRequestOf(map[ResetAllColourFlag := Int(1)]) == ResetRequest(NoCategories, Categories(false, true, false, false))
    ensures ResetRequestOf(map[ResetAllToggleAlignmentFlag := Int(1)]) == ResetRequest(NoCategories, Categories(false, false, true, false))
    ensures ResetRequestOf(map[ResetAllToggleIconSetFlag := Int(1)]) == ResetRequest(NoCategories, Categories(false, false, false, true))
  {
  }

  /** One flag test: unset the key when the test holds. */
  function UnsetIf(d: Options, test: bool, key: string): (r: Options)
    ensures forall k :: k in r <==> k in d && !(test && k == key)
    ensures forall k :: k in r ==> r[k] == d[k]
  {
    if test then d - {key} else d
  }

  /**
   * The eight flag tests of update_course_format_options as written: each set
   * flag is unset, except that the test of resetallcolour unsets
   * resetalllayout.
   */
  function StripResetFlagsAsWritten(data: Options): (r: Options)
    ensures forall k :: k in ResetFlagKeys && k != ResetAllColourFlag ==> !IsSet(r, k)
    ensures IsSet(data, ResetAllColourFlag) ==> IsSet(r, ResetAllColourFlag)
  {
    var d1 := UnsetIf(data, IsSet(data, ResetLayoutFlag), ResetLayoutFlag);
    var d2 := UnsetIf(d1, IsSet(data, ResetColourFlag), ResetColourFlag);
    var d3 := UnsetIf(d2, IsSet(data, ResetAllLayoutFlag), ResetAllLayoutFlag);
    var d4 := UnsetIf(d3, IsSet(data, ResetToggleAlignmentFlag), ResetToggleAlignmentFlag);
    var d5 := UnsetIf(d4, IsSet(data, ResetToggleIconSetFlag), ResetToggleIconSetFlag);
    var d6 := UnsetIf(d5, IsSet(data, ResetAllColourFlag), ResetAllLayoutFlag);
    var d7 := UnsetIf(d6, IsSet(data, ResetAllToggleAlignmentFlag), ResetAllToggleAlignmentFlag);
    UnsetIf(d7, IsSet(data, ResetAllToggleIconSetFlag), ResetAllToggleIconSetFlag)
  }

  /** A submission carrying only resetallcolour keeps it in the data sent to the host. */
  lemma ResetAllColourLeaks()
    ensures var data := map[ResetAllColourFlag := Int(1)];
            ResetRequestOf(data).all.colour && StripResetFlagsAsWritten(data) == data
  {
  }

  /** The flag tests with resetallcolour unsetting itself: every set flag leaves the data, nothing else does. */
  function StripResetFlags(data: Options): (r: Options)
    ensures forall k :: k in data && k !in ResetFlagKeys ==> k in r
    ensures forall k :: k in r ==> k in data && r[k] == data[k]
  {
    var d1 := UnsetIf(data, IsSet(data, ResetLayoutFlag), ResetLayoutFlag);
    var d2 := UnsetIf(d1, IsSet(data, ResetColourFlag), ResetColourFlag);
    var d3 := UnsetIf(d2, IsSet(data, ResetAllLayoutFlag), ResetAllLayoutFlag);
    var d4 := UnsetIf(d3, IsSet(data, ResetToggleAlignmentFlag), ResetToggleAlignmentFlag);
    var d5 := UnsetIf(d4, IsSet(data, ResetToggleIconSetFlag), ResetToggleIconSetFlag);
    var d6 := UnsetIf(d5, IsSet(data, ResetAllColourFlag), ResetAllColourFlag);
    var d7 := UnsetIf(d6, IsSet(data, ResetAllToggleAlignmentFlag), ResetAllToggleAlignmentFlag);
    UnsetIf(d7, IsSet(data, ResetAllToggleIconSetFlag), ResetAllToggleIconSetFlag)
  }

  /** After the corrected tests no reset flag is set in the data. */
  lemma StripResetFlagsClears(data: Options)
    ensures forall k :: k in ResetFlagKeys ==> !IsSet(StripResetFlags(data), k)
  {
  }

  /**
   * Corrected (see StripResetFlags): the data after the flag tests of
   * update_course_format_options with resetallcolour unsetting itself. An
   * object loses its set flags; an array passes every test untouched, flags
   * included.
   */
  function AfterFlagTests(data: Options, isObject: bool): (r: Options)
    ensures isObject ==> forall k :: k in ResetFlagKeys ==> !IsSet(r, k)
    ensures !isObject ==> r == data
    ensures forall k :: k in data && k !in ResetFlagKeys ==> k in r
    ensures forall k :: k in r ==> k in data && r[k] == data[k]
  {
    if isObject then StripResetFlags(data) else data
  }

  /** Two records that hold the same option keys with the same values. */
  predicate AgreeOnOptions(a: Options, b: Options)
  {
    forall k :: k in OptionKeySet ==> (k in a <==> k in b) && (k in a ==> a[k] == b[k])
  }

  /** Both ways of stripping the flags leave every option key of the data as it was. */
  lemma StripsAgreeOnOptions(data: Options)
    ensures AgreeOnOptions(StripResetFlagsAsWritten(data), data)
    ensures AgreeOnOptions(StripResetFlags(data), data)
  {
    FlagsOutsideTable();
  }

  /** The truth value PHP gives the max(section) lookup: null and 0 are false. */
  predicate Truthy(maxSection: Option<int>)
  {
    maxSection.Some? && maxSection.value != 0
  }

  /** One pass of the migration loop, for one option key. */
  function MigrateKey(data: Options, oldCourse: Options, maxSection: Option<int>, key: string): Options
  {
    if key in data then data
    else if key in oldCourse then data[key := oldCourse[key]]
    else if key == NumSections && Truthy(maxSection) then data[key := Int(maxSection.value)]
    else data
  }

  /** The migration loop over the given keys, in order. */
  function Migrate(data: Options, oldCourse: Options, maxSection: Option<int>, keys: seq<string>): (r: Options)
    ensures data.Keys <= r.Keys
  {
    if keys == [] then data
    else MigrateKey(Migrate(data, oldCourse, maxSection, keys[..|keys| - 1]), oldCourse, maxSection, keys[|keys| - 1])
  }

  /**
   * Key by key: the data's own values are never overwritten; a listed key the
   * data lacks is copied from the previous course, or for numsections taken
   * from a non-zero maximum section number; no other key is added.
   */
  lemma {:induction false} MigrateAt(data: Options, oldCourse: Options, maxSection: Option<int>, keys: seq<string>, k: string)
    ensures k in data ==>
              k in Migrate(data, oldCourse, maxSection, keys) && Migrate(data, oldCourse, maxSection, keys)[k] == data[k]
    ensures k !in data && k in keys && k in oldCourse ==>
              k in Migrate(data, oldCourse, maxSection, keys) && Migrate(data, oldCourse, maxSection, keys)[k] == oldCourse[k]
    ensures k !in data && k in keys && k !in oldCourse && k == NumSections && Truthy(maxSection) ==>
              k in Migrate(data, oldCourse, maxSection, keys) && Migrate(data, oldCourse, maxSection, keys)[k] == Int(maxSection.value)
    ensures k !in data && !(k in keys && (k in oldCourse || (k == NumSections && Truthy(maxSection)))) ==>
              k !in Migrate(data, oldCourse, maxSection, keys)
  {
    if keys != [] {
      var init := keys[..|keys| - 1];
      MigrateAt(data, oldCourse, maxSection, init, k);
      assert keys == init + [keys[|keys| - 1]];
    }
  }

  /** One pass of the migration keeps two records that agree on the option keys in agreement. */
  lemma MigrateKeyPreservesAgreement(a: Options, b: Options, oldCourse: Options, maxSection: Option<int>, key: string)
    requires AgreeOnOptions(a, b)
    requires key in OptionKeySet
    ensures AgreeOnOptions(MigrateKey(a, oldCourse, maxSection, key), MigrateKey(b, oldCourse, maxSection, key))
  {
  }

  /** Migration never changes a value the records already agree on outside the table, so it keeps agreement. */
  lemma {:induction false} MigratePreservesAgreement(a: Options, b: Options, oldCourse: Options, maxSection: Option<int>, keys: seq<string>)
    requires AgreeOnOptions(a, b)
    requires forall k :: k in keys ==> k in OptionKeySet
    ensures AgreeOnOptions(Migrate(a, oldCourse, maxSection, keys), Migrate(b, oldCourse, maxSection, keys))
  {
    if keys != [] {
      var init := keys[..|keys| - 1];
      MigratePreservesAgreement(a, b, oldCourse, maxSection, init);
      MigrateKeyPreservesAgreement(Migrate(a, oldCourse, maxSection, init), Migrate(b, oldCourse, maxSection, init),
                                   oldCourse, maxSection, keys[|keys| - 1]);
    }
  }

  /**
   * The migration loop as written: the numsections fallback reads $DB, which
   * the method never declares global, so reaching it is a fatal error (None).
   */
  function MigrateAsWritten(data: Options, oldCourse: Options, keys: seq<string>): (r: Option<Options>)
    ensures r.Some? ==> forall k :: k in data ==> k in r.value && r.value[k] == data[k]
    ensures r.None? ==> NumSections in keys && NumSections !in data && NumSections !in oldCourse
  {
    if keys == [] then Some(data)
    else
      match MigrateAsWritten(data, oldCourse, keys[..|keys| - 1])
      case None => None
      case Some(d) =>
        var key := keys[|keys| - 1];
        if key in d then Some(d)
        else if key in oldCourse then Some(d[key := oldCourse[key]])
        else if key == NumSections then None
        else Some(d)
  }

  lemma {:induction false} FailureSticks(data: Options, oldCourse: Options, keys: seq<string>, n: nat)
    requires n <= |keys|
    requires MigrateAsWritten(data, oldCourse, keys[..n]) == None
    ensures MigrateAsWritten(data, oldCourse, keys) == None
    decreases |keys| - n
  {
    if n < |keys| {
      assert keys[..n + 1][..n] == keys[..n];
      FailureSticks(data, oldCourse, keys, n + 1);
    } else {
      assert keys[..n] == keys;
    }
  }

  /** As written, migrating from a format without numsections, with none submitted, always fails. */
  lemma MigrateAsWrittenFails(data: Options, oldCourse: Options)
    requires NumSections !in data && NumSections !in oldCourse
    ensures MigrateAsWritten(data, oldCourse, OptionKeys) == None
  {
    assert OptionKeys[..1][..0] == [];
    FailureSticks(data, oldCourse, OptionKeys, 1);
  }

  /** Where the migration as written does not fail, the corrected one gives the same data. */
  lemma {:induction false} MigrateAsWrittenAgrees(data: Options, oldCourse: Options, maxSection: Option<int>, keys: seq<string>)
    ensures MigrateAsWritten(data, oldCourse, keys).Some? ==>
              MigrateAsWritten(data, oldCourse, keys).value == Migrate(data, oldCourse, maxSection, keys)
  {
    if keys != [] {
      MigrateAsWrittenAgrees(data, oldCourse, maxSection, keys[..|keys| - 1]);
    }
  }

  /** The result of update_course_format_options: the options and the rows afterwards, and the value returned. */
  datatype Outcome = Outcome(options: map<int, Options>, rows: seq<Row>, changes: bool)

  /**
   * update_course_format_options once the flags are read and stripped:
   * migrate, write the payload for the current course, then run the reset
   * for all courses if any all-course flag is set, else the reset for the
   * current course if any of its flags is set.
   */
  function ApplyUpdate(defaults: Options, options: map<int, Options>, rows: seq<Row>, courseId: int,
                       request: ResetRequest, payload: Options, oldCourse: Option<Options>,
                       maxSection: Option<int>): (r: Outcome)
    requires OptionKeySet <= defaults.Keys
    ensures request.all.Any() || request.course.Any() ==> r.changes
    ensures r.rows == WriteRows(rows, courseId)
  {
    var toStore := Payload(payload, oldCourse, maxSection);
    var stored := Stored(options, courseId);
    var updated := options[courseId := Upsert(stored, toStore)];
    var written := WriteRows(rows, courseId);
    if request.all.Any() then Outcome(ResetStore(defaults, updated, written, 0, request.all), written, true)
    else if request.course.Any() then Outcome(ResetStore(defaults, updated, written, courseId, request.course), written, true)
    else Outcome(updated, written, Changes(stored, toStore))
  }

  /**
   * update_course_format_options on the submitted data, which is an object
   * (the edit form's data) or an array (the callers in this class).
   */
  function UpdateOutcome(defaults: Options, options: map<int, Options>, rows: seq<Row>, courseId: int,
                         data: Options, isObject: bool, oldCourse: Option<Options>, maxSection: Option<int>): (r: Outcome)
    requires OptionKeySet <= defaults.Keys
    ensures ReadResetRequest(data, isObject).all.Any() || ReadResetRequest(data, isObject).course.Any() ==> r.changes
    ensures !ReadResetRequest(data, isObject).all.Any() && !ReadResetRequest(data, isObject).course.Any() ==>
              r.options == Updated(options, courseId, data, isObject, oldCourse, maxSection) &&
              r.changes == Changes(Stored(options, courseId), Payload(AfterFlagTests(data, isObject), oldCourse, maxSection))
    ensures r.rows == WriteRows(rows, courseId)
  {
    ApplyUpdate(defaults, options, rows, courseId, ReadResetRequest(data, isObject), AfterFlagTests(data, isObject), oldCourse, maxSection)
  }

  /** The host cannot tell apart two payloads that agree on every option key. */
  lemma UpsertAgrees(stored: Options, a: Options, b: Options)
    requires AgreeOnOptions(a, b)
    ensures Upsert(stored, a) == Upsert(stored, b)
    ensures Changes(stored, a) == Changes(stored, b)
  {
    assert Upsert(stored, a).Keys == Upsert(stored, b).Keys;
  }

  /** The payload written for the current course, after any migration. */
  function Payload(payload: Options, oldCourse: Option<Options>, maxSection: Option<int>): Options
  {
    if oldCourse.Some? then Migrate(payload, oldCourse.value, maxSection, OptionKeys) else payload
  }

  /** The misplaced unset of the flag tests as written changes nothing in the store or the returned value. */
  lemma StripFixUnobservable(defaults: Options, options: map<int, Options>, rows: seq<Row>, courseId: int,
                             data: Options, oldCourse: Option<Options>, maxSection: Option<int>)
    requires OptionKeySet <= defaults.Keys
    ensures ApplyUpdate(defaults, options, rows, courseId, ResetRequestOf(data), StripResetFlagsAsWritten(data), oldCourse, maxSection)
            == UpdateOutcome(defaults, options, rows, courseId, data, true, oldCourse, maxSection)
  {
    var a := StripResetFlagsAsWritten(data);
    var b := StripResetFlags(data);
    StripsAgreeOnOptions(data);
    if oldCourse.Some? {
      MigratePreservesAgreement(a, b, oldCourse.value, maxSection, OptionKeys);
    }
    UpsertAgrees(Stored(options, courseId), Payload(a, oldCourse, maxSection), Payload(b, oldCourse, maxSection));
  }

  /** The store after the ordinary update, before any reset. */
  function Updated(options: map<int, Options>, courseId: int, data: Options, isObject: bool,
                   oldCourse: Option<Options>, maxSection: Option<int>): map<int, Options>
  {
    UpdateCourse(options, courseId, Payload(AfterFlagTests(data, isObject), oldCourse, maxSection))
  }

  /**
   * An all-course reset runs after the ordinary update: in the current course
   * (whose rows the update has just written) and in every other course that
   * has rows, the requested keys hold their defaults and the other keys hold
   * what the update left; the current course's own flags play no part.
   */
  lemma ResetAllApplies(defaults: Options, options: map<int, Options>, rows: seq<Row>, courseId: int,
                        data: Options, isObject: bool, oldCourse: Option<Options>, maxSection: Option<int>, id: int)
    requires OptionKeySet <= defaults.Keys
    requires ReadResetRequest(data, isObject).all.Any()
    requires id != 0 && (id == courseId || exists x :: x in rows && x.courseId == id)
    ensures var all := ReadResetRequest(data, isObject).all;
            var before := Stored(Updated(options, courseId, data, isObject, oldCourse, maxSection), id);
            var r := UpdateOutcome(defaults, options, rows, courseId, data, isObject, oldCourse, maxSection);
            r.changes && id in r.options &&
            (forall k :: InCategories(all, k) ==> k in r.options[id] && r.options[id][k] == defaults[k]) &&
            (forall k :: k in before && !InCategories(all, k) ==> k in r.options[id] && r.options[id][k] == before[k])
  {
    var all := ReadResetRequest(data, isObject).all;
    var written := WriteRows(rows, courseId);
    WriteRowsAdds(rows, courseId);
    AllCoursesReset(written, all, id);
    ResetStoreAt(defaults, Updated(options, courseId, data, isObject, oldCourse, maxSection), written, 0, all, id);
  }

  /** Without an all-course flag, no course other than the current one changes (course id 0 would select every row). */
  lemma CourseResetStaysInCourse(defaults: Options, options: map<int, Options>, rows: seq<Row>, courseId: int,
                                 data: Options, isObject: bool, oldCourse: Option<Options>, maxSection: Option<int>, id: int)
    requires OptionKeySet <= defaults.Keys
    requires !ReadResetRequest(data, isObject).all.Any()
    requires courseId != 0 && id != courseId
    ensures var r := UpdateOutcome(defaults, options, rows, courseId, data, isObject, oldCourse, maxSection).options;
            (id in r <==> id in options) && (id in options ==> r[id] == options[id])
  {
    var request := ReadResetRequest(data, isObject);
    var updated := Updated(options, courseId, data, isObject, oldCourse, maxSection);
    if request.course.Any() {
      var written := WriteRows(rows, courseId);
      SingleCourseReset(written, courseId, request.course);
      ResetStoreAt(defaults, updated, written, courseId, request.course, id);
    }
  }

  /**
   * A course reset sets the requested keys of the current course to their
   * defaults, even on the course's first save, since the update writes its rows first.
   */
  lemma CourseResetApplies(defaults: Options, options: map<int, Options>, rows: seq<Row>, courseId: int,
                           data: Options, isObject: bool, oldCourse: Option<Options>, maxSection: Option<int>)
    requires OptionKeySet <= defaults.Keys
    requires !ReadResetRequest(data, isObject).all.Any() && ReadResetRequest(data, isObject).course.Any()
    requires courseId != 0
    ensures var request := ReadResetRequest(data, isObject);
            var before := Stored(Updated(options, courseId, data, isObject, oldCourse, maxSection), courseId);
            var r := UpdateOutcome(defaults, options, rows, courseId, data, isObject, oldCourse, maxSection);
            r.changes && courseId in r.options &&
            (forall k :: InCategories(request.course, k) ==> k in r.options[courseId] && r.options[courseId][k] == defaults[k]) &&
            (forall k :: k in before && !InCategories(request.course, k) ==> k in r.options[courseId] && r.options[courseId][k] == before[k])
  {
    var request := ReadResetRequest(data, isObject);
    var written := WriteRows(rows, courseId);
    WriteRowsAdds(rows, courseId);
    SingleCourseReset(written, courseId, request.course);
    ResetStoreAt(defaults, Updated(options, courseId, data, isObject, oldCourse, maxSection), written, courseId, request.course, courseId);
  }

  /** A store holding only option keys keeps holding only option keys: no reset flag is ever persisted. */
  lemma UpdateKeepsSchema(defaults: Options, options: map<int, Options>, rows: seq<Row>, courseId: int,
                          data: Options, isObject: bool, oldCourse: Option<Options>, maxSection: Option<int>)
    requires OptionKeySet <= defaults.Keys
    requires forall c :: c in options ==> options[c].Keys <= OptionKeySet
    ensures var r := UpdateOutcome(defaults, options, rows, courseId, data, isObject, oldCourse, maxSection).options;
            forall c :: c in r ==> r[c].Keys <= OptionKeySet && r[c].Keys !! ResetFlagKeys
  {
    var request := ReadResetRequest(data, isObject);
    var updated := Updated(options, courseId, data, isObject, oldCourse, maxSection);
    var r := UpdateOutcome(defaults, options, rows, courseId, data, isObject, oldCourse, maxSection).options;
    FlagsOutsideTable();
    CategoriesInTable();
    assert forall c :: c in updated ==> updated[c].Keys <= OptionKeySet;
    var target := if request.all.Any() then 0 else courseId;
    var cats := if request.all.Any() then request.all else request.course;
    forall c | c in r ensures r[c].Keys <= OptionKeySet {
      if cats.Any() {
        ResetStoreAt(defaults, updated, WriteRows(rows, courseId), target, cats, c);
      }
    }
  }
}
