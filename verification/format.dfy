/**
 * The format_topcoll object: its course id and memoised settings, and the
 * methods that read and rewrite the course format options held by the host.
 */
module TopcollFormat {

  import opened Wrappers
  import opened TopcollOptions
  import opened TopcollReset
  import opened TopcollUpdate

  /**
   * The host's storage of this format's options: the record of each course,
   * and the course_format_options rows as the reset query returns them, in
   * database order.
   */
  class OptionStore {
    var options: map<int, Options>
    var rows: seq<Row>

    constructor (options: map<int, Options>, rows: seq<Row>)
      ensures this.options == options && this.rows == rows
    {
      this.options := options;
      this.rows := rows;
    }
  }

  /**
   * The migration loop of update_course_format_options: for each option key
   * in table order, fill a key the data lacks from the previous course, or
   * numsections from the highest section number when that is not 0.
   */
  method MigrateFromPreviousFormat(data: Options, oldCourse: Options, maxSection: Option<int>) returns (r: Options)
    ensures r == Migrate(data, oldCourse, maxSection, OptionKeys)
    ensures forall k :: k in data ==> k in r && r[k] == data[k]
  {
    r := data;
    var i := 0;
    while i < |OptionKeys|
      invariant 0 <= i <= |OptionKeys|
      invariant r == Migrate(data, oldCourse, maxSection, OptionKeys[..i])
    {
      var key := OptionKeys[i];
      if key !in r {
        if key in oldCourse {
          r := r[key := oldCourse[key]];
        } else if key == NumSections {
          if maxSection.Some? && maxSection.value != 0 {
            r := r[NumSections := Int(maxSection.value)];
          }
        }
      }
      assert OptionKeys[..i + 1][..i] == OptionKeys[..i];
      i := i + 1;
    }
    assert OptionKeys[..i] == OptionKeys;
    forall k | k in data ensures k in r && r[k] == data[k] {
      MigrateAt(data, oldCourse, maxSection, OptionKeys, k);
    }
  }

  /**
   * Corrected (see StripResetFlags and Migrate): the first half of
   * update_course_format_options: read the reset flags, take them out of the
   * data, and migrate from the previous format if any.
   */
  method PrepareUpdate(data: Options, isObject: bool, oldCourse: Option<Options>, maxSection: Option<int>)
    returns (request: ResetRequest, payload: Options)
    ensures request == ReadResetRequest(data, isObject)
    ensures payload == Payload(AfterFlagTests(data, isObject), oldCourse, maxSection)
    ensures forall k :: k in data && k !in ResetFlagKeys ==> k in payload && payload[k] == data[k]
  {
    request := ReadResetRequest(data, isObject);
    payload := AfterFlagTests(data, isObject);
    if oldCourse.Some? {
      payload := MigrateFromPreviousFormat(payload, oldCourse.value, maxSection);
    }
  }

  /** The data restore_topcoll_setting writes. */
  function RestoreData(layoutElement: int, layoutStructure: int, layoutColumns: int,
                       foregroundColour: string, backgroundColour: string, backgroundHoverColour: string): Options
  {
    map[LayoutElement := Int(layoutElement),
        LayoutStructure := Int(layoutStructure),
        LayoutColumns := Int(layoutColumns),
        ToggleForegroundColour := Text(foregroundColour),
        ToggleBackgroundColour := Text(backgroundColour),
        ToggleBackgroundHoverColour := Text(backgroundHoverColour)]
  }

  /**
   * Array data, whatever it holds, and object data that sets no reset flag
   * pass through update_course_format_options as a plain write.
   */
  lemma PlainUpdate(defaults: Options, options: map<int, Options>, rows: seq<Row>, courseId: int,
                    data: Options, isObject: bool)
    requires OptionKeySet <= defaults.Keys
    requires isObject ==> forall k :: k in ResetFlagKeys ==> !IsSet(data, k)
    ensures UpdateOutcome(defaults, options, rows, courseId, data, isObject, None, None) ==
            Outcome(UpdateCourse(options, courseId, data), WriteRows(rows, courseId), Changes(Stored(options, courseId), data))
  {
    if isObject {
      assert StripResetFlags(data) == data;
    }
  }

  class Format {
    const config: SiteConfig
    /** The site defaults of every option, as get_format_options fills them in. */
    const defaults: Options
    const store: OptionStore
    var courseId: int
    /** The memoised settings; empty until first fetched. */
    var settings: Options

    ghost predicate Valid()
      reads this`settings
    {
      OptionKeySet <= defaults.Keys &&
      (settings == map[] || settings.Keys == OptionKeySet)
    }

    constructor (config: SiteConfig, store: OptionStore, courseId: int)
      ensures Valid()
      ensures this.config == config && this.store == store && this.courseId == courseId
      ensures defaults == DefaultOptions(config)
      ensures settings == map[]
    {
      this.config := config;
      this.defaults := DefaultOptions(config);
      this.store := store;
      this.courseId := courseId;
      this.settings := map[];
    }

    /** The host's get_format_options for this object's course. */
    function FormatOptions(): (r: Options)
      reads this, store
      ensures r.Keys == OptionKeySet
    {
      EffectiveOptions(config, Stored(store.options, courseId))
    }

    /** get_settings: fetch the options only while the memoised settings are empty. */
    method GetSettings() returns (s: Options)
      requires Valid()
      modifies this`settings
      ensures Valid()
      ensures old(settings) == map[] ==> settings == FormatOptions()
      ensures old(settings) != map[] ==> settings == old(settings)
      ensures s == settings && s.Keys == OptionKeySet
    {
      if settings == map[] {
        settings := FormatOptions();
      }
      s := settings;
    }

    /**
     * The host's update_format_options: an upsert of the known keys of data
     * for this object's course, whose rows are added if it has none.
     */
    method UpdateFormatOptions(data: Options) returns (changed: bool)
      modifies store`options, store`rows
      ensures store.options == UpdateCourse(old(store.options), courseId, data)
      ensures store.rows == WriteRows(old(store.rows), courseId)
      ensures changed == Changes(Stored(old(store.options), courseId), data)
    {
      var stored := Stored(store.options, courseId);
      changed := Changes(stored, data);
      store.options := store.options[courseId := Upsert(stored, data)];
      store.rows := WriteRows(store.rows, courseId);
    }

    /**
     * reset_topcoll_setting: fetch the rows of the target course (all rows
     * for target 0) and, once per run of rows of one course, point this
     * object at that course, write the defaults of the requested categories,
     * and point it back.
     */
    method ResetTopcollSetting(target: int, layout: bool, colour: bool, toggleAlignment: bool, toggleIconSet: bool)
      requires Valid()
      modifies this`courseId, store`options, store`rows
      ensures courseId == old(courseId)
      ensures store.rows == old(store.rows)
      ensures store.options ==
              ResetStore(defaults, old(store.options), store.rows, target,
                         Categories(layout, colour, toggleAlignment, toggleIconSet))
    {
      var categories := Categories(layout, colour, toggleAlignment, toggleIconSet);
      var records := TargetRows(store.rows, target);
      CategoriesInTable();
      var updateData := ResetData(defaults, categories);
      WriteRuns(records, updateData, layout || toggleAlignment || colour || toggleIconSet);
    }

    /**
     * The foreach of reset_topcoll_setting: walk the fetched rows and, when
     * write is set, write the data once each time the course id changes.
     */
    method WriteRuns(records: seq<Row>, data: Options, write: bool)
      requires forall x :: x in records ==> x in store.rows
      modifies this`courseId, store`options, store`rows
      ensures courseId == old(courseId)
      ensures store.rows == old(store.rows)
      ensures write ==> store.options == UpdateCourses(old(store.options), RunStarts(records), data)
      ensures !write ==> store.options == old(store.options)
    {
      var currentCourseId := 0;
      var i := 0;
      assert records[..i] == [];
      while i < |records|
        invariant 0 <= i <= |records|
        invariant courseId == old(courseId)
        invariant store.rows == old(store.rows)
        invariant currentCourseId == LastCourse(records[..i])
        invariant write ==> store.options == UpdateCourses(old(store.options), RunStarts(records[..i]), data)
        invariant !write ==> store.options == old(store.options)
      {
        var record := records[i];
        ResetLoopStep(old(store.options), records, i, data);
        WriteExisting(store.rows, record);
        if currentCourseId != record.courseId {
          currentCourseId := record.courseId;
          if write {
            WriteCourse(currentCourseId, data);
          }
        }
        i := i + 1;
      }
      assert records[..i] == records;
    }

    /** One write of the reset loop: point this object at course c, write the data, and point it back. */
    method WriteCourse(c: int, data: Options)
      modifies this`courseId, store`options, store`rows
      ensures courseId == old(courseId)
      ensures store.options == UpdateCourse(old(store.options), c, data)
      ensures store.rows == WriteRows(old(store.rows), c)
    {
      var ourCourseId := courseId;
      courseId := c;
      var _ := UpdateFormatOptions(data);
      courseId := ourCourseId;
    }

    /**
     * update_course_format_options: take the reset flags out of the data,
     * migrate options from a previous format, write the data, then reset all
     * courses or this course as the flags ask.
     */
    method UpdateCourseFormatOptions(data: Options, isObject: bool, oldCourse: Option<Options>, maxSection: Option<int>)
      returns (changes: bool)
      requires Valid()
      modifies this`courseId, store`options, store`rows
      ensures courseId == old(courseId)
      ensures Outcome(store.options, store.rows, changes) ==
              UpdateOutcome(defaults, old(store.options), old(store.rows), courseId, data, isObject, oldCourse, maxSection)
    {
      var request, payload := PrepareUpdate(data, isObject, oldCourse, maxSection);
      changes := UpdateFormatOptions(payload);
      var reset := RunResets(request);
      changes := changes || reset;
    }

    /**
     * The last step of update_course_format_options: the reset for all
     * courses if any all-course flag is set, else the reset for this course
     * if any of its flags is set.
     */
    method RunResets(request: ResetRequest) returns (reset: bool)
      requires Valid()
      modifies this`courseId, store`options, store`rows
      ensures courseId == old(courseId)
      ensures store.rows == old(store.rows)
      ensures reset <==> request.all.Any() || request.course.Any()
      ensures request.all.Any() ==> store.options == ResetStore(defaults, old(store.options), store.rows, 0, request.all)
      ensures !request.all.Any() && request.course.Any() ==>
                store.options == ResetStore(defaults, old(store.options), store.rows, courseId, request.course)
      ensures !reset ==> store.options == old(store.options)
    {
      var all := request.all;
      var course := request.course;
      reset := false;
      if all.layout || all.colour || all.toggleAlignment || all.toggleIconSet {
        ResetTopcollSetting(0, all.layout, all.colour, all.toggleAlignment, all.toggleIconSet);
        reset := true;
      } else if course.layout || course.colour || course.toggleAlignment || course.toggleIconSet {
        ResetTopcollSetting(courseId, course.layout, course.colour, course.toggleAlignment, course.toggleIconSet);
        reset := true;
      }
    }

    /**
     * restore_topcoll_setting: write six options of the given course through
     * update_course_format_options, with this object pointed at that course
     * for the duration.
     */
    method RestoreTopcollSetting(target: int, layoutElement: int, layoutStructure: int, layoutColumns: int,
                                 foregroundColour: string, backgroundColour: string, backgroundHoverColour: string)
      requires Valid()
      modifies this`courseId, store`options, store`rows
      ensures courseId == old(courseId)
      ensures store.rows == WriteRows(old(store.rows), target)
      ensures store.options ==
              UpdateCourse(old(store.options), target,
                           RestoreData(layoutElement, layoutStructure, layoutColumns,
                                       foregroundColour, backgroundColour, backgroundHoverColour))
    {
      var currentCourseId := courseId;
      courseId := target;
      var data := RestoreData(layoutElement, layoutStructure, layoutColumns,
                              foregroundColour, backgroundColour, backgroundHoverColour);
      PlainUpdate(defaults, store.options, store.rows, target, data, false);
      var _ := UpdateCourseFormatOptions(data, false, None, None);
      courseId := currentCourseId;
    }

    /** update_topcoll_columns_setting: write layoutcolumns for this object's course. */
    method UpdateTopcollColumnsSetting(layoutColumns: int)
      requires Valid()
      modifies this`courseId, store`options, store`rows
      ensures courseId == old(courseId)
      ensures store.options == UpdateCourse(old(store.options), courseId, map[LayoutColumns := Int(layoutColumns)])
      ensures store.rows == WriteRows(old(store.rows), courseId)
    {
      var data := map[LayoutColumns := Int(layoutColumns)];
      PlainUpdate(defaults, store.options, store.rows, courseId, data, false);
      var _ := UpdateCourseFormatOptions(data, false, None, None);
    }
  }
}
