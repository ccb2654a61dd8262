/**
 * reset_topcoll_setting as a function of the store: which option rows are
 * visited, which courses are written, and with what.
 */
module TopcollReset {

  import opened TopcollOptions

  /** The categories a reset may cover. */
  datatype Categories = Categories(layout: bool, colour: bool, toggleAlignment: bool, toggleIconSet: bool)
  {
    predicate Any()
    {
      layout || colour || toggleAlignment || toggleIconSet
    }
  }

  /** Whether a key belongs to one of the requested categories. */
  predicate InCategories(c: Categories, k: string)
  {
    (c.layout && k in LayoutKeys) ||
    (c.toggleAlignment && k in AlignmentKeys) ||
    (c.colour && k in ColourKeys) ||
    (c.toggleIconSet && k in IconSetKeys)
  }

  /**
   * The update data of reset_topcoll_setting: the keys of each requested
   * category, each set to its default from the table given.
   */
  function ResetData(defaults: Options, c: Categories): (d: Options)
    requires OptionKeySet <= defaults.Keys
    ensures forall k :: k in d <==> InCategories(c, k)
    ensures d.Keys <= OptionKeySet
    ensures forall k :: k in d ==> d[k] == defaults[k]
  {
    CategoriesInTable();
    map k | k in OptionKeySet && InCategories(c, k) :: defaults[k]
  }

  lemma CategoriesInTable()
    ensures LayoutKeys <= OptionKeySet && AlignmentKeys <= OptionKeySet
    ensures ColourKeys <= OptionKeySet && IconSetKeys <= OptionKeySet
  {
  }

  /** A course_format_options row as reset_topcoll_setting fetches it: its id and its course. */
  datatype Row = Row(id: int, courseId: int)

  /** An id above every row id: the next id the table hands out. */
  function NextRowId(rows: seq<Row>): (n: int)
    ensures forall x :: x in rows ==> x.id < n
  {
    if rows == [] then 1
    else
      var rest := NextRowId(rows[1..]);
      if rows[0].id + 1 > rest then rows[0].id + 1 else rest
  }

  /**
   * The rows after the host writes a course's options: a course without rows
   * gets its rows appended (the host inserts every option key on its first
   * write, so a course that has rows already gets none).
   */
  function WriteRows(rows: seq<Row>, c: int): seq<Row>
  {
    if exists x :: x in rows && x.courseId == c then rows
    else rows + [Row(NextRowId(rows), c)]
  }

  /**
   * A write keeps every row, in order, and leaves the course with a row; it
   * adds one only for a course that had none, and the added row has a new id.
   */
  lemma WriteRowsAdds(rows: seq<Row>, c: int)
    ensures rows <= WriteRows(rows, c) && |WriteRows(rows, c)| <= |rows| + 1
    ensures forall x :: x in rows ==> x in WriteRows(rows, c)
    ensures exists x :: x in WriteRows(rows, c) && x.courseId == c
    ensures (exists x :: x in rows && x.courseId == c) ==> WriteRows(rows, c) == rows
    ensures forall i :: |rows| <= i < |WriteRows(rows, c)| ==>
              WriteRows(rows, c)[i].courseId == c && forall x :: x in rows ==> x.id < WriteRows(rows, c)[i].id
  {
    if !exists x :: x in rows && x.courseId == c {
      var row := Row(NextRowId(rows), c);
      assert row in rows + [row];
    }
  }

  /** A write for a course that already has a row adds none. */
  lemma WriteExisting(rows: seq<Row>, x: Row)
    requires x in rows
    ensures WriteRows(rows, x.courseId) == rows
  {
    WriteRowsAdds(rows, x.courseId);
  }

  /** The rows fetched: all of the format's rows for target 0, else those of the target course. */
  function TargetRows(rows: seq<Row>, target: int): (r: seq<Row>)
    ensures target == 0 ==> r == rows
    ensures target != 0 ==> forall i :: 0 <= i < |r| ==> r[i].courseId == target
    ensures target != 0 ==> forall x :: x in rows && x.courseId == target ==> x in r
    ensures forall x :: x in r ==> x in rows
  {
    if target == 0 then rows
    else if rows == [] then []
    else
      var rest := TargetRows(rows[1..], target);
      if rows[0].courseId == target then [rows[0]] + rest else rest
  }

  /** The course of the last row seen, 0 before any row: the loop's currentcourseid. */
  function LastCourse(rows: seq<Row>): int
  {
    if rows == [] then 0 else rows[|rows| - 1].courseId
  }

  /**
   * The courses the loop writes, in order: one entry each time the course id
   * changes from the previous row's (or from 0), so never more than there are rows.
   */
  function RunStarts(rows: seq<Row>): (r: seq<int>)
    ensures |r| <= |rows|
  {
    if rows == [] then []
    else
      var init := rows[..|rows| - 1];
      var last := rows[|rows| - 1].courseId;
      RunStarts(init) + (if last != LastCourse(init) then [last] else [])
  }

  /** The loop writes one course per run: never the same course twice in a row, and last the course of the last row. */
  lemma {:induction false} RunStartsOncePerRun(rows: seq<Row>)
    ensures forall i :: 0 < i < |RunStarts(rows)| ==> RunStarts(rows)[i - 1] != RunStarts(rows)[i]
    ensures RunStarts(rows) != [] ==> RunStarts(rows)[|RunStarts(rows)| - 1] == LastCourse(rows)
  {
    if rows != [] {
      var init := rows[..|rows| - 1];
      RunStartsOncePerRun(init);
    }
  }

  /** Every course written has a row, and every course with a row other than 0 is written. */
  lemma {:induction false} RunStartsCover(rows: seq<Row>)
    ensures forall c :: c in RunStarts(rows) ==> exists x :: x in rows && x.courseId == c
    ensures forall x :: x in rows && x.courseId != 0 ==> x.courseId in RunStarts(rows)
  {
    if rows != [] {
      var init := rows[..|rows| - 1];
      var lastRow := rows[|rows| - 1];
      RunStartsCover(init);
      RunStartsOncePerRun(init);
      assert rows == init + [lastRow];
      forall x | x in rows && x.courseId != 0 ensures x.courseId in RunStarts(rows) {
        if x in init {
        } else {
          assert x == lastRow;
          if lastRow.courseId == LastCourse(init) {
            assert init != [];
            assert init[|init| - 1].courseId == x.courseId;
          }
        }
      }
    }
  }

  /** Row i starts a run: its course differs from the previous row's, or from 0 for the first row. */
  predicate StartsRun(rows: seq<Row>, i: int)
    requires 0 <= i < |rows|
  {
    rows[i].courseId != (if i == 0 then 0 else rows[i - 1].courseId)
  }

  /** How many of the first n rows start a run. */
  function RunsBefore(rows: seq<Row>, n: int): nat
    requires 0 <= n <= |rows|
  {
    if n == 0 then 0 else RunsBefore(rows, n - 1) + (if StartsRun(rows, n - 1) then 1 else 0)
  }

  /** The courses of the rows among the first n that start a run, in row order. */
  function RunStartsAt(rows: seq<Row>, n: int): seq<int>
    requires 0 <= n <= |rows|
  {
    if n == 0 then [] else RunStartsAt(rows, n - 1) + (if StartsRun(rows, n - 1) then [rows[n - 1].courseId] else [])
  }

  /** The loop's writes over the first n rows are the run starts among them. */
  lemma {:induction false} RunStartsPrefix(rows: seq<Row>, n: int)
    requires 0 <= n <= |rows|
    ensures RunStarts(rows[..n]) == RunStartsAt(rows, n)
  {
    if n > 0 {
      RunStartsPrefix(rows, n - 1);
      assert rows[..n][..n - 1] == rows[..n - 1];
    }
  }

  /** Each row that starts a run adds one write, so the writes number the run starts. */
  lemma {:induction false} RunStartsAtCount(rows: seq<Row>, n: int)
    requires 0 <= n <= |rows|
    ensures |RunStartsAt(rows, n)| == RunsBefore(rows, n)
  {
    if n > 0 {
      RunStartsAtCount(rows, n - 1);
    }
  }

  /** The row that starts the j-th run gives the j-th write. */
  lemma {:induction false} RunStartsAtIndex(rows: seq<Row>, n: int, i: int)
    requires 0 <= i < n <= |rows|
    requires StartsRun(rows, i)
    ensures RunsBefore(rows, i) < |RunStartsAt(rows, n)|
    ensures RunStartsAt(rows, n)[RunsBefore(rows, i)] == rows[i].courseId
  {
    if i < n - 1 {
      RunStartsAtIndex(rows, n - 1, i);
    } else {
      RunStartsAtCount(rows, i);
    }
  }

  /** Every write comes from the row that starts its run. */
  lemma {:induction false} RunStartsAtSource(rows: seq<Row>, n: int, j: int)
    requires 0 <= n <= |rows|
    requires 0 <= j < |RunStartsAt(rows, n)|
    ensures exists i :: 0 <= i < n && StartsRun(rows, i) && RunsBefore(rows, i) == j &&
                        RunStartsAt(rows, n)[j] == rows[i].courseId
  {
    RunStartsAtCount(rows, n - 1);
    if j < |RunStartsAt(rows, n - 1)| {
      RunStartsAtSource(rows, n - 1, j);
      var i :| 0 <= i < n - 1 && StartsRun(rows, i) && RunsBefore(rows, i) == j &&
               RunStartsAt(rows, n - 1)[j] == rows[i].courseId;
      assert RunStartsAt(rows, n)[j] == rows[i].courseId;
    } else {
      assert StartsRun(rows, n - 1) && RunsBefore(rows, n - 1) == j;
    }
  }

  /**
   * The loop writes exactly once per run, in row order: as many writes as rows
   * that start a run, and the row that starts the j-th run gives the j-th write.
   */
  lemma RunStartsExact(rows: seq<Row>)
    ensures |RunStarts(rows)| == RunsBefore(rows, |rows|)
    ensures forall i :: 0 <= i < |rows| && StartsRun(rows, i) ==>
              RunsBefore(rows, i) < |RunStarts(rows)| && RunStarts(rows)[RunsBefore(rows, i)] == rows[i].courseId
  {
    RunStartsPrefix(rows, |rows|);
    assert rows[..|rows|] == rows;
    RunStartsAtCount(rows, |rows|);
    forall i | 0 <= i < |rows| && StartsRun(rows, i)
      ensures RunsBefore(rows, i) < |RunStarts(rows)| && RunStarts(rows)[RunsBefore(rows, i)] == rows[i].courseId
    {
      RunStartsAtIndex(rows, |rows|, i);
    }
  }

  /** Entry j of the writes w is the course of the row that starts the j-th run. */
  predicate WriteFromRunStart(rows: seq<Row>, w: seq<int>, j: int)
    requires 0 <= j < |w|
  {
    exists i :: 0 <= i < |rows| && StartsRun(rows, i) && RunsBefore(rows, i) == j && w[j] == rows[i].courseId
  }

  /** Every entry of the writes w comes from the row that starts its run. */
  predicate WritesFromRunStarts(rows: seq<Row>, w: seq<int>)
  {
    forall j :: 0 <= j < |w| ==> WriteFromRunStart(rows, w, j)
  }

  /** Every write of the loop comes from the row that starts its run. */
  lemma RunStartsSources(rows: seq<Row>)
    ensures WritesFromRunStarts(rows, RunStarts(rows))
  {
    RunStartsPrefix(rows, |rows|);
    assert rows[..|rows|] == rows;
    var w := RunStartsAt(rows, |rows|);
    forall j | 0 <= j < |w|
      ensures WriteFromRunStart(rows, w, j)
    {
      RunStartsAtSource(rows, |rows|, j);
    }
  }

  /** For one course the rows are written once, whatever their number. */
  lemma {:induction false} OneCourseWrittenOnce(rows: seq<Row>, c: int)
    requires c != 0
    requires rows != []
    requires forall i :: 0 <= i < |rows| ==> rows[i].courseId == c
    ensures RunStarts(rows) == [c]
  {
    var init := rows[..|rows| - 1];
    if init != [] {
      OneCourseWrittenOnce(init, c);
    }
  }

  /** The host update, applied to one course of the store. */
  function UpdateCourse(options: map<int, Options>, c: int, data: Options): map<int, Options>
  {
    options[c := Upsert(Stored(options, c), data)]
  }

  /** The store after the host update has run for each course of ids in turn. */
  function UpdateCourses(options: map<int, Options>, ids: seq<int>, data: Options): map<int, Options>
  {
    if ids == [] then options
    else UpdateCourse(UpdateCourses(options, ids[..|ids| - 1], data), ids[|ids| - 1], data)
  }

  /** The writes add exactly the listed courses to the store. */
  lemma {:induction false} UpdateCoursesKeys(options: map<int, Options>, ids: seq<int>, data: Options)
    ensures UpdateCourses(options, ids, data).Keys == options.Keys + (set id | id in ids)
  {
    if ids != [] {
      var init := ids[..|ids| - 1];
      UpdateCoursesKeys(options, init, data);
      assert ids == init + [ids[|ids| - 1]];
      assert (set id | id in ids) == (set id | id in init) + {ids[|ids| - 1]};
    }
  }

  /** Course by course: a listed course holds the upsert of its old record, every other course is untouched. */
  lemma {:induction false} UpdateCoursesAt(options: map<int, Options>, ids: seq<int>, data: Options, c: int)
    ensures c in ids ==> c in UpdateCourses(options, ids, data) &&
                         UpdateCourses(options, ids, data)[c] == Upsert(Stored(options, c), data)
    ensures c !in ids ==> (c in UpdateCourses(options, ids, data) <==> c in options)
    ensures c !in ids && c in options ==> UpdateCourses(options, ids, data)[c] == options[c]
  {
    if ids != [] {
      var init := ids[..|ids| - 1];
      var last := ids[|ids| - 1];
      UpdateCoursesAt(options, init, data, c);
      assert ids == init + [last];
      if c == last && c in init {
        UpsertIdempotent(Stored(options, c), data);
      }
    }
  }

  /** One more row seen by the reset loop: a new course id writes that course, a repeated one writes nothing. */
  lemma ResetLoopStep(options: map<int, Options>, rows: seq<Row>, i: nat, data: Options)
    requires i < |rows|
    ensures LastCourse(rows[..i + 1]) == rows[i].courseId
    ensures LastCourse(rows[..i]) != rows[i].courseId ==>
              UpdateCourses(options, RunStarts(rows[..i + 1]), data) ==
              UpdateCourse(UpdateCourses(options, RunStarts(rows[..i]), data), rows[i].courseId, data)
    ensures LastCourse(rows[..i]) == rows[i].courseId ==> RunStarts(rows[..i + 1]) == RunStarts(rows[..i])
  {
    var prefix := rows[..i + 1];
    assert prefix[..|prefix| - 1] == rows[..i];
    if LastCourse(rows[..i]) != rows[i].courseId {
      var ids := RunStarts(prefix);
      assert ids == RunStarts(rows[..i]) + [rows[i].courseId];
      assert ids[..|ids| - 1] == RunStarts(rows[..i]);
    }
  }

  /** reset_topcoll_setting's effect on the store. */
  function ResetStore(defaults: Options, options: map<int, Options>, rows: seq<Row>, target: int, c: Categories): (r: map<int, Options>)
    requires OptionKeySet <= defaults.Keys
    ensures !c.Any() ==> r == options
    ensures r.Keys == options.Keys + ResetCourses(rows, target, c)
  {
    if !c.Any() then options
    else
      var ids := RunStarts(TargetRows(rows, target));
      UpdateCoursesKeys(options, ids, ResetData(defaults, c));
      UpdateCourses(options, ids, ResetData(defaults, c))
  }

  /** The courses a reset writes. */
  function ResetCourses(rows: seq<Row>, target: int, c: Categories): set<int>
  {
    if c.Any() then set id | id in RunStarts(TargetRows(rows, target)) else {}
  }

  /**
   * What a reset writes: in every course it visits, the keys of the requested
   * categories hold their defaults and all other keys are as they were;
   * every other course is untouched.
   */
  lemma ResetStoreAt(defaults: Options, options: map<int, Options>, rows: seq<Row>, target: int, c: Categories, id: int)
    requires OptionKeySet <= defaults.Keys
    ensures id in ResetCourses(rows, target, c) ==>
              id in ResetStore(defaults, options, rows, target, c) &&
              var r := ResetStore(defaults, options, rows, target, c)[id];
              (forall k :: k in r <==> k in Stored(options, id) || InCategories(c, k)) &&
              (forall k :: InCategories(c, k) ==> r[k] == defaults[k]) &&
              (forall k :: k in Stored(options, id) && !InCategories(c, k) ==> r[k] == Stored(options, id)[k])
    ensures id !in ResetCourses(rows, target, c) ==>
              (id in ResetStore(defaults, options, rows, target, c) <==> id in options) &&
              (id in options ==> ResetStore(defaults, options, rows, target, c)[id] == options[id])
  {
    if c.Any() {
      UpdateCoursesAt(options, RunStarts(TargetRows(rows, target)), ResetData(defaults, c), id);
    }
  }

  /** Resetting twice leaves the store as resetting once does. */
  lemma ResetIdempotent(defaults: Options, options: map<int, Options>, rows: seq<Row>, target: int, c: Categories)
    requires OptionKeySet <= defaults.Keys
    ensures ResetStore(defaults, ResetStore(defaults, options, rows, target, c), rows, target, c)
            == ResetStore(defaults, options, rows, target, c)
  {
    if c.Any() {
      var once := ResetStore(defaults, options, rows, target, c);
      var twice := ResetStore(defaults, once, rows, target, c);
      var ids := RunStarts(TargetRows(rows, target));
      var data := ResetData(defaults, c);
      forall id | id in once || id in twice
        ensures id in once && id in twice && twice[id] == once[id]
      {
        UpdateCoursesAt(options, ids, data, id);
        UpdateCoursesAt(once, ids, data, id);
        if id in ids {
          UpsertIdempotent(Stored(options, id), data);
        }
      }
      assert once.Keys == twice.Keys;
    }
  }

  /** A reset of one course writes that course only, and writes it whenever it has a row. */
  lemma SingleCourseReset(rows: seq<Row>, target: int, c: Categories)
    requires target != 0
    ensures ResetCourses(rows, target, c) <= {target}
    ensures c.Any() && (exists x :: x in rows && x.courseId == target) ==> ResetCourses(rows, target, c) == {target}
  {
    var t := TargetRows(rows, target);
    if t != [] {
      OneCourseWrittenOnce(t, target);
    }
  }

  /** A reset of all courses writes the courses that have rows, and only those (a course id 0 leading the rows is skipped). */
  lemma AllCoursesReset(rows: seq<Row>, c: Categories, id: int)
    requires c.Any()
    ensures id in ResetCourses(rows, 0, c) ==> exists x :: x in rows && x.courseId == id
    ensures id != 0 && (exists x :: x in rows && x.courseId == id) ==> id in ResetCourses(rows, 0, c)
  {
    RunStartsCover(rows);
  }
}
