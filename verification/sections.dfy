/**
 * The per-section display values of the Collapsed Topics format: week and
 * day dates, the date label, the section title with its "Toggle" suffix, the
 * "is current" test and the view URL choice.
 */
module SectionResolver {

  import opened Wrappers

  const OneDay: int := 86400
  const OneWeek: int := 604800
  /** Two hours added to the course start so a daylight-saving shift cannot move a date to the previous day. */
  const DstGuard: int := 7200

  /** The host's course display modes. */
  const SinglePage: int := 0
  const MultiPage: int := 1

  /** The values of the layoutstructure option. */
  const Topic: int := 1
  const Week: int := 2
  const LatestWeekFirst: int := 3
  const CurrentTopicFirst: int := 4
  const Day: int := 5

  /** A course_sections row: its number (0 is the general section) and its optional name. */
  datatype Section = Section(number: int, name: Option<string>)

  /** The course fields the format reads. */
  datatype Course = Course(startDate: int, courseDisplay: int)

  /** A half-open time span [start, end). */
  datatype Span = Span(start: int, end: int)

  /** Start and end of a section in the week layouts. */
  function SectionDates(course: Course, section: int): (d: Span)
    ensures d.end - d.start == OneWeek
    ensures d.start - (course.startDate + DstGuard) == OneWeek * (section - 1)
  {
    var startDate := course.startDate + DstGuard;
    var start := startDate + OneWeek * (section - 1);
    Span(start, start + OneWeek)
  }

  /** The day of a section in the day layout. */
  function SectionDay(course: Course, section: int): (day: int)
    ensures day - (course.startDate + DstGuard) == OneDay * (section - 1)
  {
    var startDate := course.startDate + DstGuard;
    startDate + OneDay * (section - 1)
  }

  /** Each week section begins where the previous one ends. */
  lemma WeeksAdjoin(course: Course, section: int)
    ensures SectionDates(course, section + 1).start == SectionDates(course, section).end
  {
  }

  /** Consecutive day sections are exactly one day apart. */
  lemma DaysAdjoin(course: Course, section: int)
    ensures SectionDay(course, section + 1) - SectionDay(course, section) == OneDay
  {
  }

  /** The date part of a title: one day, or a first and a last displayed day. */
  datatype DateLabel = OneDate(day: int) | DateRange(first: int, last: int)

  /**
   * The date label of get_section_dates. In the week layouts the end shown is
   * one day before the exclusive end of the section.
   */
  function SectionDateLabel(section: int, course: Course, structure: int): (l: DateLabel)
    ensures l.OneDate? <==> structure == Day
    ensures l.OneDate? ==> l.day == SectionDay(course, section)
    ensures l.DateRange? ==> l.first == SectionDates(course, section).start
    ensures l.DateRange? ==> l.last - l.first == 6 * OneDay
    ensures l.DateRange? ==> l.last < SectionDates(course, section).end
  {
    if structure == Day then
      OneDate(SectionDay(course, section))
    else
      var dates := SectionDates(course, section);
      DateRange(dates.start, dates.end - OneDay)
  }

  /** The text of a section title before its suffix. */
  datatype TitleText =
    | CustomName(name: string)
    | GeneralName
    | NumberedName(number: int)
    | DatedName(dates: DateLabel)

  /** A section title: its text and whether the word "Toggle" is appended. */
  datatype SectionTitle = SectionTitle(text: TitleText, toggleWord: bool)

  /** The name counts only when its string form is not empty; null reads as empty. */
  predicate HasName(section: Section)
  {
    section.name.Some? && section.name.value != ""
  }

  /** The title get_section_name builds for a section. */
  function SectionName(section: Section, course: Course, structure: int, element: int): (t: SectionTitle)
    ensures HasName(section) ==> t.text == CustomName(section.name.value)
    ensures !HasName(section) && section.number == 0 ==> t.text == GeneralName
    ensures !HasName(section) && section.number != 0 && (structure == Topic || structure == CurrentTopicFirst)
            ==> t.text == NumberedName(section.number)
    ensures !HasName(section) && section.number != 0 && structure != Topic && structure != CurrentTopicFirst
            ==> t.text == DatedName(SectionDateLabel(section.number, course, structure))
    ensures t.toggleWord <==> course.courseDisplay == SinglePage && section.number != 0 && 1 <= element <= 4
  {
    var text :=
      if HasName(section) then CustomName(section.name.value)
      else if section.number == 0 then GeneralName
      else if structure == Topic || structure == CurrentTopicFirst then NumberedName(section.number)
      else DatedName(SectionDateLabel(section.number, course, structure));
    var toggle :=
      course.courseDisplay == SinglePage && section.number != 0 &&
      (element == 1 || element == 2 || element == 3 || element == 4);
    SectionTitle(text, toggle)
  }

  /** The general section, when not renamed, is labelled the same under every structure and never toggled. */
  lemma GeneralSectionTitle(course: Course, s1: int, s2: int, element: int)
    ensures SectionName(Section(0, None), course, s1, element) == SectionTitle(GeneralName, false)
    ensures SectionName(Section(0, None), course, s1, element) == SectionName(Section(0, None), course, s2, element)
  {
  }

  /** The host's localisation: format_string, userdate with the short date format, and three strings. */
  datatype Localiser = Localiser(
    formatString: string -> string,
    userDate: int -> string,
    section0Name: string,
    sectionName: string,
    toggleWord: string)

  /** The number a string of decimal digits denotes, most significant digit first. */
  function DigitsValue(s: string): int
  {
    if s == [] then 0 else 10 * DigitsValue(s[..|s| - 1]) + (s[|s| - 1] as int - '0' as int)
  }

  /**
   * The decimal digits of a natural number: digits only, without a leading
   * zero, and they read back as the number.
   */
  function Digits(n: nat): (s: string)
    ensures |s| >= 1
    ensures forall i :: 0 <= i < |s| ==> '0' <= s[i] <= '9'
    ensures |s| > 1 ==> s[0] != '0'
    ensures s[0] == '0' <==> n == 0
    ensures DigitsValue(s) == n
  {
    if n < 10 then [('0' as int + n) as char] else Digits(n / 10) + Digits(n % 10)
  }

  /** PHP's conversion of an integer to a string. */
  function Decimal(n: int): string
  {
    if n < 0 then "-" + Digits(-n) else Digits(n)
  }

  function RenderDates(loc: Localiser, l: DateLabel): string
  {
    match l
    case OneDate(day) => loc.userDate(day)
    case DateRange(first, last) => loc.userDate(first) + " - " + loc.userDate(last)
  }

  /**
   * The text of a title as the host renders it: a custom name through
   * format_string, the general label, the numbered label with the section's
   * number, or the dates through userdate.
   */
  function RenderText(loc: Localiser, t: TitleText): (s: string)
    ensures t.CustomName? ==> s == loc.formatString(t.name)
    ensures t.GeneralName? ==> s == loc.section0Name
    ensures t.NumberedName? ==> loc.sectionName + " " <= s
    ensures t.NumberedName? && t.number >= 0 ==>
              |s| > |loc.sectionName| + 1 && DigitsValue(s[|loc.sectionName| + 1..]) == t.number &&
              (forall i :: |loc.sectionName| + 1 <= i < |s| ==> '0' <= s[i] <= '9') &&
              (s[|loc.sectionName| + 1] == '0' <==> t.number == 0) &&
              (|s| > |loc.sectionName| + 2 ==> s[|loc.sectionName| + 1] != '0')
    ensures t.DatedName? && t.dates.OneDate? ==> s == loc.userDate(t.dates.day)
    ensures t.DatedName? && t.dates.DateRange? ==>
              s == loc.userDate(t.dates.first) + " - " + loc.userDate(t.dates.last)
  {
    match t
    case CustomName(name) => loc.formatString(name)
    case GeneralName => loc.section0Name
    case NumberedName(n) => loc.sectionName + " " + Decimal(n)
    case DatedName(l) => RenderDates(loc, l)
  }

  /** The title as a string: the suffix " - Toggle" is only ever appended after the text. */
  function RenderTitle(loc: Localiser, t: SectionTitle): (s: string)
    ensures RenderText(loc, t.text) <= s
    ensures t.toggleWord ==> s[|RenderText(loc, t.text)|..] == " - " + loc.toggleWord
    ensures !t.toggleWord ==> s == RenderText(loc, t.text)
  {
    RenderText(loc, t.text) + (if t.toggleWord then " - " + loc.toggleWord else "")
  }

  /**
   * is_section_current. The week layouts (Week, LatestWeekFirst) and the day
   * layout test the clock against the section's own span; every other layout
   * defers to the host's rule, given here as parentCurrent.
   */
  function IsSectionCurrent(structure: int, section: int, course: Course, now: int, parentCurrent: bool): (b: bool)
    ensures (structure == Week || structure == LatestWeekFirst) ==>
              (b <==> section >= 1 && SectionDates(course, section).start <= now < SectionDates(course, section).end)
    ensures structure == Day ==>
              (b <==> section >= 1 && SectionDay(course, section) <= now < SectionDay(course, section) + OneDay)
    ensures structure != Week && structure != LatestWeekFirst && structure != Day ==> (b <==> parentCurrent)
  {
    if structure == Week || structure == LatestWeekFirst then
      if section < 1 then false
      else
        var dates := SectionDates(course, section);
        dates.start <= now && now < dates.end
    else if structure == Day then
      if section < 1 then false
      else
        var day := SectionDay(course, section);
        day <= now && now < day + OneDay
    else
      parentCurrent
  }

  predicate DatedStructure(structure: int)
  {
    structure == Week || structure == LatestWeekFirst || structure == Day
  }

  /** In the dated layouts at most one section is current at any instant. */
  lemma AtMostOneCurrent(structure: int, course: Course, now: int, n: int, m: int, p: bool)
    requires DatedStructure(structure)
    requires IsSectionCurrent(structure, n, course, now, p)
    requires IsSectionCurrent(structure, m, course, now, p)
    ensures n == m
  {
    if structure == Day {
      assert SectionDay(course, n) - SectionDay(course, m) == OneDay * (n - m);
    } else {
      assert SectionDates(course, n).start - SectionDates(course, m).start == OneWeek * (n - m);
    }
  }

  /** The section whose span holds the instant now, counting from the first section's start. */
  function SectionAt(structure: int, course: Course, now: int): (n: int)
    requires now >= course.startDate + DstGuard
    ensures n >= 1
  {
    var span := if structure == Day then OneDay else OneWeek;
    (now - (course.startDate + DstGuard)) / span + 1
  }

  /** In the dated layouts every instant from the first section's start on lies in a current section. */
  lemma SomeSectionCurrent(structure: int, course: Course, now: int, p: bool)
    requires DatedStructure(structure)
    requires now >= course.startDate + DstGuard
    ensures IsSectionCurrent(structure, SectionAt(structure, course, now), course, now, p)
  {
    var base := course.startDate + DstGuard;
    var n := SectionAt(structure, course, now);
    var span := if structure == Day then OneDay else OneWeek;
    var q := (now - base) / span;
    assert span * q <= now - base < span * q + span;
  }

  /** The instant a week section ends it is no longer current, although its last displayed day still is. */
  lemma WeekEndExclusive(structure: int, course: Course, section: int, p: bool)
    requires structure == Week || structure == LatestWeekFirst
    requires section >= 1
    ensures !IsSectionCurrent(structure, section, course, SectionDates(course, section).end, p)
    ensures SectionDateLabel(section, course, structure).DateRange?
    ensures IsSectionCurrent(structure, section, course, SectionDateLabel(section, course, structure).last, p)
  {
  }

  /** The outcome of get_view_url. */
  datatype ViewUrl =
    | CoursePage               // no section given: the plain course view
    | SectionPage(section: int)   // the section parameter is set
    | SectionAnchor(section: int) // the anchor section-n is set
    | NoUrl                    // null

  /**
   * get_view_url for a section number (None when it is omitted), the 'sr'
   * option (None when absent), and whether the 'navigation' option is set.
   */
  function GetViewUrl(course: Course, section: Option<int>, sr: Option<int>, navigation: bool): (u: ViewUrl)
    ensures section.None? <==> u == CoursePage
    ensures section.Some? && sr.Some? && sr.value != 0 ==> u == SectionPage(sr.value)
    ensures sr.Some? && sr.value == 0 ==> !u.SectionPage?
    ensures section.Some? && sr.None? && section.value != 0 && course.courseDisplay == MultiPage
            ==> u == SectionPage(section.value)
    ensures u.SectionPage? ==> u.section != 0
    ensures u == NoUrl ==> navigation
    ensures section.Some? && !navigation && !u.SectionPage? ==> u.SectionAnchor?
    ensures u.SectionAnchor? ==> section.Some? && u.section == section.value && !navigation
    ensures u.SectionPage? <==>
              section.Some? &&
              (if sr.Some? then sr.value != 0 else section.value != 0 && course.courseDisplay == MultiPage)
  {
    if section.None? then CoursePage
    else
      var sectionNo := if sr.Some? && sr.value != 0 then sr.value else section.value;
      var display :=
        if sr.Some? then (if sr.value != 0 then MultiPage else SinglePage)
        else course.courseDisplay;
      if sectionNo != 0 && display == MultiPage then SectionPage(sectionNo)
      else if navigation then NoUrl
      else SectionAnchor(sectionNo)
  }
}
