/**
 * The option table of the Collapsed Topics course format (the keys and
 * defaults of course_format_options) and the host framework's per-course
 * option storage, seen as an upsert of known keys.
 */
module TopcollOptions {

  /** A stored or submitted option value: PHP null, an integer or a string. */
  datatype Value = Null | Int(n: int) | Text(s: string)

  /** One course's option record, or a submitted form record: key to value. */
  type Options = map<string, Value>

  const NumSections: string := "numsections"
  const HiddenSections: string := "hiddensections"
  const CourseDisplay: string := "coursedisplay"
  const LayoutElement: string := "layoutelement"
  const LayoutStructure: string := "layoutstructure"
  const LayoutColumns: string := "layoutcolumns"
  const LayoutColumnOrientation: string := "layoutcolumnorientation"
  const ToggleAlignment: string := "togglealignment"
  const ToggleIconSet: string := "toggleiconset"
  const ToggleForegroundColour: string := "toggleforegroundcolour"
  const ToggleBackgroundColour: string := "togglebackgroundcolour"
  const ToggleBackgroundHoverColour: string := "togglebackgroundhovercolour"

  /** The option keys in the order course_format_options declares them. */
  const OptionKeys: seq<string> :=
    [NumSections, HiddenSections, CourseDisplay, LayoutElement, LayoutStructure,
     LayoutColumns, LayoutColumnOrientation, ToggleAlignment, ToggleIconSet,
     ToggleForegroundColour, ToggleBackgroundColour, ToggleBackgroundHoverColour]

  const OptionKeySet: set<string> :=
    {NumSections, HiddenSections, CourseDisplay, LayoutElement, LayoutStructure,
     LayoutColumns, LayoutColumnOrientation, ToggleAlignment, ToggleIconSet,
     ToggleForegroundColour, ToggleBackgroundColour, ToggleBackgroundHoverColour}

  /** The keys each reset category covers. */
  const LayoutKeys: set<string> :=
    {CourseDisplay, LayoutElement, LayoutStructure, LayoutColumns, LayoutColumnOrientation}
  const AlignmentKeys: set<string> := {ToggleAlignment}
  const ColourKeys: set<string> :=
    {ToggleForegroundColour, ToggleBackgroundColour, ToggleBackgroundHoverColour}
  const IconSetKeys: set<string> := {ToggleIconSet}

  /**
   * The defaults: numsections and hiddensections come from the site's course
   * configuration, the others from the format's own defaults table.
   */
  datatype SiteConfig = SiteConfig(
    numSections: int,
    hiddenSections: int,
    courseDisplay: int,
    layoutElement: int,
    layoutStructure: int,
    layoutColumns: int,
    layoutColumnOrientation: int,
    toggleAlignment: int,
    toggleIconSet: string,
    foregroundColour: string,
    backgroundColour: string,
    backgroundHoverColour: string)

  /** The 'default' column of course_format_options. */
  function DefaultOptions(cfg: SiteConfig): (d: Options)
    ensures d.Keys == OptionKeySet
  {
    map[NumSections := Int(cfg.numSections),
        HiddenSections := Int(cfg.hiddenSections),
        CourseDisplay := Int(cfg.courseDisplay),
        LayoutElement := Int(cfg.layoutElement),
        LayoutStructure := Int(cfg.layoutStructure),
        LayoutColumns := Int(cfg.layoutColumns),
        LayoutColumnOrientation := Int(cfg.layoutColumnOrientation),
        ToggleAlignment := Int(cfg.toggleAlignment),
        ToggleIconSet := Text(cfg.toggleIconSet),
        ToggleForegroundColour := Text(cfg.foregroundColour),
        ToggleBackgroundColour := Text(cfg.backgroundColour),
        ToggleBackgroundHoverColour := Text(cfg.backgroundHoverColour)]
  }

  /**
   * What the host's get_format_options yields for a course: every option key,
   * with the stored value where there is one and the default otherwise.
   */
  function EffectiveOptions(cfg: SiteConfig, stored: Options): (r: Options)
    ensures r.Keys == OptionKeySet
    ensures forall k :: k in OptionKeySet && k in stored ==> r[k] == stored[k]
    ensures forall k :: k in OptionKeySet && k !in stored ==> r[k] == DefaultOptions(cfg)[k]
  {
    DefaultOptions(cfg) + map k | k in stored && k in OptionKeySet :: stored[k]
  }

  /** The option record stored for a course, empty when it has none. */
  function Stored(options: map<int, Options>, courseId: int): Options
  {
    if courseId in options then options[courseId] else map[]
  }

  /**
   * The host's update_format_options on one course's record: every known
   * option key present in the data is written, every other key of the data
   * is ignored, and stored keys the data does not mention are kept.
   */
  function Upsert(stored: Options, data: Options): (r: Options)
    ensures r.Keys == stored.Keys + (data.Keys * OptionKeySet)
    ensures forall k :: k in data && k in OptionKeySet ==> r[k] == data[k]
    ensures forall k :: k in stored && !(k in data && k in OptionKeySet) ==> r[k] == stored[k]
  {
    stored + map k | k in data && k in OptionKeySet :: data[k]
  }

  /** The host's return value: some known key of the data differs from what is stored. */
  predicate Changes(stored: Options, data: Options)
  {
    exists k :: k in data && k in OptionKeySet && (k !in stored || stored[k] != data[k])
  }

  /** The host reports a change exactly when the upsert alters the stored record. */
  lemma ChangesIffUpsertDiffers(stored: Options, data: Options)
    ensures Changes(stored, data) <==> Upsert(stored, data) != stored
  {
    var r := Upsert(stored, data);
    if Changes(stored, data) {
      var k :| k in data && k in OptionKeySet && (k !in stored || stored[k] != data[k]);
      assert k in r && r[k] == data[k];
    } else {
      forall k | k in r ensures k in stored && r[k] == stored[k] {
        if k in data && k in OptionKeySet {
          assert !(k !in stored || stored[k] != data[k]);
        }
      }
      assert r.Keys == stored.Keys;
    }
  }

  /** Writing the same data twice stores what writing it once does. */
  lemma UpsertIdempotent(stored: Options, data: Options)
    ensures Upsert(Upsert(stored, data), data) == Upsert(stored, data)
  {
  }

  /** An upsert never stores a key outside the option table. */
  lemma UpsertKeepsSchema(stored: Options, data: Options)
    requires stored.Keys <= OptionKeySet
    ensures Upsert(stored, data).Keys <= OptionKeySet
  {
  }
}
