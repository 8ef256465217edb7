/**
 * The static per-kind tables of the visualiser: the sidebar's display names,
 * the event descriptions, the date-bearing field of each kind and the y-axis
 * labels, each read with the fallback the script uses for a kind it lacks.
 * A kind is the DONKI endpoint name ("CME", ..., "notifications").
 */
module EventKinds {
  import opened Common

  /** The nine endpoints the sidebar offers. */
  const KINDS: set<string> := {"CME", "GST", "FLR", "SEP", "IPS", "RBE", "MPC", "HSS", "notifications"}

  /** Sidebar label to endpoint. */
  const EVENT_TYPES: map<string, string> := map[
    "CME (Coronal Mass Ejection)" := "CME",
    "GST (Geomagnetic Storm)" := "GST",
    "FLR (Solar Flare)" := "FLR",
    "SEP (Solar Energetic Particle)" := "SEP",
    "IPS (Interplanetary Shock)" := "IPS",
    "RBE (Radiation Belt Enhancement)" := "RBE",
    "MPC (Magnetopause Crossing)" := "MPC",
    "HSS (High Speed Stream)" := "HSS",
    "Notifications" := "notifications"
  ]

  const DESCRIPTIONS: map<string, string> := map[
    "CME" := "Coronal Mass Ejection (CME): A massive burst of solar wind and magnetic fields rising above the solar corona.",
    "GST" := "Geomagnetic Storm (GST): Disturbances in Earth's magnetosphere caused by solar wind shocks.",
    "FLR" := "Solar Flare (FLR): A sudden flash of increased brightness on the Sun, usually observed near its surface.",
    "SEP" := "Solar Energetic Particle (SEP): High-energy particles emitted by the Sun, often associated with solar flares and CMEs.",
    "IPS" := "Interplanetary Shock (IPS): Shock waves traveling through space, often caused by CMEs or solar wind variations.",
    "RBE" := "Radiation Belt Enhancement (RBE): An increase in the density of charged particles in Earth's radiation belts.",
    "MPC" := "Magnetopause Crossing (MPC): When solar wind plasma crosses Earth's magnetopause, the boundary of the magnetosphere.",
    "HSS" := "High Speed Stream (HSS): Streams of fast-moving solar wind emanating from coronal holes on the Sun.",
    "notifications" := "Notifications: General alerts and updates related to various space weather events."
  ]

  const DATE_FIELDS: map<string, string> := map[
    "CME" := "startTime",
    "GST" := "startTime",
    "FLR" := "beginTime",
    "SEP" := "eventTime",
    "IPS" := "eventTime",
    "RBE" := "eventTime",
    "MPC" := "eventTime",
    "HSS" := "eventTime",
    "notifications" := "messageIssueTime"
  ]

  const Y_LABELS: map<string, string> := map[
    "CME" := "Number of CMEs",
    "GST" := "Average Kp Index",
    "FLR" := "Number of Solar Flares",
    "SEP" := "Number of Solar Energetic Particles",
    "IPS" := "Number of Interplanetary Shocks",
    "RBE" := "Number of Radiation Belt Enhancements",
    "MPC" := "Number of Magnetopause Crossings",
    "HSS" := "Number of High Speed Streams",
    "notifications" := "Number of Notifications"
  ]

  const NO_DESCRIPTION := "No description available."
  const DEFAULT_Y_LABEL := "Count"

  /** `event_descriptions.get(kind, "No description available.")`. */
  function Description(kind: string): (d: string)
    ensures d == NO_DESCRIPTION <==> kind !in KINDS
    ensures kind in KINDS ==> d == DESCRIPTIONS[kind]
  {
    if kind in DESCRIPTIONS then DESCRIPTIONS[kind] else NO_DESCRIPTION
  }

  /** `date_field_mapping.get(kind, None)`: the table has no default. */
  function DateField(kind: string): (f: Option<string>)
    ensures f.Some? <==> kind in KINDS
    ensures f.Some? ==> f.value != "" && f.value == DATE_FIELDS[kind]
  {
    if kind in DATE_FIELDS then Some(DATE_FIELDS[kind]) else None
  }

  /** `y_label_mapping.get(kind, "Count")`. */
  function YLabel(kind: string): (l: string)
    ensures l == DEFAULT_Y_LABEL <==> kind !in KINDS
    ensures kind in KINDS ==> l == Y_LABELS[kind]
  {
    if kind in Y_LABELS then Y_LABELS[kind] else DEFAULT_Y_LABEL
  }

  datatype ChartStyle = Line | Bar

  /** `px.line` for CME and GST, `px.bar` for every other kind. */
  function ChartStyleFor(kind: string): (s: ChartStyle)
    ensures s == Line <==> kind == "CME" || kind == "GST"
  {
    if kind == "CME" || kind == "GST" then Line else Bar
  }

  /** Every sidebar entry selects one of the nine kinds, and each kind is offered exactly once. */
  lemma EventTypesCoverKinds()
    ensures EVENT_TYPES.Values == KINDS
    ensures forall a, b :: a in EVENT_TYPES && b in EVENT_TYPES && a != b ==> EVENT_TYPES[a] != EVENT_TYPES[b]
  {
    assert EVENT_TYPES["CME (Coronal Mass Ejection)"] == "CME";
    assert EVENT_TYPES["GST (Geomagnetic Storm)"] == "GST";
    assert EVENT_TYPES["FLR (Solar Flare)"] == "FLR";
    assert EVENT_TYPES["SEP (Solar Energetic Particle)"] == "SEP";
    assert EVENT_TYPES["IPS (Interplanetary Shock)"] == "IPS";
    assert EVENT_TYPES["RBE (Radiation Belt Enhancement)"] == "RBE";
    assert EVENT_TYPES["MPC (Magnetopause Crossing)"] == "MPC";
    assert EVENT_TYPES["HSS (High Speed Stream)"] == "HSS";
    assert EVENT_TYPES["Notifications"] == "notifications";
  }

  /** Each of the nine kinds has an entry in all three tables, so none of the fallbacks applies to it. */
  lemma KnownKindsAreMapped(kind: string)
    requires kind in KINDS
    ensures Description(kind) == DESCRIPTIONS[kind] && Description(kind) != NO_DESCRIPTION
    ensures DateField(kind) == Some(DATE_FIELDS[kind]) && DATE_FIELDS[kind] != ""
    ensures YLabel(kind) == Y_LABELS[kind] && YLabel(kind) != DEFAULT_Y_LABEL
  {
  }

  /** A kind outside the tables gets the fallback description, the "Count" label and no date field. */
  lemma UnknownKindsFallBack(kind: string)
    requires kind !in KINDS
    ensures Description(kind) == "No description available."
    ensures YLabel(kind) == "Count"
    ensures DateField(kind) == None
  {
  }
}
