/**
 * The build normaliser `parse_build` and the two line renderers
 * `to_header_string` and `to_menu_string`.
 *
 * A build is a JSON object; it is modelled as a map from key to value, where
 * a key that is present with a JSON `null` maps to `None` and a key that is
 * absent is not in the map. Ruby's `hash[key]` gives `nil` in both cases.
 */
module Build {
  import opened Common

  type Record = map<string, Option<string>>

  /** `record[key]`: the value at `key`, or `nil` when the key is absent. */
  function Get(record: Record, key: string): Option<string>
  {
    if key in record then record[key] else None
  }

  /** The keys `parse_build` keeps from a build record. */
  const AllowedKeys: set<string> :=
    {"id", "web_url", "url", "number", "state", "message", "branch", "created_at", "finished_at"}

  /** The states the two lookup tables know. */
  const KnownStates: set<string> :=
    {"scheduled", "running", "passed", "failed", "cancelled", "skipped"}

  /** The SF Symbol names shown for each state. */
  const StatusIcons: map<string, string> := map[
    "scheduled" := "clock.fill",
    "running" := "arrow.triangle.2.circlepath",
    "passed" := "checkmark.circle.fill",
    "failed" := "xmark.octogon.fill",
    "cancelled" := "minus.circle.fill",
    "skipped" := "forward.end.alt"
  ]

  /** The colours shown for each state (a light and a dark variant where there are two). */
  const StatusColors: map<string, string> := map[
    "scheduled" := "#000000,#ffffff",
    "running" := "#0969da",
    "passed" := "#1a7f37",
    "failed" := "#cf222e",
    "cancelled" := "#bf8700",
    "skipped" := "#000000,#ffffff"
  ]

  /** `status_icon_lookup[state]`: `nil` for a missing state or one the table lacks. */
  function StatusIcon(state: Option<string>): (icon: Option<string>)
    ensures icon.Some? <==> state.Some? && state.value in KnownStates
    ensures icon.Some? ==> icon.value == StatusIcons[state.value]
  {
    if state.Some? && state.value in StatusIcons then Some(StatusIcons[state.value]) else None
  }

  /** `status_color_lookup[state]`: `nil` for a missing state or one the table lacks. */
  function StatusColor(state: Option<string>): (color: Option<string>)
    ensures color.Some? <==> state.Some? && state.value in KnownStates
    ensures color.Some? ==> color.value == StatusColors[state.value]
  {
    if state.Some? && state.value in StatusColors then Some(StatusColors[state.value]) else None
  }

  /**
   * `parse_build`: keep the allow-listed keys (`Hash#slice`), then add
   * `status_icon` and `status_color` looked up by the build's state (`Hash#merge`).
   */
  function ParseBuild(build: Record): (parsed: Record)
    ensures parsed.Keys == (build.Keys * AllowedKeys) + {"status_icon", "status_color"}
    ensures forall k :: k in build && k in AllowedKeys ==> parsed[k] == build[k]
    ensures parsed["status_icon"] == StatusIcon(Get(build, "state"))
    ensures parsed["status_color"] == StatusColor(Get(build, "state"))
  {
    var slice := map k | k in build && k in AllowedKeys :: build[k];
    slice["status_icon" := StatusIcon(Get(slice, "state"))]["status_color" := StatusColor(Get(slice, "state"))]
  }

  /** How much of the message the header line shows. */
  const HeaderWidth: nat := 30

  /**
   * `to_header_string`: the first 30 characters of the message, `|`, the icon
   * and the colour, joined by spaces. A `nil` message has no `[]` method, so
   * the script stops there: `None`.
   */
  function HeaderLine(build: Record): (header: Option<string>)
    ensures header.Some? <==> Get(build, "message").Some?
    ensures header.Some? ==> Take(Get(build, "message").value, HeaderWidth) <= header.value
  {
    match Get(build, "message")
    case None => None
    case Some(message) =>
      Some(Join([
        Take(message, HeaderWidth),
        "|",
        "sfimage=" + Interpolate(Get(build, "status_icon")),
        "sfcolor=" + Interpolate(Get(build, "status_color"))
      ], " "))
  }

  /**
   * `to_menu_string`: the whole message, `|`, the icon, the colour and the link,
   * joined by spaces; `Array#join` renders a `nil` message as the empty string.
   */
  function MenuLine(build: Record): (line: string)
    ensures Interpolate(Get(build, "message")) <= line
  {
    Join([
      Interpolate(Get(build, "message")),
      "|",
      "sfimage=" + Interpolate(Get(build, "status_icon")),
      "sfcolor=" + Interpolate(Get(build, "status_color")),
      "href=" + Interpolate(Get(build, "web_url"))
    ], " ")
  }

  /** The icon and the colour tables cover the same states, so both are `nil` or neither is. */
  lemma StatusTablesAgree(state: Option<string>)
    ensures StatusIcon(state).Some? <==> StatusColor(state).Some?
    ensures state == Some("canceled") ==> StatusIcon(state) == None && StatusColor(state) == None
  {
  }

  /** Each known state gets its own icon and colour. */
  lemma StatusTable()
    ensures StatusIcon(Some("scheduled")) == Some("clock.fill")
         && StatusColor(Some("scheduled")) == Some("#000000,#ffffff")
    ensures StatusIcon(Some("running")) == Some("arrow.triangle.2.circlepath")
         && StatusColor(Some("running")) == Some("#0969da")
    ensures StatusIcon(Some("passed")) == Some("checkmark.circle.fill")
         && StatusColor(Some("passed")) == Some("#1a7f37")
    ensures StatusIcon(Some("failed")) == Some("xmark.octogon.fill")
         && StatusColor(Some("failed")) == Some("#cf222e")
    ensures StatusIcon(Some("cancelled")) == Some("minus.circle.fill")
         && StatusColor(Some("cancelled")) == Some("#bf8700")
    ensures StatusIcon(Some("skipped")) == Some("forward.end.alt")
         && StatusColor(Some("skipped")) == Some("#000000,#ffffff")
  {
  }

  /**
   * The header line is the message cut to at most 30 characters, then
   * ` | sfimage=<icon> sfcolor=<colour>`, where a `nil` icon or colour is empty;
   * it exists exactly when the message is not `nil`.
   */
  lemma HeaderLineLayout(build: Record)
    ensures HeaderLine(build).Some? <==> Get(build, "message").Some?
    ensures Get(build, "message").Some? ==>
      var message := Get(build, "message").value;
      HeaderLine(build).value == Take(message, HeaderWidth) + " | sfimage=" + Interpolate(Get(build, "status_icon"))
                                 + " sfcolor=" + Interpolate(Get(build, "status_color"))
  {
    if Get(build, "message").Some? {
      var shown := Take(Get(build, "message").value, HeaderWidth);
      var icon := Interpolate(Get(build, "status_icon"));
      var color := Interpolate(Get(build, "status_color"));
      JoinOfFour(shown, "|", "sfimage=" + icon, "sfcolor=" + color, " ");
      HeaderText(shown, icon, color);
    }
  }

  /** The header's joined parts, with the separators and attribute names merged. */
  lemma HeaderText(shown: string, icon: string, color: string)
    ensures shown + " " + "|" + " " + ("sfimage=" + icon) + " " + ("sfcolor=" + color)
         == shown + " | sfimage=" + icon + " sfcolor=" + color
  {
  }

  /**
   * When the message fits in the header, the menu line is the header line
   * followed by the link: the two renderers agree on order and spelling.
   */
  lemma HeaderIsMenuPrefix(build: Record)
    requires Get(build, "message").Some? && |Get(build, "message").value| <= HeaderWidth
    ensures MenuLine(build) == HeaderLine(build).value + " href=" + Interpolate(Get(build, "web_url"))
  {
    var message := Get(build, "message").value;
    var head := [
      message,
      "|",
      "sfimage=" + Interpolate(Get(build, "status_icon")),
      "sfcolor=" + Interpolate(Get(build, "status_color"))
    ];
    var link := "href=" + Interpolate(Get(build, "web_url"));
    assert Take(message, HeaderWidth) == message;
    JoinSnoc(head, link, " ");
    assert head + [link] == [head[0], head[1], head[2], head[3], link];
  }

  /**
   * The menu line is the whole message, then ` | sfimage=<icon> sfcolor=<colour>
   * href=<web_url>`, where a `nil` value is empty.
   */
  lemma MenuLineLayout(build: Record)
    ensures MenuLine(build) == Interpolate(Get(build, "message")) + " | sfimage=" + Interpolate(Get(build, "status_icon"))
                               + " sfcolor=" + Interpolate(Get(build, "status_color"))
                               + " href=" + Interpolate(Get(build, "web_url"))
  {
    var message := Interpolate(Get(build, "message"));
    var icon := Interpolate(Get(build, "status_icon"));
    var color := Interpolate(Get(build, "status_color"));
    var link := "href=" + Interpolate(Get(build, "web_url"));
    var head := [message, "|", "sfimage=" + icon, "sfcolor=" + color];
    JoinOfFour(message, "|", "sfimage=" + icon, "sfcolor=" + color, " ");
    HeaderText(message, icon, color);
    JoinSnoc(head, link, " ");
    assert head + [link] == [head[0], head[1], head[2], head[3], link];
  }

  /** `Join` of four parts, written out. */
  lemma JoinOfFour(a: string, b: string, c: string, d: string, sep: string)
    ensures Join([a, b, c, d], sep) == a + sep + b + sep + c + sep + d
  {
    JoinSnoc([a], b, sep);
    assert [a] + [b] == [a, b];
    JoinSnoc([a, b], c, sep);
    assert [a, b] + [c] == [a, b, c];
    JoinSnoc([a, b, c], d, sep);
    assert [a, b, c] + [d] == [a, b, c, d];
  }

  /**
   * A menu line has exactly five space-separated fields, in the order message,
   * `|`, `sfimage=`, `sfcolor=`, `href=`, whenever none of the values holds a space.
   */
  lemma {:induction false} MenuLineFields(build: Record)
    requires ' ' !in Interpolate(Get(build, "message"))
    requires ' ' !in Interpolate(Get(build, "status_icon"))
    requires ' ' !in Interpolate(Get(build, "status_color"))
    requires ' ' !in Interpolate(Get(build, "web_url"))
    ensures Fields(MenuLine(build), ' ') == [
      Interpolate(Get(build, "message")),
      "|",
      "sfimage=" + Interpolate(Get(build, "status_icon")),
      "sfcolor=" + Interpolate(Get(build, "status_color")),
      "href=" + Interpolate(Get(build, "web_url"))
    ]
  {
    var parts := [
      Interpolate(Get(build, "message")),
      "|",
      "sfimage=" + Interpolate(Get(build, "status_icon")),
      "sfcolor=" + Interpolate(Get(build, "status_color")),
      "href=" + Interpolate(Get(build, "web_url"))
    ];
    assert ' ' !in "sfimage=" && ' ' !in "sfcolor=" && ' ' !in "href=";
    FieldsJoin(parts, ' ');
  }
}
