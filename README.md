# Buildkite status menu-bar plugin, modelled in Dafny

`buildkite_status.30s.rb` is a SwiftBar/BitBar plugin. On every run it checks its
settings, asks the Buildkite REST API for the current user's builds and for the
builds on the configured branches, and prints a small menu: a header line for the
newest personal build, a divider, the first `BUILD_COUNT` personal builds, a divider,
and then, per branch, the branch name followed by that branch's first `BUILD_COUNT`
builds as submenu lines.

This project models the data handling of that script and proves what it promises:

- `common.dfy` (module `Common`): `nil`-able values, `Array#join`, `String#split`
  with a one-character separator other than a space, as in `split(',')` (trailing
  empty fields dropped), and the prefix slice `a[0, n]`, with the split/join round
  trips.
- `build.dfy` (module `Build`): a build record as a map from key to an optional
  string; `parse_build` (allow-list projection plus the icon and colour looked up by
  state); `to_header_string` and `to_menu_string`.
- `query.dfy` (module `Query`): splitting `BRANCHES` on commas and the query string
  of `branch_builds` (`branch=<b>` or one `branch[]=<b>` per branch).
- `grouping.dfy` (module `Grouping`): Ruby's `group_by` on the branch key, as the
  left-to-right insertion Ruby performs, proved equal to an independent reference
  (one group per distinct branch in first-seen order, each holding exactly the builds
  on its branch in response order) and proved to lose or duplicate no build.
- `script.dfy` (module `Script`): the placeholder guard, the whole run as a function
  from settings and API responses to the printed lines or the error, the `.each`
  printing loops as methods proved to produce exactly those lines, and the layout of
  the output.

The settings are a value (`Settings`) rather than the process environment, the API
responses are parameters (the branch-builds response is a function of the query
string the script builds, so the output depends on the query), and the output is the
sequence of strings passed to `puts`, one element per call.

Two of the script's crashes are modelled as an error result rather than excluded by a
precondition: with no personal builds, `my_builds.first` is `nil` and line 128 calls
a method on it; and a newest build whose message is JSON `null` makes `nil[0, 30]`
fail. Both are `NoMethodError` in the model.

The script does not collapse newlines in messages, accepts only a comma-separated
branch list with no per-pipeline setting, does not clamp or validate the build count,
and has no error type of its own for a failed API request; the model does none of
those either. Its state tables spell one state `cancelled`; a build whose
state is spelled `canceled` gets no icon and no colour, and the model keeps that
(`Build.StatusTablesAgree`).

## Model

| member | source | states |
|---|---|---|
| `Common.Split` | buildkite_status.30s.rb:123 | `String#split(',')`: no field holds the separator and the last field, if any, is not empty |
| `Common.JoinFields` | buildkite_status.30s.rb:123 | the comma-separated fields of the setting, rejoined with commas, give the setting back |
| `Common.SplitJoin` | buildkite_status.30s.rb:123 | splitting a comma-join of comma-free names whose last is not empty gives the names back, in order |
| `Common.JoinSnoc` | buildkite_status.30s.rb:96-101 | `Array#join`: appending a part to a non-empty list appends the separator and then that part (with `JoinFields` and `SplitJoin`, the partner of `String#split`) |
| `Common.Take` | buildkite_status.30s.rb:130 | `a[0, n]` is the prefix of `a` of length min(n, length of `a`), never an error when `n` exceeds the length |
| `Build.StatusIcon` | buildkite_status.30s.rb:71-78 | the icon is present exactly for the six known states (scheduled, running, passed, failed, cancelled, skipped) and is then the table's entry for that state; `nil` for any other or missing state |
| `Build.StatusColor` | buildkite_status.30s.rb:80-87 | the colour is present exactly for the six known states and is then the table's entry for that state; `nil` otherwise |
| `Build.StatusTable` | buildkite_status.30s.rb:71-87 | each of the six states gets its own icon and colour, written out: scheduled `clock.fill` and `#000000,#ffffff`; running `arrow.triangle.2.circlepath` and `#0969da`; passed `checkmark.circle.fill` and `#1a7f37`; failed `xmark.octogon.fill` and `#cf222e`; cancelled `minus.circle.fill` and `#bf8700`; skipped `forward.end.alt` and `#000000,#ffffff` |
| `Build.StatusTablesAgree` | buildkite_status.30s.rb:71-91 | icon and colour are both present or both `nil`; the spelling `canceled` gets neither |
| `Build.ParseBuild` | buildkite_status.30s.rb:68-93 | the keys are exactly the input's allow-listed keys plus `status_icon` and `status_color`; every kept value is unchanged; the two added values are the lookups of the input's state |
| `Build.HeaderLine` | buildkite_status.30s.rb:95-102 | `to_header_string`: there is a line exactly when the message is not `nil` (otherwise `nil[0, 30]` fails), and it starts with the first at most 30 characters of the message; `HeaderLineLayout` writes it out |
| `Build.HeaderLineLayout` | buildkite_status.30s.rb:95-102 | the header line exists exactly when the message is not `nil`, and is the first at most 30 characters of the message, then a space, a bar, and `sfimage=<icon> sfcolor=<colour>` with `nil` shown as empty |
| `Build.MenuLine` | buildkite_status.30s.rb:104-112 | `to_menu_string`: the line starts with the whole message (empty for `nil`); `MenuLineLayout` writes it out |
| `Build.MenuLineLayout` | buildkite_status.30s.rb:104-112 | for every build, the menu line is the whole message, then a space, a bar, and `sfimage=<icon> sfcolor=<colour> href=<web_url>` with `nil` shown as empty |
| `Build.HeaderIsMenuPrefix` | buildkite_status.30s.rb:95-112 | for a message of at most 30 characters the menu line is the header line followed by ` href=<web_url>` |
| `Build.MenuLineFields` | buildkite_status.30s.rb:104-112 | when no value holds a space, a menu line splits on spaces into exactly the message, the bar, `sfimage=`, `sfcolor=`, `href=`, in that order |
| `Query.BranchList` | buildkite_status.30s.rb:123 | no branch name taken from the setting holds a comma |
| `Query.BranchQuery` | buildkite_status.30s.rb:40-44 | the query takes the list form `branch[]=` exactly when it is given more than one branch, and is `branch=` followed by the branch otherwise; `ListFormIsParams` and `QueryForSetting` give it in full |
| `Query.ListFormIsParams` | buildkite_status.30s.rb:40-41 | the list form equals the `&`-join of one `branch[]=<b>` parameter per branch, in order |
| `Query.QueryForSetting` | buildkite_status.30s.rb:40-44 | the list form is used exactly when the split gives more than one branch; one branch gives `branch=<b>`, none gives `branch=` |
| `Query.ListFormParamsRecovered` | buildkite_status.30s.rb:41 | splitting the list-form query on `&` gives back one `branch[]=` parameter per branch, in order, when no name holds `&` |
| `Query.DefaultSettingBranches` | buildkite_status.30s.rb:10 | the shipped setting `develop,main` splits into the branches `develop` and `main`, in that order |
| `Query.DefaultSettingQuery` | buildkite_status.30s.rb:10 | the shipped setting `develop,main` gives the list-form query `branch[]=develop&branch[]=main` |
| `Grouping.Insert` | buildkite_status.30s.rb:126 | adding a build keeps the branch list when its branch already has a group and appends its branch otherwise |
| `Grouping.GroupBy` | buildkite_status.30s.rb:126 | the branches of the groups are exactly the distinct branches of the builds, in first-seen order |
| `Grouping.FirstSeen` | buildkite_status.30s.rb:126 | the group keys are distinct and are exactly the keys that occur |
| `Grouping.FirstSeenOrder` | buildkite_status.30s.rb:126 | the group keys are ordered by their first occurrence in the response |
| `Grouping.GroupByIsReference` | buildkite_status.30s.rb:126 | `group_by` gives one group per distinct branch in first-seen order, each holding exactly the builds on that branch in response order |
| `Grouping.GroupByKeepsEveryBuild` | buildkite_status.30s.rb:126 | the groups together hold every build of the response exactly once |
| `Script.Run` | buildkite_status.30s.rb:116-137 | the run ends with `EnvironmentError` exactly when the settings are placeholders; `RunSucceeds` and `RunOutput` state the rest |
| `Script.PlaceholderGuard` | buildkite_status.30s.rb:116-120 | `default_org` or `default_token` ends the run with `EnvironmentError` whatever the API would answer, and nothing else ends it that way |
| `Script.RunSucceeds` | buildkite_status.30s.rb:116-128 | the run prints its lines exactly when the settings are real, there is a personal build and the newest has a message |
| `Script.RunOutput` | buildkite_status.30s.rb:120-137 | a successful run prints the layout below for the newest personal build's header and the reference grouping of the branch builds |
| `Script.OutputLayout` | buildkite_status.30s.rb:128-137 | header, `---`, the first min(count, number of personal builds) personal menu lines in order, `---`, then the group sections; the line count is 3 plus that minimum plus, per group, one label and min(count, group size) lines |
| `Script.SectionsHaveLength` | buildkite_status.30s.rb:132-136 | the group sections take one label line and at most `count` build lines per group |
| `Script.SectionInPlace` | buildkite_status.30s.rb:132-136 | each group's section (its branch, then its first builds as `-- ` lines in order) follows the sections of the groups before it |
| `Script.Emit` | buildkite_status.30s.rb:128-137 | the printing loops produce exactly the specified lines |
| `Script.EmitMenu` | buildkite_status.30s.rb:130 | the personal-builds loop appends one menu line per build, in order, to what was printed before |
| `Script.EmitSections` | buildkite_status.30s.rb:132-137 | the branch loop appends every group's section, in group order, to what was printed before |
| `Script.EmitSection` | buildkite_status.30s.rb:133-136 | printing one group appends exactly its label and its first `count` builds as submenu lines |
| `Script.Execute` | buildkite_status.30s.rb:116-137 | the script's steps, run in order, give exactly the specified outcome |

## Left out

- The HTTP client `BuildKiteService` (lines 15-66): `Net::HTTP`, URI building, the
  request headers with the bearer token, and `JSON.parse`. They are network I/O and
  library calls; their parsed results are parameters of the model.
- The user lookup and its `@user ||=` memoisation (line 23) and the `creator=` query
  of the personal-builds request (line 31): the personal builds are a parameter.
- Network, HTTP-status and JSON errors, and responses that are not arrays of objects:
  the script does not handle them and the model assumes well-formed responses.
- Reading `ENV` and writing with `puts`: settings are a value and the output is a
  sequence of lines. An unset variable (`nil`) is not modelled; an unset `BRANCHES`
  would crash at `nil.split`.
- The count is a natural number. The script passes `ENV['BUILD_COUNT']`,
  a String, as the slice length at lines 130 and 134, which Ruby rejects with a
  `TypeError`; the model uses the intended `Array#[0, n]` prefix semantics instead of
  that crash.
- JSON values that are not strings (a build's `number`) are represented by their text;
  they are only copied, never rendered.
- The key order of a normalised build hash: nothing in the output depends on it.
- `puts` of a message with embedded newlines prints several terminal lines; the model
  keeps one element per `puts` call.
