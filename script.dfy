/**
 * The top level of the status script: the placeholder guard on the settings,
 * the two build lists, and the lines it prints, in order.
 *
 * The settings come in as a value instead of being read from the process
 * environment; the two API responses come in as parameters (the branch-builds
 * response as a function of the query string the script would send); the
 * printed lines come out as a sequence, one element per `puts`.
 */
module Script {
  import opened Common
  import opened Build
  import opened Query
  import opened Grouping

  /** `ORG_NAME`, `API_TOKEN`, `BRANCHES` and `BUILD_COUNT`. */
  datatype Settings = Settings(orgName: string, apiToken: string, branches: string, buildCount: nat)

  /**
   * How the script stops without finishing: `EnvironmentError` is raised on
   * placeholder settings; `NoMethodError` is Ruby's error for calling a method
   * on `nil` (no first personal build, or a first build without a message).
   */
  datatype Error = EnvironmentError | NoMethodError

  const PlaceholderOrg := "default_org"
  const PlaceholderToken := "default_token"
  const Divider := "---"
  const SubmenuMarker := "-- "

  /** The settings still hold the values the plugin ships with. */
  predicate IsPlaceholder(settings: Settings)
  {
    settings.orgName == PlaceholderOrg || settings.apiToken == PlaceholderToken
  }

  /** `.map { |b| parse_build(b) }`. */
  function ParseAll(builds: seq<Record>): (parsed: seq<Record>)
    ensures |parsed| == |builds|
  {
    seq(|builds|, i requires 0 <= i < |builds| => ParseBuild(builds[i]))
  }

  /** One menu line per build, in order. */
  function MenuLines(builds: seq<Record>): (lines: seq<string>)
    ensures |lines| == |builds|
  {
    seq(|builds|, i requires 0 <= i < |builds| => MenuLine(builds[i]))
  }

  /** One submenu line (`-- ` then the menu line) per build, in order. */
  function SubmenuLines(builds: seq<Record>): (lines: seq<string>)
    ensures |lines| == |builds|
  {
    seq(|builds|, i requires 0 <= i < |builds| => SubmenuMarker + MenuLine(builds[i]))
  }

  /** `puts branch_name`: `puts nil` prints an empty line. */
  function Label(branch: Option<string>): string
  {
    Interpolate(branch)
  }

  /** The lines printed for one group: its branch, then at most `count` of its builds. */
  function Section(group: Group, count: nat): seq<string>
  {
    [Label(group.branch)] + SubmenuLines(Take(group.builds, count))
  }

  /** The lines printed for the groups, group after group. */
  function Sections(groups: seq<Group>, count: nat): seq<string>
  {
    if groups == [] then []
    else Sections(groups[..|groups| - 1], count) + Section(groups[|groups| - 1], count)
  }

  /** How many lines `Sections` prints: per group, the label and at most `count` builds. */
  function SectionsLength(groups: seq<Group>, count: nat): nat
  {
    if groups == [] then 0
    else
      var builds := |groups[|groups| - 1].builds|;
      SectionsLength(groups[..|groups| - 1], count) + 1 + (if count < builds then count else builds)
  }

  /** The lines before the branch groups: the header, a divider, at most `count` personal builds, a divider. */
  function Preamble(header: string, myBuilds: seq<Record>, count: nat): seq<string>
  {
    [header, Divider] + MenuLines(Take(myBuilds, count)) + [Divider]
  }

  /** Everything printed after a successful start: the preamble, then the branch groups. */
  function Lines(header: string, myBuilds: seq<Record>, groups: seq<Group>, count: nat): seq<string>
  {
    Preamble(header, myBuilds, count) + Sections(groups, count)
  }

  /** The whole script, from settings and API responses to the printed lines or the error. */
  function Run(settings: Settings, userBuilds: seq<Record>, branchBuilds: string -> seq<Record>)
    : (result: Result<seq<string>, Error>)
    ensures result == Failure(EnvironmentError) <==> IsPlaceholder(settings)
  {
    if IsPlaceholder(settings) then Failure(EnvironmentError)
    else
      var myBuilds := ParseAll(userBuilds);
      var groups := GroupBy(ParseAll(branchBuilds(BranchQuery(BranchList(settings.branches)))));
      if |myBuilds| == 0 then Failure(NoMethodError)
      else
        match HeaderLine(myBuilds[0])
        case None => Failure(NoMethodError)
        case Some(header) => Success(Lines(header, myBuilds, groups, settings.buildCount))
  }

  /** Prints the lines, one `puts` at a time, as the script's `.each` loops do. */
  method Emit(header: string, myBuilds: seq<Record>, groups: seq<Group>, count: nat)
    returns (out: seq<string>)
    ensures out == Lines(header, myBuilds, groups, count)
  {
    out := EmitMenu([header, Divider], Take(myBuilds, count));
    out := out + [Divider];
    out := EmitSections(out, groups, count);
  }

  /** Prints the branch groups, group after group. */
  method EmitSections(before: seq<string>, groups: seq<Group>, count: nat) returns (out: seq<string>)
    ensures out == before + Sections(groups, count)
  {
    out := before;
    var g := 0;
    while g < |groups|
      invariant 0 <= g <= |groups|
      invariant out == before + Sections(groups[..g], count)
    {
      SectionsStep(groups, count, g);
      AppendAssoc(before, Sections(groups[..g], count), Section(groups[g], count));
      out := EmitSection(out, groups[g], count);
      g := g + 1;
    }
    assert groups[..g] == groups;
  }

  /** Prints the personal builds shown, one menu line each. */
  method EmitMenu(before: seq<string>, builds: seq<Record>) returns (out: seq<string>)
    ensures out == before + MenuLines(builds)
  {
    out := before;
    var i := 0;
    while i < |builds|
      invariant 0 <= i <= |builds|
      invariant out == before + MenuLines(builds[..i])
    {
      MenuLinesStep(builds, i);
      AppendAssoc(before, MenuLines(builds[..i]), [MenuLine(builds[i])]);
      out := out + [MenuLine(builds[i])];
      i := i + 1;
    }
    assert builds[..i] == builds;
  }

  /** The menu lines of the first `i + 1` builds extend those of the first `i` by build `i`'s line. */
  lemma MenuLinesStep(builds: seq<Record>, i: nat)
    requires i < |builds|
    ensures MenuLines(builds[..i + 1]) == MenuLines(builds[..i]) + [MenuLine(builds[i])]
  {
  }

  /** The submenu lines of the first `j + 1` builds extend those of the first `j` by build `j`'s line. */
  lemma SubmenuLinesStep(builds: seq<Record>, j: nat)
    requires j < |builds|
    ensures SubmenuLines(builds[..j + 1]) == SubmenuLines(builds[..j]) + [SubmenuMarker + MenuLine(builds[j])]
  {
  }

  /** The sections of the first `g + 1` groups extend those of the first `g` by group `g`'s section. */
  lemma SectionsStep(groups: seq<Group>, count: nat, g: nat)
    requires g < |groups|
    ensures Sections(groups[..g + 1], count) == Sections(groups[..g], count) + Section(groups[g], count)
  {
    assert groups[..g + 1][..g] == groups[..g];
  }

  /** Prints one group: `puts branch_name`, then its first `count` builds as submenu lines. */
  method EmitSection(before: seq<string>, group: Group, count: nat) returns (out: seq<string>)
    ensures out == before + Section(group, count)
  {
    out := before + [Label(group.branch)];
    ghost var labelled := out;
    var shown := Take(group.builds, count);
    var j := 0;
    while j < |shown|
      invariant 0 <= j <= |shown|
      invariant out == labelled + SubmenuLines(shown[..j])
    {
      SubmenuLinesStep(shown, j);
      AppendAssoc(labelled, SubmenuLines(shown[..j]), [SubmenuMarker + MenuLine(shown[j])]);
      out := out + [SubmenuMarker + MenuLine(shown[j])];
      j := j + 1;
    }
    assert shown[..j] == shown;
    AppendAssoc(before, [Label(group.branch)], SubmenuLines(shown));
  }

  /** The script as a sequence of steps: the guard, the two requests, the header, the loops. */
  method Execute(settings: Settings, userBuilds: seq<Record>, branchBuilds: string -> seq<Record>)
    returns (result: Result<seq<string>, Error>)
    ensures result == Run(settings, userBuilds, branchBuilds)
  {
    if IsPlaceholder(settings) {
      return Failure(EnvironmentError);
    }
    var myBuilds := ParseAll(userBuilds);
    var branches := BranchList(settings.branches);
    var response := branchBuilds(BranchQuery(branches));
    var groups := GroupBy(ParseAll(response));
    if |myBuilds| == 0 {
      return Failure(NoMethodError);
    }
    var header := HeaderLine(myBuilds[0]);
    if header.None? {
      return Failure(NoMethodError);
    }
    var out := Emit(header.value, myBuilds, groups, settings.buildCount);
    result := Success(out);
  }

  /**
   * Placeholder settings stop the script before any request: the outcome is
   * `EnvironmentError` whatever the API would have answered, and no other
   * settings lead to it.
   */
  lemma PlaceholderGuard(settings: Settings, userBuilds: seq<Record>, branchBuilds: string -> seq<Record>,
                         otherUserBuilds: seq<Record>, otherBranchBuilds: string -> seq<Record>)
    ensures IsPlaceholder(settings) ==>
      Run(settings, userBuilds, branchBuilds) == Failure(EnvironmentError)
      && Run(settings, otherUserBuilds, otherBranchBuilds) == Failure(EnvironmentError)
    ensures Run(settings, userBuilds, branchBuilds) == Failure(EnvironmentError) ==> IsPlaceholder(settings)
  {
  }

  /**
   * The script prints its lines exactly when the settings are real, there is a
   * personal build and the newest one has a message.
   */
  lemma RunSucceeds(settings: Settings, userBuilds: seq<Record>, branchBuilds: string -> seq<Record>)
    ensures Run(settings, userBuilds, branchBuilds).Success? <==>
      !IsPlaceholder(settings) && |userBuilds| > 0 && Get(userBuilds[0], "message").Some?
  {
    if !IsPlaceholder(settings) && |userBuilds| > 0 {
      var first := ParseBuild(userBuilds[0]);
      assert ParseAll(userBuilds)[0] == first;
      assert "message" in AllowedKeys;
      assert Get(first, "message") == Get(userBuilds[0], "message");
    }
  }

  /** `SectionsLength` counts the lines of `Sections`. */
  lemma {:induction false} SectionsHaveLength(groups: seq<Group>, count: nat)
    ensures |Sections(groups, count)| == SectionsLength(groups, count)
  {
    if groups != [] {
      SectionsHaveLength(groups[..|groups| - 1], count);
    }
  }

  /**
   * The layout of the output: header, divider, the first `min(count, |myBuilds|)`
   * personal builds in order, divider, then the group sections, which take
   * one label line and at most `count` lines per group.
   */
  lemma OutputLayout(header: string, myBuilds: seq<Record>, groups: seq<Group>, count: nat)
    ensures var shown := if count < |myBuilds| then count else |myBuilds|;
      var out := Lines(header, myBuilds, groups, count);
      && |out| == 3 + shown + SectionsLength(groups, count)
      && out[0] == header
      && out[1] == Divider
      && (forall i :: 0 <= i < shown ==> out[2 + i] == MenuLine(myBuilds[i]))
      && out[2 + shown] == Divider
      && out[3 + shown..] == Sections(groups, count)
  {
    SectionsHaveLength(groups, count);
  }

  /**
   * Group `g`'s section follows the sections of the groups before it: its label,
   * then at most `count` of its builds as submenu lines, in order.
   */
  lemma {:induction false} SectionInPlace(groups: seq<Group>, count: nat, g: nat)
    requires g < |groups|
    ensures Sections(groups[..g], count) + Section(groups[g], count) <= Sections(groups, count)
  {
    var n := |groups|;
    if g < n - 1 {
      var init := groups[..n - 1];
      SectionInPlace(init, count, g);
      assert init[..g] == groups[..g] && init[g] == groups[g];
    } else {
      assert groups[..g] == groups[..n - 1];
    }
  }

  /**
   * On success the output is the layout above for the newest personal build's
   * header and for the branch builds grouped by branch in first-seen order,
   * each group holding its builds in response order.
   */
  lemma RunOutput(settings: Settings, userBuilds: seq<Record>, branchBuilds: string -> seq<Record>)
    requires Run(settings, userBuilds, branchBuilds).Success?
    ensures var response := branchBuilds(BranchQuery(BranchList(settings.branches)));
      |userBuilds| > 0
      && HeaderLine(ParseBuild(userBuilds[0])).Some?
      && Run(settings, userBuilds, branchBuilds).value
         == Lines(HeaderLine(ParseBuild(userBuilds[0])).value, ParseAll(userBuilds),
                  ReferenceGroups(ParseAll(response)), settings.buildCount)
  {
    var response := branchBuilds(BranchQuery(BranchList(settings.branches)));
    GroupByIsReference(ParseAll(response));
  }
}
