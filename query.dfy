/**
 * The branch filter sent with the branch-builds request: the `BRANCHES`
 * setting split on commas, then either one `branch=` parameter or one
 * `branch[]=` parameter per branch (an "any of these" filter).
 */
module Query {
  import opened Common

  /** `ENV['BRANCHES'].split(',')`. */
  function BranchList(setting: string): (branches: seq<string>)
    ensures forall i :: 0 <= i < |branches| ==> ',' !in branches[i]
  {
    Split(setting, ',')
  }

  /**
   * The query string of `branch_builds`: the list form when the setting names
   * more than one branch, otherwise `branch=` followed by the single branch,
   * or by nothing when `branches.first` is `nil`.
   */
  function BranchQuery(branches: seq<string>): (query: string)
    ensures (|branches| > 1) <==> "branch[]=" <= query
    ensures |branches| <= 1 ==> "branch=" <= query
  {
    if |branches| > 1 then "branch[]=" + Join(branches, "&branch[]=")
    else
      var query := "branch=" + Interpolate(if |branches| == 1 then Some(branches[0]) else None);
      assert query[6] == '=';
      query
  }

  /** One `branch[]=<name>` parameter per branch, in the given order. */
  function ListParams(branches: seq<string>): (params: seq<string>)
    ensures |params| == |branches|
  {
    seq(|branches|, i requires 0 <= i < |branches| => "branch[]=" + branches[i])
  }

  /** The list form is the `&`-joined sequence of `branch[]=` parameters. */
  lemma {:induction false} ListFormIsParams(branches: seq<string>)
    requires |branches| >= 1
    ensures "branch[]=" + Join(branches, "&branch[]=") == Join(ListParams(branches), "&")
  {
    if |branches| > 1 {
      ListFormIsParams(branches[1..]);
      assert ListParams(branches)[1..] == ListParams(branches[1..]);
      assert "&branch[]=" + Join(branches[1..], "&branch[]=")
          == "&" + ("branch[]=" + Join(branches[1..], "&branch[]="));
    }
  }

  /**
   * The query for the `BRANCHES` setting: the list form, one `branch[]=`
   * parameter per branch in order, exactly when the split gives more than one
   * branch; a single branch gives `branch=<name>`.
   */
  lemma QueryForSetting(setting: string)
    ensures |BranchList(setting)| > 1 ==>
      BranchQuery(BranchList(setting)) == Join(ListParams(BranchList(setting)), "&")
    ensures |BranchList(setting)| == 1 ==>
      BranchQuery(BranchList(setting)) == "branch=" + BranchList(setting)[0]
    ensures |BranchList(setting)| == 0 ==> BranchQuery(BranchList(setting)) == "branch="
  {
    if |BranchList(setting)| > 1 {
      ListFormIsParams(BranchList(setting));
    }
  }

  /**
   * Reading the list form back: splitting it on `&` gives one parameter per
   * branch, in order, provided no branch name holds an `&`.
   */
  lemma {:induction false} ListFormParamsRecovered(branches: seq<string>)
    requires |branches| > 1
    requires forall i :: 0 <= i < |branches| ==> '&' !in branches[i]
    ensures Fields(BranchQuery(branches), '&') == ListParams(branches)
  {
    ListFormIsParams(branches);
    forall i | 0 <= i < |branches| ensures '&' !in ListParams(branches)[i] {
      assert ListParams(branches)[i] == "branch[]=" + branches[i];
    }
    FieldsJoin(ListParams(branches), '&');
  }

  /** The `BRANCHES` value the plugin ships with. */
  const DefaultBranchesSetting: string := "develop,main"

  /** The script's default setting `develop,main` names the two branches, in order. */
  lemma DefaultSettingBranches()
    ensures BranchList(DefaultBranchesSetting) == ["develop", "main"]
  {
    var branches := ["develop", "main"];
    assert ',' !in branches[0] && ',' !in branches[1];
    JoinOfTwo("develop", "main", [',']);
    assert Join(branches, [',']) == DefaultBranchesSetting;
    SplitJoin(branches, ',');
  }

  /** The default setting asks for builds on either branch, with the list form of the query. */
  lemma DefaultSettingQuery()
    ensures BranchQuery(BranchList(DefaultBranchesSetting)) == "branch[]=develop&branch[]=main"
  {
    DefaultSettingBranches();
    QueryOfTwo("develop", "main");
    DefaultQueryText();
  }

  /** The default query, assembled from its parts. */
  lemma DefaultQueryText()
    ensures "branch[]=" + "develop" + "&branch[]=" + "main" == "branch[]=develop&branch[]=main"
  {
  }

  /** Two branches give the list form with one parameter each. */
  lemma QueryOfTwo(a: string, b: string)
    ensures BranchQuery([a, b]) == "branch[]=" + a + "&branch[]=" + b
  {
    JoinOfTwo(a, b, "&branch[]=");
  }
}
