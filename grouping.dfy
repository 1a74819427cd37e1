/**
 * `group_by { |b| b['branch'] }` on the normalised branch builds: an ordered
 * hash from branch to the builds on that branch. Ruby builds it by one pass
 * over the builds, appending each to its branch's group and opening a new
 * group, at the end, for a branch not seen before.
 */
module Grouping {
  import opened Common
  import opened Build

  /** One entry of the grouped hash: a branch (`nil` for builds without one) and its builds. */
  datatype Group = Group(branch: Option<string>, builds: seq<Record>)

  /** The grouping key of a build. */
  function BranchOf(build: Record): Option<string>
  {
    Get(build, "branch")
  }

  /** The grouping keys of the builds, in input order. */
  function KeysOf(builds: seq<Record>): (keys: seq<Option<string>>)
    ensures |keys| == |builds|
  {
    seq(|builds|, i requires 0 <= i < |builds| => BranchOf(builds[i]))
  }

  /** The branches of the groups, in group order. */
  function BranchesOf(groups: seq<Group>): (branches: seq<Option<string>>)
    ensures |branches| == |groups|
  {
    seq(|groups|, i requires 0 <= i < |groups| => groups[i].branch)
  }

  predicate Distinct(ks: seq<Option<string>>)
  {
    forall i, j :: 0 <= i < j < |ks| ==> ks[i] != ks[j]
  }

  /** Adds one build to a grouped hash: to its branch's group, or to a new group at the end. */
  function Insert(groups: seq<Group>, build: Record): (r: seq<Group>)
    ensures BranchesOf(r) == if BranchOf(build) in BranchesOf(groups) then BranchesOf(groups)
                             else BranchesOf(groups) + [BranchOf(build)]
  {
    if groups == [] then [Group(BranchOf(build), [build])]
    else
      BranchesOfCons(groups[0], groups[1..]);
      assert groups == [groups[0]] + groups[1..];
      if groups[0].branch == BranchOf(build) then
        var first := Group(groups[0].branch, groups[0].builds + [build]);
        BranchesOfCons(first, groups[1..]);
        [first] + groups[1..]
      else
        BranchesOfCons(groups[0], Insert(groups[1..], build));
        [groups[0]] + Insert(groups[1..], build)
  }

  /** The branches of a group followed by more groups. */
  lemma BranchesOfCons(group: Group, rest: seq<Group>)
    ensures BranchesOf([group] + rest) == [group.branch] + BranchesOf(rest)
  {
  }

  /** `group_by`: the builds inserted one by one, in input order. */
  function GroupBy(builds: seq<Record>): (groups: seq<Group>)
    ensures BranchesOf(groups) == FirstSeen(KeysOf(builds))
  {
    if builds == [] then []
    else
      assert KeysOf(builds)[..|builds| - 1] == KeysOf(builds[..|builds| - 1]);
      Insert(GroupBy(builds[..|builds| - 1]), builds[|builds| - 1])
  }

  /** The distinct elements of `ks`, in the order of their first occurrence. */
  function FirstSeen(ks: seq<Option<string>>): (r: seq<Option<string>>)
    ensures Distinct(r)
    ensures forall k :: k in r <==> k in ks
  {
    if ks == [] then []
    else
      var earlier := FirstSeen(ks[..|ks| - 1]);
      var k := ks[|ks| - 1];
      assert forall x :: x in ks <==> x in ks[..|ks| - 1] || x == k by {
        assert ks == ks[..|ks| - 1] + [k];
      }
      if k in earlier then earlier else earlier + [k]
  }

  /** The index of the first occurrence of `k` in `ks`. */
  function FirstIndex(ks: seq<Option<string>>, k: Option<string>): (i: nat)
    requires k in ks
    ensures i < |ks| && ks[i] == k && k !in ks[..i]
  {
    var last := |ks| - 1;
    if k in ks[..last] then FirstIndex(ks[..last], k) else last
  }

  /** The builds on `branch`, in input order. */
  function Filter(builds: seq<Record>, branch: Option<string>): seq<Record>
  {
    if builds == [] then []
    else
      var last := builds[|builds| - 1];
      Filter(builds[..|builds| - 1], branch) + (if BranchOf(last) == branch then [last] else [])
  }

  /**
   * What `group_by` promises, written independently of how it is computed: one
   * group per distinct branch, in the order the branches first appear, each
   * holding exactly the builds on its branch in input order.
   */
  function ReferenceGroups(builds: seq<Record>): seq<Group>
  {
    var keys := FirstSeen(KeysOf(builds));
    seq(|keys|, i requires 0 <= i < |keys| => Group(keys[i], Filter(builds, keys[i])))
  }

  /** The builds of all groups, counted with multiplicity. */
  function AllBuilds(groups: seq<Group>): multiset<Record>
  {
    if groups == [] then multiset{} else multiset(groups[0].builds) + AllBuilds(groups[1..])
  }

  /** `FirstSeen` lists the keys by increasing first occurrence. */
  lemma {:induction false} FirstSeenOrder(ks: seq<Option<string>>, i: nat, j: nat)
    requires i < j < |FirstSeen(ks)|
    ensures FirstIndex(ks, FirstSeen(ks)[i]) < FirstIndex(ks, FirstSeen(ks)[j])
  {
    var init := ks[..|ks| - 1];
    var earlier := FirstSeen(init);
    var fs := FirstSeen(ks);
    var a, b := fs[i], fs[j];
    assert ks == init + [ks[|ks| - 1]];
    if j < |earlier| {
      FirstSeenOrder(init, i, j);
      assert a in init && b in init;
      FirstIndexOfPrefix(ks, a);
      FirstIndexOfPrefix(ks, b);
    } else {
      assert a in init;
      FirstIndexOfPrefix(ks, a);
      assert b !in init;
    }
  }

  /** A key already in the prefix has its first occurrence there. */
  lemma FirstIndexOfPrefix(ks: seq<Option<string>>, k: Option<string>)
    requires |ks| > 0 && k in ks[..|ks| - 1]
    ensures FirstIndex(ks, k) == FirstIndex(ks[..|ks| - 1], k)
  {
  }

  /** `Insert` on groups with distinct branches, element by element. */
  lemma {:induction false} InsertEffect(groups: seq<Group>, build: Record)
    requires Distinct(BranchesOf(groups))
    ensures var k := BranchOf(build);
      var r := Insert(groups, build);
      && |r| == |groups| + (if k in BranchesOf(groups) then 0 else 1)
      && (forall i :: 0 <= i < |groups| ==>
            r[i] == if groups[i].branch == k then Group(k, groups[i].builds + [build]) else groups[i])
      && (k !in BranchesOf(groups) ==> r[|groups|] == Group(k, [build]))
  {
    if groups != [] && groups[0].branch != BranchOf(build) {
      var rest := groups[1..];
      assert BranchesOf(rest) == BranchesOf(groups)[1..];
      InsertEffect(rest, build);
      assert BranchOf(build) in BranchesOf(groups) <==> BranchOf(build) in BranchesOf(rest) by {
        assert BranchesOf(groups) == [groups[0].branch] + BranchesOf(rest);
      }
    } else if groups != [] {
      forall i | 0 < i < |groups| ensures groups[i].branch != BranchOf(build) {
        assert BranchesOf(groups)[0] != BranchesOf(groups)[i];
      }
      assert BranchesOf(groups)[0] == BranchOf(build);
    }
  }

  /** Adding a build at the end to the reference grouping is one `Insert`. */
  lemma {:induction false} ReferenceSnoc(builds: seq<Record>)
    requires builds != []
    ensures ReferenceGroups(builds) == Insert(ReferenceGroups(builds[..|builds| - 1]), builds[|builds| - 1])
  {
    var init := builds[..|builds| - 1];
    var last := builds[|builds| - 1];
    var k := BranchOf(last);
    var before := ReferenceGroups(init);
    var keys := FirstSeen(KeysOf(init));
    assert KeysOf(builds)[..|builds| - 1] == KeysOf(init);
    assert KeysOf(builds)[|builds| - 1] == k;
    var keysAfter := FirstSeen(KeysOf(builds));
    assert keysAfter == if k in keys then keys else keys + [k];
    assert BranchesOf(before) == keys;
    InsertEffect(before, last);
    var r := Insert(before, last);
    var after := ReferenceGroups(builds);
    assert |after| == |keysAfter| == |r|;
    forall i | 0 <= i < |r| ensures after[i] == r[i] {
      assert after[i] == Group(keysAfter[i], Filter(builds, keysAfter[i]));
      if i < |before| {
        assert keysAfter[i] == keys[i];
        assert before[i] == Group(keys[i], Filter(init, keys[i]));
        assert Filter(builds, keys[i]) == Filter(init, keys[i]) + (if k == keys[i] then [last] else []);
      } else {
        assert keysAfter[i] == k;
        FilterAbsent(init, k);
      }
    }
  }

  /** No build is on a branch that none of the builds has. */
  lemma {:induction false} FilterAbsent(builds: seq<Record>, branch: Option<string>)
    requires branch !in KeysOf(builds)
    ensures Filter(builds, branch) == []
  {
    if builds != [] {
      var init := builds[..|builds| - 1];
      assert KeysOf(builds)[|builds| - 1] == BranchOf(builds[|builds| - 1]);
      assert forall i :: 0 <= i < |init| ==> KeysOf(init)[i] == KeysOf(builds)[i];
      FilterAbsent(init, branch);
    }
  }

  /** `group_by` meets its reference: first-seen branch order, input order within each group. */
  lemma {:induction false} GroupByIsReference(builds: seq<Record>)
    ensures GroupBy(builds) == ReferenceGroups(builds)
  {
    if builds != [] {
      GroupByIsReference(builds[..|builds| - 1]);
      ReferenceSnoc(builds);
    }
  }

  /** Every build lands in exactly one group: the groups together hold the input. */
  lemma {:induction false} GroupByKeepsEveryBuild(builds: seq<Record>)
    ensures AllBuilds(GroupBy(builds)) == multiset(builds)
  {
    if builds != [] {
      var init := builds[..|builds| - 1];
      var last := builds[|builds| - 1];
      GroupByKeepsEveryBuild(init);
      InsertAddsOne(GroupBy(init), last);
      assert GroupBy(builds) == Insert(GroupBy(init), last);
      assert builds == init + [last];
      assert multiset(builds) == multiset(init) + multiset{last};
    }
  }

  /** `Insert` adds exactly the one build. */
  lemma {:induction false} InsertAddsOne(groups: seq<Group>, build: Record)
    ensures AllBuilds(Insert(groups, build)) == AllBuilds(groups) + multiset{build}
  {
    if groups != [] {
      if groups[0].branch == BranchOf(build) {
        var r := Insert(groups, build);
        assert r[1..] == groups[1..];
      } else {
        InsertAddsOne(groups[1..], build);
        var r := Insert(groups, build);
        assert r[1..] == Insert(groups[1..], build);
      }
    }
  }
}
