/** `_resolve_conflicts` of `orchestration/decision_pipeline.py`: candidates are grouped by
    (market, symbol) in a dictionary that keeps insertion order; a group that disagrees on
    direction is rejected whole, any other group keeps its best-ranked member. */
module Conflicts {
  import opened Contracts
  import opened Ranking

  datatype Key = Key(market: Market, symbol: string)

  function KeyOf(x: Scored): Key {
    Key(x.candidate.market, x.candidate.symbol)
  }

  datatype Group = Group(key: Key, members: seq<Scored>)

  /** `groups.setdefault(key, []).append(item)` */
  function AddTo(groups: seq<Group>, x: Scored): seq<Group> {
    if groups == [] then [Group(KeyOf(x), [x])]
    else if groups[0].key == KeyOf(x) then [Group(groups[0].key, groups[0].members + [x])] + groups[1..]
    else [groups[0]] + AddTo(groups[1..], x)
  }

  function GroupsOf(items: seq<Scored>): seq<Group> {
    if items == [] then [] else AddTo(GroupsOf(items[..|items| - 1]), items[|items| - 1])
  }

  predicate Agree(members: seq<Scored>) {
    forall i, j :: 0 <= i < |members| && 0 <= j < |members| ==> members[i].candidate.action == members[j].candidate.action
  }

  /** The keepers of a list of groups, in group order. */
  function Keepers(groups: seq<Group>): seq<Scored> {
    if groups == [] then []
    else
      var n := |groups| - 1;
      var init := Keepers(groups[..n]);
      if groups[n].members != [] && Agree(groups[n].members) then init + [groups[n].members[0]] else init
  }

  // ---------------------------------------------------------------------------------
  // The simple filter it refines
  // ---------------------------------------------------------------------------------

  predicate IsFirst(items: seq<Scored>, i: nat)
    requires i < |items|
  {
    forall j :: 0 <= j < i ==> KeyOf(items[j]) != KeyOf(items[i])
  }

  predicate AllAgree(items: seq<Scored>, key: Key) {
    forall i, j :: 0 <= i < |items| && 0 <= j < |items| && KeyOf(items[i]) == key && KeyOf(items[j]) == key ==>
      items[i].candidate.action == items[j].candidate.action
  }

  /** Of the first `n` items, those that lead their (market, symbol) and whose whole group
      agrees on direction, in order. */
  function Kept(items: seq<Scored>, n: nat): seq<Scored>
    requires n <= |items|
  {
    if n == 0 then []
    else
      var init := Kept(items, n - 1);
      if IsFirst(items, n - 1) && AllAgree(items, KeyOf(items[n - 1])) then init + [items[n - 1]] else init
  }

  function Members(items: seq<Scored>, key: Key): seq<Scored> {
    if items == [] then []
    else
      var n := |items| - 1;
      if KeyOf(items[n]) == key then Members(items[..n], key) + [items[n]] else Members(items[..n], key)
  }

  /** The keys in order of first occurrence. */
  function FirstKeys(items: seq<Scored>): seq<Key> {
    if items == [] then []
    else
      var n := |items| - 1;
      var init := FirstKeys(items[..n]);
      if KeyOf(items[n]) in init then init else init + [KeyOf(items[n])]
  }

  function Table(keys: seq<Key>, items: seq<Scored>): (r: seq<Group>)
    ensures |r| == |keys|
  {
    seq(|keys|, g requires 0 <= g < |keys| => Group(keys[g], Members(items, keys[g])))
  }

  lemma {:induction false} MembersAre(items: seq<Scored>, key: Key)
    ensures forall x :: x in Members(items, key) <==> x in items && KeyOf(x) == key
  {
    if items != [] {
      var n := |items| - 1;
      MembersAre(items[..n], key);
      assert items == items[..n] + [items[n]];
    }
  }

  lemma {:induction false} FirstKeysAre(items: seq<Scored>)
    ensures forall i :: 0 <= i < |items| ==> KeyOf(items[i]) in FirstKeys(items)
    ensures forall k :: k in FirstKeys(items) ==> exists i :: 0 <= i < |items| && KeyOf(items[i]) == k
    ensures forall i, j :: 0 <= i < j < |FirstKeys(items)| ==> FirstKeys(items)[i] != FirstKeys(items)[j]
  {
    if items != [] {
      var n := |items| - 1;
      FirstKeysAre(items[..n]);
      forall i | 0 <= i < n ensures KeyOf(items[i]) in FirstKeys(items) {
        assert items[..n][i] == items[i];
      }
      forall k | k in FirstKeys(items) ensures exists i :: 0 <= i < |items| && KeyOf(items[i]) == k {
        if k in FirstKeys(items[..n]) {
          var i :| 0 <= i < n && KeyOf(items[..n][i]) == k;
          assert KeyOf(items[i]) == k;
        } else {
          assert KeyOf(items[n]) == k;
        }
      }
    }
  }

  /** Adding an item to the table of groups extends exactly the group of its key. */
  lemma {:induction false} AddToTable(keys: seq<Key>, items: seq<Scored>, x: Scored)
    requires forall i, j :: 0 <= i < j < |keys| ==> keys[i] != keys[j]
    requires KeyOf(x) !in keys ==> Members(items, KeyOf(x)) == []
    ensures AddTo(Table(keys, items), x)
            == Table(if KeyOf(x) in keys then keys else keys + [KeyOf(x)], items + [x])
  {
    hide KeyOf, Members, Table;
    var key := KeyOf(x);
    if keys == [] {
      MembersAppend(items, x, key);
      TableEmpty(items);
      TableEmpty(items + [x]);
      TableCons([key], items + [x]);
      assert [key][1..] == [] && [] + [key] == [key];
      assert [] + [x] == [x];
    } else {
      MembersAppend(items, x, keys[0]);
      TableCons(keys, items);
      var tail := keys[1..];
      if keys[0] == key {
        assert key !in tail;
        TableCons(keys, items + [x]);
        TableUnchanged(tail, items, x);
      } else {
        AddToTable(tail, items, x);
        assert key in keys <==> key in tail;
        var keys' := if key in keys then keys else keys + [key];
        assert keys'[1..] == if key in tail then tail else tail + [key];
        TableCons(keys', items + [x]);
      }
    }
  }

  lemma {:induction false} MembersAppend(items: seq<Scored>, x: Scored, key: Key)
    ensures Members(items + [x], key) == if key == KeyOf(x) then Members(items, key) + [x] else Members(items, key)
  {
    hide KeyOf;
    assert (items + [x])[..|items|] == items;
  }

  lemma {:induction false} TableEmpty(items: seq<Scored>)
    ensures Table([], items) == []
  {}

  lemma {:induction false} TableCons(keys: seq<Key>, items: seq<Scored>)
    requires keys != []
    ensures Table(keys, items) == [Group(keys[0], Members(items, keys[0]))] + Table(keys[1..], items)
  {
    hide Members;
  }

  lemma {:induction false} TableUnchanged(keys: seq<Key>, items: seq<Scored>, x: Scored)
    requires KeyOf(x) !in keys
    ensures Table(keys, items + [x]) == Table(keys, items)
  {
    hide Members, KeyOf;
    forall g | 0 <= g < |keys| ensures Members(items + [x], keys[g]) == Members(items, keys[g]) {
      MembersAppend(items, x, keys[g]);
    }
  }

  lemma {:induction false} GroupsAreTable(items: seq<Scored>)
    ensures GroupsOf(items) == Table(FirstKeys(items), items)
  {
    hide AddTo, KeyOf;
    if items != [] {
      var n := |items| - 1;
      var init := items[..n];
      GroupsAreTable(init);
      FirstKeysAre(init);
      if KeyOf(items[n]) !in FirstKeys(init) {
        NoMembers(init, KeyOf(items[n]));
      }
      AddToTable(FirstKeys(init), init, items[n]);
      assert init + [items[n]] == items;
    }
  }

  lemma {:induction false} NoMembers(items: seq<Scored>, key: Key)
    requires forall j :: 0 <= j < |items| ==> KeyOf(items[j]) != key
    ensures Members(items, key) == []
  {
    if items != [] {
      NoMembers(items[..|items| - 1], key);
    }
  }

  lemma {:induction false} LeaderIsFirstMember(items: seq<Scored>, i: nat)
    requires i < |items| && IsFirst(items, i)
    ensures Members(items, KeyOf(items[i])) != [] && Members(items, KeyOf(items[i]))[0] == items[i]
  {
    var n := |items| - 1;
    if i < n {
      LeaderIsFirstMember(items[..n], i);
    } else {
      NoMembers(items[..n], KeyOf(items[i]));
    }
  }

  lemma {:induction false} AgreementIsShared(items: seq<Scored>, key: Key)
    ensures Agree(Members(items, key)) <==> AllAgree(items, key)
  {
    var members := Members(items, key);
    MembersAre(items, key);
    if Agree(members) {
      forall i, j | 0 <= i < |items| && 0 <= j < |items| && KeyOf(items[i]) == key && KeyOf(items[j]) == key
        ensures items[i].candidate.action == items[j].candidate.action
      {
        assert items[i] in members && items[j] in members;
        var a :| 0 <= a < |members| && members[a] == items[i];
        var b :| 0 <= b < |members| && members[b] == items[j];
      }
    }
    if AllAgree(items, key) {
      forall a, b | 0 <= a < |members| && 0 <= b < |members|
        ensures members[a].candidate.action == members[b].candidate.action
      {
        assert members[a] in items && members[b] in items;
        var i :| 0 <= i < |items| && items[i] == members[a];
        var j :| 0 <= j < |items| && items[j] == members[b];
      }
    }
  }

  /** The keepers of the groups of the first `n` keys are the kept items among the first `n`. */
  lemma {:induction false} KeepersAreKept(items: seq<Scored>, n: nat)
    requires n <= |items|
    ensures Keepers(Table(FirstKeys(items[..n]), items)) == Kept(items, n)
  {
    hide KeyOf;
    if n > 0 {
      KeepersAreKept(items, n - 1);
      var init := items[..n - 1];
      assert items[..n][..n - 1] == init;
      var key := KeyOf(items[n - 1]);
      FirstKeysAre(init);
      assert forall j :: 0 <= j < n - 1 ==> init[j] == items[j];
      if key !in FirstKeys(init) {
        assert IsFirst(items, n - 1);
        LeaderIsFirstMember(items, n - 1);
        AgreementIsShared(items, key);
        var t := Table(FirstKeys(init) + [key], items);
        assert t[..|t| - 1] == Table(FirstKeys(init), items);
      } else {
        var i :| 0 <= i < n - 1 && KeyOf(init[i]) == key;
        assert !IsFirst(items, n - 1);
      }
    }
  }

  /** Main result: grouping, rejecting and taking leaders is the simple filter. */
  lemma {:induction false} GroupingIsFiltering(items: seq<Scored>)
    ensures Keepers(GroupsOf(items)) == Kept(items, |items|)
  {
    hide Keepers, Kept, Table;
    GroupsAreTable(items);
    KeepersAreKept(items, |items|);
    assert items[..|items|] == items;
  }

  lemma {:induction false} KeptRanked(items: seq<Scored>, n: nat)
    requires n <= |items| && Ranked(items)
    ensures Ranked(Kept(items, n))
    ensures forall x :: x in Kept(items, n) ==> exists i :: 0 <= i < n && items[i] == x
  {
    hide Leq, IsFirst, AllAgree;
    if n > 0 {
      KeptRanked(items, n - 1);
      var init := Kept(items, n - 1);
      forall i | 0 <= i < |init| ensures Leq(init[i], items[n - 1]) {
        assert init[i] in init;
        var k :| 0 <= k < n - 1 && items[k] == init[i];
      }
      forall x | x in Kept(items, n) ensures exists i :: 0 <= i < n && items[i] == x {
        if x in init {
          var k :| 0 <= k < n - 1 && items[k] == x;
        } else {
          assert items[n - 1] == x;
        }
      }
    }
  }

  /** On ranked input the final sort changes nothing. */
  lemma {:induction false} FinalSortIsIdle(items: seq<Scored>)
    requires Ranked(items)
    ensures Rank(Keepers(GroupsOf(items))) == Kept(items, |items|)
  {
    hide Rank, Keepers, GroupsOf;
    GroupingIsFiltering(items);
    KeptRanked(items, |items|);
    RankIdempotent(Kept(items, |items|));
  }

  // ---------------------------------------------------------------------------------
  // What the stage emits
  // ---------------------------------------------------------------------------------

  function Conflicting(members: seq<Scored>): (r: seq<Decision>)
    ensures |r| == |members|
  {
    seq(|members|, i requires 0 <= i < |members| =>
      Decision(members[i].candidate.id, SignalQuality, Rejected, "CONFLICTING_SIGNALS"))
  }

  function Deduplicated(members: seq<Scored>): (r: seq<Decision>)
    ensures |r| == |members|
  {
    seq(|members|, i requires 0 <= i < |members| =>
      if i > 0 then Decision(members[i].candidate.id, SignalQuality, Rejected, "DUPLICATE_SIGNAL_LOWER_RANKED")
      else Decision(members[0].candidate.id, SignalQuality, Passed,
                    if |members| == 1 then "NO_CONFLICT" else "BEST_RANKED_DUPLICATE"))
  }

  function GroupDecisions(g: Group): (r: seq<Decision>)
    ensures |r| == |g.members|
  {
    if Agree(g.members) then Deduplicated(g.members) else Conflicting(g.members)
  }

  function AllDecisions(groups: seq<Group>): seq<Decision> {
    if groups == [] then []
    else AllDecisions(groups[..|groups| - 1]) + GroupDecisions(groups[|groups| - 1])
  }

  function Spread(groups: seq<Group>): seq<Scored> {
    if groups == [] then [] else Spread(groups[..|groups| - 1]) + groups[|groups| - 1].members
  }

  lemma {:induction false} SpreadAppend(groups: seq<Group>, g: Group)
    ensures Spread(groups + [g]) == Spread(groups) + g.members
  {
    assert (groups + [g])[..|groups|] == groups;
  }

  lemma {:induction false} SpreadNone()
    ensures Spread([]) == []
  {}

  lemma {:induction false} SpreadSplit(a: seq<Group>, b: seq<Group>)
    ensures Spread(a + b) == Spread(a) + Spread(b)
  {
    hide Spread;
    if b == [] {
      SpreadNone();
      assert a + b == a;
    } else {
      var n := |b| - 1;
      SpreadSplit(a, b[..n]);
      SpreadAppend(a + b[..n], b[n]);
      SpreadAppend(b[..n], b[n]);
      assert a + b == a + b[..n] + [b[n]] && b == b[..n] + [b[n]];
    }
  }

  lemma {:induction false} SpreadOne(g: Group)
    ensures Spread([g]) == g.members
  {
    assert [g] == [] + [g];
    SpreadAppend([], g);
  }

  /** Grouping moves items around but keeps them all. */
  lemma {:induction false} AddToKeeps(groups: seq<Group>, x: Scored)
    ensures multiset(Spread(AddTo(groups, x))) == multiset(Spread(groups)) + multiset{x}
  {
    if groups == [] {
      SpreadOne(Group(KeyOf(x), [x]));
    } else {
      var head, rest := groups[0], groups[1..];
      assert groups == [head] + rest;
      SpreadSplit([head], rest);
      SpreadOne(head);
      if head.key == KeyOf(x) {
        var grown := Group(head.key, head.members + [x]);
        SpreadSplit([grown], rest);
        SpreadOne(grown);
      } else {
        AddToKeeps(rest, x);
        SpreadSplit([head], AddTo(rest, x));
      }
    }
  }

  lemma {:induction false} GroupingKeeps(items: seq<Scored>)
    ensures multiset(Spread(GroupsOf(items))) == multiset(items)
  {
    hide AddTo;
    if items != [] {
      var n := |items| - 1;
      GroupingKeeps(items[..n]);
      AddToKeeps(GroupsOf(items[..n]), items[n]);
      assert items == items[..n] + [items[n]];
    }
  }

  /** The decisions of a group are its members', all rejections but the leader's pass. */
  lemma {:induction false} GroupRejections(g: Group)
    requires g.members != []
    ensures Rejections(GroupDecisions(g)) == |g.members| - (if Agree(g.members) then 1 else 0)
  {
    hide Agree;
    if Agree(g.members) {
      DeduplicatedRejections(g.members, |g.members|);
      assert Deduplicated(g.members)[..|g.members|] == Deduplicated(g.members);
    } else {
      ConflictingRejections(g.members, |g.members|);
      assert Conflicting(g.members)[..|g.members|] == Conflicting(g.members);
    }
  }

  lemma {:induction false} DeduplicatedRejections(members: seq<Scored>, n: nat)
    requires 1 <= n <= |members|
    ensures Rejections(Deduplicated(members)[..n]) == n - 1
  {
    var all := Deduplicated(members);
    if n > 1 {
      DeduplicatedRejections(members, n - 1);
    } else {
      assert all[..1][..0] == [];
    }
    assert all[..n][..n - 1] == all[..n - 1];
  }

  lemma {:induction false} ConflictingRejections(members: seq<Scored>, n: nat)
    requires n <= |members|
    ensures Rejections(Conflicting(members)[..n]) == n
  {
    var all := Conflicting(members);
    if n > 0 {
      ConflictingRejections(members, n - 1);
      assert all[..n][..n - 1] == all[..n - 1];
    }
  }

  ghost predicate NonEmpty(groups: seq<Group>) {
    forall g :: 0 <= g < |groups| ==> groups[g].members != []
  }

  lemma {:induction false} AddToNonEmpty(groups: seq<Group>, x: Scored)
    requires NonEmpty(groups)
    ensures NonEmpty(AddTo(groups, x))
  {
    if groups != [] && groups[0].key != KeyOf(x) {
      AddToNonEmpty(groups[1..], x);
    }
  }

  lemma {:induction false} GroupsNonEmpty(items: seq<Scored>)
    ensures NonEmpty(GroupsOf(items))
  {
    hide AddTo;
    if items != [] {
      GroupsNonEmpty(items[..|items| - 1]);
      AddToNonEmpty(GroupsOf(items[..|items| - 1]), items[|items| - 1]);
    }
  }

  lemma {:induction false} DecisionTotals(groups: seq<Group>)
    requires NonEmpty(groups)
    ensures IdsOf(AllDecisions(groups)) == Ids(Spread(groups))
    ensures |Spread(groups)| == Rejections(AllDecisions(groups)) + |Keepers(groups)|
  {
    hide Agree, Rejections, GroupDecisions, Ids, IdsOf;
    if groups == [] {
      NoRejections();
    } else {
      var n := |groups| - 1;
      DecisionTotals(groups[..n]);
      GroupRejections(groups[n]);
      RejectionsConcat(AllDecisions(groups[..n]), GroupDecisions(groups[n]));
      GroupIds(groups[n]);
      IdsConcat(AllDecisions(groups[..n]), GroupDecisions(groups[n]), Spread(groups[..n]), groups[n].members);
    }
  }

  lemma {:induction false} GroupIds(g: Group)
    ensures IdsOf(GroupDecisions(g)) == Ids(g.members)
  {
    hide Agree;
  }

  lemma {:induction false} IdsConcat(a: seq<Decision>, b: seq<Decision>, x: seq<Scored>, y: seq<Scored>)
    requires IdsOf(a) == Ids(x) && IdsOf(b) == Ids(y)
    ensures IdsOf(a + b) == Ids(x + y)
  {
    assert IdsOf(a + b) == IdsOf(a) + IdsOf(b);
    assert Ids(x + y) == Ids(x) + Ids(y);
  }

  lemma {:induction false} NoRejections()
    ensures Rejections([]) == 0 && IdsOf([]) == Ids([])
  {}

  /** Where a decision of the stage comes from. */
  lemma {:induction false} DecisionOrigin(groups: seq<Group>, i: nat) returns (g: nat, p: nat)
    requires i < |AllDecisions(groups)|
    ensures g < |groups| && p < |groups[g].members|
    ensures AllDecisions(groups)[i] == GroupDecisions(groups[g])[p]
  {
    hide GroupDecisions;
    var n := |groups| - 1;
    var init := AllDecisions(groups[..n]);
    if i < |init| {
      g, p := DecisionOrigin(groups[..n], i);
    } else {
      g, p := n, i - |init|;
    }
  }

  lemma {:induction false} KeeperOrigin(groups: seq<Group>, i: nat) returns (g: nat)
    requires i < |Keepers(groups)|
    ensures g < |groups| && groups[g].members != [] && Agree(groups[g].members)
    ensures Keepers(groups)[i] == groups[g].members[0]
  {
    hide Agree;
    var n := |groups| - 1;
    var init := Keepers(groups[..n]);
    if i < |init| {
      g := KeeperOrigin(groups[..n], i);
    } else {
      g := n;
    }
  }

  lemma {:induction false} AgreeingLeaderKept(groups: seq<Group>, g: nat)
    requires g < |groups| && groups[g].members != [] && Agree(groups[g].members)
    ensures groups[g].members[0] in Keepers(groups)
  {
    hide Agree;
    var n := |groups| - 1;
    if g < n {
      AgreeingLeaderKept(groups[..n], g);
    }
  }

  lemma {:induction false} MembersDistinct(items: seq<Scored>, key: Key)
    requires Distinct(Ids(items))
    ensures Distinct(Ids(Members(items, key)))
  {
    hide KeyOf;
    if items != [] {
      var n := |items| - 1;
      var init := items[..n];
      assert forall i :: 0 <= i < n ==> Ids(init)[i] == Ids(items)[i];
      MembersDistinct(init, key);
      MembersAre(init, key);
      var members := Members(init, key);
      forall i | 0 <= i < |members| ensures Ids(members)[i] != items[n].candidate.id {
        assert members[i] in members;
        var j :| 0 <= j < n && init[j] == members[i];
        assert Ids(items)[j] != Ids(items)[n];
      }
      if KeyOf(items[n]) == key {
        assert Ids(Members(items, key)) == Ids(members) + [items[n].candidate.id];
      }
    }
  }

  /** Two members of groups with the same id are the same member of the same group. */
  lemma {:induction false} SameMember(items: seq<Scored>, g: nat, p: nat, h: nat, q: nat)
    requires Distinct(Ids(items))
    requires g < |GroupsOf(items)| && p < |GroupsOf(items)[g].members|
    requires h < |GroupsOf(items)| && q < |GroupsOf(items)[h].members|
    requires GroupsOf(items)[g].members[p].candidate.id == GroupsOf(items)[h].members[q].candidate.id
    ensures g == h && p == q
  {
    hide GroupsOf, KeyOf;
    GroupsAreTable(items);
    FirstKeysAre(items);
    var keys := FirstKeys(items);
    var x, y := GroupsOf(items)[g].members[p], GroupsOf(items)[h].members[q];
    MembersAre(items, keys[g]);
    MembersAre(items, keys[h]);
    assert x in Members(items, keys[g]) && y in Members(items, keys[h]);
    var i :| 0 <= i < |items| && items[i] == x;
    var j :| 0 <= j < |items| && items[j] == y;
    assert Ids(items)[i] == Ids(items)[j];
    assert i == j;
    assert keys[g] == keys[h];
    assert g == h;
    MembersDistinct(items, keys[g]);
    assert Ids(Members(items, keys[g]))[p] == Ids(Members(items, keys[g]))[q];
  }

  lemma {:induction false} RejectedExactly(items: seq<Scored>, i: nat)
    requires Distinct(Ids(items)) && i < |AllDecisions(GroupsOf(items))|
    ensures var groups := GroupsOf(items);
            var d := AllDecisions(groups)[i];
            d.stage == SignalQuality && (d.status.Rejected? <==> d.candidateId !in Ids(Keepers(groups)))
  {
    hide GroupsOf, AllDecisions, Keepers, Agree;
    var groups := GroupsOf(items);
    var g, p := DecisionOrigin(groups, i);
    var d := AllDecisions(groups)[i];
    var kept := Keepers(groups);
    if d.status.Rejected? {
      forall k | 0 <= k < |kept| ensures Ids(kept)[k] != d.candidateId {
        var h := KeeperOrigin(groups, k);
        if Ids(kept)[k] == d.candidateId {
          SameMember(items, g, p, h, 0);
        }
      }
    } else {
      AgreeingLeaderKept(groups, g);
      var k :| 0 <= k < |kept| && kept[k] == groups[g].members[0];
      assert Ids(kept)[k] == d.candidateId;
    }
  }

  function Without<T>(s: seq<T>, k: nat): seq<T>
    requires k < |s|
  {
    s[..k] + s[k + 1..]
  }

  lemma {:induction false} RemoveOne<T>(s: seq<T>, k: nat)
    requires k < |s|
    ensures multiset(s) == multiset(Without(s, k)) + multiset{s[k]}
    ensures multiset(Without(s, k)) == multiset(s) - multiset{s[k]}
  {
    assert s == s[..k] + [s[k]] + s[k + 1..];
  }

  lemma {:induction false} IdsMultiset(a: seq<Scored>, b: seq<Scored>)
    requires multiset(a) == multiset(b)
    ensures multiset(Ids(a)) == multiset(Ids(b))
    decreases |a|
  {
    hide Without;
    assert |multiset(a)| == |a| && |multiset(b)| == |b|;
    if a != [] {
      assert a[0] in multiset(b);
      var k :| 0 <= k < |b| && b[k] == a[0];
      RemoveOne(a, 0);
      RemoveOne(b, k);
      WithoutIds(a, 0);
      WithoutIds(b, k);
      IdsMultiset(Without(a, 0), Without(b, k));
      RemoveOne(Ids(a), 0);
      RemoveOne(Ids(b), k);
    }
  }

  lemma {:induction false} WithoutIds(s: seq<Scored>, k: nat)
    requires k < |s|
    ensures Ids(Without(s, k)) == Without(Ids(s), k) && |Without(s, k)| == |s| - 1
  {}

  lemma {:induction false} ResolutionStaged(items: seq<Scored>)
    requires Distinct(Ids(items))
    ensures Staged(AllDecisions(GroupsOf(items)), SignalQuality, Ids(items), Ids(Keepers(GroupsOf(items))))
  {
    hide GroupsOf, AllDecisions, Keepers, Spread, Rejections;
    var groups := GroupsOf(items);
    GroupingKeeps(items);
    GroupsNonEmpty(items);
    DecisionTotals(groups);
    IdsMultiset(Spread(groups), items);
    assert |multiset(Spread(groups))| == |Spread(groups)| && |multiset(items)| == |items|;
    forall i | 0 <= i < |AllDecisions(groups)|
      ensures AllDecisions(groups)[i].stage == SignalQuality
      ensures AllDecisions(groups)[i].status.Rejected?
              <==> AllDecisions(groups)[i].candidateId !in Ids(Keepers(groups))
    {
      RejectedExactly(items, i);
    }
    forall id | id in Ids(Keepers(groups)) ensures id in Ids(items) {
      KeeperIsItem(items, id);
    }
  }

  lemma {:induction false} KeeperIsItem(items: seq<Scored>, id: string)
    requires id in Ids(Keepers(GroupsOf(items)))
    ensures id in Ids(items)
  {
    hide GroupsOf, Keepers, KeyOf;
    var kept := Keepers(GroupsOf(items));
    var k :| 0 <= k < |kept| && Ids(kept)[k] == id;
    var g := KeeperOrigin(GroupsOf(items), k);
    GroupsAreTable(items);
    MembersAre(items, FirstKeys(items)[g]);
    assert kept[k] in GroupsOf(items)[g].members;
    var i :| 0 <= i < |items| && items[i] == kept[k];
    assert Ids(items)[i] == id;
  }

  /** What the stage says about item `i`, in terms of the items alone. */
  ghost predicate Explains(d: Decision, items: seq<Scored>, i: nat)
    requires i < |items|
  {
    var key := KeyOf(items[i]);
    var alone := forall j :: 0 <= j < |items| && j != i ==> KeyOf(items[j]) != key;
    && d.candidateId == items[i].candidate.id
    && d.reason == (if !AllAgree(items, key) then "CONFLICTING_SIGNALS"
                    else if !IsFirst(items, i) then "DUPLICATE_SIGNAL_LOWER_RANKED"
                    else if alone then "NO_CONFLICT"
                    else "BEST_RANKED_DUPLICATE")
  }

  /** The members of a group by their places: the first is the item that leads its key, and it is the
      only one exactly when the item is alone. */
  lemma {:induction false} PlaceOf(items: seq<Scored>, i: nat, p: nat)
    requires Distinct(Ids(items)) && i < |items|
    requires p < |Members(items, KeyOf(items[i]))| && Members(items, KeyOf(items[i]))[p] == items[i]
    ensures p == 0 <==> IsFirst(items, i)
    ensures |Members(items, KeyOf(items[i]))| == 1 <==>
            forall j :: 0 <= j < |items| && j != i ==> KeyOf(items[j]) != KeyOf(items[i])
  {
    hide KeyOf;
    var key := KeyOf(items[i]);
    var members := Members(items, key);
    MembersAre(items, key);
    MembersDistinct(items, key);
    if IsFirst(items, i) {
      LeaderIsFirstMember(items, i);
      assert Ids(members)[0] == Ids(members)[p];
    } else {
      var f := FirstOf(items, i);
      LeaderIsFirstMember(items, f);
      assert Ids(items)[f] != Ids(items)[i];
    }
    if |members| == 1 {
      forall j | 0 <= j < |items| && j != i ensures KeyOf(items[j]) != key {
        assert Ids(items)[j] != Ids(items)[i];
        assert items[j] in items;
      }
    } else {
      var q := if p == 0 then 1 else 0;
      assert Ids(members)[q] != Ids(members)[p];
      assert members[q] in items;
      var j :| 0 <= j < |items| && items[j] == members[q];
      assert members[q] in members;
    }
  }

  lemma {:induction false} FirstOf(items: seq<Scored>, i: nat) returns (f: nat)
    requires i < |items|
    ensures f <= i && KeyOf(items[f]) == KeyOf(items[i]) && IsFirst(items, f)
    decreases i
  {
    hide KeyOf;
    if IsFirst(items, i) {
      f := i;
    } else {
      var j :| 0 <= j < i && KeyOf(items[j]) == KeyOf(items[i]);
      f := FirstOf(items, j);
    }
  }

  lemma {:induction false} DecisionExplains(items: seq<Scored>, k: nat) returns (i: nat)
    requires Distinct(Ids(items)) && k < |AllDecisions(GroupsOf(items))|
    ensures i < |items| && Explains(AllDecisions(GroupsOf(items))[k], items, i)
  {
    hide GroupsOf, AllDecisions, KeyOf, Agree, AllAgree, IsFirst, Members;
    var groups := GroupsOf(items);
    var g, p := DecisionOrigin(groups, k);
    GroupsAreTable(items);
    var key := FirstKeys(items)[g];
    var members := groups[g].members;
    MembersAre(items, key);
    assert members[p] in members;
    i :| 0 <= i < |items| && items[i] == members[p];
    PlaceOf(items, i, p);
    AgreementIsShared(items, key);
  }

  ghost predicate ExplainedBy(d: Decision, items: seq<Scored>) {
    exists i :: 0 <= i < |items| && Explains(d, items, i)
  }

  ghost predicate Explained(decisions: seq<Decision>, items: seq<Scored>) {
    forall k :: 0 <= k < |decisions| ==> ExplainedBy(decisions[k], items)
  }

  /** Every decision of the stage gives the reason the items give. */
  lemma {:induction false} ResolutionExplained(items: seq<Scored>)
    requires Distinct(Ids(items))
    ensures Explained(AllDecisions(GroupsOf(items)), items)
  {
    hide GroupsOf, AllDecisions, ExplainedBy;
    forall k | 0 <= k < |AllDecisions(GroupsOf(items))|
      ensures ExplainedBy(AllDecisions(GroupsOf(items))[k], items)
    {
      DecisionExplained(items, k);
    }
  }

  lemma {:induction false} DecisionExplained(items: seq<Scored>, k: nat)
    requires Distinct(Ids(items)) && k < |AllDecisions(GroupsOf(items))|
    ensures ExplainedBy(AllDecisions(GroupsOf(items))[k], items)
  {
    hide GroupsOf, AllDecisions;
    var i := DecisionExplains(items, k);
  }

  method ResolveConflicts(scored: seq<Scored>) returns (resolved: seq<Scored>, emitted: seq<Decision>)
    requires Distinct(Ids(scored)) && Ranked(scored)
    ensures resolved == Kept(scored, |scored|)
    ensures Staged(emitted, SignalQuality, Ids(scored), Ids(resolved))
    ensures Explained(emitted, scored)
  {
    hide Explained, AddTo, GroupDecisions, Agree, Staged, Kept, Rank;
    var groups: seq<Group> := [];
    for i := 0 to |scored|
      invariant groups == GroupsOf(scored[..i])
    {
      assert scored[..i + 1][..i] == scored[..i];
      groups := AddTo(groups, scored[i]);
    }
    assert scored[..|scored|] == scored;
    GroupsNonEmpty(scored);
    resolved, emitted := [], [];
    for g := 0 to |groups|
      invariant resolved == Keepers(groups[..g])
      invariant emitted == AllDecisions(groups[..g])
    {
      assert groups[..g + 1][..g] == groups[..g];
      emitted := emitted + GroupDecisions(groups[g]);
      if Agree(groups[g].members) {
        resolved := resolved + [groups[g].members[0]];
      }
    }
    assert groups[..|groups|] == groups;
    ResolutionStaged(scored);
    ResolutionExplained(scored);
    FinalSortIsIdle(scored);
    GroupingIsFiltering(scored);
    resolved := Rank(resolved);
  }
}
