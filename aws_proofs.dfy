/** What the entry synthesis of lib/aws.go guarantees: one entry per
    instance, every entry traced back to its instance and group, its
    shape, its route (bastion or direct), the sort orders, and the
    disambiguation of same-named instances. */
module AwsProofs {
  import opened Strings
  import opened Sequences
  import opened Types
  import opened Wrappers
  import opened Util
  import opened Aws

  function EntryId(e: SSHEntry): string {
    e.instanceId
  }

  function InstanceId(i: Instance): string {
    i.instanceId
  }

  // ---------------------------------------------------------------------
  // One entry per instance

  lemma NameGroupEntriesIds(st: Setting, lcsLen: (string, string) -> nat, vpcBastions: seq<Instance>, g: Group<Instance>)
    ensures Map(NameGroupEntries(st, lcsLen, vpcBastions, g), EntryId) == Map(g.members, InstanceId)
  {
  }

  lemma {:induction false} NameGroupsEntriesIds(st: Setting, lcsLen: (string, string) -> nat, vpcBastions: seq<Instance>, gs: seq<Group<Instance>>)
    ensures Map(NameGroupsEntries(st, lcsLen, vpcBastions, gs), EntryId) == Map(Members(gs), InstanceId)
  {
    if gs != [] {
      var init, last := gs[..|gs| - 1], gs[|gs| - 1];
      NameGroupsEntriesIds(st, lcsLen, vpcBastions, init);
      NameGroupEntriesIds(st, lcsLen, vpcBastions, last);
      MapConcat(NameGroupsEntries(st, lcsLen, vpcBastions, init), NameGroupEntries(st, lcsLen, vpcBastions, last), EntryId);
      MapConcat(Members(init), last.members, InstanceId);
    }
  }

  lemma VpcEntriesIds(st: Setting, lcsLen: (string, string) -> nat, vg: Group<Instance>)
    ensures multiset(Map(VpcEntries(st, lcsLen, vg), EntryId)) == multiset(Map(vg.members, InstanceId))
  {
    var gs := GroupBy(vg.members, NameKey);
    NameGroupsEntriesIds(st, lcsLen, Bastions(vg.members, false), gs);
    GroupByPartition(vg.members, NameKey);
    MapPermutation(Members(gs), vg.members, InstanceId);
  }

  lemma {:induction false} VpcGroupsEntriesIds(st: Setting, lcsLen: (string, string) -> nat, vgs: seq<Group<Instance>>)
    ensures multiset(Map(VpcGroupsEntries(st, lcsLen, vgs), EntryId)) == multiset(Map(Members(vgs), InstanceId))
  {
    if vgs != [] {
      var init, last := vgs[..|vgs| - 1], vgs[|vgs| - 1];
      VpcGroupsEntriesIds(st, lcsLen, init);
      VpcEntriesIds(st, lcsLen, last);
      MapConcat(VpcGroupsEntries(st, lcsLen, init), VpcEntries(st, lcsLen, last), EntryId);
      MapConcat(Members(init), last.members, InstanceId);
    }
  }

  /** Every instance of a profile yields exactly one entry, and nothing
      else does: the entries' instance ids are the instances' ids, as a
      multiset. */
  lemma EntriesPerInstance(s: ProfileSummary, noProfilePrefix: bool, lcsLen: (string, string) -> nat)
    ensures |ProfileEntries(s, noProfilePrefix, lcsLen)| == |s.instances|
    ensures multiset(Map(ProfileEntries(s, noProfilePrefix, lcsLen), EntryId)) == multiset(Map(s.instances, InstanceId))
  {
    var st := SettingOf(s, noProfilePrefix);
    var vgs := GroupBy(Ordered(s), VpcKey);
    var unsorted := UnsortedEntries(s, noProfilePrefix, lcsLen);
    VpcGroupsEntriesIds(st, lcsLen, vgs);
    GroupByPartition(Ordered(s), VpcKey);
    MapPermutation(Members(vgs), Ordered(s), InstanceId);
    MapPermutation(Ordered(s), s.instances, InstanceId);
    MapPermutation(ProfileEntries(s, noProfilePrefix, lcsLen), unsorted, EntryId);
    assert |multiset(Map(ProfileEntries(s, noProfilePrefix, lcsLen), EntryId))| == |multiset(Map(s.instances, InstanceId))|;
  }

  // ---------------------------------------------------------------------
  // Where each entry comes from

  /** The instances of one VPC with one name, in name-then-launch order:
      the members of one name group. */
  function NameMembers(s: ProfileSummary, vpc: string, name: string): seq<Instance> {
    Select(Select(Ordered(s), VpcKey, vpc), NameKey, name)
  }

  /** `slot` is the place TraverseProfiles gives its instance. */
  predicate ValidSlot(s: ProfileSummary, slot: Slot) {
    var x := slot.instance;
    && x in s.instances
    && NameKey(x) == slot.groupName
    && slot.vpcBastions == Bastions(Select(Ordered(s), VpcKey, x.vpcId), false)
    && slot.groupSize == |NameMembers(s, x.vpcId, slot.groupName)|
    && slot.position < slot.groupSize
    && NameMembers(s, x.vpcId, slot.groupName)[slot.position] == x
  }

  lemma {:induction false} InNameGroupsEntries(st: Setting, lcsLen: (string, string) -> nat, vpcBastions: seq<Instance>, gs: seq<Group<Instance>>, e: SSHEntry)
    requires e in NameGroupsEntries(st, lcsLen, vpcBastions, gs)
    ensures exists i :: 0 <= i < |gs| && e in NameGroupEntries(st, lcsLen, vpcBastions, gs[i])
  {
    var init := gs[..|gs| - 1];
    if e in NameGroupsEntries(st, lcsLen, vpcBastions, init) {
      InNameGroupsEntries(st, lcsLen, vpcBastions, init, e);
      var i :| 0 <= i < |init| && e in NameGroupEntries(st, lcsLen, vpcBastions, init[i]);
      assert gs[i] == init[i];
    } else {
      assert e in NameGroupEntries(st, lcsLen, vpcBastions, gs[|gs| - 1]);
    }
  }

  lemma {:induction false} InVpcGroupsEntries(st: Setting, lcsLen: (string, string) -> nat, vgs: seq<Group<Instance>>, e: SSHEntry)
    requires e in VpcGroupsEntries(st, lcsLen, vgs)
    ensures exists i :: 0 <= i < |vgs| && e in VpcEntries(st, lcsLen, vgs[i])
  {
    var init := vgs[..|vgs| - 1];
    if e in VpcGroupsEntries(st, lcsLen, init) {
      InVpcGroupsEntries(st, lcsLen, init, e);
      var i :| 0 <= i < |init| && e in VpcEntries(st, lcsLen, init[i]);
      assert vgs[i] == init[i];
    } else {
      assert e in VpcEntries(st, lcsLen, vgs[|vgs| - 1]);
    }
  }

  /** An instance of one name group of one VPC is an instance of the
      profile with that VPC and that name. */
  lemma NameMemberOf(s: ProfileSummary, vpc: string, name: string, n: nat)
    requires n < |NameMembers(s, vpc, name)|
    ensures var x := NameMembers(s, vpc, name)[n];
      x in s.instances && x.vpcId == vpc && NameKey(x) == name
  {
    var members := Select(Ordered(s), VpcKey, vpc);
    SelectMembers(members, NameKey, name);
    SelectMembers(Ordered(s), VpcKey, vpc);
    var x := NameMembers(s, vpc, name)[n];
    var m :| 0 <= m < |members| && members[m] == x;
    assert x in multiset(Ordered(s));
  }

  /** An entry of one name group determines a valid slot for it. */
  lemma SlotInNameGroup(s: ProfileSummary, noProfilePrefix: bool, lcsLen: (string, string) -> nat, vpc: string, name: string, e: SSHEntry)
    requires e in NameGroupEntries(SettingOf(s, noProfilePrefix), lcsLen,
      Bastions(Select(Ordered(s), VpcKey, vpc), false), Group(name, NameMembers(s, vpc, name)))
    ensures exists slot :: ValidSlot(s, slot) && e == EntryFor(SettingOf(s, noProfilePrefix), lcsLen, slot)
  {
    var ms := NameMembers(s, vpc, name);
    var vpcBastions := Bastions(Select(Ordered(s), VpcKey, vpc), false);
    var n :| 0 <= n < |ms| && NameGroupEntries(SettingOf(s, noProfilePrefix), lcsLen, vpcBastions, Group(name, ms))[n] == e;
    NameMemberOf(s, vpc, name, n);
    var slot := Slot(ms[n], vpcBastions, name, n, |ms|);
    assert ValidSlot(s, slot);
  }

  /** An entry of one VPC group determines a valid slot for it. */
  lemma SlotInVpc(s: ProfileSummary, noProfilePrefix: bool, lcsLen: (string, string) -> nat, vpc: string, e: SSHEntry)
    requires e in VpcEntries(SettingOf(s, noProfilePrefix), lcsLen, Group(vpc, Select(Ordered(s), VpcKey, vpc)))
    ensures exists slot :: ValidSlot(s, slot) && e == EntryFor(SettingOf(s, noProfilePrefix), lcsLen, slot)
  {
    var st := SettingOf(s, noProfilePrefix);
    var members := Select(Ordered(s), VpcKey, vpc);
    var nks := KeysOf(members, NameKey);
    var ngs := GroupBy(members, NameKey);
    var vpcBastions := Bastions(members, false);
    InNameGroupsEntries(st, lcsLen, vpcBastions, ngs, e);
    var j :| 0 <= j < |ngs| && e in NameGroupEntries(st, lcsLen, vpcBastions, ngs[j]);
    assert ngs[j] == Group(nks[j], NameMembers(s, vpc, nks[j]));
    SlotInNameGroup(s, noProfilePrefix, lcsLen, vpc, nks[j], e);
  }

  /** The group that holds an entry determines a valid slot for it. */
  lemma EntryOrigin(s: ProfileSummary, noProfilePrefix: bool, lcsLen: (string, string) -> nat, e: SSHEntry)
    requires e in ProfileEntries(s, noProfilePrefix, lcsLen)
    ensures exists slot :: ValidSlot(s, slot) && e == EntryFor(SettingOf(s, noProfilePrefix), lcsLen, slot)
  {
    var st := SettingOf(s, noProfilePrefix);
    var vks := KeysOf(Ordered(s), VpcKey);
    var vgs := GroupBy(Ordered(s), VpcKey);
    assert e in multiset(UnsortedEntries(s, noProfilePrefix, lcsLen));
    InVpcGroupsEntries(st, lcsLen, vgs, e);
    var i :| 0 <= i < |vgs| && e in VpcEntries(st, lcsLen, vgs[i]);
    assert vgs[i] == Group(vks[i], Select(Ordered(s), VpcKey, vks[i]));
    SlotInVpc(s, noProfilePrefix, lcsLen, vks[i], e);
  }

  // ---------------------------------------------------------------------
  // The entry of one slot

  /** An entry's fields: its profile, the instance's id, user and port, and
      the list of names (canonical, instance id, address.profile and, with
      a domain, canonical.domain). The canonical name is the sanitised
      profile-name-index and carries no run of separators. */
  lemma EntryShape(st: Setting, lcsLen: (string, string) -> nat, slot: Slot)
    ensures var e, x := EntryFor(st, lcsLen, slot), slot.instance;
      && e.profile == st.profile
      && e.instanceId == x.instanceId
      && e.user == UserFromTags(x.tags)
      && e.port == PortFromTags(x.tags)
      && |e.names| == (if st.profile.domain != "" then 4 else 3)
      && e.names[0] == CanonicalName(if st.noProfilePrefix then "" else st.profile.name,
                                     slot.groupName, IndexSuffix(slot.position, slot.groupSize))
      && IsSanitised(e.names[0])
      && e.names[1] == x.instanceId
      && e.names[2] == e.address + "." + st.profile.name
      && (st.profile.domain != "" ==> e.names[3] == e.names[0] + "." + st.profile.domain)
  {
    CanonicalNameIsSanitised(if st.noProfilePrefix then "" else st.profile.name,
                             slot.groupName, IndexSuffix(slot.position, slot.groupSize));
  }

  /** Whether the instance has a bastion in its own VPC. */
  predicate HasLocalBastion(s: ProfileSummary, x: Instance) {
    exists y :: y in s.instances && y.vpcId == x.vpcId && IsBastion(y.tags, false)
  }

  /** Whether the profile has a bastion tagged Global. */
  predicate HasGlobalBastion(s: ProfileSummary) {
    exists y :: y in s.instances && IsBastion(y.tags, true)
  }

  lemma LocalBastionsOf(s: ProfileSummary, x: Instance)
    ensures forall b :: b in Bastions(Select(Ordered(s), VpcKey, x.vpcId), false) <==>
      b in s.instances && b.vpcId == x.vpcId && IsBastion(b.tags, false)
  {
    var vpc := Select(Ordered(s), VpcKey, x.vpcId);
    BastionsMembers(vpc, false);
    SelectMembers(Ordered(s), VpcKey, x.vpcId);
    forall b | b in s.instances && b.vpcId == x.vpcId ensures b in vpc {
      assert b in multiset(Ordered(s));
      var k :| 0 <= k < |Ordered(s)| && Ordered(s)[k] == b;
    }
    forall b | b in vpc ensures b in s.instances {
      var k :| 0 <= k < |vpc| && vpc[k] == b;
      assert b in multiset(Ordered(s));
    }
  }

  lemma CommonBastionsOf(s: ProfileSummary, noProfilePrefix: bool)
    ensures forall b :: b in SettingOf(s, noProfilePrefix).common <==> b in s.instances && IsBastion(b.tags, true)
  {
    BastionsMembers(Ordered(s), true);
    forall b ensures b in Ordered(s) <==> b in s.instances {
      assert b in Ordered(s) <==> b in multiset(Ordered(s));
    }
  }

  /** How an entry is reached. An instance whose name contains "bastion"
      is always dialled directly. Otherwise a bastion of its own VPC is
      preferred, a Global one is the fallback, and only with neither is
      the instance dialled directly. Through a bastion, the entry dials the
      private address and jumps via the bastion's instance id; directly,
      it dials the public address when there is one. */
  lemma EntryRoute(s: ProfileSummary, noProfilePrefix: bool, lcsLen: (string, string) -> nat, slot: Slot)
    requires ValidSlot(s, slot)
    ensures var e, x := EntryFor(SettingOf(s, noProfilePrefix), lcsLen, slot), slot.instance;
      var b := ChooseBastion(SettingOf(s, noProfilePrefix), lcsLen, slot);
      && (b.None? <==> Contains(NameKey(x), BastionCanonicalName) || (!HasLocalBastion(s, x) && !HasGlobalBastion(s)))
      && (b.None? ==> e.proxyJump == "" && e.address == DirectAddress(x))
      && (b.Some? ==> && e.proxyJump == b.value.instanceId
                      && e.address == x.privateIp
                      && b.value in s.instances
                      && IsBastion(b.value.tags, false)
                      && (b.value.vpcId == x.vpcId || IsBastion(b.value.tags, true)))
      && (b.Some? && HasLocalBastion(s, x) ==> b.value.vpcId == x.vpcId)
      && (b.Some? && !HasLocalBastion(s, x) ==> IsBastion(b.value.tags, true))
  {
    var st := SettingOf(s, noProfilePrefix);
    var x := slot.instance;
    LocalBastionsOf(s, x);
    CommonBastionsOf(s, noProfilePrefix);
    BestBastionChoice(slot.groupName, slot.vpcBastions, lcsLen);
    BestBastionChoice(slot.groupName, st.common, lcsLen);
    var b := ChooseBastion(st, lcsLen, slot);
    if HasLocalBastion(s, x) {
      var y :| y in s.instances && y.vpcId == x.vpcId && IsBastion(y.tags, false);
      assert y in slot.vpcBastions;
    }
    if HasGlobalBastion(s) {
      var y :| y in s.instances && IsBastion(y.tags, true);
      assert y in st.common;
    }
    if b.Some? && b.value in st.common {
      GlobalBastionIsBastion(b.value.tags);
    }
  }

  // ---------------------------------------------------------------------
  // Orders

  /** Each profile's entries come sorted by canonical name. */
  lemma EntriesSortedByName(s: ProfileSummary, noProfilePrefix: bool, lcsLen: (string, string) -> nat)
    ensures var es := ProfileEntries(s, noProfilePrefix, lcsLen);
      && (forall i :: 0 <= i < |es| ==> |es[i].names| >= 3)
      && (forall i, j :: 0 <= i < j < |es| ==> LessOrEqual(es[i].names[0], es[j].names[0]))
  {
    var es := ProfileEntries(s, noProfilePrefix, lcsLen);
    forall i | 0 <= i < |es| ensures |es[i].names| >= 3 {
      EntryOrigin(s, noProfilePrefix, lcsLen, es[i]);
      var slot :| ValidSlot(s, slot) && es[i] == EntryFor(SettingOf(s, noProfilePrefix), lcsLen, slot);
      EntryShape(SettingOf(s, noProfilePrefix), lcsLen, slot);
    }
    SortBySorted(UnsortedEntries(s, noProfilePrefix, lcsLen), CanonicalOrder);
    forall i, j | 0 <= i < j < |es| ensures LessOrEqual(es[i].names[0], es[j].names[0]) {
      assert KeyLeq(CanonicalOrder(es[i]), CanonicalOrder(es[j]));
    }
  }

  /** Within a name group the instances keep launch-time order, oldest
      first, so the index suffixes number them by age. */
  lemma SiblingsByLaunchTime(s: ProfileSummary, vpc: string, name: string, p: nat, q: nat)
    requires p < q < |NameMembers(s, vpc, name)|
    ensures NameMembers(s, vpc, name)[p].launchTime <= NameMembers(s, vpc, name)[q].launchTime
  {
    var ms := NameMembers(s, vpc, name);
    SortBySorted(s.instances, LaunchOrder);
    SelectSorted(Ordered(s), VpcKey, vpc, LaunchOrder);
    SelectSorted(Select(Ordered(s), VpcKey, vpc), NameKey, name, LaunchOrder);
    SelectMembers(Select(Ordered(s), VpcKey, vpc), NameKey, name);
    assert KeyLeq(LaunchOrder(ms[p]), LaunchOrder(ms[q]));
    LessIrreflexive(name);
  }

  /** Two instances of one name group get different canonical names. */
  lemma SiblingEntriesDiffer(s: ProfileSummary, noProfilePrefix: bool, lcsLen: (string, string) -> nat, a: Slot, b: Slot)
    requires ValidSlot(s, a) && ValidSlot(s, b)
    requires a.instance.vpcId == b.instance.vpcId && a.groupName == b.groupName
    requires a.position != b.position
    ensures EntryFor(SettingOf(s, noProfilePrefix), lcsLen, a).names[0]
         != EntryFor(SettingOf(s, noProfilePrefix), lcsLen, b).names[0]
  {
    assert a.groupSize == b.groupSize > 1;
    SlotNamesDiffer(SettingOf(s, noProfilePrefix), lcsLen, a, b);
  }

  lemma SlotNamesDiffer(st: Setting, lcsLen: (string, string) -> nat, a: Slot, b: Slot)
    requires a.groupSize > 1 && b.groupSize > 1
    requires a.groupName == b.groupName && a.position != b.position
    ensures EntryFor(st, lcsLen, a).names[0] != EntryFor(st, lcsLen, b).names[0]
  {
    SiblingName(st, lcsLen, a);
    SiblingName(st, lcsLen, b);
    SiblingNamesDiffer(if st.noProfilePrefix then "" else st.profile.name, a.groupName, a.position + 1, b.position + 1);
  }

  /** In a group of more than one, the canonical name carries the 1-based
      position. */
  lemma SiblingName(st: Setting, lcsLen: (string, string) -> nat, slot: Slot)
    requires slot.groupSize > 1
    ensures EntryFor(st, lcsLen, slot).names[0]
         == CanonicalName(if st.noProfilePrefix then "" else st.profile.name,
                          slot.groupName, NatToString(slot.position + 1))
  {
  }

  // ---------------------------------------------------------------------
  // The collector

  /** Every query result is accounted for: each success once among the
      summaries, each failure once among the errors. */
  lemma CollectorAccounts(rs: seq<QueryResult>)
    ensures |Successes(rs)| + |Failures(rs)| == |rs|
    ensures forall p :: p in Successes(rs) <==> Described(p) in rs
    ensures forall m :: m in Failures(rs) <==> QueryFailed(m) in rs
    ensures forall p :: multiset(Successes(rs))[p] == multiset(rs)[Described(p)]
    ensures forall m :: multiset(Failures(rs))[m] == multiset(rs)[QueryFailed(m)]
  {
    CollectorLength(rs);
    forall p ensures multiset(Successes(rs))[p] == multiset(rs)[Described(p)] {
      SuccessCount(rs, p);
    }
    forall m ensures multiset(Failures(rs))[m] == multiset(rs)[QueryFailed(m)] {
      FailureCount(rs, m);
    }
  }

  /** Each result is a success or a failure. */
  lemma {:induction false} CollectorLength(rs: seq<QueryResult>)
    ensures |Successes(rs)| + |Failures(rs)| == |rs|
  {
    if rs != [] {
      CollectorLength(rs[..|rs| - 1]);
    }
  }

  /** A summary occurs among the successes as often as its result does. */
  lemma {:induction false} SuccessCount(rs: seq<QueryResult>, p: ProfileSummary)
    ensures multiset(Successes(rs))[p] == multiset(rs)[Described(p)]
  {
    if rs != [] {
      var init, last := rs[..|rs| - 1], rs[|rs| - 1];
      SuccessCount(init, p);
      assert rs == init + [last];
      assert multiset(rs) == multiset(init) + multiset{last};
      assert Successes(rs) == Successes(init) + (if last.Described? then [last.summary] else []);
    }
  }

  /** A message occurs among the failures as often as its result does. */
  lemma {:induction false} FailureCount(rs: seq<QueryResult>, m: string)
    ensures multiset(Failures(rs))[m] == multiset(rs)[QueryFailed(m)]
  {
    if rs != [] {
      var init, last := rs[..|rs| - 1], rs[|rs| - 1];
      FailureCount(init, m);
      assert rs == init + [last];
      assert multiset(rs) == multiset(init) + multiset{last};
      assert Failures(rs) == Failures(init) + (if last.QueryFailed? then [last.message] else []);
    }
  }

  /** The summaries are processed in order of profile name, and none is
      lost or repeated. */
  lemma SummariesByProfileName(rs: seq<QueryResult>)
    ensures multiset(SortedSummaries(rs)) == multiset(Successes(rs))
    ensures var ss := SortedSummaries(rs);
      forall i, j :: 0 <= i < j < |ss| ==> LessOrEqual(ss[i].profile.name, ss[j].profile.name)
  {
    SortBySorted(Successes(rs), ProfileOrder);
    var ss := SortedSummaries(rs);
    forall i, j | 0 <= i < j < |ss| ensures LessOrEqual(ss[i].profile.name, ss[j].profile.name) {
      assert KeyLeq(ProfileOrder(ss[i]), ProfileOrder(ss[j]));
    }
  }
}
