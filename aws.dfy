/** lib/aws.go, TraverseProfiles after the per-profile queries: collecting
    the query results, and turning every profile's raw instances into
    SSHEntry records (grouping by VPC and by name, choosing a bastion, an
    address and a disambiguating index, listing the names, sorting). */
module Aws {
  import opened Strings
  import opened Sequences
  import opened Types
  import opened Wrappers
  import opened Util

  /** profileSummary: a profile and the raw instances found for it. */
  datatype ProfileSummary = ProfileSummary(profile: ProfileConfig, instances: seq<Instance>)

  /** ProcessedProfileSummary: a profile and its resolved entries. */
  datatype ProcessedProfileSummary = ProcessedProfileSummary(profile: ProfileConfig, entries: seq<SSHEntry>)

  /** What the query of one profile delivers: a summary, or an error message. */
  datatype QueryResult = Described(summary: ProfileSummary) | QueryFailed(message: string)

  // ---------------------------------------------------------------------
  // Keys the source sorts and groups by

  function NameKey(i: Instance): string {
    NameFromTags(i.tags)
  }

  function VpcKey(i: Instance): string {
    i.vpcId
  }

  /** instanceNameSorter, then instanceLaunchTimeSorter. */
  function LaunchOrder(i: Instance): Key {
    Key(NameKey(i), i.launchTime)
  }

  /** The first (canonical) name. */
  function CanonicalOrder(e: SSHEntry): Key {
    Key(if |e.names| > 0 then e.names[0] else "", 0)
  }

  function ProfileOrder(s: ProfileSummary): Key {
    Key(s.profile.name, 0)
  }

  /** The instances that isBastionFromTags accepts, in their order. */
  function Bastions(xs: seq<Instance>, checkGlobal: bool): seq<Instance> {
    if xs == [] then []
    else (if IsBastion(xs[0].tags, checkGlobal) then [xs[0]] else []) + Bastions(xs[1..], checkGlobal)
  }

  /** Bastions keeps exactly the instances isBastionFromTags accepts. */
  lemma {:induction false} BastionsMembers(xs: seq<Instance>, checkGlobal: bool)
    ensures forall b :: b in Bastions(xs, checkGlobal) <==> b in xs && IsBastion(b.tags, checkGlobal)
  {
    if xs != [] {
      BastionsMembers(xs[1..], checkGlobal);
      assert xs == [xs[0]] + xs[1..];
    }
  }

  // ---------------------------------------------------------------------
  // One entry

  /** What stays fixed while one profile is processed: the profile, its
      Global bastions in name-then-launch order, and the no-prefix flag. */
  datatype Setting = Setting(profile: ProfileConfig, common: seq<Instance>, noProfilePrefix: bool)

  /** An instance's place in the grouping: the bastions of its VPC, the
      key of its name group, its position in that group and the group's
      size. */
  datatype Slot = Slot(instance: Instance, vpcBastions: seq<Instance>, groupName: string, position: nat, groupSize: nat)

  /** A bastion of the instance's own VPC first; a Global one only when that
      gives none. */
  function ChooseBastion(st: Setting, lcsLen: (string, string) -> nat, slot: Slot): Option<Instance> {
    match BestBastion(slot.groupName, slot.vpcBastions, lcsLen)
    case Some(b) => Some(b)
    case None => BestBastion(slot.groupName, st.common, lcsLen)
  }

  /** The address used without a bastion: the public IP when there is one. */
  function DirectAddress(i: Instance): string {
    if i.publicIp != "" then i.publicIp else i.privateIp
  }

  /** The 1-based position, only in a group of more than one. */
  function IndexSuffix(position: nat, groupSize: nat): string {
    if groupSize > 1 then NatToString(position + 1) else ""
  }

  /** The entry the loop body of TraverseProfiles builds for one slot. */
  function EntryFor(st: Setting, lcsLen: (string, string) -> nat, slot: Slot): SSHEntry {
    var bastion := ChooseBastion(st, lcsLen, slot);
    var address := if bastion.Some? then slot.instance.privateIp else DirectAddress(slot.instance);
    var proxyJump := if bastion.Some? then bastion.value.instanceId else "";
    var name := CanonicalName(if st.noProfilePrefix then "" else st.profile.name,
                              slot.groupName, IndexSuffix(slot.position, slot.groupSize));
    var names := [name, slot.instance.instanceId, address + "." + st.profile.name]
      + (if st.profile.domain != "" then [name + "." + st.profile.domain] else []);
    SSHEntry(st.profile, address, slot.instance.instanceId, proxyJump,
             PortFromTags(slot.instance.tags), UserFromTags(slot.instance.tags), names)
  }

  /** The bastion search of the loop body: the instance's own VPC first,
      then the Global bastions. */
  method FindBastion(st: Setting, lcsLen: (string, string) -> nat, slot: Slot) returns (bastion: Option<Instance>)
    ensures bastion == ChooseBastion(st, lcsLen, slot)
  {
    bastion := FindBestBastion(slot.groupName, slot.vpcBastions, lcsLen);
    if bastion.None? {
      bastion := FindBestBastion(slot.groupName, st.common, lcsLen);
    }
  }

  /** The canonical name of the loop body: the index suffix only in a group
      of more than one, the profile name left out on request. */
  method SlotName(st: Setting, slot: Slot) returns (name: string)
    ensures name == CanonicalName(if st.noProfilePrefix then "" else st.profile.name,
                                  slot.groupName, IndexSuffix(slot.position, slot.groupSize))
  {
    var instanceIndex := "";
    if slot.groupSize > 1 {
      instanceIndex := NatToString(slot.position + 1);
    }
    name := CanonicalName(st.profile.name, slot.groupName, instanceIndex);
    if st.noProfilePrefix {
      name := CanonicalName("", slot.groupName, instanceIndex);
    }
  }

  method NewEntry(st: Setting, lcsLen: (string, string) -> nat, slot: Slot) returns (entry: SSHEntry)
    ensures entry == EntryFor(st, lcsLen, slot)
  {
    var instance := slot.instance;
    entry := SSHEntry(st.profile, "", instance.instanceId, "", "", "", []);
    entry := entry.(user := UserFromTags(instance.tags));
    entry := entry.(port := PortFromTags(instance.tags));

    var bastion := FindBastion(st, lcsLen, slot);
    entry := entry.(address := instance.privateIp);
    if bastion.Some? {
      entry := entry.(proxyJump := bastion.value.instanceId);
    } else {
      var publicIp := instance.publicIp;
      if publicIp != "" {
        entry := entry.(address := instance.publicIp);
      }
    }
    var name := SlotName(st, slot);
    entry := entry.(names := entry.names + [name, entry.instanceId, entry.address + "." + entry.profile.name]);
    if st.profile.domain != "" {
      entry := entry.(names := entry.names + [name + "." + st.profile.domain]);
    }
  }

  // ---------------------------------------------------------------------
  // All entries of one profile

  function NameGroupEntries(st: Setting, lcsLen: (string, string) -> nat, vpcBastions: seq<Instance>, g: Group<Instance>): (es: seq<SSHEntry>)
    ensures |es| == |g.members|
  {
    seq(|g.members|, n requires 0 <= n < |g.members| =>
      EntryFor(st, lcsLen, Slot(g.members[n], vpcBastions, g.key, n, |g.members|)))
  }

  function NameGroupsEntries(st: Setting, lcsLen: (string, string) -> nat, vpcBastions: seq<Instance>, gs: seq<Group<Instance>>): seq<SSHEntry> {
    if gs == [] then []
    else NameGroupsEntries(st, lcsLen, vpcBastions, gs[..|gs| - 1]) + NameGroupEntries(st, lcsLen, vpcBastions, gs[|gs| - 1])
  }

  lemma NameGroupsEntriesAppend(st: Setting, lcsLen: (string, string) -> nat, vpcBastions: seq<Instance>, gs: seq<Group<Instance>>, g: Group<Instance>)
    ensures NameGroupsEntries(st, lcsLen, vpcBastions, gs + [g])
         == NameGroupsEntries(st, lcsLen, vpcBastions, gs) + NameGroupEntries(st, lcsLen, vpcBastions, g)
  {
    assert (gs + [g])[..|gs|] == gs;
  }

  lemma NameGroupsStep(st: Setting, lcsLen: (string, string) -> nat, vpcBastions: seq<Instance>, gs: seq<Group<Instance>>, g: nat)
    requires g < |gs|
    ensures NameGroupsEntries(st, lcsLen, vpcBastions, gs[..g + 1])
         == NameGroupsEntries(st, lcsLen, vpcBastions, gs[..g]) + NameGroupEntries(st, lcsLen, vpcBastions, gs[g])
  {
    assert gs[..g + 1] == gs[..g] + [gs[g]];
    NameGroupsEntriesAppend(st, lcsLen, vpcBastions, gs[..g], gs[g]);
  }

  function VpcEntries(st: Setting, lcsLen: (string, string) -> nat, vg: Group<Instance>): seq<SSHEntry> {
    NameGroupsEntries(st, lcsLen, Bastions(vg.members, false), GroupBy(vg.members, NameKey))
  }

  function VpcGroupsEntries(st: Setting, lcsLen: (string, string) -> nat, vgs: seq<Group<Instance>>): seq<SSHEntry> {
    if vgs == [] then []
    else VpcGroupsEntries(st, lcsLen, vgs[..|vgs| - 1]) + VpcEntries(st, lcsLen, vgs[|vgs| - 1])
  }

  lemma VpcGroupsEntriesAppend(st: Setting, lcsLen: (string, string) -> nat, vgs: seq<Group<Instance>>, vg: Group<Instance>)
    ensures VpcGroupsEntries(st, lcsLen, vgs + [vg]) == VpcGroupsEntries(st, lcsLen, vgs) + VpcEntries(st, lcsLen, vg)
  {
    assert (vgs + [vg])[..|vgs|] == vgs;
  }

  lemma VpcGroupsStep(st: Setting, lcsLen: (string, string) -> nat, vgs: seq<Group<Instance>>, v: nat)
    requires v < |vgs|
    ensures VpcGroupsEntries(st, lcsLen, vgs[..v + 1]) == VpcGroupsEntries(st, lcsLen, vgs[..v]) + VpcEntries(st, lcsLen, vgs[v])
  {
    assert vgs[..v + 1] == vgs[..v] + [vgs[v]];
    VpcGroupsEntriesAppend(st, lcsLen, vgs[..v], vgs[v]);
  }

  function Ordered(s: ProfileSummary): seq<Instance> {
    SortBy(s.instances, LaunchOrder)
  }

  function SettingOf(s: ProfileSummary, noProfilePrefix: bool): Setting {
    Setting(s.profile, Bastions(Ordered(s), true), noProfilePrefix)
  }

  /** The entries in the order the nested loops produce them. */
  function UnsortedEntries(s: ProfileSummary, noProfilePrefix: bool, lcsLen: (string, string) -> nat): seq<SSHEntry> {
    VpcGroupsEntries(SettingOf(s, noProfilePrefix), lcsLen, GroupBy(Ordered(s), VpcKey))
  }

  /** The entries of one profile, as TraverseProfiles hands them on. */
  function ProfileEntries(s: ProfileSummary, noProfilePrefix: bool, lcsLen: (string, string) -> nat): seq<SSHEntry> {
    SortBy(UnsortedEntries(s, noProfilePrefix, lcsLen), CanonicalOrder)
  }

  /** The innermost loop of TraverseProfiles: the entries of one name group. */
  method BuildNameGroupEntries(st: Setting, lcsLen: (string, string) -> nat, vpcBastions: seq<Instance>, nameGroup: Group<Instance>)
    returns (entries: seq<SSHEntry>)
    ensures entries == NameGroupEntries(st, lcsLen, vpcBastions, nameGroup)
  {
    entries := [];
    for n := 0 to |nameGroup.members|
      invariant entries == NameGroupEntries(st, lcsLen, vpcBastions, nameGroup)[..n]
    {
      var entry := NewEntry(st, lcsLen, Slot(nameGroup.members[n], vpcBastions, nameGroup.key, n, |nameGroup.members|));
      entries := entries + [entry];
    }
  }

  /** The loop over one VPC's name groups. */
  method BuildNameGroupsEntries(st: Setting, lcsLen: (string, string) -> nat, vpcBastions: seq<Instance>, nameInstances: seq<Group<Instance>>)
    returns (entries: seq<SSHEntry>)
    ensures entries == NameGroupsEntries(st, lcsLen, vpcBastions, nameInstances)
  {
    entries := [];
    for g := 0 to |nameInstances|
      invariant entries == NameGroupsEntries(st, lcsLen, vpcBastions, nameInstances[..g])
    {
      var groupEntries := BuildNameGroupEntries(st, lcsLen, vpcBastions, nameInstances[g]);
      NameGroupsStep(st, lcsLen, vpcBastions, nameInstances, g);
      entries := entries + groupEntries;
    }
    assert nameInstances[..|nameInstances|] == nameInstances;
  }

  /** The body of the loop over the VPC groups. */
  method BuildVpcEntries(st: Setting, lcsLen: (string, string) -> nat, vpcGroup: Group<Instance>)
    returns (entries: seq<SSHEntry>)
    ensures entries == VpcEntries(st, lcsLen, vpcGroup)
  {
    var vpcBastions := Bastions(vpcGroup.members, false);
    var nameInstances := GroupBy(vpcGroup.members, NameKey);
    entries := BuildNameGroupsEntries(st, lcsLen, vpcBastions, nameInstances);
  }

  /** The loop over the VPC groups of one profile. */
  method BuildVpcGroupsEntries(st: Setting, lcsLen: (string, string) -> nat, vpcInstances: seq<Group<Instance>>)
    returns (entries: seq<SSHEntry>)
    ensures entries == VpcGroupsEntries(st, lcsLen, vpcInstances)
  {
    entries := [];
    for v := 0 to |vpcInstances|
      invariant entries == VpcGroupsEntries(st, lcsLen, vpcInstances[..v])
    {
      var vpcEntries := BuildVpcEntries(st, lcsLen, vpcInstances[v]);
      VpcGroupsStep(st, lcsLen, vpcInstances, v);
      entries := entries + vpcEntries;
    }
    assert vpcInstances[..|vpcInstances|] == vpcInstances;
  }

  method BuildProfileEntries(summary: ProfileSummary, noProfilePrefix: bool, lcsLen: (string, string) -> nat)
    returns (entries: seq<SSHEntry>)
    ensures entries == ProfileEntries(summary, noProfilePrefix, lcsLen)
  {
    var ordered := SortBy(summary.instances, LaunchOrder);
    var vpcInstances := GroupBy(ordered, VpcKey);
    var commonBastions := Bastions(ordered, true);
    var st := Setting(summary.profile, commonBastions, noProfilePrefix);
    var profileEntries := BuildVpcGroupsEntries(st, lcsLen, vpcInstances);
    entries := SortBy(profileEntries, CanonicalOrder);
  }

  // ---------------------------------------------------------------------
  // The collector and the whole traversal

  function Successes(rs: seq<QueryResult>): seq<ProfileSummary> {
    if rs == [] then []
    else Successes(rs[..|rs| - 1]) + (if rs[|rs| - 1].Described? then [rs[|rs| - 1].summary] else [])
  }

  /** The aggregate error: one message per failed query ([] for nil). */
  function Failures(rs: seq<QueryResult>): seq<string> {
    if rs == [] then []
    else Failures(rs[..|rs| - 1]) + (if rs[|rs| - 1].QueryFailed? then [rs[|rs| - 1].message] else [])
  }

  function Process(s: ProfileSummary, noProfilePrefix: bool, lcsLen: (string, string) -> nat): ProcessedProfileSummary {
    ProcessedProfileSummary(s.profile, ProfileEntries(s, noProfilePrefix, lcsLen))
  }

  function SortedSummaries(rs: seq<QueryResult>): seq<ProfileSummary> {
    SortBy(Successes(rs), ProfileOrder)
  }

  /** The body of the last loop of TraverseProfiles. */
  method ProcessSummary(summary: ProfileSummary, noProfilePrefix: bool, lcsLen: (string, string) -> nat)
    returns (result: ProcessedProfileSummary)
    ensures result == Process(summary, noProfilePrefix, lcsLen)
  {
    var profileEntries := BuildProfileEntries(summary, noProfilePrefix, lcsLen);
    result := ProcessedProfileSummary(summary.profile, profileEntries);
  }

  /** The collector of TraverseProfiles: summaries and errors in arrival order. */
  method Collect(results: seq<QueryResult>) returns (profileSummaries: seq<ProfileSummary>, errors: seq<string>)
    ensures profileSummaries == Successes(results)
    ensures errors == Failures(results)
  {
    profileSummaries := [];
    errors := [];
    for n := 0 to |results|
      invariant profileSummaries == Successes(results[..n])
      invariant errors == Failures(results[..n])
    {
      assert results[..n + 1][..n] == results[..n];
      match results[n]
      case Described(summary) =>
        profileSummaries := profileSummaries + [summary];
      case QueryFailed(err) =>
        errors := errors + [err];
    }
    assert results[..|results|] == results;
  }

  /** TraverseProfiles from the collection loop on, over the results of the
      per-profile queries in the order they arrive. */
  method TraverseProfiles(results: seq<QueryResult>, noProfilePrefix: bool, lcsLen: (string, string) -> nat)
    returns (processed: seq<ProcessedProfileSummary>, errors: seq<string>)
    ensures errors == Failures(results)
    ensures |processed| == |SortedSummaries(results)|
    ensures forall i :: 0 <= i < |processed| ==>
      processed[i] == Process(SortedSummaries(results)[i], noProfilePrefix, lcsLen)
  {
    var profileSummaries;
    profileSummaries, errors := Collect(results);
    profileSummaries := SortBy(profileSummaries, ProfileOrder);
    processed := ProcessSummaries(profileSummaries, noProfilePrefix, lcsLen);
  }

  /** The last loop of TraverseProfiles: one processed summary per summary. */
  method ProcessSummaries(profileSummaries: seq<ProfileSummary>, noProfilePrefix: bool, lcsLen: (string, string) -> nat)
    returns (processed: seq<ProcessedProfileSummary>)
    ensures |processed| == |profileSummaries|
    ensures forall i :: 0 <= i < |processed| ==> processed[i] == Process(profileSummaries[i], noProfilePrefix, lcsLen)
  {
    processed := [];
    for i := 0 to |profileSummaries|
      invariant |processed| == i
      invariant forall k :: 0 <= k < i ==> processed[k] == Process(profileSummaries[k], noProfilePrefix, lcsLen)
    {
      var result := ProcessSummary(profileSummaries[i], noProfilePrefix, lcsLen);
      processed := processed + [result];
    }
  }
}
