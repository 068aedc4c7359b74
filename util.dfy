/** lib/util.go: reading EC2 tags, recognising bastions, choosing a bastion
    for an instance, and building an instance's canonical name. */
module Util {
  import opened Strings
  import opened Sequences
  import opened Types
  import opened Wrappers

  const BastionCanonicalName := "bastion"

  // ---------------------------------------------------------------------
  // Tag reading

  /** The value of the first tag whose key is exactly `key`, or "". */
  function TagValue(tags: seq<Tag>, key: string): string {
    if tags == [] then ""
    else if tags[0].key == key then tags[0].value
    else TagValue(tags[1..], key)
  }

  /** `i` is the position of the first tag with key `key`. */
  predicate FirstWithKey(tags: seq<Tag>, key: string, i: int) {
    0 <= i < |tags| && tags[i].key == key && forall j :: 0 <= j < i ==> tags[j].key != key
  }

  lemma {:induction false} TagValueFirstMatch(tags: seq<Tag>, key: string, i: int)
    requires FirstWithKey(tags, key, i)
    ensures TagValue(tags, key) == tags[i].value
  {
    if i > 0 {
      assert tags[0].key != key;
      assert FirstWithKey(tags[1..], key, i - 1);
      TagValueFirstMatch(tags[1..], key, i - 1);
    }
  }

  lemma {:induction false} TagValueNoMatch(tags: seq<Tag>, key: string)
    requires forall j :: 0 <= j < |tags| ==> tags[j].key != key
    ensures TagValue(tags, key) == ""
  {
    if tags != [] {
      TagValueNoMatch(tags[1..], key);
    }
  }

  /** getTagValue: a search for the first tag with the key, which, when asked
      to ignore case, lower-cases only the query and still compares it
      exactly with the stored keys. */
  method GetTagValue(tag: string, tags: seq<Tag>, caseInsensitive: bool) returns (value: string)
    ensures value == TagValue(tags, if caseInsensitive then Lower(tag) else tag)
  {
    var key := tag;
    if caseInsensitive {
      key := Lower(tag);
    }
    for i := 0 to |tags|
      invariant TagValue(tags, key) == TagValue(tags[i..], key)
    {
      assert tags[i..][1..] == tags[i + 1..];
      if tags[i].key == key {
        return tags[i].value;
      }
    }
    return "";
  }

  /** A case-insensitive lookup never matches a stored key that has an
      upper-case letter in it, because only the query is lower-cased. */
  lemma {:induction false} CaseInsensitiveSkipsUpperCaseKeys(tags: seq<Tag>, key: string)
    requires forall j :: 0 <= j < |tags| ==> !IsLowerCase(tags[j].key)
    ensures TagValue(tags, Lower(key)) == ""
  {
    if tags != [] {
      assert tags[0].key != Lower(key);
      CaseInsensitiveSkipsUpperCaseKeys(tags[1..], key);
    }
  }

  /** getNameFromTags: the lower-cased value of the "Name" tag. */
  function NameFromTags(tags: seq<Tag>): (name: string)
    ensures IsLowerCase(name) && |name| == |TagValue(tags, "Name")|
  {
    Lower(TagValue(tags, "Name"))
  }

  /** getPortFromTags: the lower-cased value of the "x-aws-ssh-port" tag. */
  function PortFromTags(tags: seq<Tag>): (port: string)
    ensures IsLowerCase(port) && |port| == |TagValue(tags, "x-aws-ssh-port")|
  {
    Lower(TagValue(tags, "x-aws-ssh-port"))
  }

  /** GetUserFromTags: the lower-cased value of the "x-aws-ssh-user" tag. */
  function UserFromTags(tags: seq<Tag>): (user: string)
    ensures IsLowerCase(user) && |user| == |TagValue(tags, "x-aws-ssh-user")|
  {
    Lower(TagValue(tags, "x-aws-ssh-user"))
  }

  // ---------------------------------------------------------------------
  // Bastion detection

  /** A tag that declares the instance usable from every VPC of its account. */
  predicate IsGlobalTag(t: Tag) {
    && (t.key == "Global" || t.key == "x-aws-ssh-global")
    && var v := Lower(t.value); v == "yes" || v == "true" || v == "1"
  }

  predicate HasGlobalFlag(tags: seq<Tag>) {
    exists i :: 0 <= i < |tags| && IsGlobalTag(tags[i])
  }

  /** The lower-cased value of the LAST "Name" tag, or "": the loop in
      isBastionFromTags overwrites its `name` at every "Name" tag. */
  function LastName(tags: seq<Tag>): string {
    if tags == [] then ""
    else if tags[|tags| - 1].key == "Name" then Lower(tags[|tags| - 1].value)
    else LastName(tags[..|tags| - 1])
  }

  /** What isBastionFromTags decides: the tags are not empty, the name
      contains "bastion", and, when asked, a Global flag is set. */
  predicate IsBastion(tags: seq<Tag>, checkGlobal: bool) {
    && |tags| > 0
    && Contains(LastName(tags), BastionCanonicalName)
    && (checkGlobal ==> HasGlobalFlag(tags))
  }

  method IsBastionFromTags(tags: seq<Tag>, checkGlobal: bool) returns (isBastion: bool)
    ensures isBastion == IsBastion(tags, checkGlobal)
  {
    if |tags| > 0 {
      var name := "";
      var global := false;
      for i := 0 to |tags|
        invariant name == LastName(tags[..i])
        invariant global == exists j :: 0 <= j < i && IsGlobalTag(tags[j])
      {
        assert tags[..i + 1][..i] == tags[..i];
        var key := tags[i].key;
        if key == "Name" {
          name := Lower(tags[i].value);
        } else if key == "Global" || key == "x-aws-ssh-global" {
          var value := Lower(tags[i].value);
          if value == "yes" || value == "true" || value == "1" {
            global := true;
          }
        }
      }
      assert tags[..|tags|] == tags;
      if Contains(name, BastionCanonicalName) {
        if checkGlobal {
          if global {
            return true;
          }
        } else {
          return true;
        }
      }
    }
    return false;
  }

  /** A Global bastion is a bastion. */
  lemma GlobalBastionIsBastion(tags: seq<Tag>)
    requires IsBastion(tags, true)
    ensures IsBastion(tags, false)
  {
  }

  lemma {:induction false} LastNameOfLastMatch(tags: seq<Tag>, i: int)
    requires 0 <= i < |tags| && tags[i].key == "Name"
    requires forall j :: i < j < |tags| ==> tags[j].key != "Name"
    ensures LastName(tags) == Lower(tags[i].value)
    decreases |tags|
  {
    if i < |tags| - 1 {
      LastNameOfLastMatch(tags[..|tags| - 1], i);
    }
  }

  lemma {:induction false} LastNameNoMatch(tags: seq<Tag>)
    requires forall j :: 0 <= j < |tags| ==> tags[j].key != "Name"
    ensures LastName(tags) == ""
  {
    if tags != [] {
      LastNameNoMatch(tags[..|tags| - 1]);
    }
  }

  /** When an instance carries at most one "Name" tag (EC2 keeps tag keys
      unique), the name bastion detection looks at is the name the rest of
      the program uses, getNameFromTags. */
  lemma BastionNameIsName(tags: seq<Tag>)
    requires forall i, j :: 0 <= i < j < |tags| && tags[i].key == "Name" ==> tags[j].key != "Name"
    ensures LastName(tags) == NameFromTags(tags)
  {
    if i :| 0 <= i < |tags| && tags[i].key == "Name" {
      LastNameOfLastMatch(tags, i);
      assert FirstWithKey(tags, "Name", i);
      TagValueFirstMatch(tags, "Name", i);
    } else {
      LastNameNoMatch(tags);
      TagValueNoMatch(tags, "Name");
    }
  }

  // ---------------------------------------------------------------------
  // Bastion selection

  /** One element of the `weights` slice: a position in the bastion list and
      the similarity score of that bastion. */
  datatype Weight = Weight(index: nat, weight: nat)

  function WeightOrder(w: Weight): Key {
    Key("", w.weight)
  }

  /** The score of a bastion: the LCS length of the two names, supplied by
      the caller as `lcsLen`. */
  function WeightsOf(instanceName: string, bastions: seq<Instance>, lcsLen: (string, string) -> nat): (ws: seq<Weight>)
    ensures |ws| == |bastions|
  {
    seq(|bastions|, n requires 0 <= n < |bastions| =>
      Weight(n, lcsLen(instanceName, NameFromTags(bastions[n].tags))))
  }

  /** The bastion findBestBastion returns, or None for nil. With two or more
      candidates it sorts the weights ascending and takes the first. */
  function BestBastion(instanceName: string, bastions: seq<Instance>, lcsLen: (string, string) -> nat): Option<Instance> {
    if Contains(instanceName, BastionCanonicalName) || |bastions| == 0 then None
    else if |bastions| == 1 then Some(bastions[0])
    else
      var sorted := SortBy(WeightsOf(instanceName, bastions, lcsLen), WeightOrder);
      assert sorted[0] in multiset(WeightsOf(instanceName, bastions, lcsLen));
      Some(bastions[sorted[0].index])
  }

  method FindBestBastion(instanceName: string, bastions: seq<Instance>, lcsLen: (string, string) -> nat)
    returns (bastion: Option<Instance>)
    ensures bastion == BestBastion(instanceName, bastions, lcsLen)
  {
    if !Contains(instanceName, BastionCanonicalName) && |bastions| > 0 {
      if |bastions| == 1 {
        return Some(bastions[0]);
      }
      var weights: seq<Weight> := [];
      for n := 0 to |bastions|
        invariant weights == WeightsOf(instanceName, bastions, lcsLen)[..n]
      {
        var bastionName := NameFromTags(bastions[n].tags);
        var weight := lcsLen(instanceName, bastionName);
        weights := weights + [Weight(n, weight)];
      }
      assert weights == WeightsOf(instanceName, bastions, lcsLen);
      var sorted := SortBy(weights, WeightOrder);
      assert sorted[0] in multiset(weights);
      return Some(bastions[sorted[0].index]);
    }
    return None;
  }

  /** What findBestBastion guarantees: nothing for an instance that is itself
      a bastion or when there are no candidates; the only candidate whatever
      its score; otherwise a candidate whose score is no larger than any
      other's (the SMALLEST longest common subsequence). */
  lemma BestBastionChoice(instanceName: string, bastions: seq<Instance>, lcsLen: (string, string) -> nat)
    ensures var r := BestBastion(instanceName, bastions, lcsLen);
      && (r.None? <==> Contains(instanceName, BastionCanonicalName) || |bastions| == 0)
      && (r.Some? && |bastions| == 1 ==> r.value == bastions[0])
      && (r.Some? ==> r.value in bastions)
      && (r.Some? ==> forall b :: b in bastions ==>
            lcsLen(instanceName, NameFromTags(r.value.tags)) <= lcsLen(instanceName, NameFromTags(b.tags)))
  {
    var r := BestBastion(instanceName, bastions, lcsLen);
    if r.Some? && |bastions| > 1 {
      var ws := WeightsOf(instanceName, bastions, lcsLen);
      var sorted := SortBy(ws, WeightOrder);
      SortBySorted(ws, WeightOrder);
      assert sorted[0] in multiset(ws);
      var k :| 0 <= k < |ws| && ws[k] == sorted[0];
      forall b | b in bastions
        ensures lcsLen(instanceName, NameFromTags(r.value.tags)) <= lcsLen(instanceName, NameFromTags(b.tags))
      {
        var m :| 0 <= m < |bastions| && bastions[m] == b;
        assert ws[m] in multiset(sorted);
        var p :| 0 <= p < |sorted| && sorted[p] == ws[m];
        if p > 0 {
          assert KeyLeq(WeightOrder(sorted[0]), WeightOrder(sorted[p]));
        }
      }
    }
  }

  // ---------------------------------------------------------------------
  // Canonical names

  /** The characters the sanitiser `[\s-]+` matches: RE2's `\s` (tab, line
      feed, form feed, carriage return, space) and the hyphen. */
  predicate IsSeparator(c: char) {
    c == ' ' || c == '\t' || c == '\n' || c == '\r' || c as int == 12 || c == '-'
  }

  /** Replaces every maximal run of separators by one "-"; `inRun` says
      that a separator run is already open (and so already written). */
  function Collapse(s: string, inRun: bool): (r: string)
    ensures forall i :: 0 <= i < |r| && IsSeparator(r[i]) ==> r[i] == '-'
    ensures forall i :: 0 <= i < |r| - 1 ==> !(IsSeparator(r[i]) && IsSeparator(r[i + 1]))
    ensures inRun && |r| > 0 ==> !IsSeparator(r[0])
  {
    if s == [] then []
    else if IsSeparator(s[0]) then
      var rest := Collapse(s[1..], true);
      if inRun then rest else "-" + rest
    else [s[0]] + Collapse(s[1..], false)
  }

  /** sanitiser.ReplaceAllString(s, "-"). */
  function Sanitise(s: string): string {
    Collapse(s, false)
  }

  /** A string the sanitiser leaves alone: its only separator is "-" and no
      two separators are adjacent. */
  predicate IsSanitised(s: string) {
    && (forall i :: 0 <= i < |s| && IsSeparator(s[i]) ==> s[i] == '-')
    && (forall i :: 0 <= i < |s| - 1 ==> !(IsSeparator(s[i]) && IsSeparator(s[i + 1])))
  }

  lemma {:induction false} CollapseClean(s: string, inRun: bool)
    requires IsSanitised(s)
    requires inRun ==> |s| == 0 || !IsSeparator(s[0])
    ensures Collapse(s, inRun) == s
  {
    if s != [] {
      assert IsSanitised(s[1..]) by {
        forall i | 0 <= i < |s[1..]| - 1
          ensures !(IsSeparator(s[1..][i]) && IsSeparator(s[1..][i + 1]))
        {
          assert s[1..][i] == s[i + 1] && s[1..][i + 1] == s[i + 2];
        }
      }
      if |s| > 1 {
        assert !(IsSeparator(s[0]) && IsSeparator(s[1]));
      }
      CollapseClean(s[1..], IsSeparator(s[0]));
    }
  }

  /** The result of sanitising contains no whitespace and no "--", and
      sanitising it again changes nothing. */
  lemma SanitiseIdempotent(s: string)
    ensures IsSanitised(Sanitise(s))
    ensures Sanitise(Sanitise(s)) == Sanitise(s)
  {
    CollapseClean(Sanitise(s), false);
  }

  /** The characters of `s` that are not separators. */
  function Kept(s: string): string {
    if s == [] then [] else (if IsSeparator(s[0]) then [] else [s[0]]) + Kept(s[1..])
  }

  /** Sanitising only rewrites separators: every other character survives,
      in order. */
  lemma {:induction false} CollapseKeeps(s: string, inRun: bool)
    ensures Kept(Collapse(s, inRun)) == Kept(s)
  {
    if s != [] {
      CollapseKeeps(s[1..], IsSeparator(s[0]));
      var rest := Collapse(s[1..], IsSeparator(s[0]));
      if IsSeparator(s[0]) && !inRun {
        assert ("-" + rest)[1..] == rest;
      } else if !IsSeparator(s[0]) {
        assert ([s[0]] + rest)[1..] == rest;
      }
    }
  }

  /** A separator run cannot reach across a boundary behind which a
      non-separator stands, so the two sides are sanitised independently. */
  lemma {:induction false} CollapseAppend(a: string, b: string, inRun: bool)
    requires b == [] || !IsSeparator(b[0])
    ensures Collapse(a + b, inRun) == Collapse(a, inRun) + Collapse(b, false)
  {
    if a == [] {
      assert a + b == b;
      if b != [] {
        assert Collapse(b, inRun) == [b[0]] + Collapse(b[1..], false);
      }
    } else {
      assert (a + b)[1..] == a[1..] + b;
      CollapseAppend(a[1..], b, IsSeparator(a[0]));
    }
  }

  /** getInstanceCanonicalName: the profile (unless the name already starts
      with it), the name and the index (when there is one), joined with "-"
      and sanitised. */
  function CanonicalName(profile: string, instanceName: string, instanceIndex: string): string {
    var parts := (if !HasPrefix(instanceName, profile) then [profile] else [])
      + [instanceName]
      + (if instanceIndex != "" then [instanceIndex] else []);
    Sanitise(Join(parts, "-"))
  }

  /** The parts before the index, joined. */
  function BaseName(profile: string, instanceName: string): string {
    if HasPrefix(instanceName, profile) then instanceName else profile + "-" + instanceName
  }

  /** How the canonical name is laid out: the profile is left out exactly
      when the name starts with it (so always for an empty profile), and the
      index is appended after a "-" exactly when it is not empty. */
  lemma CanonicalNameLayout(profile: string, instanceName: string, instanceIndex: string)
    ensures CanonicalName(profile, instanceName, instanceIndex)
         == Sanitise(BaseName(profile, instanceName) + (if instanceIndex == "" then "" else "-" + instanceIndex))
    ensures HasPrefix(instanceName, profile) ==> BaseName(profile, instanceName) == instanceName
    ensures BaseName("", instanceName) == instanceName
  {
    var tail := if instanceIndex != "" then [instanceIndex] else [];
    var joined := Join([instanceName] + tail, "-");
    assert joined == instanceName + (if instanceIndex == "" then "" else "-" + instanceIndex) by {
      var ps := [instanceName] + tail;
      if instanceIndex != "" {
        assert ps == [instanceName, instanceIndex];
        assert ps[1..] == [instanceIndex];
        assert Join(ps[1..], "-") == instanceIndex;
        assert Join(ps, "-") == instanceName + "-" + instanceIndex;
      } else {
        assert ps == [instanceName];
      }
    }
    var suffix := if instanceIndex == "" then "" else "-" + instanceIndex;
    var parts := (if !HasPrefix(instanceName, profile) then [profile] else []) + [instanceName] + tail;
    if !HasPrefix(instanceName, profile) {
      assert parts[1..] == [instanceName] + tail;
      assert Join(parts, "-") == profile + "-" + joined;
      assert Join(parts, "-") == BaseName(profile, instanceName) + suffix;
    } else {
      assert parts == [instanceName] + tail;
      assert Join(parts, "-") == BaseName(profile, instanceName) + suffix;
    }
    assert HasPrefix(instanceName, "");
  }

  /** A canonical name contains no whitespace and no "--". */
  lemma CanonicalNameIsSanitised(profile: string, instanceName: string, instanceIndex: string)
    ensures IsSanitised(CanonicalName(profile, instanceName, instanceIndex))
  {
  }

  /** Two different positions in one name group get different canonical
      names: the index survives sanitising as the suffix after the last "-". */
  lemma SiblingNamesDiffer(profile: string, instanceName: string, a: nat, b: nat)
    requires a != b
    ensures CanonicalName(profile, instanceName, NatToString(a)) != CanonicalName(profile, instanceName, NatToString(b))
  {
    var base := BaseName(profile, instanceName) + "-";
    var da, db := NatToString(a), NatToString(b);
    CanonicalNameLayout(profile, instanceName, da);
    CanonicalNameLayout(profile, instanceName, db);
    assert BaseName(profile, instanceName) + ("-" + da) == base + da;
    assert BaseName(profile, instanceName) + ("-" + db) == base + db;
    CollapseAppend(base, da, false);
    CollapseAppend(base, db, false);
    DigitsAreSanitised(da);
    DigitsAreSanitised(db);
    NatToStringInjective(a, b);
    var w := Sanitise(base);
    assert CanonicalName(profile, instanceName, da) == w + da;
    assert CanonicalName(profile, instanceName, db) == w + db;
    assert (w + da)[|w|..] == da;
    assert (w + db)[|w|..] == db;
  }

  lemma DigitsAreSanitised(d: string)
    requires IsDigits(d)
    ensures Collapse(d, false) == d
  {
    CollapseClean(d, false);
  }
}
