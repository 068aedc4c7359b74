/** cmd/util.go: the profile list read from the shared AWS config and
    credentials files, and `contains`. The ini files arrive parsed: a file
    that fails to load is None, one that loads is its list of sections. */
module Profiles {
  import opened Strings
  import opened Types
  import opened Wrappers

  /** One ini section: its name, and the value of its "aws-ssh-domain" key
      when it has one. */
  datatype Section = Section(name: string, domain: Option<string>)

  /** The name go-ini gives the section of top-level keys. */
  const DefaultSection := "DEFAULT"

  /** Section prefixes of the shared config and credentials files. */
  const ConfigPrefix := "profile "
  const CredentialsPrefix := ""

  /** Whether a section of a file read with `prefix` names a profile. */
  predicate Takes(s: Section, prefix: string) {
    s.name != DefaultSection && HasPrefix(s.name, prefix)
  }

  /** The profile name: the section name without the prefix. */
  function Stripped(s: Section, prefix: string): string
    requires Takes(s, prefix)
  {
    s.name[|prefix|..]
  }

  /** The profile a section yields: no region, and the domain only when the
      section has the key. */
  function ProfileOf(s: Section, prefix: string): (p: ProfileConfig)
    requires Takes(s, prefix)
    ensures p.name == Stripped(s, prefix) && p.region == ""
    ensures s.domain.Some? ==> p.domain == s.domain.value
    ensures s.domain.None? ==> p.domain == ""
  {
    ProfileConfig(Stripped(s, prefix), "", if s.domain.Some? then s.domain.value else "")
  }

  /** The profiles after reading `sections` on top of `m`: a profile name
      seen before is skipped. */
  function LoadSections(m: map<string, ProfileConfig>, sections: seq<Section>, prefix: string): map<string, ProfileConfig> {
    if sections == [] then m
    else
      var before := LoadSections(m, sections[..|sections| - 1], prefix);
      var s := sections[|sections| - 1];
      if Takes(s, prefix) && Stripped(s, prefix) !in before then before[Stripped(s, prefix) := ProfileOf(s, prefix)]
      else before
  }

  function SectionsOf(file: Option<seq<Section>>): seq<Section> {
    if file.Some? then file.value else []
  }

  /** The profile map getProfiles builds: the config file first, then the
      credentials file; a file that fails to load adds nothing. */
  function Gathered(config: Option<seq<Section>>, credentials: Option<seq<Section>>): map<string, ProfileConfig> {
    LoadSections(LoadSections(map[], SectionsOf(config), ConfigPrefix), SectionsOf(credentials), CredentialsPrefix)
  }

  // ---------------------------------------------------------------------
  // The methods

  /** The loop of the `loadFile` closure; `loaded` is false where it returns
      the load error, which getProfiles only logs. */
  method LoadFile(profiles: map<string, ProfileConfig>, file: Option<seq<Section>>, prefix: string)
    returns (newProfiles: map<string, ProfileConfig>, loaded: bool)
    ensures loaded <==> file.Some?
    ensures newProfiles == LoadSections(profiles, SectionsOf(file), prefix)
  {
    newProfiles := profiles;
    if file.None? {
      return newProfiles, false;
    }
    var sections := file.value;
    for i := 0 to |sections|
      invariant newProfiles == LoadSections(profiles, sections[..i], prefix)
    {
      assert sections[..i + 1][..i] == sections[..i];
      var section := sections[i];
      var name := section.name;
      if name == DefaultSection {
        continue;
      }
      if HasPrefix(name, prefix) {
        name := name[|prefix|..];
        if name !in newProfiles {
          var config := ProfileConfig(name, "", "");
          if section.domain.Some? {
            config := config.(domain := section.domain.value);
          }
          newProfiles := newProfiles[name := config];
        }
      }
    }
    assert sections[..|sections|] == sections;
    loaded := true;
  }

  /** getProfiles: one profile per distinct name, in no particular order
      (Go's map iteration order is not fixed, so the order is any the
      choice below makes). */
  method GetProfiles(config: Option<seq<Section>>, credentials: Option<seq<Section>>)
    returns (profilesList: seq<ProfileConfig>)
    ensures |profilesList| == |Gathered(config, credentials)|
    ensures forall i :: 0 <= i < |profilesList| ==>
              profilesList[i].name in Gathered(config, credentials) &&
              Gathered(config, credentials)[profilesList[i].name] == profilesList[i]
    ensures forall name :: name in Gathered(config, credentials) ==>
              exists i :: 0 <= i < |profilesList| && profilesList[i].name == name
    ensures forall i, j :: 0 <= i < j < |profilesList| ==> profilesList[i].name != profilesList[j].name
  {
    var profiles: map<string, ProfileConfig> := map[];
    var loaded;
    profiles, loaded := LoadFile(profiles, config, ConfigPrefix);
    profiles, loaded := LoadFile(profiles, credentials, CredentialsPrefix);
    GatheredKeyed(config, credentials);
    var keys;
    profilesList, keys := ToList(profiles);
    forall name | name in profiles
      ensures exists i :: 0 <= i < |profilesList| && profilesList[i].name == name
    {
      var i :| 0 <= i < |keys| && keys[i] == name;
      assert profilesList[i].name == name;
    }
  }

  /** The copy of the profile map into a list, in the order the choice of
      the next key makes; `keys` are the keys in the order visited. */
  method ToList(profiles: map<string, ProfileConfig>) returns (list: seq<ProfileConfig>, keys: seq<string>)
    ensures |list| == |keys| == |profiles|
    ensures forall i :: 0 <= i < |keys| ==> keys[i] in profiles && list[i] == profiles[keys[i]]
    ensures forall name :: name in profiles ==> name in keys
    ensures forall i, j :: 0 <= i < j < |keys| ==> keys[i] != keys[j]
  {
    list, keys := [], [];
    var remaining := profiles.Keys;
    while remaining != {}
      invariant remaining <= profiles.Keys
      invariant |list| == |keys| && |keys| + |remaining| == |profiles|
      invariant forall i :: 0 <= i < |keys| ==> keys[i] in profiles && list[i] == profiles[keys[i]] && keys[i] !in remaining
      invariant forall name :: name in profiles && name !in remaining ==> name in keys
      invariant forall i, j :: 0 <= i < j < |keys| ==> keys[i] != keys[j]
      decreases |remaining|
    {
      var key :| key in remaining;
      list, keys := list + [profiles[key]], keys + [key];
      remaining := remaining - {key};
    }
  }

  /** `contains`: whether some item of the slice equals the element. */
  method Contains(slice: seq<string>, element: string) returns (found: bool)
    ensures found <==> element in slice
  {
    for i := 0 to |slice|
      invariant element !in slice[..i]
    {
      if slice[i] == element {
        return true;
      }
    }
    assert slice[..|slice|] == slice;
    return false;
  }

  // ---------------------------------------------------------------------
  // Properties

  /** Every profile is stored under its own name. */
  predicate Keyed(m: map<string, ProfileConfig>) {
    forall name :: name in m ==> m[name].name == name
  }

  lemma {:induction false} LoadSectionsKeyed(m: map<string, ProfileConfig>, sections: seq<Section>, prefix: string)
    requires Keyed(m)
    ensures Keyed(LoadSections(m, sections, prefix))
    decreases |sections|
  {
    if sections != [] {
      LoadSectionsKeyed(m, sections[..|sections| - 1], prefix);
    }
  }

  lemma GatheredKeyed(config: Option<seq<Section>>, credentials: Option<seq<Section>>)
    ensures Keyed(Gathered(config, credentials))
  {
    LoadSectionsKeyed(map[], SectionsOf(config), ConfigPrefix);
    LoadSectionsKeyed(LoadSections(map[], SectionsOf(config), ConfigPrefix), SectionsOf(credentials), CredentialsPrefix);
  }

  /** A section names profile `name` when reading it with `prefix`. */
  predicate Names(sections: seq<Section>, k: int, prefix: string, name: string) {
    0 <= k < |sections| && Takes(sections[k], prefix) && Stripped(sections[k], prefix) == name
  }

  /** A profile exists after reading exactly when it existed before or a
      section that is not the default one, and carries the prefix, names it. */
  lemma {:induction false} LoadSectionsKeys(m: map<string, ProfileConfig>, sections: seq<Section>, prefix: string, name: string)
    ensures name in LoadSections(m, sections, prefix) <==> name in m || exists k :: Names(sections, k, prefix, name)
    decreases |sections|
  {
    if sections != [] {
      var init := sections[..|sections| - 1];
      LoadSectionsKeys(m, init, prefix, name);
      if Names(sections, |sections| - 1, prefix, name) {
      } else if name in LoadSections(m, init, prefix) {
        if k :| Names(init, k, prefix, name) {
          assert Names(sections, k, prefix, name);
        }
      } else {
        forall k | 0 <= k < |sections|
          ensures !Names(sections, k, prefix, name)
        {
          if k < |sections| - 1 {
            assert !Names(init, k, prefix, name);
          }
        }
      }
    }
  }

  /** An existing profile is never overwritten. */
  lemma {:induction false} LoadSectionsKeeps(m: map<string, ProfileConfig>, sections: seq<Section>, prefix: string, name: string)
    requires name in m
    ensures name in LoadSections(m, sections, prefix) && LoadSections(m, sections, prefix)[name] == m[name]
    decreases |sections|
  {
    if sections != [] {
      LoadSectionsKeeps(m, sections[..|sections| - 1], prefix, name);
    }
  }

  /** A new profile comes from the first section that names it. */
  lemma {:induction false} LoadSectionsFirst(m: map<string, ProfileConfig>, sections: seq<Section>, prefix: string, k: nat, name: string)
    requires name !in m && Names(sections, k, prefix, name)
    requires forall k' :: 0 <= k' < k ==> !Names(sections, k', prefix, name)
    ensures name in LoadSections(m, sections, prefix)
    ensures LoadSections(m, sections, prefix)[name] == ProfileOf(sections[k], prefix)
    decreases |sections|
  {
    var init := sections[..|sections| - 1];
    if k < |sections| - 1 {
      forall k' | 0 <= k' < k
        ensures !Names(init, k', prefix, name)
      {
        assert !Names(sections, k', prefix, name);
      }
      assert Names(init, k, prefix, name);
      LoadSectionsFirst(m, init, prefix, k, name);
    } else {
      LoadSectionsKeys(m, init, prefix, name);
      if name in LoadSections(m, init, prefix) {
        var k' :| Names(init, k', prefix, name);
        assert Names(sections, k', prefix, name);
      }
    }
  }

  /** A profile of the config file beats one of the same name in the
      credentials file: its first section decides the profile. */
  lemma ConfigFirst(config: seq<Section>, credentials: Option<seq<Section>>, k: nat, name: string)
    requires Names(config, k, ConfigPrefix, name)
    requires forall k' :: 0 <= k' < k ==> !Names(config, k', ConfigPrefix, name)
    ensures name in Gathered(Some(config), credentials)
    ensures Gathered(Some(config), credentials)[name] == ProfileOf(config[k], ConfigPrefix)
  {
    LoadSectionsFirst(map[], config, ConfigPrefix, k, name);
    LoadSectionsKeeps(LoadSections(map[], config, ConfigPrefix), SectionsOf(credentials), CredentialsPrefix, name);
  }

  /** The profiles gathered: the names of config sections with "profile "
      removed, and the names of credentials sections, never the default
      section; a file that fails to load only contributes nothing. */
  lemma GatheredKeys(config: Option<seq<Section>>, credentials: Option<seq<Section>>, name: string)
    ensures name in Gathered(config, credentials) <==>
            (exists k :: Names(SectionsOf(config), k, ConfigPrefix, name)) ||
            (exists k :: Names(SectionsOf(credentials), k, CredentialsPrefix, name))
  {
    LoadSectionsKeys(map[], SectionsOf(config), ConfigPrefix, name);
    LoadSectionsKeys(LoadSections(map[], SectionsOf(config), ConfigPrefix), SectionsOf(credentials), CredentialsPrefix, name);
  }
}
