# aws-ssh core, modelled in Dafny

aws-ssh turns the EC2 instances of every AWS profile into `ssh_config` host entries. It also keeps an on-disk cache of those entries, so that `aws-ssh connect` can resolve a name later. This project models the parts of that program that decide what the entries are:

- **Tag helpers** (`Util`): reading a tag's value, the lower-cased Name/port/user tags, whether an instance is a (Global) bastion, and the choice of the best bastion by longest-common-subsequence score. The score function is a parameter.
- **Canonical names** (`Util`): `profile-name-index`, sanitised so that every run of whitespace and hyphens becomes one hyphen.
- **Entry synthesis** (`Aws`): the collector that separates the described profiles from the errors, the sort of summaries by profile name, grouping by VPC and then by name, bastion choice, address choice, the names of each entry, and the stable sort by first name.
- **Config text** (`Reconf`): the `Host` block of one entry, the text written for a list of entries, and the older ProxyJump rule that still appears in `lib/reconf.go`.
- **The YAML cache** (`YamlCache`, `CacheProofs`): a class with the fields `index`, `indexFile` and `records`, covering Save, loadIndex, saveIndex, Lookup and ListCanonicalNames.
  - The disk is abstract. The index file is absent, unreadable or holds an index, and the record files are a map from instance id to entry.
  - The interactive fuzzy finder is an oracle function from the list of names to a choice.
- **Profiles** (`Profiles`): the profile list built from the shared config and credentials files, with the files given already parsed into sections, and `contains`.

`Strings`, `Sequences`, `Types` and `Wrappers` hold the shared vocabulary:
- ASCII lower-casing, prefixes, substrings, `Join`, decimal numerals and Go's byte-wise string order;
- a stable insertion sort by key, which models `sort.SliceStable` and go-linq's `OrderBy/ThenBy`, plus filtering and grouping;
- the entity datatypes.

The loops of the source are methods with invariants. Each is proved equal to a specification function, and the properties are lemmas about those functions.

## Model

| member | source | states |
|---|---|---|
| Util.GetTagValue | lib/util.go:16-31 | the value is that of the first tag whose key equals the tag name, lower-cased only when case-insensitive matching is asked for |
| Util.TagValueFirstMatch | lib/util.go:23-27 | the value of the first tag with the key is the one returned, whatever later tags say |
| Util.TagValueNoMatch | lib/util.go:29 | with no tag carrying the key the value is the empty string |
| Util.CaseInsensitiveSkipsUpperCaseKeys | lib/util.go:17-21 | case-insensitive lookup lower-cases only the wanted key, so keys with upper-case letters never match it |
| Util.NameFromTags | lib/util.go:33-35 | the Name is lower-case and as long as the raw Name tag value |
| Util.PortFromTags | lib/util.go:37-39 | the port is lower-case and as long as the raw x-aws-ssh-port tag value |
| Util.UserFromTags | lib/util.go:41-44 | the user is lower-case and as long as the raw x-aws-ssh-user tag value |
| Util.IsBastionFromTags | lib/util.go:46-76 | the tag scan answers whether the LAST Name tag contains "bastion" and, when Global is checked, some Global or x-aws-ssh-global tag says yes, true or 1 |
| Util.GlobalBastionIsBastion | lib/util.go:65-73 | a Global bastion is also a bastion when Global is not checked |
| Util.LastNameOfLastMatch | lib/util.go:51-54 | the name the bastion test uses is the lower-cased value of the last Name tag |
| Util.LastNameNoMatch | lib/util.go:47-49 | without a Name tag the bastion test sees an empty name |
| Util.BastionNameIsName | lib/util.go:33-35 | with at most one Name tag the bastion test's name equals getNameFromTags |
| Util.FindBestBastion | lib/util.go:88-108 | the weight loop and selection return the specified best bastion |
| Util.BestBastionChoice | lib/util.go:88-108 | no bastion exactly when the instance name contains "bastion" or there are no candidates; a single candidate is returned as is; otherwise the result is a candidate whose LCS score is no larger than any other's |
| Util.CollapseClean | lib/util.go:14 | a string already free of separator runs is left unchanged by the sanitiser |
| Util.SanitiseIdempotent | lib/util.go:14 | the sanitiser leaves no whitespace and no "--", and sanitising twice is sanitising once |
| Util.CollapseKeeps | lib/util.go:14 | the sanitiser keeps every non-separator character, in order |
| Util.CanonicalNameLayout | lib/util.go:110-122 | the canonical name is the sanitised join of the profile (left out exactly when the name starts with it), the name and the index (only when non-empty) |
| Util.CanonicalNameIsSanitised | lib/util.go:110-122 | a canonical name has no whitespace and no run of separators |
| Util.SiblingNamesDiffer | lib/util.go:110-122 | two different index numbers give two different canonical names |
| Util.DigitsAreSanitised | lib/util.go:14 | an index numeral passes the sanitiser unchanged |
| Aws.BastionsMembers | lib/aws.go:82-99 | the bastion filter keeps exactly the instances that are bastions under the given Global setting |
| Aws.FindBastion | lib/aws.go:128-132 | the VPC's bastions are tried first and the Global ones after them |
| Aws.SlotName | lib/aws.go:143-151 | the index is n+1 only in a group of more than one, and the profile prefix is dropped with noProfilePrefix |
| Aws.NewEntry | lib/aws.go:117-156 | one instance's entry is built as the entry specification says |
| Aws.BuildNameGroupEntries | lib/aws.go:115-157 | the loop over one name group yields that group's entries, in order |
| Aws.BuildNameGroupsEntries | lib/aws.go:112-158 | the loop over the name groups of a VPC yields their entries concatenated |
| Aws.BuildVpcEntries | lib/aws.go:93-159 | one VPC's entries use that VPC's bastions and its name groups |
| Aws.BuildVpcGroupsEntries | lib/aws.go:93-159 | the loop over the VPC groups yields their entries concatenated |
| Aws.BuildProfileEntries | lib/aws.go:64-161 | a profile's entries are built from its sorted, grouped instances, then stably sorted by first name |
| Aws.ProcessSummary | lib/aws.go:163-170 | the processed summary carries the profile and its entries |
| Aws.Collect | lib/aws.go:46-55 | the collector keeps every described summary and every error, in arrival order |
| Aws.ProcessSummaries | lib/aws.go:63-171 | the i-th processed summary is made from the i-th summary |
| Aws.TraverseProfiles | lib/aws.go:46-172 | the errors are all the query failures, and the processed summaries follow the summaries sorted by profile name, one for one |
| AwsProofs.NameGroupsEntriesIds | lib/aws.go:112-158 | the entries of a VPC's name groups carry the ids of the group members, in order |
| AwsProofs.VpcGroupsEntriesIds | lib/aws.go:93-159 | the entries of all VPC groups carry the instance ids of the members, as a multiset |
| AwsProofs.EntriesPerInstance | lib/aws.go:63-161 | a profile has exactly one entry per instance: as many entries as instances, with the same instance ids |
| AwsProofs.EntryOrigin | lib/aws.go:93-157 | every entry is the entry of some instance at its place in its VPC and name group |
| AwsProofs.EntryShape | lib/aws.go:117-155 | an entry carries the profile, the instance id, user and port, and the names: canonical, id, address.profile and, with a domain, canonical.domain |
| AwsProofs.EntryRoute | lib/aws.go:128-142 | no jump exactly when the name contains "bastion" or there is neither a VPC nor a Global bastion; a jump is via a bastion's instance id and dials the private address, preferring the VPC's own bastions; otherwise the public address is used if there is one |
| AwsProofs.EntriesSortedByName | lib/aws.go:161 | a profile's entries are ordered by their first name |
| AwsProofs.SiblingsByLaunchTime | lib/aws.go:73-74 | within a VPC and name group instances are in launch-time order |
| AwsProofs.SiblingEntriesDiffer | lib/aws.go:143-151 | two instances of one name group get different canonical names |
| AwsProofs.SlotNamesDiffer | lib/aws.go:143-151 | different positions in a group of more than one give different first names |
| AwsProofs.CollectorAccounts | lib/aws.go:46-55 | every query result is either a summary or an error; each summary and each error occurs as many times as its result, so none is lost, repeated or invented |
| AwsProofs.SummariesByProfileName | lib/aws.go:58 | the sorted summaries are a permutation of the collected ones, ordered by profile name |
| Reconf.ConfigLines | lib/reconf.go:40-57 | the block has the Host line first, the Hostname line and an empty line last, and one line per non-empty option |
| Reconf.ConfigFormatLayout | lib/reconf.go:40-57 | the block is the Host line, then User, ProxyJump and Port lines for the non-empty options in that order, then the Hostname line and a blank line |
| Reconf.ConfigFormatEnds | lib/reconf.go:54-56 | every block starts with "Host " and ends with the Hostname line followed by a blank line |
| Reconf.ConfigFormatUserOnly | lib/reconf.go:40-57 | with only a user set, the block is Host, User and Hostname |
| Reconf.ConfigFormatAllOptions | lib/reconf.go:40-57 | with every option set, the block is Host, User, ProxyJump, Port and Hostname |
| Reconf.BasicEntryVector | lib/reconf_test.go:12-22 | the "basic entry" example formats to its expected text |
| Reconf.JumpHostEntryVector | lib/reconf_test.go:23-37 | the "entry with jumphost and custom port" example formats to its expected text |
| Reconf.LegacyProxyJump | lib/reconf.go:145-153 | the legacy jump string is built as its specification says |
| Reconf.LegacyJumpParts | lib/reconf.go:145-153 | the legacy jump string is user@, the bastion's public IP, then :port, each part only when its raw tag is set, and can be read back |
| Reconf.WriteConfig | lib/reconf.go:186-190 | the text written is every entry's block, in order |
| Reconf.RenderAppend | lib/reconf.go:186-190 | writing two lists one after the other writes their texts one after the other |
| Reconf.RenderBlock | lib/reconf.go:186-190 | the i-th entry's block sits between the texts of the entries before and after it |
| YamlCache.YAMLCache.constructor | lib/cache/yaml.go:178-181 | a new cache starts with an empty, unloaded index |
| YamlCache.YAMLCache.LoadIndex | lib/cache/yaml.go:50-72 | the file is read only while the index time is zero; a missing file and an unreadable one give their errors |
| YamlCache.YAMLCache.SaveIndex | lib/cache/yaml.go:29-48 | the index file afterwards holds the current index |
| YamlCache.YAMLCache.IndexEntryNames | lib/cache/yaml.go:104-114 | each name of an entry maps to its instance id, and the id itself maps to ""; the first name is added to the canonical names unless it is the id |
| YamlCache.YAMLCache.SaveEntries | lib/cache/yaml.go:86-115 | every entry's record is written and its names indexed, in order |
| YamlCache.YAMLCache.SaveSummaries | lib/cache/yaml.go:85-116 | every summary's entries are saved, one summary after another; the stored name index, the index time and the index file are left as they were |
| YamlCache.YAMLCache.Save | lib/cache/yaml.go:75-121 | the index becomes a fresh name index plus the old canonical names with the new ones, sorted; the time is kept; the records are written and the index file saved |
| YamlCache.YAMLCache.Lookup | lib/cache/yaml.go:122-169 | loads the index, then resolves the name exactly or through the finder, and reads the record |
| YamlCache.YAMLCache.ListCanonicalNames | lib/cache/yaml.go:171-176 | a load error gives the empty list and not an error; otherwise the loaded canonical names |
| YamlCache.NameIndexConcat | lib/cache/yaml.go:85-116 | indexing two lists of entries is indexing the second on top of the first |
| YamlCache.StoreRecordsConcat | lib/cache/yaml.go:85-101 | writing two lists of records is writing the second after the first |
| CacheProofs.IndexNamesAt | lib/cache/yaml.go:104-114 | after indexing one entry, a name is present exactly when it was before or is one of the entry's names, and then maps to the id ("" for the id) |
| CacheProofs.NameIndexKeys | lib/cache/yaml.go:78-118 | the saved index holds exactly the names of the saved entries |
| CacheProofs.NameIndexLastWins | lib/cache/yaml.go:104-114 | a name carried by several entries maps to the id of the last of them |
| CacheProofs.CanonicalAddsMembers | lib/cache/yaml.go:104-110 | a canonical name is added exactly for an entry whose first name is not its id |
| CacheProofs.SavedCanonicalNames | lib/cache/yaml.go:109-118 | the saved canonical names are the old ones plus the new ones, as a multiset, sorted by byte order, and the index time is unchanged |
| CacheProofs.StoreRecordsAt | lib/cache/yaml.go:85-101 | a record exists after saving exactly when it did before or some entry has that id; other records are untouched |
| CacheProofs.StoreRecordsLastWins | lib/cache/yaml.go:85-101 | the record of an id is that of the last entry with that id |
| CacheProofs.ValuesAreIds | lib/cache/yaml.go:104-114 | for distinct ids and names every non-empty value of the index is itself a key mapped to "" |
| CacheProofs.SaveThenLookup | lib/cache/yaml.go:75-169 | after Save, a lookup of any non-empty name of a saved entry returns that entry |
| CacheProofs.SaveThenPick | lib/cache/yaml.go:131-141 | after Save, a fuzzy pick of a newly added canonical name returns the entry whose first name it is |
| CacheProofs.StalePick | lib/cache/yaml.go:109-141 | a canonical name kept from an earlier save that no saved entry carries resolves to the record of the empty instance id |
| CacheProofs.LookupOutcomes | lib/cache/yaml.go:122-169 | a load error is returned as is; an empty or unknown name with no canonical names or an aborted pick fails as such; a found entry is a stored record |
| CacheProofs.LoadedStable | lib/cache/yaml.go:50-72 | an index with a time is never reloaded, a file without an index leaves it as it was |
| Profiles.ProfileOf | cmd/util.go:43-46 | a profile is named by the section without its prefix, has no region, and has the aws-ssh-domain value only when the key is present |
| Profiles.LoadFile | cmd/util.go:24-55 | a file that fails to load adds nothing and reports the failure; otherwise its sections are read one after another |
| Profiles.GetProfiles | cmd/util.go:15-71 | the list has one profile per gathered name and no name twice, each the gathered profile of that name |
| Profiles.ToList | cmd/util.go:64-70 | the map's values are listed, each key exactly once |
| Profiles.Contains | cmd/util.go:73-80 | true exactly when the element is in the slice |
| Profiles.LoadSectionsKeys | cmd/util.go:34-53 | a profile exists after reading exactly when it existed or a non-default section with the prefix names it |
| Profiles.LoadSectionsKeeps | cmd/util.go:42-51 | an existing profile is never overwritten |
| Profiles.LoadSectionsFirst | cmd/util.go:42-51 | a new profile is made from the first section that names it |
| Profiles.ConfigFirst | cmd/util.go:57-62 | a profile in the config file beats one of the same name in the credentials file |
| Profiles.GatheredKeys | cmd/util.go:34-62 | the profiles are exactly the names of the "profile " sections of the config file and of the sections of the credentials file, never the default section |
| Sequences.SortBy | lib/aws.go:161 | the sort returns a permutation of its input |
| Sequences.SortBySorted | lib/aws.go:161 | the sorted sequence is ordered by the key |
| Sequences.SortByStable | lib/aws.go:161 | the sort is stable: the elements of each key keep their input order |
| Sequences.GroupByPartition | lib/aws.go:75-80 | the groups' members are a permutation of the input |
| Sequences.GroupByGroups | lib/aws.go:104-109 | every group is non-empty and holds only input elements with its key, and every element is in the group of its key |

## Left out

- DescribeProfile, the AWS SDK calls and the network (lib/aws.go from line 176 on) are not part of this model. Each profile's query result arrives as a value.
- The goroutines and channels. The collector is modelled over the sequence of results in arrival order, which the model leaves arbitrary.
- The body of `lcs`. Its length is a function parameter of the model.
- Go's regexp engine. The sanitiser `[\s-]+` is written out over RE2's `\s` (tab, line feed, form feed, carriage return, space) and the hyphen.
- Util.NameFromTags, Util.PortFromTags, Util.UserFromTags: `strings.ToLower` is modelled on ASCII letters only, without Unicode case mapping.
- Util.BestBastionChoice: `sort.Sort` in findBestBastion is not stable. Among equal scores the model takes the first candidate, whereas Go may return any of them. The contract states only what holds for all of them.
- go-linq `OrderBy/ThenBy` and `sort.Slice` on the summaries are modelled as a stable sort. Go leaves the order of ties unspecified.
- go-linq `GroupBy` collects groups through a Go map. The model orders the groups by first appearance, keeping the order within a group as go-linq does.
- YAML encoding and decoding, `MkdirAll`, and opening and closing files. The missing `O_TRUNC` on record files, which could leave trailing bytes of a longer old record, is not modelled. Neither are write failures or Save's early error returns.
- YamlCache.YAMLCache.LoadIndex: a file that decodes only partly is treated like an unreadable one, so the index is not changed.
- The interactive fuzzy finder is an oracle choice. Only an abort is told apart from a pick; other finder errors are not modelled.
- Everything of the reconfiguration path in lib/reconf.go other than ConfigFormat, the legacy ProxyJump rule and the write loop, including the temporary file and the rename.
- Command wiring, ini parsing, environment variables and the home directory. Sections arrive parsed, and the error from `homedir.Dir` is not modelled.
- Logging.
- Profiles.ProfileOf: a present aws-ssh-domain key with an empty value gives the same profile as an absent key, as in the source.
