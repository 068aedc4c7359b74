/** lib/cache/yaml.go: the on-disk cache of resolved entries. The disk is
    abstract: the index file is absent, unreadable or holds an index, and
    the per-instance record files form a map from instance id to entry.
    Writes do not fail in this model. */
module YamlCache {
  import opened Strings
  import opened Sequences
  import opened Types
  import opened Wrappers
  import opened Aws

  /** YAMLCacheIndex. `time` stands for `Time`: 0 is the zero `Time`
      (`IsZero`), any other value a time that is set. Save never sets it. */
  datatype Index = Index(time: int, instancesIndex: map<string, string>, canonicalNames: seq<string>)

  /** What reading index.yaml finds. */
  datatype IndexFile = Absent | Unreadable | Present(stored: Index)

  datatype CacheError =
    | CacheMissing        // "cache doesn't exist, try \"aws-ssh update\""
    | IndexUnreadable     // "can't open ..." or "can't decode ..." for the index
    | NoNames             // "no names in index, try \"aws-ssh update\""
    | NothingSelected     // "nothing was selected in fuzzy match"
    | RecordMissing(instanceId: string)  // the record file cannot be read

  datatype LookupResult = Found(entry: SSHEntry) | Failed(error: CacheError)

  /** What the fuzzy finder returns: an abort, or the position of the chosen
      name in the list it was shown. */
  datatype Choice = Abort | Picked(position: nat)

  /** The finder only picks positions within the list it is shown. */
  ghost predicate ValidFinder(finder: seq<string> -> Choice) {
    forall names :: finder(names).Picked? ==> finder(names).position < |names|
  }

  const EmptyIndex := Index(0, map[], [])

  // ---------------------------------------------------------------------
  // Loading

  /** The index after loadIndex. */
  function Loaded(idx: Index, file: IndexFile): Index {
    if idx.time != 0 then idx
    else match file
      case Present(stored) => stored
      case _ => idx
  }

  /** The error loadIndex returns, if any. */
  function LoadError(idx: Index, file: IndexFile): Option<CacheError> {
    if idx.time != 0 then None
    else match file
      case Absent => Some(CacheMissing)
      case Unreadable => Some(IndexUnreadable)
      case Present(_) => None
  }

  // ---------------------------------------------------------------------
  // Saving

  /** The entries of all summaries, one summary after the other. */
  function Entries(ss: seq<ProcessedProfileSummary>): seq<SSHEntry> {
    if ss == [] then [] else Entries(ss[..|ss| - 1]) + ss[|ss| - 1].entries
  }

  /** What Save stores for one name of an entry: "" for the instance id
      itself, the instance id for every other name. */
  function IdValue(name: string, instanceId: string): string {
    if name == instanceId then "" else instanceId
  }

  function IndexNames(m: map<string, string>, names: seq<string>, instanceId: string): map<string, string> {
    if names == [] then m
    else IndexNames(m, names[..|names| - 1], instanceId)[names[|names| - 1] := IdValue(names[|names| - 1], instanceId)]
  }

  /** The name index Save builds from scratch, entry by entry, name by name. */
  function NameIndex(es: seq<SSHEntry>): map<string, string> {
    if es == [] then map[]
    else IndexNames(NameIndex(es[..|es| - 1]), es[|es| - 1].names, es[|es| - 1].instanceId)
  }

  /** The canonical name an entry contributes: its first name, unless that
      is its instance id. */
  function FirstNameAdds(e: SSHEntry): seq<string> {
    if |e.names| > 0 && e.names[0] != e.instanceId then [e.names[0]] else []
  }

  function CanonicalAdds(es: seq<SSHEntry>): seq<string> {
    if es == [] then [] else CanonicalAdds(es[..|es| - 1]) + FirstNameAdds(es[|es| - 1])
  }

  /** The record store after writing one record per entry, keyed by
      instance id. */
  function StoreRecords(records: map<string, SSHEntry>, es: seq<SSHEntry>): map<string, SSHEntry> {
    if es == [] then records
    else StoreRecords(records, es[..|es| - 1])[es[|es| - 1].instanceId := es[|es| - 1]]
  }

  function NameOrder(s: string): Key {
    Key(s, 0)
  }

  /** `sort.Strings`. */
  function SortNames(names: seq<string>): seq<string> {
    SortBy(names, NameOrder)
  }

  /** The index after Save: the old time, a fresh name index, and the old
      canonical names with the new ones, sorted. */
  function SavedIndex(old_index: Index, ss: seq<ProcessedProfileSummary>): Index {
    Index(old_index.time, NameIndex(Entries(ss)),
          SortNames(old_index.canonicalNames + CanonicalAdds(Entries(ss))))
  }

  /** Indexing `es` on top of an existing map. */
  function IndexAll(m: map<string, string>, es: seq<SSHEntry>): map<string, string> {
    if es == [] then m
    else IndexNames(IndexAll(m, es[..|es| - 1]), es[|es| - 1].names, es[|es| - 1].instanceId)
  }

  lemma {:induction false} NameIndexConcat(a: seq<SSHEntry>, b: seq<SSHEntry>)
    ensures NameIndex(a + b) == IndexAll(NameIndex(a), b)
    decreases |b|
  {
    if b == [] {
      assert a + b == a;
    } else {
      var init := b[..|b| - 1];
      NameIndexConcat(a, init);
      assert (a + b)[..|a + b| - 1] == a + init;
      assert (a + b)[|a + b| - 1] == b[|b| - 1];
    }
  }

  lemma {:induction false} CanonicalAddsConcat(a: seq<SSHEntry>, b: seq<SSHEntry>)
    ensures CanonicalAdds(a + b) == CanonicalAdds(a) + CanonicalAdds(b)
    decreases |b|
  {
    if b == [] {
      assert a + b == a;
    } else {
      var init := b[..|b| - 1];
      CanonicalAddsConcat(a, init);
      assert (a + b)[..|a + b| - 1] == a + init;
      assert (a + b)[|a + b| - 1] == b[|b| - 1];
    }
  }

  lemma {:induction false} StoreRecordsConcat(records: map<string, SSHEntry>, a: seq<SSHEntry>, b: seq<SSHEntry>)
    ensures StoreRecords(records, a + b) == StoreRecords(StoreRecords(records, a), b)
    decreases |b|
  {
    if b == [] {
      assert a + b == a;
    } else {
      var init := b[..|b| - 1];
      StoreRecordsConcat(records, a, init);
      assert (a + b)[..|a + b| - 1] == a + init;
      assert (a + b)[|a + b| - 1] == b[|b| - 1];
    }
  }

  /** One summary more: what Save's loop over it adds. */
  lemma SaveStep(ss: seq<ProcessedProfileSummary>, i: nat, idx: map<string, string>,
                 cn0: seq<string>, cn: seq<string>, records0: map<string, SSHEntry>, rs: map<string, SSHEntry>)
    requires i < |ss|
    requires idx == NameIndex(Entries(ss[..i]))
    requires cn == cn0 + CanonicalAdds(Entries(ss[..i]))
    requires rs == StoreRecords(records0, Entries(ss[..i]))
    ensures IndexAll(idx, ss[i].entries) == NameIndex(Entries(ss[..i + 1]))
    ensures cn + CanonicalAdds(ss[i].entries) == cn0 + CanonicalAdds(Entries(ss[..i + 1]))
    ensures StoreRecords(rs, ss[i].entries) == StoreRecords(records0, Entries(ss[..i + 1]))
  {
    var done, entries := Entries(ss[..i]), ss[i].entries;
    EntriesAppend(ss, i);
    NameIndexConcat(done, entries);
    CanonicalAddsConcat(done, entries);
    StoreRecordsConcat(records0, done, entries);
    ConcatAssociative(cn0, CanonicalAdds(done), CanonicalAdds(entries));
  }

  lemma EntriesAppend(ss: seq<ProcessedProfileSummary>, i: nat)
    requires i < |ss|
    ensures Entries(ss[..i + 1]) == Entries(ss[..i]) + ss[i].entries
  {
    var front := ss[..i + 1];
    assert front[..|front| - 1] == ss[..i];
    assert front[|front| - 1] == ss[i];
  }

  // ---------------------------------------------------------------------
  // Lookup

  /** A Go map read: the zero value "" for a missing key. */
  function Get(m: map<string, string>, k: string): string {
    if k in m then m[k] else ""
  }

  function FetchRecord(records: map<string, SSHEntry>, instanceId: string): LookupResult {
    if instanceId in records then Found(records[instanceId]) else Failed(RecordMissing(instanceId))
  }

  /** Lookup once the index is loaded: an exact hit for a non-empty present
      name, else the fuzzy finder over the canonical names. */
  function Resolve(idx: Index, records: map<string, SSHEntry>, name: string, finder: seq<string> -> Choice): LookupResult
    requires ValidFinder(finder)
  {
    if name !in idx.instancesIndex || name == "" then
      if |idx.canonicalNames| == 0 then Failed(NoNames)
      else match finder(idx.canonicalNames)
        case Abort => Failed(NothingSelected)
        case Picked(i) => FetchRecord(records, Get(idx.instancesIndex, idx.canonicalNames[i]))
    else
      var val := idx.instancesIndex[name];
      FetchRecord(records, if val == "" then name else val)
  }

  /** Lookup from a state that may not have loaded the index yet. */
  function LookupFrom(idx: Index, file: IndexFile, records: map<string, SSHEntry>, name: string,
                      finder: seq<string> -> Choice): LookupResult
    requires ValidFinder(finder)
  {
    match LoadError(idx, file)
    case Some(err) => Failed(err)
    case None => Resolve(Loaded(idx, file), records, name, finder)
  }

  // ---------------------------------------------------------------------
  // The cache object

  class YAMLCache {
    var index: Index
    var indexFile: IndexFile
    var records: map<string, SSHEntry>

    /** NewYAMLCache over a disk with the given contents. */
    constructor (indexFile: IndexFile, records: map<string, SSHEntry>)
      ensures this.index == EmptyIndex
      ensures this.indexFile == indexFile && this.records == records
    {
      this.index := EmptyIndex;
      this.indexFile := indexFile;
      this.records := records;
    }

    /** loadIndex: nothing to do once the time is set; otherwise read
        index.yaml. */
    method LoadIndex() returns (err: Option<CacheError>)
      modifies this
      ensures err == LoadError(old(index), indexFile)
      ensures index == Loaded(old(index), indexFile)
      ensures indexFile == old(indexFile) && records == old(records)
    {
      if index.time != 0 {
        return None;
      }
      match indexFile
      case Absent =>
        err := Some(CacheMissing);
      case Unreadable =>
        err := Some(IndexUnreadable);
      case Present(stored) =>
        index := stored;
        err := None;
    }

    /** The innermost loop of Save: the names of one entry. */
    method IndexEntryNames(entry: SSHEntry, idx: map<string, string>) returns (newIdx: map<string, string>)
      modifies this
      ensures newIdx == IndexNames(idx, entry.names, entry.instanceId)
      ensures index == old(index).(canonicalNames := old(index).canonicalNames + FirstNameAdds(entry))
      ensures indexFile == old(indexFile) && records == old(records)
    {
      newIdx := idx;
      for n := 0 to |entry.names|
        invariant newIdx == IndexNames(idx, entry.names[..n], entry.instanceId)
        invariant index == old(index).(canonicalNames := old(index).canonicalNames
                                          + (if n > 0 then FirstNameAdds(entry) else []))
        invariant indexFile == old(indexFile) && records == old(records)
      {
        var name := entry.names[n];
        assert entry.names[..n + 1][..n] == entry.names[..n];
        if name != entry.instanceId {
          newIdx := newIdx[name := entry.instanceId];
          if n == 0 {
            index := index.(canonicalNames := index.canonicalNames + [name]);
          }
        } else {
          newIdx := newIdx[name := ""];
        }
      }
      assert entry.names[..|entry.names|] == entry.names;
    }

    /** saveIndex: index.yaml now holds the index. */
    method SaveIndex()
      modifies this
      ensures indexFile == Present(index)
      ensures index == old(index) && records == old(records)
    {
      indexFile := Present(index);
    }

    /** The loop of Save over the entries of one summary, continuing after
        the entries `done`. */
    method SaveEntries(entries: seq<SSHEntry>, ghost done: seq<SSHEntry>, idx: map<string, string>)
      returns (newIdx: map<string, string>)
      modifies this
      ensures newIdx == IndexAll(idx, entries)
      ensures index.time == old(index).time && index.instancesIndex == old(index).instancesIndex
      ensures index.canonicalNames == old(index).canonicalNames + CanonicalAdds(entries)
      ensures records == StoreRecords(old(records), entries)
      ensures indexFile == old(indexFile)
    {
      newIdx := idx;
      for j := 0 to |entries|
        invariant newIdx == IndexAll(idx, entries[..j])
        invariant index.time == old(index).time && index.instancesIndex == old(index).instancesIndex
        invariant index.canonicalNames == old(index).canonicalNames + CanonicalAdds(entries[..j])
        invariant records == StoreRecords(old(records), entries[..j])
        invariant indexFile == old(indexFile)
      {
        var sshEntry := entries[j];
        assert entries[..j + 1][..j] == entries[..j];
        records := records[sshEntry.instanceId := sshEntry];
        newIdx := IndexEntryNames(sshEntry, newIdx);
      }
      assert entries[..|entries|] == entries;
    }

    /** The loops of Save over the summaries and their entries. */
    method SaveSummaries(profileSummaries: seq<ProcessedProfileSummary>) returns (idx: map<string, string>)
      modifies this
      ensures idx == NameIndex(Entries(profileSummaries))
      ensures index.time == old(index).time && index.instancesIndex == old(index).instancesIndex
      ensures index.canonicalNames == old(index).canonicalNames + CanonicalAdds(Entries(profileSummaries))
      ensures records == StoreRecords(old(records), Entries(profileSummaries))
      ensures indexFile == old(indexFile)
    {
      idx := map[];
      for i := 0 to |profileSummaries|
        invariant idx == NameIndex(Entries(profileSummaries[..i]))
        invariant index.time == old(index).time && index.instancesIndex == old(index).instancesIndex
        invariant indexFile == old(indexFile)
        invariant index.canonicalNames == old(index).canonicalNames + CanonicalAdds(Entries(profileSummaries[..i]))
        invariant records == StoreRecords(old(records), Entries(profileSummaries[..i]))
      {
        ghost var cn, rs := index.canonicalNames, records;
        var entries := profileSummaries[i].entries;
        var newIdx := SaveEntries(entries, Entries(profileSummaries[..i]), idx);
        SaveStep(profileSummaries, i, idx, old(index).canonicalNames, cn, old(records), rs);
        idx := newIdx;
      }
      assert profileSummaries[..|profileSummaries|] == profileSummaries;
    }

    /** Save: one record per entry, a name index built from scratch, the
        first names added to the canonical names, which are then sorted,
        and the index written out. */
    method Save(profileSummaries: seq<ProcessedProfileSummary>)
      modifies this
      ensures index == SavedIndex(old(index), profileSummaries)
      ensures records == StoreRecords(old(records), Entries(profileSummaries))
      ensures indexFile == Present(index)
    {
      var idx := SaveSummaries(profileSummaries);
      index := Index(index.time, idx, SortNames(index.canonicalNames));
      SaveIndex();
    }

    /** Lookup: load the index, resolve the name to an instance id, read
        that instance's record. */
    method Lookup(name: string, finder: seq<string> -> Choice) returns (result: LookupResult)
      requires ValidFinder(finder)
      modifies this
      ensures result == LookupFrom(old(index), indexFile, records, name, finder)
      ensures index == Loaded(old(index), indexFile)
      ensures indexFile == old(indexFile) && records == old(records)
    {
      var err := LoadIndex();
      if err.Some? {
        return Failed(err.value);
      }
      var instanceId: string;
      if name !in index.instancesIndex || name == "" {
        if |index.canonicalNames| == 0 {
          return Failed(NoNames);
        }
        var choice := finder(index.canonicalNames);
        if choice.Abort? {
          return Failed(NothingSelected);
        }
        instanceId := Get(index.instancesIndex, index.canonicalNames[choice.position]);
      } else {
        var val := index.instancesIndex[name];
        if val == "" {
          instanceId := name;
        } else {
          instanceId := index.instancesIndex[name];
        }
      }
      if instanceId !in records {
        return Failed(RecordMissing(instanceId));
      }
      result := Found(records[instanceId]);
    }

    /** ListCanonicalNames: the canonical names, or none when the index
        cannot be loaded; it never reports an error. */
    method ListCanonicalNames() returns (names: seq<string>)
      modifies this
      ensures names == (if LoadError(old(index), indexFile).Some? then [] else Loaded(old(index), indexFile).canonicalNames)
      ensures index == Loaded(old(index), indexFile)
      ensures indexFile == old(indexFile) && records == old(records)
    {
      var err := LoadIndex();
      if err.Some? {
        return [];
      }
      names := index.canonicalNames;
    }
  }
}
