/** What Save builds (lib/cache/yaml.go) and what Lookup then resolves. */
module CacheProofs {
  import opened Strings
  import opened Sequences
  import opened Types
  import opened Wrappers
  import opened Aws
  import opened YamlCache

  // ---------------------------------------------------------------------
  // The names of one entry

  lemma {:induction false} IndexNamesAt(m: map<string, string>, names: seq<string>, instanceId: string, n: string)
    ensures n in IndexNames(m, names, instanceId) <==> n in m || n in names
    ensures n in names ==> IndexNames(m, names, instanceId)[n] == IdValue(n, instanceId)
    ensures n !in names && n in m ==> IndexNames(m, names, instanceId)[n] == m[n]
    decreases |names|
  {
    if names != [] {
      var init := names[..|names| - 1];
      IndexNamesAt(m, init, instanceId, n);
      assert names == init + [names[|names| - 1]];
    }
  }

  // ---------------------------------------------------------------------
  // The name index

  /** The entries of `es` that carry `n` among their names. */
  predicate NamedBy(es: seq<SSHEntry>, k: int, n: string) {
    0 <= k < |es| && n in es[k].names
  }

  /** Every name of every entry is a key, and nothing else is: the map is
      built from scratch, so no key of an earlier save survives. */
  lemma {:induction false} NameIndexKeys(es: seq<SSHEntry>, n: string)
    ensures n in NameIndex(es) <==> exists k :: NamedBy(es, k, n)
    decreases |es|
  {
    if es != [] {
      var init := es[..|es| - 1];
      var last := es[|es| - 1];
      NameIndexKeys(init, n);
      IndexNamesAt(NameIndex(init), last.names, last.instanceId, n);
      if n in last.names {
        assert NamedBy(es, |es| - 1, n);
      } else if n in NameIndex(init) {
        var k :| NamedBy(init, k, n);
        assert NamedBy(es, k, n);
      } else {
        forall k | 0 <= k < |es|
          ensures !NamedBy(es, k, n)
        {
          if k < |es| - 1 {
            assert !NamedBy(init, k, n);
          }
        }
      }
    }
  }

  /** The value of a name is set by the last entry carrying it: "" when the
      name is that entry's instance id, the instance id otherwise. */
  lemma {:induction false} NameIndexLastWins(es: seq<SSHEntry>, k: nat, n: string)
    requires NamedBy(es, k, n)
    requires forall k' :: k < k' < |es| ==> n !in es[k'].names
    ensures n in NameIndex(es) && NameIndex(es)[n] == IdValue(n, es[k].instanceId)
    decreases |es|
  {
    var init := es[..|es| - 1];
    var last := es[|es| - 1];
    if k < |es| - 1 {
      assert n !in last.names;
      NameIndexLastWins(init, k, n);
    }
    IndexNamesAt(NameIndex(init), last.names, last.instanceId, n);
  }

  // ---------------------------------------------------------------------
  // Canonical names

  /** A name is added to the canonical names exactly when it is the first
      name of an entry and differs from that entry's instance id. */
  lemma {:induction false} CanonicalAddsMembers(es: seq<SSHEntry>, x: string)
    ensures x in CanonicalAdds(es) <==>
            exists k :: 0 <= k < |es| && |es[k].names| > 0 && es[k].names[0] == x && x != es[k].instanceId
    decreases |es|
  {
    if es != [] {
      var init := es[..|es| - 1];
      CanonicalAddsMembers(init, x);
      if k :| 0 <= k < |init| && |init[k].names| > 0 && init[k].names[0] == x && x != init[k].instanceId {
        assert es[k] == init[k];
      }
      if k :| 0 <= k < |es| && |es[k].names| > 0 && es[k].names[0] == x && x != es[k].instanceId {
        if k < |init| {
          assert init[k] == es[k];
        }
      }
    }
  }

  /** Save keeps the old canonical names, adds the new ones and sorts the
      lot; the time is left as it was. */
  lemma SavedCanonicalNames(old_index: Index, ss: seq<ProcessedProfileSummary>)
    ensures multiset(SavedIndex(old_index, ss).canonicalNames)
         == multiset(old_index.canonicalNames) + multiset(CanonicalAdds(Entries(ss)))
    ensures forall i, j :: 0 <= i < j < |SavedIndex(old_index, ss).canonicalNames| ==>
              LessOrEqual(SavedIndex(old_index, ss).canonicalNames[i], SavedIndex(old_index, ss).canonicalNames[j])
    ensures SavedIndex(old_index, ss).time == old_index.time
  {
    SortBySorted(old_index.canonicalNames + CanonicalAdds(Entries(ss)), NameOrder);
  }

  // ---------------------------------------------------------------------
  // Records

  /** One record per entry, keyed by instance id: the last entry with an id
      owns its record; ids of no entry keep what was stored before. */
  lemma {:induction false} StoreRecordsAt(records: map<string, SSHEntry>, es: seq<SSHEntry>, id: string)
    ensures id in StoreRecords(records, es) <==> id in records || exists k :: 0 <= k < |es| && es[k].instanceId == id
    ensures (forall k :: 0 <= k < |es| ==> es[k].instanceId != id) && id in records ==>
              StoreRecords(records, es)[id] == records[id]
    decreases |es|
  {
    if es != [] {
      var init := es[..|es| - 1];
      StoreRecordsAt(records, init, id);
      if k :| 0 <= k < |init| && init[k].instanceId == id {
        assert es[k] == init[k];
      }
      if k :| 0 <= k < |es| - 1 && es[k].instanceId == id {
        assert init[k] == es[k];
      }
    }
  }

  lemma {:induction false} StoreRecordsLastWins(records: map<string, SSHEntry>, es: seq<SSHEntry>, k: nat)
    requires k < |es|
    requires forall k' :: k < k' < |es| ==> es[k'].instanceId != es[k].instanceId
    ensures es[k].instanceId in StoreRecords(records, es)
    ensures StoreRecords(records, es)[es[k].instanceId] == es[k]
    decreases |es|
  {
    if k < |es| - 1 {
      StoreRecordsLastWins(records, es[..|es| - 1], k);
    }
  }

  // ---------------------------------------------------------------------
  // Round trip

  /** The entries the round trip holds for: every entry lists its own
      non-empty instance id among its names, and no name is shared. */
  predicate WellNamed(es: seq<SSHEntry>) {
    && (forall k :: 0 <= k < |es| ==> es[k].instanceId != "" && es[k].instanceId in es[k].names)
    && (forall k, k', n :: 0 <= k < k' < |es| && n in es[k].names ==> n !in es[k'].names)
  }

  lemma {:induction false} WellNamedOwner(es: seq<SSHEntry>, k: nat, n: string)
    requires WellNamed(es) && NamedBy(es, k, n)
    ensures n in NameIndex(es) && NameIndex(es)[n] == IdValue(n, es[k].instanceId)
    ensures es[k].instanceId in NameIndex(es) && NameIndex(es)[es[k].instanceId] == ""
  {
    NameIndexLastWins(es, k, n);
    NameIndexLastWins(es, k, es[k].instanceId);
  }

  /** Every non-empty value of the index is itself a key, mapped to "". */
  lemma {:induction false} ValuesAreIds(es: seq<SSHEntry>, n: string)
    requires WellNamed(es)
    requires n in NameIndex(es) && NameIndex(es)[n] != ""
    ensures NameIndex(es)[n] in NameIndex(es) && NameIndex(es)[NameIndex(es)[n]] == ""
  {
    NameIndexKeys(es, n);
    var k :| NamedBy(es, k, n);
    WellNamedOwner(es, k, n);
  }

  lemma {:induction false} WellNamedRecord(records: map<string, SSHEntry>, es: seq<SSHEntry>, k: nat)
    requires WellNamed(es) && k < |es|
    ensures es[k].instanceId in StoreRecords(records, es)
    ensures StoreRecords(records, es)[es[k].instanceId] == es[k]
  {
    forall k' | k < k' < |es|
      ensures es[k'].instanceId != es[k].instanceId
    {
      assert es[k].instanceId in es[k].names;
    }
    StoreRecordsLastWins(records, es, k);
  }

  /** Looking up a non-empty name of entry k finds that entry, once the
      index maps names as Save left them. */
  lemma {:induction false} ExactHit(idx: Index, records: map<string, SSHEntry>, es: seq<SSHEntry>,
                                    k: nat, n: string, finder: seq<string> -> Choice)
    requires ValidFinder(finder)
    requires WellNamed(es) && idx.instancesIndex == NameIndex(es) && NamedBy(es, k, n) && n != ""
    ensures Resolve(idx, StoreRecords(records, es), n, finder) == Found(es[k])
  {
    WellNamedOwner(es, k, n);
    WellNamedRecord(records, es, k);
  }

  /** After Save, looking up any non-empty name of an entry returns that
      entry. */
  lemma SaveThenLookup(old_index: Index, records: map<string, SSHEntry>,
                       ss: seq<ProcessedProfileSummary>, k: nat, n: string,
                       finder: seq<string> -> Choice)
    requires ValidFinder(finder)
    requires WellNamed(Entries(ss)) && NamedBy(Entries(ss), k, n) && n != ""
    ensures LookupFrom(SavedIndex(old_index, ss), Present(SavedIndex(old_index, ss)),
                       StoreRecords(records, Entries(ss)), n, finder)
         == Found(Entries(ss)[k])
  {
    var idx := SavedIndex(old_index, ss);
    assert LookupFrom(idx, Present(idx), StoreRecords(records, Entries(ss)), n, finder)
        == Resolve(idx, StoreRecords(records, Entries(ss)), n, finder);
    ExactHit(idx, records, Entries(ss), k, n, finder);
  }

  /** Picking a name that entries `es` added resolves to the entry whose
      first name it is, once the index maps names as Save left them. */
  lemma {:induction false} PickAdded(idx: Index, records: map<string, SSHEntry>, es: seq<SSHEntry>,
                                     name: string, finder: seq<string> -> Choice)
    requires ValidFinder(finder)
    requires WellNamed(es) && idx.instancesIndex == NameIndex(es)
    requires name == "" || name !in idx.instancesIndex
    requires finder(idx.canonicalNames).Picked?
    requires idx.canonicalNames[finder(idx.canonicalNames).position] in CanonicalAdds(es)
    ensures var r := Resolve(idx, StoreRecords(records, es), name, finder);
            r.Found? && |r.entry.names| > 0 && r.entry.names[0] == idx.canonicalNames[finder(idx.canonicalNames).position]
  {
    var x := idx.canonicalNames[finder(idx.canonicalNames).position];
    CanonicalAddsMembers(es, x);
    var k :| 0 <= k < |es| && |es[k].names| > 0 && es[k].names[0] == x && x != es[k].instanceId;
    assert NamedBy(es, k, x);
    WellNamedOwner(es, k, x);
    WellNamedRecord(records, es, k);
  }

  /** After Save, picking a canonical name that this save added returns the
      entry whose first name it is. */
  lemma SaveThenPick(old_index: Index, records: map<string, SSHEntry>,
                     ss: seq<ProcessedProfileSummary>, name: string, finder: seq<string> -> Choice)
    requires ValidFinder(finder)
    requires WellNamed(Entries(ss))
    requires name == "" || name !in NameIndex(Entries(ss))
    requires finder(SavedIndex(old_index, ss).canonicalNames).Picked?
    requires SavedIndex(old_index, ss).canonicalNames[finder(SavedIndex(old_index, ss).canonicalNames).position]
             in CanonicalAdds(Entries(ss))
    ensures var r := LookupFrom(SavedIndex(old_index, ss), Present(SavedIndex(old_index, ss)),
                                StoreRecords(records, Entries(ss)), name, finder);
            r.Found? && |r.entry.names| > 0 &&
            r.entry.names[0] == SavedIndex(old_index, ss).canonicalNames[finder(SavedIndex(old_index, ss).canonicalNames).position]
  {
    var idx := SavedIndex(old_index, ss);
    assert LookupFrom(idx, Present(idx), StoreRecords(records, Entries(ss)), name, finder)
        == Resolve(idx, StoreRecords(records, Entries(ss)), name, finder);
    PickAdded(idx, records, Entries(ss), name, finder);
  }

  /** A canonical name kept from an earlier save that no entry of this save
      carries resolves to the empty instance id. */
  lemma StalePick(old_index: Index, records: map<string, SSHEntry>,
                  ss: seq<ProcessedProfileSummary>, name: string, finder: seq<string> -> Choice)
    requires ValidFinder(finder)
    requires name == "" || name !in NameIndex(Entries(ss))
    requires finder(SavedIndex(old_index, ss).canonicalNames).Picked?
    requires forall k :: 0 <= k < |Entries(ss)| ==>
               SavedIndex(old_index, ss).canonicalNames[finder(SavedIndex(old_index, ss).canonicalNames).position]
               !in Entries(ss)[k].names
    ensures LookupFrom(SavedIndex(old_index, ss), Present(SavedIndex(old_index, ss)),
                       StoreRecords(records, Entries(ss)), name, finder)
         == FetchRecord(StoreRecords(records, Entries(ss)), "")
  {
    var cn := SavedIndex(old_index, ss).canonicalNames;
    NameIndexKeys(Entries(ss), cn[finder(cn).position]);
  }

  // ---------------------------------------------------------------------
  // How a lookup fails

  /** The failures of Lookup: a load error is returned as it is; with the
      index loaded, a name that is empty or unknown goes to the finder,
      which fails on an empty list of canonical names or an abort; and an
      entry that is found is one of the stored records. */
  lemma LookupOutcomes(idx: Index, file: IndexFile, records: map<string, SSHEntry>, name: string,
                       finder: seq<string> -> Choice)
    requires ValidFinder(finder)
    ensures var r, loaded := LookupFrom(idx, file, records, name, finder), Loaded(idx, file);
      var fuzzy := name == "" || name !in loaded.instancesIndex;
      && (LoadError(idx, file).Some? ==> r == Failed(LoadError(idx, file).value))
      && (LoadError(idx, file).None? && fuzzy && |loaded.canonicalNames| == 0 ==> r == Failed(NoNames))
      && ((LoadError(idx, file).None? && fuzzy && |loaded.canonicalNames| > 0 &&
           finder(loaded.canonicalNames).Abort?) ==> r == Failed(NothingSelected))
      && (r.Found? ==> exists id :: id in records && records[id] == r.entry)
  {
  }

  /** loadIndex reads the file only while the index time is zero; an index
      with a time is kept, and loading twice is loading once when the
      stored index has a time or the file holds none. */
  lemma LoadedStable(idx: Index, file: IndexFile)
    ensures idx.time != 0 ==> Loaded(idx, file) == idx && LoadError(idx, file).None?
    ensures file.Present? && file.stored.time != 0 ==> Loaded(Loaded(idx, file), file) == Loaded(idx, file)
    ensures !file.Present? ==> Loaded(idx, file) == idx
  {
  }
}
