/** Conservation of files: what the store holds are the files on record and those on their way, whatever interleaves. */
module Files {
  import opened Filing
  import opened Names
  import opened Rounds
  import opened States
  import opened Tables
  import opened Wrappers

  /** The artifact rows of every round. */
  type Records = map<RoundId, map<string, Artifact>>

  function Paths(artifacts: map<string, Artifact>): set<string> {
    set a | a in artifacts :: artifacts[a].path
  }

  /** No two rows share a path. */
  ghost predicate PathsUnique(records: Records) {
    && (forall i, a, b | i in records && a in records[i] && b in records[i] && records[i][a].path == records[i][b].path :: a == b)
    && forall i, j | i in records && j in records && i != j :: Paths(records[i]) !! Paths(records[j])
  }

  /** A file on its way is new to every round, and no two on their way share a name. */
  ghost predicate OnTheirWay(records: Records, inFlight: map<string, Stored>) {
    && (forall p | p in inFlight :: inFlight[p].path == p && forall i | i in records :: Insertable(records[i], inFlight[p]))
    && forall p, q | p in inFlight && q in inFlight && inFlight[p].objectId == inFlight[q].objectId :: p == q
  }

  ghost predicate OnRecord(records: Records, path: string) {
    exists i :: i in records && path in Paths(records[i])
  }

  /**
   * The files are those on their way and those on record; only rounds being removed may miss some of theirs.
   * Nothing is left of the rounds already removed.
   */
  ghost predicate Conserved(records: Records, files: set<string>, inFlight: map<string, Stored>, doomed: set<RoundId>,
                            removed: set<string>) {
    && PathsUnique(records) && OnTheirWay(records, inFlight)
    && (forall p | p in files :: p in inFlight || OnRecord(records, p))
    && inFlight.Keys <= files
    && (forall i | i in records && i !in doomed :: Paths(records[i]) <= files)
    && removed !! files
    && (forall i | i in records :: Paths(records[i]) !! removed)
  }

  /** The name was never given to a file before. */
  ghost predicate NewName(records: Records, files: set<string>, inFlight: map<string, Stored>, removed: set<string>, stored: Stored) {
    && stored.path !in files && stored.path !in removed
    && (forall i | i in records :: Insertable(records[i], stored))
    && forall p | p in inFlight :: inFlight[p].objectId != stored.objectId
  }

  lemma NotOnRecord(artifacts: map<string, Artifact>, stored: Stored)
    requires Insertable(artifacts, stored)
    ensures stored.path !in Paths(artifacts)
  {
  }

  lemma FlyingAreFiles(records: Records, files: set<string>, inFlight: map<string, Stored>, doomed: set<RoundId>,
                       removed: set<string>)
    requires Conserved(records, files, inFlight, doomed, removed)
    ensures inFlight.Keys <= files
  {
  }

  // ---- What the steps do to the books

  lemma FileArrives(records: Records, files: set<string>, inFlight: map<string, Stored>, doomed: set<RoundId>,
                removed: set<string>, stored: Stored)
    requires Conserved(records, files, inFlight, doomed, removed) && NewName(records, files, inFlight, removed, stored)
    ensures Conserved(records, files + {stored.path}, inFlight[stored.path := stored], doomed, removed)
  {
    hide Paths, Insertable;
  }

  lemma Discarded(records: Records, files: set<string>, inFlight: map<string, Stored>, doomed: set<RoundId>,
                  removed: set<string>, path: string)
    requires Conserved(records, files, inFlight, doomed, removed) && path in inFlight
    ensures Conserved(records, files - {path}, inFlight - {path}, doomed, removed)
  {
    forall i | i in records ensures path !in Paths(records[i]) {
      NotOnRecord(records[i], inFlight[path]);
    }
    hide Paths, Insertable;
  }

  lemma AddedPaths(before: map<string, Artifact>, after: map<string, Artifact>, stored: Stored, row: Artifact)
    requires Adds(before, after, stored, row)
    ensures Paths(after) == Paths(before) + {stored.path}
  {
    assert after[stored.objectId].path == stored.path;
    forall a | a in before ensures before[a].path in Paths(after) {
      assert a in after && after[a] == before[a];
    }
  }

  lemma AddedUnique(records: Records, id: RoundId, after: map<string, Artifact>, stored: Stored, row: Artifact)
    requires PathsUnique(records) && id in records && Adds(records[id], after, stored, row)
    requires forall i | i in records :: Insertable(records[i], stored)
    ensures PathsUnique(records[id := after])
  {
    var next := records[id := after];
    AddedPaths(records[id], after, stored, row);
    forall i | i in records ensures stored.path !in Paths(records[i]) {
      NotOnRecord(records[i], stored);
    }
    forall i, j | i in next && j in next && i != j ensures Paths(next[i]) !! Paths(next[j]) {
      hide Paths;
    }
  }

  /** A file whose request was newly accepted moves from its way onto the record. */
  lemma PutOnRecord(records: Records, files: set<string>, inFlight: map<string, Stored>, doomed: set<RoundId>,
              removed: set<string>, id: RoundId, after: map<string, Artifact>, path: string, row: Artifact)
    requires Conserved(records, files, inFlight, doomed, removed) && id in records && path in inFlight
    requires Adds(records[id], after, inFlight[path], row)
    ensures Conserved(records[id := after], files, inFlight - {path}, doomed, removed)
  {
    var stored := inFlight[path];
    var next, flying := records[id := after], inFlight - {path};
    AddedUnique(records, id, after, stored, row);
    AddedPaths(records[id], after, stored, row);
    forall p, i | p in flying && i in next ensures Insertable(next[i], flying[p]) {
      assert Insertable(records[i], inFlight[p]);
    }
    hide Paths, Insertable, Adds;
    assert OnTheirWay(next, flying);
    forall p | p in files ensures p in flying || OnRecord(next, p) {
      if p == path {
        assert path in Paths(next[id]);
      } else if p !in inFlight {
        var i :| i in records && p in Paths(records[i]);
        assert p in Paths(next[i]);
      }
    }
  }

  /** Deleting a file of a round being removed, or of one already gone, loses nothing. */
  lemma DoomedFileDeleted(records: Records, files: set<string>, inFlight: map<string, Stored>, doomed: set<RoundId>,
                          removed: set<string>, id: RoundId, path: string)
    requires Conserved(records, files, inFlight, doomed, removed)
    requires path in removed || (id in doomed && id in records && path in Paths(records[id]))
    ensures Conserved(records, files - {path}, inFlight, doomed, removed)
  {
    if path !in removed {
      forall i | i in records && i != id ensures path !in Paths(records[i]) {
      }
      assert path !in inFlight by {
        if path in inFlight {
          NotOnRecord(records[id], inFlight[path]);
        }
      }
    }
    hide Paths, Insertable;
  }

  /** Removing the rows of a round none of whose files is left strands no file. */
  lemma RoundRemoved(records: Records, files: set<string>, inFlight: map<string, Stored>, doomed: set<RoundId>,
                     removed: set<string>, id: RoundId)
    requires Conserved(records, files, inFlight, doomed, removed) && id in records && Paths(records[id]) !! files
    ensures Conserved(records - {id}, files, inFlight, doomed, removed + Paths(records[id]))
  {
    hide Paths, Insertable;
    forall p | p in files ensures p in inFlight || OnRecord(records - {id}, p) {
      if p !in inFlight {
        var i :| i in records && p in Paths(records[i]);
        assert i in records - {id};
      }
    }
  }

  lemma RoundAdded(records: Records, files: set<string>, inFlight: map<string, Stored>, doomed: set<RoundId>,
                   removed: set<string>, id: RoundId)
    requires Conserved(records, files, inFlight, doomed, removed) && id !in records
    ensures Conserved(records[id := map[]], files, inFlight, doomed, removed)
  {
    var next := records[id := map[]];
    assert Paths(next[id]) == {};
    assert forall p | p in inFlight :: Insertable(next[id], inFlight[p]);
    hide Paths, Insertable;
    forall p | p in files ensures p in inFlight || OnRecord(next, p) {
      if p !in inFlight {
        var i :| i in records && p in Paths(records[i]);
        assert p in Paths(next[i]);
      }
    }
  }
}
