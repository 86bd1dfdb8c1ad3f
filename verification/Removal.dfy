/** Maintenance as a whole: which rounds and files it removes, and that it touches no other. */
module Removal {
  import opened Database
  import opened Files
  import opened Ledgers
  import opened Names
  import opened RoundInvariant
  import opened Rounds
  import opened Runs
  import opened Shuffling
  import opened Store
  import opened Tables
  import opened Wrappers

  /** The paths of the artifacts of some rounds. */
  function PathsOf(rows: map<RoundId, Round>, ids: set<RoundId>): set<string> {
    set id, a | id in ids && id in rows && a in rows[id].artifacts :: rows[id].artifacts[a].path
  }

  lemma PathsOfOne(rows: map<RoundId, Round>, id: RoundId)
    requires id in rows
    ensures PathsOf(rows, {id}) == Paths(rows[id].artifacts)
  {
  }

  /** Nothing is left of some rounds: no row, no file. */
  function Without(l: Ledger, ids: set<RoundId>): Ledger {
    l.(rows := l.rows - ids, files := l.files - PathsOf(l.rows, ids), doomed := l.doomed + ids,
       removed := l.removed + PathsOf(l.rows, ids))
  }

  lemma WithoutNone(l: Ledger)
    ensures Without(l, {}) == l
  {
    assert PathsOf(l.rows, {}) == {};
  }

  lemma PathsOfMore(rows: map<RoundId, Round>, ids: set<RoundId>, id: RoundId)
    requires id in rows && id !in ids
    ensures PathsOf(rows, ids + {id}) == PathsOf(rows, ids) + PathsOf(rows - ids, {id})
  {
    forall i, a | i in ids + {id} && i in rows && a in rows[i].artifacts
      ensures rows[i].artifacts[a].path in PathsOf(rows, ids) + PathsOf(rows - ids, {id})
    {
      if i == id {
        assert (rows - ids)[id].artifacts[a].path in PathsOf(rows - ids, {id});
      } else {
        assert i in ids;
      }
    }
    forall i, a | i in ids && i in rows && a in rows[i].artifacts
      ensures rows[i].artifacts[a].path in PathsOf(rows, ids + {id})
    {
      assert i in ids + {id};
    }
    forall a | a in rows[id].artifacts ensures rows[id].artifacts[a].path in PathsOf(rows, ids + {id}) {
      assert id in ids + {id};
    }
  }

  lemma WithoutOneMore(l: Ledger, ids: set<RoundId>, id: RoundId)
    requires id in l.rows && id !in ids
    ensures Without(Without(l, ids), {id}) == Without(l, ids + {id})
  {
    PathsOfMore(l.rows, ids, id);
    hide PathsOf;
    assert l.rows - ids - {id} == l.rows - (ids + {id});
    assert l.files - PathsOf(l.rows, ids) - PathsOf(l.rows - ids, {id}) == l.files - PathsOf(l.rows, ids + {id});
  }

  /** The ended rounds whose retention is over. */
  function PastRetention(rows: map<RoundId, Round>, now: Time): set<RoundId> {
    set id | id in rows && Purgeable(rows[id].row, now)
  }

  /** Overdue rounds have expired, and every ended round past its retention is gone. */
  ghost function Maintained(l: Ledger, now: Time, draws: RoundId -> Draws): Ledger {
    var swept := After(l, Each(Step(Sweep, now)), draws);
    Without(swept, PastRetention(swept.rows, now))
  }

  /** No file of a remaining round is touched. */
  lemma RemovalSparesOthers(l: Ledger, ids: set<RoundId>, hash: Bytes -> string, id: RoundId, a: string, row: Artifact, data: Bytes)
    requires Balanced(l, hash) && id !in ids && OnFile(l, id, a, row, data)
    ensures OnFile(Without(l, ids), id, a, row, data)
  {
    hide Balanced, PathsOf;
    OtherPaths(l, ids, hash, id, a);
  }

  lemma OtherPaths(l: Ledger, ids: set<RoundId>, hash: Bytes -> string, id: RoundId, a: string)
    requires Balanced(l, hash) && id !in ids && id in l.rows && a in l.rows[id].artifacts
    ensures l.rows[id].artifacts[a].path !in PathsOf(l.rows, ids)
  {
    hide Balanced;
    forall other, b | other in ids && other in l.rows && b in l.rows[other].artifacts
      ensures l.rows[other].artifacts[b].path != l.rows[id].artifacts[a].path
    {
      PathsDiffer(l, hash, id, a, other, b);
    }
  }

  lemma PathsDiffer(l: Ledger, hash: Bytes -> string, id: RoundId, a: string, other: RoundId, b: string)
    requires Balanced(l, hash) && id in l.rows && a in l.rows[id].artifacts && other in l.rows && b in l.rows[other].artifacts
    requires other != id
    ensures l.rows[other].artifacts[b].path != l.rows[id].artifacts[a].path
  {
    hide Inv, Contents, OnlyEnded, OnTheirWay, OnRecord;
    var records := RecordsOf(l.rows);
    assert l.rows[id].artifacts[a].path in Paths(records[id]);
    assert l.rows[other].artifacts[b].path in Paths(records[other]);
  }

  /**
   * Maintenance leaves exactly the rounds that are not past their retention, as the expiry sweep left them, and takes
   * no file but those of the rounds it removes.
   */
  lemma MaintenanceIsExact(l: Ledger, now: Time, draws: RoundId -> Draws, hash: Bytes -> string)
    requires Balanced(l, hash) && Drawn(draws)
    ensures var swept, after := Swept(l.rows, Step(Sweep, now), draws), Maintained(l, now, draws);
      && (forall id :: id in after.rows <==> id in swept && !Purgeable(swept[id].row, now))
      && (forall id | id in after.rows :: after.rows[id] == swept[id])
      && (forall id, a, row, data | id in after.rows && OnFile(l, id, a, row, data) :: OnFile(after, id, a, row, data))
      && after.inFlight == l.inFlight
  {
    var step := Step(Sweep, now);
    var swept := After(l, Each(step), draws);
    var ids := PastRetention(swept.rows, now);
    hide Balanced, Perform, Purgeable, Drawn, PathsOf;
    EachKeeps(l, step, draws, hash);
    forall id, a, row, data | id in swept.rows && id !in ids && OnFile(l, id, a, row, data)
      ensures OnFile(Without(swept, ids), id, a, row, data)
    {
      assert RecordsOf(swept.rows)[id] == RecordsOf(l.rows)[id];
      RemovalSparesOthers(swept, ids, hash, id, a, row, data);
    }
  }
}
