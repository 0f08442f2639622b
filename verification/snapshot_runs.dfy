/**
 That the machine of module Snapshots does what it is to do: every run of Worlds happens on it, and a reader that has
 the lock can read everything it loads.
 */
module SnapshotRuns {
  import opened Text
  import opened Settings
  import opened Order
  import opened Files
  import opened EngineFiles
  import opened Store
  import opened Worlds
  import opened Snapshots

  lemma {:induction false} MovedAppend(m: Machine, a: seq<Move>, b: seq<Move>)
    ensures Moved(m, a + b) == Moved(Moved(m, a), b)
    decreases |a|
  {
    hide Step;
    if a == [] {
      assert a + b == b;
    } else {
      assert (a + b)[1..] == a[1..] + b;
      MovedAppend(Step(m, a[0]), a[1..], b);
    }
  }

  lemma MovedOne(m: Machine, move: Move)
    ensures Moved(m, [move]) == Step(m, move)
  {
    hide Step;
    assert [move][1..] == [];
    assert Moved(Step(m, move), []) == Step(m, move);
  }

  // ---------------------------------------------------------------------------------------------------------
  // Calls
  // ---------------------------------------------------------------------------------------------------------

  /** A call that holds the lock can make all its accesses. */
  lemma {:induction false} PutAll(m: Machine) returns (moves: seq<Move>)
    requires m.lock.Writing?
    ensures Moved(m, moves) ==
      m.(home := m.home.(disk := ApplyAll(m.home.disk, m.lock.todo)), lock := m.lock.(todo := []))
    decreases |m.lock.todo|
  {
    hide Apply;
    if m.lock.todo == [] {
      moves := [];
    } else {
      var rest := PutAll(Step(m, Put));
      moves := [Put] + rest;
      MovedOne(m, Put);
      MovedAppend(m, [Put], rest);
    }
  }

  lemma CallHappens(m: Machine, id: nat, op: Op, start: Home) returns (moves: seq<Move>)
    requires Consistent(m, start) && m.lock.Free?
    ensures Moved(m, moves).lock.Free? && Moved(m, moves).log == m.log + [Call(id, op)]
  {
    hide Exec, Accesses, Prepared, Loads, Finished, Past, Consistent, Next;
    if Writes(WorldOf(m), Call(id, op)) {
      var taken := Step(m, Take(id, op));
      var puts := PutAll(taken);
      moves := [Take(id, op)] + puts + [Release];
      MovedOne(m, Take(id, op));
      MovedAppend(m, [Take(id, op)], puts);
      MovedAppend(m, [Take(id, op)] + puts, [Release]);
      MovedOne(Moved(taken, puts), Release);
    } else {
      moves := [Pass(id, op)];
      MovedOne(m, Pass(id, op));
    }
  }

  // ---------------------------------------------------------------------------------------------------------
  // Readers
  // ---------------------------------------------------------------------------------------------------------

  function Looks(repo: string, ids: seq<string>): seq<Move> {
    if ids == [] then [] else [LookDir(repo, ids[0])] + Looks(repo, ids[1..])
  }

  lemma {:induction false} LooksRead(m: Machine, repo: string, ids: seq<string>)
    requires m.lock.Reading?
    ensures var n := Moved(m, Looks(repo, ids));
      && n.home == m.home && n.members == m.members && n.log == m.log
      && n.lock.Reading? && n.lock.who == m.lock.who
      && n.lock.seen.conf == m.lock.seen.conf && n.lock.seen.ids == m.lock.seen.ids
      && (forall p :: p in m.lock.seen.dirs && m.lock.seen.dirs[p] == FilesOn(m.home.disk, p.0, p.1) ==>
           p in n.lock.seen.dirs && n.lock.seen.dirs[p] == FilesOn(m.home.disk, p.0, p.1))
      && (forall id :: id in ids ==>
           (repo, id) in n.lock.seen.dirs && n.lock.seen.dirs[(repo, id)] == FilesOn(m.home.disk, repo, id))
    decreases |ids|
  {
    hide FilesOn;
    if ids != [] {
      var look := LookDir(repo, ids[0]);
      MovedOne(m, look);
      MovedAppend(m, [look], Looks(repo, ids[1..]));
      LooksRead(Step(m, look), repo, ids[1..]);
    }
  }

  /** A reader can get the lock when it is free and read all that the engine, or a context that is opened, loads. */
  lemma ReadHappens(m: Machine, who: Reader) returns (moves: seq<Move>)
    requires m.lock.Free?
    ensures var n := Moved(m, moves);
      && n.home == m.home && n.members == m.members && n.log == m.log
      && n.lock.Reading? && n.lock.who == who && ReadAll(n.lock.seen) && ReadHome(n.lock.seen)
  {
    hide Step, ReadAll, ReadHome;
    var begun := Step(m, Begin(who));
    var conf := Step(begun, LookConf);
    var doc := m.home.disk.conf;
    var repo := if doc.Some? && RepoLeaf in doc.value then doc.value[RepoLeaf] else "";
    var listed := Step(conf, LookIds(repo));
    var ids := SortedKeys(RepoOf(m.home.disk, repo).Keys);
    moves := [Begin(who)] + [LookConf] + [LookIds(repo)] + Looks(repo, ids);
    MovedOne(m, Begin(who));
    MovedOne(begun, LookConf);
    MovedOne(conf, LookIds(repo));
    MovedAppend(m, [Begin(who)], [LookConf]);
    MovedAppend(m, [Begin(who)] + [LookConf], [LookIds(repo)]);
    MovedAppend(m, [Begin(who)] + [LookConf] + [LookIds(repo)], Looks(repo, ids));
    FirstLooks(m, who, repo);
    LooksRead(listed, repo, ids);
    ReadEnough(Moved(m, moves).lock.seen, m.home.disk, repo);
  }

  lemma FirstLooks(m: Machine, who: Reader, repo: string)
    requires m.lock.Free?
    ensures var n := Step(Step(Step(m, Begin(who)), LookConf), LookIds(repo));
      && n.home == m.home && n.members == m.members && n.log == m.log
      && n.lock == Reading(who, Seen(Some(m.home.disk.conf), map[repo := IdsOn(m.home.disk, repo)], map[]))
  {
    hide IdsOn;
  }

  lemma ReadEnough(seen: Seen, d: Disk, repo: string)
    requires seen.conf == Some(d.conf) && seen.ids == map[repo := IdsOn(d, repo)]
    requires d.conf.Some? && RepoLeaf in d.conf.value ==> repo == d.conf.value[RepoLeaf]
    requires forall id :: id in RepoOf(d, repo) ==>
      (repo, id) in seen.dirs && seen.dirs[(repo, id)] == FilesOn(d, repo, id)
    ensures ReadAll(seen) && ReadHome(seen)
  {
    hide ReadJournal, ReadPuncher, ReadEmailer, ReadRelay, GetInt;
  }

  lemma OpenHappens(m: Machine, id: nat) returns (moves: seq<Move>)
    requires m.lock.Free?
    ensures Moved(m, moves).lock.Free? && Moved(m, moves).log == m.log + [OpenHome(id)]
  {
    hide ReadAll, ReadHome, OpenedFrom;
    var looks := ReadHappens(m, NewContext(id));
    moves := looks + [End];
    MovedAppend(m, looks, [End]);
    MovedOne(Moved(m, looks), End);
  }

  /** Every run of Worlds, of any contexts and any calls, happens on the machine, to the same world. */
  lemma {:induction false} EveryRunHappens(home: Home, evs: seq<Event>) returns (moves: seq<Move>)
    ensures var m := Moved(Start(home), moves);
      m.lock.Free? && m.log == evs && WorldOf(m) == Worlds.Run(World(home, map[]), evs)
    decreases |evs|
  {
    hide Step, Moved, Worlds.Run, Consistent;
    if evs == [] {
      moves := [];
      assert Moved(Start(home), moves) == Start(home) by { NoMoves(Start(home)); }
    } else {
      var n := |evs| - 1;
      var front := EveryRunHappens(home, evs[..n]);
      var m := Moved(Start(home), front);
      StartConsistent(home);
      RunConsistent(Start(home), front, home);
      var last: seq<Move>;
      match evs[n] {
        case Call(id, op) => last := CallHappens(m, id, op, home);
        case OpenHome(id) => last := OpenHappens(m, id);
      }
      moves := front + last;
      MovedAppend(Start(home), front, last);
      assert evs == evs[..n] + [evs[n]];
    }
    MachineRefinesWorlds(home, moves);
  }

  lemma NoMoves(m: Machine)
    ensures Moved(m, []) == m
  {
  }
}
