/**
 The migration of node rows from "address:port" identities to plain addresses
 (internal/database/database.go:113-206): whatever the order of the rows, each
 address ends with the history of its whole group, and a second run finds nothing.
 */
module Migration {
  import opened Wrappers
  import opened Text

  /** The history that the migration merges; `rest` stands for all other columns. */
  datatype Row = Row(failCount: int, firstSeen: Option<int>, lastSeen: Option<int>, rest: nat)

  /** net.ParseIP with String(), and net.SplitHostPort with strconv.Atoi on the port. */
  datatype Library = Library(parseIP: string -> Option<string>, split: string -> Option<(string, int)>)

  /** What is known of them: a canonical address is its own canonical form, trimmed; only text with a colon splits. */
  ghost predicate Lawful(lib: Library) {
    && (forall s: string :: lib.parseIP(s).Some? ==>
          var c := lib.parseIP(s).value; c != "" && TrimSpace(c) == c && lib.parseIP(c) == Some(c))
    && (forall s: string :: lib.split(s).Some? ==> ':' in s)
  }

  /** ParseLegacyNodeID: the address a legacy identity is to become. */
  function Target(lib: Library, id: string): Option<string> {
    var t := TrimSpace(id);
    if t == "" || lib.parseIP(t).Some? then None
    else
      match lib.split(t)
      case None => None
      case Some((host, port)) => if 0 < port <= 65535 then lib.parseIP(host) else None
  }

  predicate Legacy(lib: Library, id: string) {
    Target(lib, id).Some?
  }

  /** Only "address:port" with a port from 1 to 65535 is moved, and only to that address; an address itself never is. */
  lemma TargetMeans(lib: Library, id: string, c: string)
    requires Lawful(lib)
    ensures Target(lib, id) == Some(c) <==>
      var t := TrimSpace(id);
      && lib.parseIP(t).None? && lib.split(t).Some?
      && 1 <= lib.split(t).value.1 < 65536 && lib.parseIP(lib.split(t).value.0) == Some(c)
  {
  }

  /** An address is nobody's legacy identity, and legacy identities have a colon. */
  lemma TargetsAreClean(lib: Library, id: string)
    requires Lawful(lib) && Legacy(lib, id)
    ensures !Legacy(lib, Target(lib, id).value) && Target(lib, id).value != id && ':' in id
  {
    var c := Target(lib, id).value;
    assert lib.parseIP(c) == Some(c) && TrimSpace(c) == c;
    TrimSpaceShape(id);
  }

  function Earlier(a: Option<int>, b: Option<int>): Option<int> {
    if b.Some? && (a.None? || b.value < a.value) then b else a
  }

  function Later(a: Option<int>, b: Option<int>): Option<int> {
    if b.Some? && (a.None? || b.value > a.value) then b else a
  }

  /** The collision case: history is merged into the row that is there. */
  function Merge(existing: Row, leg: Row): Row {
    existing.(failCount := if leg.failCount > existing.failCount then leg.failCount else existing.failCount,
              firstSeen := Earlier(existing.firstSeen, leg.firstSeen),
              lastSeen := Later(existing.lastSeen, leg.lastSeen))
  }

  // ---- The history of a group, without any order ----

  ghost predicate MaxFailCount(db: map<string, Row>, group: set<string>, v: int) {
    (forall id | id in group && id in db :: db[id].failCount <= v) &&
        (exists id :: id in group && id in db && db[id].failCount == v)
  }

  ghost predicate EarliestSeen(db: map<string, Row>, group: set<string>, v: Option<int>) {
    && (forall id | id in group && id in db && db[id].firstSeen.Some? :: v.Some? && v.value <= db[id].firstSeen.value)
    && (v.Some? ==> exists id :: id in group && id in db && db[id].firstSeen == v)
  }

  ghost predicate LatestSeen(db: map<string, Row>, group: set<string>, v: Option<int>) {
    && (forall id | id in group && id in db && db[id].lastSeen.Some? :: v.Some? && v.value >= db[id].lastSeen.value)
    && (v.Some? ==> exists id :: id in group && id in db && db[id].lastSeen == v)
  }

  ghost predicate History(db: map<string, Row>, group: set<string>, row: Row) {
    MaxFailCount(db, group, row.failCount) && EarliestSeen(db, group, row.firstSeen) &&
        LatestSeen(db, group, row.lastSeen)
  }

  lemma OwnHistory(db: map<string, Row>, id: string)
    requires id in db
    ensures History(db, {id}, db[id])
  {
  }

  lemma MergedHistory(db: map<string, Row>, group: set<string>, row: Row, id: string)
    requires id in db && History(db, group, row)
    ensures History(db, group + {id}, Merge(row, db[id]))
  {
    var m := Merge(row, db[id]);
    var f :| f in group && f in db && db[f].failCount == row.failCount;
    assert f in group + {id} && id in group + {id};
    if row.firstSeen.Some? {
      var k :| k in group && k in db && db[k].firstSeen == row.firstSeen;
      assert k in group + {id};
    }
    if row.lastSeen.Some? {
      var k :| k in group && k in db && db[k].lastSeen == row.lastSeen;
      assert k in group + {id};
    }
  }

  /** A group has one history. */
  lemma HistoryIsUnique(db: map<string, Row>, group: set<string>, a: Row, b: Row)
    requires History(db, group, a) && History(db, group, b)
    ensures a.failCount == b.failCount && a.firstSeen == b.firstSeen && a.lastSeen == b.lastSeen
  {
  }

  // ---- The run ----

  /** The rows that become, or are, address c, of those in `seen` and c itself. */
  ghost function Group(lib: Library, db: map<string, Row>, seen: set<string>, c: string): set<string> {
    (set id | id in seen && Target(lib, id) == Some(c)) + (if c in db then {c} else {})
  }

  /** The legacy rows in `seen` are gone, the others as they were. */
  ghost predicate LegacyGone(lib: Library, db: map<string, Row>, db': map<string, Row>, seen: set<string>) {
    forall id | Legacy(lib, id) :: Get(db', id) == if id in seen then None else Get(db, id)
  }

  /** What became of address c. */
  ghost predicate Settled(lib: Library, db: map<string, Row>, db': map<string, Row>, seen: set<string>, c: string) {
    var g := Group(lib, db, seen, c);
    && (c in db' <==> g != {})
    && (c in db' ==> History(db, g, db'[c]))
    && (g == {c} && c in db && c in db' ==> db'[c] == db[c])
  }

  /** The table after the legacy rows in `seen` have been dealt with. */
  ghost predicate Migrated(lib: Library, db: map<string, Row>, db': map<string, Row>, seen: set<string>) {
    LegacyGone(lib, db, db', seen) && forall c | !Legacy(lib, c) :: Settled(lib, db, db', seen, c)
  }

  function MigrateOne(lib: Library, db: map<string, Row>, id: string, leg: Row): map<string, Row> {
    match Target(lib, id)
    case None => db
    case Some(c) => (if c in db then db[c := Merge(db[c], leg)] else db[c := leg]) - {id}
  }

  lemma NothingYet(lib: Library, db: map<string, Row>)
    ensures Migrated(lib, db, db, {})
  {
    forall c ensures Settled(lib, db, db, {}, c) {
      assert Group(lib, db, {}, c) == if c in db then {c} else {};
      if c in db { OwnHistory(db, c); }
    }
    hide Settled, Target;
  }

  lemma SkipsOthers(lib: Library, db: map<string, Row>, db': map<string, Row>, seen: set<string>, id: string)
    requires Migrated(lib, db, db', seen) && !Legacy(lib, id)
    ensures Migrated(lib, db, db', seen + {id})
  {
    hide History;
    forall c ensures Group(lib, db, seen + {id}, c) == Group(lib, db, seen, c) {}
    forall i | Legacy(lib, i) ensures i in seen + {id} <==> i in seen {}
  }

  lemma GroupGrows(lib: Library, db: map<string, Row>, seen: set<string>, id: string, c: string)
    ensures Group(lib, db, seen + {id}, c) ==
              if Target(lib, id) == Some(c) then Group(lib, db, seen, c) + {id} else Group(lib, db, seen, c)
  {
  }

  /** The address that receives a legacy row. */
  lemma Receives(lib: Library, db: map<string, Row>, db': map<string, Row>, seen: set<string>, id: string, t: string)
    requires Settled(lib, db, db', seen, t) && Target(lib, id) == Some(t) && t != id && id in db
    ensures Settled(lib, db, MigrateOne(lib, db', id, db[id]), seen + {id}, t)
  {
    hide History, Merge;
    GroupGrows(lib, db, seen, id, t);
    var g := Group(lib, db, seen, t);
    if t in db' {
      MergedHistory(db, g, db'[t], id);
    } else {
      assert g + {id} == {id};
      OwnHistory(db, id);
    }
    assert id in g + {id} && g + {id} != {t};
  }

  lemma Bystands(lib: Library, db: map<string, Row>, db': map<string, Row>, next: map<string, Row>, seen: set<string>,
      id: string, c: string)
    requires Settled(lib, db, db', seen, c) && Target(lib, id) != Some(c) && Get(next, c) == Get(db', c)
    ensures Settled(lib, db, next, seen + {id}, c)
  {
    hide History;
    GroupGrows(lib, db, seen, id, c);
  }

  lemma OneMore(lib: Library, db: map<string, Row>, db': map<string, Row>, seen: set<string>, id: string)
    requires Lawful(lib) && Legacy(lib, id) && id in db && id !in seen && Migrated(lib, db, db', seen)
    ensures Migrated(lib, db, MigrateOne(lib, db', id, db[id]), seen + {id})
  {
    hide Lawful, Merge, Settled;
    TargetsAreClean(lib, id);
    var t := Target(lib, id).value;
    var next := MigrateOne(lib, db', id, db[id]);
    forall c | !Legacy(lib, c) ensures Settled(lib, db, next, seen + {id}, c) {
      if c == t { Receives(lib, db, db', seen, id, t); } else { Bystands(lib, db, db', next, seen, id, c); }
    }
    hide Target;
    forall i | Legacy(lib, i) ensures Get(next, i) == if i in seen + {id} then None else Get(db, i) {
      assert Get(db', i) == if i in seen then None else Get(db, i);
    }
  }

  /**
   MigrateNodeIdentities, for rows that the query returns in any order. Each address ends up with the largest failure
   count, the earliest first and the latest last sighting of its group; rows without legacy relations stay as they are.
   */
  method MigrateNodeIdentities(lib: Library, db: map<string, Row>) returns (migrated: map<string, Row>)
    requires Lawful(lib)
    ensures Migrated(lib, db, migrated, db.Keys)
  {
    hide Migrated, Lawful, MigrateOne;
    NothingYet(lib, db);
    migrated := db;
    ghost var seen: set<string> := {};
    var found := set id | id in db && ':' in id;
    var todo := found;
    while todo != {}
      invariant todo <= found && seen == found - todo
      invariant Migrated(lib, db, migrated, seen)
    {
      var id :| id in todo;
      if Legacy(lib, id) {
        OneMore(lib, db, migrated, seen, id);
        migrated := MigrateOne(lib, migrated, id, db[id]);
      } else {
        SkipsOthers(lib, db, migrated, seen, id);
      }
      todo := todo - {id};
      seen := seen + {id};
    }
    AllLegacyFound(lib, db, migrated, seen);
  }

  /** The rows that the query leaves out are no legacy rows. */
  lemma AllLegacyFound(lib: Library, db: map<string, Row>, db': map<string, Row>, seen: set<string>)
    requires Lawful(lib) && seen == (set id | id in db && ':' in id) && Migrated(lib, db, db', seen)
    ensures Migrated(lib, db, db', db.Keys)
  {
    forall id | Legacy(lib, id) && id in db ensures id in seen { TargetsAreClean(lib, id); }
    forall c ensures Group(lib, db, db.Keys, c) == Group(lib, db, seen, c) {
      forall id | id in db && Target(lib, id) == Some(c) ensures id in seen { assert Legacy(lib, id); }
    }
  }

  /** Two runs on the same table in different orders agree on every history. */
  lemma OrderDoesNotMatter(lib: Library, db: map<string, Row>, a: map<string, Row>, b: map<string, Row>)
    requires Migrated(lib, db, a, db.Keys) && Migrated(lib, db, b, db.Keys)
    ensures a.Keys == b.Keys
    ensures forall c | c in a ::
      && c in b
      && a[c].failCount == b[c].failCount && a[c].firstSeen == b[c].firstSeen && a[c].lastSeen == b[c].lastSeen
  {
    hide Group, Target, History;
    forall c ensures c in a <==> c in b { if Legacy(lib, c) {} }
    forall c | c in a
      ensures a[c].failCount == b[c].failCount && a[c].firstSeen == b[c].firstSeen && a[c].lastSeen == b[c].lastSeen
    {
      assert !Legacy(lib, c);
      HistoryIsUnique(db, Group(lib, db, db.Keys, c), a[c], b[c]);
    }
  }

  lemma NoGroupsLeft(lib: Library, once: map<string, Row>, c: string)
    requires forall id | id in once :: !Legacy(lib, id)
    ensures Group(lib, once, once.Keys, c) == if c in once then {c} else {}
  {
    forall id | id in once.Keys ensures Target(lib, id) != Some(c) { assert !Legacy(lib, id); }
  }

  /** A second run changes nothing. */
  lemma SecondRunIsIdle(lib: Library, db: map<string, Row>, once: map<string, Row>, twice: map<string, Row>)
    requires Migrated(lib, db, once, db.Keys) && Migrated(lib, once, twice, once.Keys)
    ensures twice == once
  {
    hide History, Group, Legacy;
    forall c | c in once ensures !Legacy(lib, c) { assert Legacy(lib, c) ==>
        Get(once, c) == if c in db.Keys then None else Get(db, c); }
    forall c ensures Get(twice, c) == Get(once, c) {
      if Legacy(lib, c) {
        assert Get(twice, c) == if c in once.Keys then None else Get(once, c);
      } else {
        NoGroupsLeft(lib, once, c);
        assert Settled(lib, once, twice, once.Keys, c);
      }
    }
    forall c ensures c in twice <==> c in once { assert Get(twice, c) == Get(once, c); }
    forall c | c in once ensures twice[c] == once[c] { assert Get(twice, c) == Get(once, c); }
  }
}
