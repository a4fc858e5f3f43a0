/**
 Storing a vetted discovery batch in one transaction
 (internal/discovery/persistence.go:43-110): live rows keep what is known of their
 verified exits, and only retryable rows change status.
 */
module Persistence {
  import opened Wrappers
  import Fsm

  /** A row: its status, its reputation and network evidence with the last error, and the public discovery columns. */
  datatype Row = Row(status: Fsm.Status, evidence: string, error: string, public: string)

  datatype Fresh = Fresh(id: string, row: Row)

  type Table = map<string, Row>

  predicate Live(s: Fsm.Status) {
    s.Active? || s.Standby? || s.Draining?
  }

  predicate Advances(s: Fsm.Status) {
    s.New? || s.Discovered? || s.ReputationChecked? || s.Stale? || s.Failed? || s.Cooldown? || s.Dead?
  }

  predicate Fails(s: Fsm.Status) {
    s.New? || s.Discovered? || s.ReputationChecked? || s.Healthy? || s.Qualified? || s.Stale? ||
        s.Failed? || s.Cooldown?
  }

  /** INSERT ... ON CONFLICT (id) DO UPDATE of the discovery columns. */
  function UpsertOne(t: Table, n: Fresh): Table {
    t[n.id := if n.id in t then t[n.id].(public := n.row.public) else n.row]
  }

  /** UPDATE of the evidence, the acceptance and the rejection, each with its WHERE on the status. */
  function Told(row: Row, last: Row): Row {
    if Live(row.status) then row else row.(evidence := last.evidence, error := last.error)
  }

  function Advanced(row: Row, accepted: bool): Row {
    if accepted && Advances(row.status) then row.(status := Fsm.ReputationChecked, error := "") else row
  }

  function Dropped(row: Row, rejected: bool): Row {
    if rejected && Fails(row.status) then row.(status := Fsm.Failed) else row
  }

  function EvidenceOne(t: Table, n: Fresh): Table {
    if n.id in t then t[n.id := Told(t[n.id], n.row)] else t
  }

  function AdvanceAll(t: Table, ids: set<string>): Table {
    map id | id in t :: Advanced(t[id], id in ids)
  }

  function FailAll(t: Table, ids: set<string>): Table {
    map id | id in t :: Dropped(t[id], id in ids)
  }

  ghost predicate AcceptedIn(ns: seq<Fresh>, secrets: set<string>, id: string) {
    id in secrets && exists k :: 0 <= k < |ns| && ns[k].id == id && ns[k].row.status.ReputationChecked?
  }

  ghost predicate RejectedIn(ns: seq<Fresh>, id: string) {
    exists k :: 0 <= k < |ns| && ns[k].id == id && !ns[k].row.status.ReputationChecked?
  }

  ghost predicate Mentioned(ns: seq<Fresh>, id: string) {
    exists k :: 0 <= k < |ns| && ns[k].id == id
  }

  /** The first and the last fresh node of an identity. */
  function First(ns: seq<Fresh>, id: string): (r: Option<Row>)
    ensures r.Some? <==> Mentioned(ns, id)
    ensures r.Some? ==>
      exists k :: 0 <= k < |ns| && ns[k] == Fresh(id, r.value) && forall j | 0 <= j < k :: ns[j].id != id
  {
    if ns == [] then None
    else
      var n := |ns| - 1;
      var before := First(ns[..n], id);
      assert forall k | 0 <= k < n :: ns[..n][k] == ns[k];
      if before.Some? then before else if ns[n].id == id then Some(ns[n].row) else None
  }

  function Last(ns: seq<Fresh>, id: string): (r: Option<Row>)
    ensures r.Some? <==> Mentioned(ns, id)
    ensures r.Some? ==>
      exists k :: 0 <= k < |ns| && ns[k] == Fresh(id, r.value) && forall j | k < j < |ns| :: ns[j].id != id
  {
    if ns == [] then None
    else
      var n := |ns| - 1;
      assert forall k | 0 <= k < n :: ns[..n][k] == ns[k];
      if ns[n].id == id then Some(ns[n].row) else Last(ns[..n], id)
  }

  /** The row as the INSERT leaves it: an old one with the last public columns, a new one as first found, with them. */
  function Inserted(t: Table, ns: seq<Fresh>, id: string): Option<Row> {
    var last := Last(ns, id);
    if last.None? then Get(t, id)
    else if id in t then Some(t[id].(public := last.value.public))
    else Some(First(ns, id).value.(public := last.value.public))
  }

  /** The end of a mentioned row: what the batch says of it last, unless it is live, and its verdict. */
  function Settled(row: Row, last: Row, accepted: bool, rejected: bool): Row {
    Dropped(Advanced(Told(row, last), accepted), rejected)
  }

  /**
   What the batch does to a row, column by column: while it is live, nothing but the public columns; otherwise it is
   told what the batch says last, and follows the verdict unless it is being probed, in use, or already past it.
   */
  ghost predicate RowUpdated(before: Row, after: Row, last: Row, accepted: bool, rejected: bool) {
    && after.public == last.public
    && (before.status in {Fsm.Active, Fsm.Standby, Fsm.Draining} ==> after == before.(public := last.public))
    && (before.status !in {Fsm.Active, Fsm.Standby, Fsm.Draining} ==>
          && after.evidence == last.evidence
          && after.error == (if accepted && !InHand(before.status) then "" else last.error)
          && after.status ==
               if rejected && (before.status.Healthy? || before.status.Qualified?) then Fsm.Failed
               else if rejected && !InHand(before.status) && (accepted || !before.status.Dead?) then Fsm.Failed
               else if accepted && !InHand(before.status) then Fsm.ReputationChecked
               else before.status)
  }

  /** The statuses that an acceptance leaves alone. */
  predicate InHand(s: Fsm.Status) {
    s in {Fsm.Connecting, Fsm.HealthCheck, Fsm.SpeedTest, Fsm.Healthy, Fsm.Qualified, Fsm.Standby, Fsm.Active,
          Fsm.Draining}
  }

  /** UpsertVettedNodes: statement by statement; a statement that fails rolls everything back. */
  method UpsertVettedNodes(t: Table, ns: seq<Fresh>, secrets: set<string>, fails: bool) returns (stored: Table)
    ensures fails ==> stored == t
    ensures !fails ==> stored.Keys == t.Keys + set k | 0 <= k < |ns| :: ns[k].id
    ensures !fails ==> forall id | Mentioned(ns, id) ::
        && id in stored
        && stored[id] == Settled(Inserted(t, ns, id).value, Last(ns, id).value,
                                 AcceptedIn(ns, secrets, id), RejectedIn(ns, id))
        && RowUpdated(if id in t then t[id] else First(ns, id).value, stored[id], Last(ns, id).value,
                      AcceptedIn(ns, secrets, id), RejectedIn(ns, id))
    ensures !fails ==> forall id | id in t && !Mentioned(ns, id) :: id in stored && stored[id] == t[id]
  {
    if fails {
      return t;
    }
    hide Advanced, Dropped, Told, RowUpdated, First, Last, Mentioned, AcceptedIn, RejectedIn;
    var accepted: set<string>, rejected: set<string>;
    accepted, rejected := Sort(ns, secrets);
    var upserted := Upsert(t, ns);
    var evident := StoreEvidence(upserted, ns);
    stored := FailAll(AdvanceAll(evident, accepted), rejected);
    forall id | Mentioned(ns, id)
      ensures id in stored && stored[id] == Settled(Inserted(t, ns, id).value, Last(ns, id).value,
                                                    id in accepted, id in rejected)
      ensures RowUpdated(if id in t then t[id] else First(ns, id).value, stored[id], Last(ns, id).value,
                         id in accepted, id in rejected)
    {
      assert Get(upserted, id) == Inserted(t, ns, id);
      SettledIsUpdated(if id in t then t[id] else First(ns, id).value, Last(ns, id).value,
                       id in accepted, id in rejected);
    }
    forall id | id in t && !Mentioned(ns, id) ensures id in stored && stored[id] == t[id] {
      assert Get(upserted, id) == Inserted(t, ns, id);
      Unmentioned(ns, secrets, id);
      Untouched(t[id]);
    }
  }

  lemma Unmentioned(ns: seq<Fresh>, secrets: set<string>, id: string)
    requires !Mentioned(ns, id)
    ensures !AcceptedIn(ns, secrets, id) && !RejectedIn(ns, id)
  {
  }

  lemma Untouched(row: Row)
    ensures Dropped(Advanced(row, false), false) == row
  {
  }

  /** The statements one after the other do just that. */
  lemma SettledIsUpdated(before: Row, last: Row, accepted: bool, rejected: bool)
    ensures RowUpdated(before, Settled(before.(public := last.public), last, accepted, rejected), last,
                       accepted, rejected)
  {
  }

  /** A node that vetting has just decided is inserted with that decision, whatever else the batch does. */
  lemma NewRowKeepsVerdict(row: Row, accepted: bool, rejected: bool)
    requires row.status.ReputationChecked? || row.status.Failed?
    requires rejected <==> row.status.Failed?
    requires accepted ==> row.status.ReputationChecked?
    ensures var stored := Settled(row, row, accepted, rejected);
      stored == row.(error := if accepted then "" else row.error)
  {
  }

  /** Which nodes were accepted, with a credential still in memory, and which were rejected. */
  method Sort(ns: seq<Fresh>, secrets: set<string>) returns (accepted: set<string>, rejected: set<string>)
    ensures forall id :: id in accepted <==> AcceptedIn(ns, secrets, id)
    ensures forall id :: id in rejected <==> RejectedIn(ns, id)
  {
    accepted, rejected := {}, {};
    for i := 0 to |ns|
      invariant forall id :: id in accepted <==> id in secrets && exists k ::
          0 <= k < i && ns[k].id == id && ns[k].row.status.ReputationChecked?
      invariant forall id :: id in rejected <==> exists k ::
          0 <= k < i && ns[k].id == id && !ns[k].row.status.ReputationChecked?
    {
      if ns[i].row.status.ReputationChecked? {
        if ns[i].id in secrets {
          accepted := accepted + {ns[i].id};
        }
      } else {
        rejected := rejected + {ns[i].id};
      }
    }
  }

  method Upsert(t: Table, ns: seq<Fresh>) returns (r: Table)
    ensures r.Keys == t.Keys + set k | 0 <= k < |ns| :: ns[k].id
    ensures forall id :: Get(r, id) == Inserted(t, ns, id)
  {
    r := t;
    for i := 0 to |ns|
      invariant r.Keys == t.Keys + set k | 0 <= k < i :: ns[k].id
      invariant forall id :: Get(r, id) == Inserted(t, ns[..i], id)
    {
      ghost var before := r;
      r := UpsertOne(r, ns[i]);
      assert ns[..i + 1][..i] == ns[..i];
      forall id ensures Get(r, id) == Inserted(t, ns[..i + 1], id) {
        assert Get(before, id) == Inserted(t, ns[..i], id);
      }
    }
    assert ns[..|ns|] == ns;
  }

  /** What a row has been told by the first nodes of the batch. */
  function ToldBy(row: Row, last: Option<Row>): Row {
    if last.None? then row else Told(row, last.value)
  }

  method StoreEvidence(upserted: Table, ns: seq<Fresh>) returns (r: Table)
    ensures r.Keys == upserted.Keys
    ensures forall id | id in r :: r[id] == ToldBy(upserted[id], Last(ns, id))
  {
    r := upserted;
    hide Live, Told, Last;
    for i := 0 to |ns|
      invariant r.Keys == upserted.Keys
      invariant forall id | id in r :: r[id] == ToldBy(upserted[id], Last(ns[..i], id))
    {
      ghost var before := r;
      r := EvidenceOne(r, ns[i]);
      forall id | id in r ensures r[id] == ToldBy(upserted[id], Last(ns[..i + 1], id)) {
        ToldAgain(upserted[id], ns, i, id);
      }
    }
    assert ns[..|ns|] == ns;
  }

  lemma ToldAgain(row: Row, ns: seq<Fresh>, i: nat, id: string)
    requires i < |ns|
    ensures ToldBy(row, Last(ns[..i + 1], id)) ==
      if ns[i].id == id then Told(ToldBy(row, Last(ns[..i], id)), ns[i].row) else ToldBy(row, Last(ns[..i], id))
  {
    assert ns[..i + 1][..i] == ns[..i];
  }

  /** In particular, status changes of stored rows are moves that the lifecycle allows, or put the row back to work. */
  lemma StatusRule(before: Row, after: Row, last: Row, accepted: bool, rejected: bool)
    requires RowUpdated(before, after, last, accepted, rejected) && after.status != before.status
    ensures after.status.ReputationChecked? || after.status.Failed?
    ensures !Live(before.status) && !before.status.Connecting? && !before.status.HealthCheck? &&
        !before.status.SpeedTest?
    ensures after.status.ReputationChecked? ==> accepted && !rejected
    ensures before.status.Dead? ==> accepted
  {
  }
}
