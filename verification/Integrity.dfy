/** tools/check_worker_pool_integrity.py: the five checks, and the repair that
    is meant to mirror the channel's own reclaim-and-heal pass. */
module Integrity {
  import opened Tables
  import opened PoolSteps

  datatype Issue =
    | UnclaimedTask(task: Id)
    | DanglingClaim(task: Id, worker: WorkerId)
    | ExpiredLease(task: Id, worker: WorkerId)
    | OrphanPlaceholder(task: Id)

  predicate UnclaimedAt(db: Database, id: Id) {
    id in db.messages && db.messages[id].role == User && db.messages[id].status == Processing && id !in db.claims
  }

  predicate DanglingAt(db: Database, id: Id) {
    id in db.claims && !HasStatus(db.messages, id, Processing)
  }

  predicate ExpiredAt(db: Database, id: Id) {
    id in db.claims && db.claims[id].leaseUntil < db.now && HasStatus(db.messages, id, Processing)
  }

  function ExpiredClaims(db: Database): set<Id> {
    set id | id in db.claims && db.claims[id].leaseUntil < db.now
  }

  /** The issues of checks 1, 2, 3 and 5.  Check 4 counts claims per task and can
      report nothing on a table keyed by task. */
  function Issues(db: Database): set<Issue> {
    (set id | id in db.messages && UnclaimedAt(db, id) :: UnclaimedTask(id)) +
    (set id | id in db.claims && DanglingAt(db, id) :: DanglingClaim(id, db.claims[id].worker)) +
    (set id | id in db.claims && ExpiredAt(db, id) :: ExpiredLease(id, db.claims[id].worker)) +
    (set id | id in db.messages && Orphan(db.messages, id) :: OrphanPlaceholder(id))
  }

  // ---- the repair, statement by statement -------------------------------------

  /** UPDATE ... 'pending' WHERE processing AND id IN (expired claims) */
  function Requeue(db: Database): Database {
    db.(messages := map id | id in db.messages ::
                      if db.messages[id].status == Processing && id in db.claims && db.claims[id].leaseUntil < db.now
                      then db.messages[id].(status := Pending, updatedAt := db.now) else db.messages[id])
  }

  function DeleteExpired(db: Database): Database {
    db.(claims := map id | id in db.claims && db.claims[id].leaseUntil >= db.now :: db.claims[id])
  }

  function Fixed(db: Database): Database {
    FailOrphans(DropDangling(MarkUnclaimed(DeleteExpired(Requeue(db)))))
  }

  /** An unexpired claim on an orphaned placeholder: the one input `Fixed` cannot
      settle, because it fails orphans after dropping dangling claims. */
  predicate ClaimedOrphan(db: Database) {
    exists id | id in db.claims :: db.claims[id].leaseUntil >= db.now && Orphan(db.messages, id)
  }

  // ---- what is repaired ---------------------------------------------------------

  /** processing <=> claim, and every placeholder has its user row. */
  ghost predicate Consistent(db: Database) {
    (forall id | IsUser(db.messages, id) && db.messages[id].status == Processing :: id in db.claims) &&
    (forall id | id in db.claims :: HasStatus(db.messages, id, Processing)) &&
    (forall id | id in db.messages :: !Orphan(db.messages, id))
  }

  lemma NoIssues(db: Database)
    ensures Issues(db) == {} <==> Consistent(db) && ExpiredClaims(db) == {}
  {
    if Issues(db) == {} {
      forall id | id in db.messages
        ensures !UnclaimedAt(db, id) && !Orphan(db.messages, id)
      {
        assert UnclaimedTask(id) !in Issues(db) && OrphanPlaceholder(id) !in Issues(db);
      }
      forall id | id in db.claims
        ensures !DanglingAt(db, id) && !ExpiredAt(db, id)
      {
        assert DanglingClaim(id, db.claims[id].worker) !in Issues(db);
        assert ExpiredLease(id, db.claims[id].worker) !in Issues(db);
      }
    }
    if Consistent(db) && ExpiredClaims(db) == {} {
      forall id | id in db.claims
        ensures !DanglingAt(db, id) && !ExpiredAt(db, id)
      {
        assert id !in ExpiredClaims(db);
      }
      forall id | id in db.messages
        ensures !UnclaimedAt(db, id)
      {
        assert IsUser(db.messages, id) <==> db.messages[id].role == User;
      }
      assert Issues(db) == {};
    }
  }

  /** The self-repair alone, steps 2 to 4, from any tables whatever. */
  lemma HealSettles(r: Database)
    ensures var after := Heal(r);
            Consistent(after) && after.now == r.now &&
            forall id | id in after.claims :: id in r.claims && after.claims[id] == r.claims[id]
  {
    var a := MarkUnclaimed(r);
    var b := FailOrphans(a);
    forall id: Id
      ensures !Orphan(b.messages, id)
      ensures IsUser(b.messages, id) == IsUser(a.messages, id) == IsUser(r.messages, id)
    {
    }
  }

  /** From any tables whatever, one pass of the channel's repair restores
      processing <=> claim and leaves no revocable claim. */
  lemma HealRepairs(cfg: Settings, db: Database, w: WorkerId, own: set<Id>)
    ensures var after := ReclaimAndHeal(cfg, db, w, own);
            Consistent(after) && Revoked(after, w, own) == {} && after.now == db.now
  {
    var r := Revoke(cfg, db, w, own);
    HealSettles(r);
    assert forall id | id in r.claims :: id in db.claims && r.claims[id] == db.claims[id] && id !in Revoked(db, w, own);
  }

  /** The pass changes nothing exactly when there was nothing to repair. */
  lemma HealIsIdentityIff(cfg: Settings, db: Database, w: WorkerId, own: set<Id>)
    ensures ReclaimAndHeal(cfg, db, w, own) == db <==> Consistent(db) && Revoked(db, w, own) == {}
  {
    if Consistent(db) && Revoked(db, w, own) == {} {
      RevokeNone(cfg, db.now, db.messages);
      assert db.claims - {} == db.claims;
      assert Revoke(cfg, db, w, own) == db;
      forall id | id in db.messages
        ensures db.messages[id].role == User && db.messages[id].status == Processing ==> id in db.claims
      {
        assert IsUser(db.messages, id) <==> db.messages[id].role == User;
      }
      assert MarkUnclaimed(db).messages == db.messages;
      assert FailOrphans(db).messages == db.messages;
      assert DropDangling(db).claims == db.claims;
    } else {
      HealRepairs(cfg, db, w, own);
    }
  }

  /** A second pass at the same time changes nothing. */
  lemma HealIdempotent(cfg: Settings, db: Database, w: WorkerId, own: set<Id>)
    ensures var after := ReclaimAndHeal(cfg, db, w, own); ReclaimAndHeal(cfg, after, w, own) == after
  {
    HealRepairs(cfg, db, w, own);
    HealIsIdentityIff(cfg, ReclaimAndHeal(cfg, db, w, own), w, own);
  }

  /** The quick gate says no exactly when no row is in work and no claim is there. */
  lemma GateClosedIff(db: Database)
    ensures !ReclaimNeeded(db) <==>
              db.claims.Keys == {} && forall id | id in db.messages :: db.messages[id].status != Processing
  {
    assert db.claims == map[] <==> db.claims.Keys == {};
  }

  /** When the quick gate says no, the skipped pass would have changed nothing. */
  lemma GateSkipsNothing(cfg: Settings, db: Database, w: WorkerId, own: set<Id>)
    requires !ReclaimNeeded(db)
    ensures ReclaimAndHeal(cfg, db, w, own) == db
  {
    assert Revoked(db, w, own) == {};
    HealIsIdentityIff(cfg, db, w, own);
  }

  /** A worker's own pass keeps every claim it holds in memory on a task that is
      still processing, expired or not, and leaves that task alone. */
  lemma OwnLeasesSurvive(cfg: Settings, db: Database, w: WorkerId, own: set<Id>, id: Id)
    requires ClaimsOnUsers(db)
    requires id in own && id in db.claims && db.claims[id].worker == w && HasStatus(db.messages, id, Processing)
    ensures var after := ReclaimAndHeal(cfg, db, w, own);
            id in after.claims && after.claims[id] == db.claims[id] &&
            id in after.messages && after.messages[id] == db.messages[id]
  {
    assert !IsAssistant(db.messages, id);
    var r := Revoke(cfg, db, w, own);
    assert r.messages[id] == db.messages[id] && id in r.claims;
  }

  // ---- the tool -----------------------------------------------------------------

  /** What the tool's five statements together do to one row and one claim. */
  lemma FixAt(db: Database, id: Id)
    ensures var after := Fixed(db);
            after.now == db.now && (id in after.messages <==> id in db.messages) &&
            (id in db.messages ==>
               var m := db.messages[id];
               after.messages[id] ==
                 if ExpiredAt(db, id) then m.(status := Pending, updatedAt := db.now)
                 else if UnclaimedAt(db, id) then m.(status := Error, updatedAt := db.now)
                 else if Orphan(db.messages, id) then m.(status := Failed, updatedAt := db.now)
                 else m) &&
            (id in after.claims <==>
               id in db.claims && db.claims[id].leaseUntil >= db.now && HasStatus(db.messages, id, Processing)) &&
            (id in after.claims ==> after.claims[id] == db.claims[id])
  {
    RequeuedAt(db, id);
    SettledAt(DeleteExpired(Requeue(db)), id);
  }

  /** The first two statements. */
  lemma RequeuedAt(db: Database, id: Id)
    ensures var b := DeleteExpired(Requeue(db));
            b.now == db.now && (id in b.messages <==> id in db.messages) &&
            (id in db.messages ==>
               b.messages[id] == (if ExpiredAt(db, id) then db.messages[id].(status := Pending, updatedAt := db.now) else db.messages[id]) &&
               (Orphan(b.messages, id) <==> Orphan(db.messages, id) && !ExpiredAt(db, id))) &&
            (id in b.claims <==> id in db.claims && db.claims[id].leaseUntil >= db.now) &&
            (id in b.claims ==> b.claims[id] == db.claims[id])
  {
  }

  /** The other three. */
  lemma SettledAt(b: Database, id: Id)
    ensures var after := FailOrphans(DropDangling(MarkUnclaimed(b)));
            after.now == b.now && (id in after.messages <==> id in b.messages) &&
            (id in b.messages ==>
               after.messages[id] ==
                 if UnclaimedAt(b, id) then b.messages[id].(status := Error, updatedAt := b.now)
                 else if Orphan(b.messages, id) then b.messages[id].(status := Failed, updatedAt := b.now)
                 else b.messages[id]) &&
            (id in after.claims <==> id in b.claims && HasStatus(b.messages, id, Processing)) &&
            (id in after.claims ==> after.claims[id] == b.claims[id])
  {
    var d := DropDangling(MarkUnclaimed(b));
    assert id in b.messages ==> (Orphan(d.messages, id) <==> Orphan(b.messages, id));
  }

  /** After the repair, a row or claim is in order but for an orphan's live claim. */
  lemma FixedAt(db: Database, id: Id)
    ensures var after := Fixed(db);
            && !UnclaimedAt(after, id) && !ExpiredAt(after, id) && !Orphan(after.messages, id)
            && (DanglingAt(after, id) <==> id in db.claims && db.claims[id].leaseUntil >= db.now && Orphan(db.messages, id))
            && (id in after.claims ==> after.claims[id].leaseUntil >= after.now)
  {
    FixAt(db, id);
    FixKeepsRoles(db);
  }

  /** The tool's repair clears every check exactly when no unexpired claim sits on
      an orphaned placeholder. */
  lemma FixClearsChecksIff(db: Database)
    ensures Issues(Fixed(db)) == {} <==> !ClaimedOrphan(db)
  {
    forall id: Id
      ensures FixedOnly(db, Fixed(db), id)
    {
      FixedAt(db, id);
    }
    ClearIff(db, Fixed(db));
  }

  /** With claims on user rows only, as the channel inserts them, it always does. */
  lemma FixClearsChecks(db: Database)
    requires ClaimsOnUsers(db)
    ensures Issues(Fixed(db)) == {}
  {
    assert forall id | id in db.claims :: !Orphan(db.messages, id);
    FixClearsChecksIff(db);
  }

  /** A database on which it does not: one placeholder without its user row, claimed. */
  lemma ClaimedOrphanRemains(placeholder: Message)
    requires placeholder.role == Assistant && placeholder.status == Processing && placeholder.replyTo.None?
    ensures var db := Database(map[0 := placeholder], map[0 := Claim(1, 10)], 0);
            Issues(Fixed(db)) != {} && Issues(Fixed(Fixed(db))) == {}
  {
    var db := Database(map[0 := placeholder], map[0 := Claim(1, 10)], 0);
    assert 0 in db.claims && Orphan(db.messages, 0);
    FixClearsChecksIff(db);
    FixAt(db, 0);
    FixKeepsRoles(db);
    assert forall id | id in Fixed(db).claims :: id == 0 by {
      forall id | id in Fixed(db).claims ensures id == 0 { FixAt(db, id); }
    }
    FixClearsChecksIff(Fixed(db));
  }

  ghost predicate FixedOnly(db: Database, after: Database, id: Id) {
    && !UnclaimedAt(after, id) && !Orphan(after.messages, id)
    && (DanglingAt(after, id) <==> id in db.claims && db.claims[id].leaseUntil >= db.now && Orphan(db.messages, id))
    && (id in after.claims ==> after.claims[id].leaseUntil >= after.now)
  }

  lemma ClearIff(db: Database, after: Database)
    requires forall id: Id :: FixedOnly(db, after, id)
    ensures Issues(after) == {} <==> !ClaimedOrphan(db)
  {
    assert ExpiredClaims(after) == {} by {
      forall id | id in after.claims ensures after.claims[id].leaseUntil >= after.now { assert FixedOnly(db, after, id); }
    }
    NoIssues(after);
    if !ClaimedOrphan(db) {
      forall id | id in after.claims
        ensures HasStatus(after.messages, id, Processing)
      {
        assert FixedOnly(db, after, id);
      }
      forall id | IsUser(after.messages, id) && after.messages[id].status == Processing
        ensures id in after.claims
      {
        assert FixedOnly(db, after, id);
      }
      forall id | id in after.messages ensures !Orphan(after.messages, id) { assert FixedOnly(db, after, id); }
    } else {
      var id :| id in db.claims && db.claims[id].leaseUntil >= db.now && Orphan(db.messages, id);
      assert FixedOnly(db, after, id);
    }
  }

  /** No statement of the tool adds, removes or re-types a row. */
  lemma FixKeepsRoles(db: Database)
    ensures var after := Fixed(db);
            after.messages.Keys == db.messages.Keys && after.now == db.now &&
            forall id | id in db.messages ::
              after.messages[id].role == db.messages[id].role && after.messages[id].replyTo == db.messages[id].replyTo
  {
  }

  /** The channel's pass with no lease in memory clears every check, always. */
  lemma HealClearsChecks(cfg: Settings, db: Database, w: WorkerId)
    ensures Issues(ReclaimAndHeal(cfg, db, w, {})) == {}
  {
    HealRepairs(cfg, db, w, {});
    var after := ReclaimAndHeal(cfg, db, w, {});
    assert ExpiredClaims(after) == Revoked(after, w, {});
    NoIssues(after);
  }

  /** Expired, and its next counted failure is the last one allowed. */
  predicate ExpiredLastTry(cfg: Settings, db: Database, id: Id) {
    ExpiredAt(db, id) && LastTry(cfg, db.messages, id)
  }

  /** The two databases hold the same claim and user row under this key, with the
      same status, but for an expired task at its last try, which the tool puts
      back to 'pending' and the channel fails. */
  ghost predicate MirrorsAt(cfg: Settings, before: Database, tool: Database, channel: Database, id: Id) {
    (id in tool.claims <==> id in channel.claims) &&
    (id in tool.claims ==> tool.claims[id] == channel.claims[id]) &&
    (IsUser(tool.messages, id) <==> IsUser(channel.messages, id)) &&
    (IsUser(tool.messages, id) ==>
       if ExpiredLastTry(cfg, before, id)
       then tool.messages[id].status == Pending && channel.messages[id].status == Failed
       else tool.messages[id].status == channel.messages[id].status)
  }

  lemma FixMirrorsHealAt(cfg: Settings, db: Database, w: WorkerId, id: Id)
    requires ClaimsOnUsers(db)
    ensures MirrorsAt(cfg, db, Fixed(db), ReclaimAndHeal(cfg, db, w, {}), id)
  {
    var tool, channel := Fixed(db), ReclaimAndHeal(cfg, db, w, {});
    FixAt(db, id);
    HealUserRow(cfg, db, w, {}, id);
    assert id in db.claims ==> !IsAssistant(db.messages, id);
    if id in db.claims { HealClaim(cfg, db, w, {}, id); }
    assert id in tool.claims <==> id in channel.claims;
    assert IsUser(tool.messages, id) <==> IsUser(db.messages, id);
    if IsUser(db.messages, id) {
      assert !Orphan(db.messages, id);
      assert LastTry(cfg, db.messages, id) <==> db.messages[id].retries + 1 >= cfg.maxRetries;
    }
  }

  /** How far the tool mirrors the channel. */
  lemma FixMirrorsHeal(cfg: Settings, db: Database, w: WorkerId)
    requires ClaimsOnUsers(db)
    ensures var tool, channel := Fixed(db), ReclaimAndHeal(cfg, db, w, {});
            tool.claims == channel.claims && forall id: Id :: MirrorsAt(cfg, db, tool, channel, id)
  {
    var tool, channel := Fixed(db), ReclaimAndHeal(cfg, db, w, {});
    forall id: Id
      ensures MirrorsAt(cfg, db, tool, channel, id)
    {
      FixMirrorsHealAt(cfg, db, w, id);
    }
    MirroredClaims(cfg, db, tool, channel);
  }

  lemma MirroredClaims(cfg: Settings, before: Database, tool: Database, channel: Database)
    requires forall id: Id :: MirrorsAt(cfg, before, tool, channel, id)
    ensures tool.claims == channel.claims
  {
    forall id: Id
      ensures id in tool.claims <==> id in channel.claims
      ensures id in tool.claims ==> tool.claims[id] == channel.claims[id]
    {
      assert MirrorsAt(cfg, before, tool, channel, id);
    }
  }

  /** What the channel's pass does to one user row. */
  lemma HealUserRow(cfg: Settings, db: Database, w: WorkerId, own: set<Id>, id: Id)
    ensures var after := ReclaimAndHeal(cfg, db, w, own);
            (IsUser(after.messages, id) <==> IsUser(db.messages, id)) &&
            (IsUser(db.messages, id) ==>
               var m := db.messages[id];
               after.messages[id] ==
                 if Revocable(db, w, own, id) && m.status == Processing then CountFailure(cfg, db.now, m)
                 else if UnclaimedAt(db, id) then m.(status := Error, updatedAt := db.now)
                 else m)
  {
    var ids := Revoked(db, w, own);
    assert id in ids <==> Revocable(db, w, own, id);
    var r := Revoke(cfg, db, w, own);
    if id in db.messages && db.messages[id].role != Assistant {
      assert id in r.messages && r.messages[id] == RevokedRow(cfg, db.now, db.messages, ids, id);
      var b := FailOrphans(MarkUnclaimed(r));
      assert !Orphan(MarkUnclaimed(r).messages, id);
      assert ReclaimAndHeal(cfg, db, w, own).messages == b.messages;
    }
  }

  /** What the channel's pass does to one claim that is not on an assistant row. */
  lemma HealClaim(cfg: Settings, db: Database, w: WorkerId, own: set<Id>, id: Id)
    requires !IsAssistant(db.messages, id)
    ensures var after := ReclaimAndHeal(cfg, db, w, own);
            (id in after.claims <==>
               id in db.claims && !Revocable(db, w, own, id) && HasStatus(db.messages, id, Processing)) &&
            (id in after.claims ==> after.claims[id] == db.claims[id])
  {
    var r := Revoke(cfg, db, w, own);
    assert id in db.messages <==> id in r.messages;
    var a := MarkUnclaimed(r);
    assert !Orphan(a.messages, id);
  }

  lemma HealAddsNoClaim(cfg: Settings, db: Database, w: WorkerId, own: set<Id>, id: Id)
    requires id !in db.claims
    ensures id !in ReclaimAndHeal(cfg, db, w, own).claims
  {
  }

  lemma NothingRevoked(cfg: Settings, db: Database, w: WorkerId)
    requires ExpiredClaims(db) == {}
    ensures Revoke(cfg, db, w, {}) == db
  {
    assert Revoked(db, w, {}) == ExpiredClaims(db);
    RevokeNone(cfg, db.now, db.messages);
    assert db.claims - {} == db.claims;
  }

  lemma NothingRequeued(db: Database)
    requires ExpiredClaims(db) == {}
    ensures DeleteExpired(Requeue(db)) == db
  {
    assert forall id | id in db.claims :: id !in ExpiredClaims(db);
    assert Requeue(db).messages == db.messages;
    assert DeleteExpired(db).claims == db.claims;
  }

  /** The last two statements commute when no claim is on an assistant row. */
  lemma OrphansCommute(db: Database)
    requires forall id | id in db.claims :: !IsAssistant(db.messages, id)
    ensures FailOrphans(DropDangling(db)) == DropDangling(FailOrphans(db))
  {
    assert FailOrphans(DropDangling(db)).messages == DropDangling(FailOrphans(db)).messages;
    assert FailOrphans(DropDangling(db)).claims == DropDangling(FailOrphans(db)).claims;
  }

  /** With no expired lease the two repairs agree on the whole database. */
  lemma FixEqualsHealWithoutExpiry(cfg: Settings, db: Database, w: WorkerId)
    requires ClaimsOnUsers(db) && ExpiredClaims(db) == {}
    ensures Fixed(db) == ReclaimAndHeal(cfg, db, w, {})
  {
    NothingRevoked(cfg, db, w);
    NothingRequeued(db);
    var c := MarkUnclaimed(db);
    assert forall id | id in c.claims :: !IsAssistant(c.messages, id);
    OrphansCommute(c);
  }
}
