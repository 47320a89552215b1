/** tools/check_worker_pool_integrity.py as the program it is: checks that
    accumulate issues, and a repair of five statements. */
module IntegrityTool {
  import opened Tables
  import opened PoolSteps
  import opened Integrity
  import opened Channel

  /** What the repair owes one row. */
  function RepairedRow(db: Database, id: Id): Message
    requires id in db.messages
  {
    var m := db.messages[id];
    if ExpiredAt(db, id) then m.(status := Pending, updatedAt := db.now)
    else if UnclaimedAt(db, id) then m.(status := Error, updatedAt := db.now)
    else if Orphan(db.messages, id) then m.(status := Failed, updatedAt := db.now)
    else m
  }

  /** The repaired tables, row by row and claim by claim: an expired task is requeued,
      an unclaimed one made repeatable, an orphan failed, every other row left alone;
      and a claim stays exactly when its lease lives and its task was processing. */
  function Repaired(db: Database): Database {
    Database(
      map id | id in db.messages :: RepairedRow(db, id),
      map id | id in db.claims && db.claims[id].leaseUntil >= db.now && HasStatus(db.messages, id, Processing) :: db.claims[id],
      db.now)
  }

  ghost predicate RepairedAt(db: Database, after: Database, id: Id) {
    && (id in after.messages <==> id in db.messages)
    && (id in db.messages ==> after.messages[id] == RepairedRow(db, id))
    && (id in after.claims <==>
          id in db.claims && db.claims[id].leaseUntil >= db.now && HasStatus(db.messages, id, Processing))
    && (id in after.claims ==> after.claims[id] == db.claims[id])
  }

  lemma RepairedEverywhere(db: Database, after: Database)
    requires after.now == db.now && forall id: Id :: RepairedAt(db, after, id)
    ensures after == Repaired(db)
  {
    forall id: Id
      ensures id in after.messages <==> id in Repaired(db).messages
      ensures id in after.messages ==> after.messages[id] == Repaired(db).messages[id]
      ensures id in after.claims <==> id in Repaired(db).claims
      ensures id in after.claims ==> after.claims[id] == Repaired(db).claims[id]
    {
      assert RepairedAt(db, after, id);
    }
    assert after.messages == Repaired(db).messages && after.claims == Repaired(db).claims;
  }

  /** Five statements one after the other come to that. */
  lemma FixedIsRepaired(db: Database)
    ensures Fixed(db) == Repaired(db)
  {
    forall id: Id
      ensures RepairedAt(db, Fixed(db), id)
    {
      FixAt(db, id);
    }
    FixAt(db, 0);
    RepairedEverywhere(db, Fixed(db));
  }

  /** _fix, on the live tables. */
  method Fix(store: Store)
    modifies store
    ensures store.state == Repaired(old(store.state))
  {
    FixedIsRepaired(store.state);
    store.state := Requeue(store.state);
    store.state := DeleteExpired(store.state);
    store.state := MarkUnclaimed(store.state);
    store.state := DropDangling(store.state);
    store.state := FailOrphans(store.state);
  }

  /** One check: a line for each row its query returns, in any order. */
  method Extend(lines: seq<Issue>, rows: set<Id>, issue: Id -> Issue) returns (longer: seq<Issue>)
    ensures lines <= longer && |longer| == |lines| + |rows|
    ensures forall id | id in rows :: issue(id) in longer
    ensures forall x | x in longer :: x in lines || exists id | id in rows :: issue(id) == x
  {
    longer := lines;
    var todo := rows;
    while todo != {}
      invariant todo <= rows && lines <= longer && |longer| == |lines| + |rows| - |todo|
      invariant forall id | id in rows - todo :: issue(id) in longer
      invariant forall x | x in longer :: x in lines || exists id | id in rows :: issue(id) == x
      decreases |todo|
    {
      var id :| id in todo;
      longer := longer + [issue(id)];
      todo := todo - {id};
    }
  }

  /** Some check's query returns the row this line names. */
  predicate Listed(db: Database, line: Issue) {
    match line
    case UnclaimedTask(id) => UnclaimedAt(db, id)
    case DanglingClaim(id, w) => DanglingAt(db, id) && db.claims[id].worker == w
    case ExpiredLease(id, w) => ExpiredAt(db, id) && db.claims[id].worker == w
    case OrphanPlaceholder(id) => Orphan(db.messages, id)
  }

  lemma ListedIff(db: Database, line: Issue)
    ensures line in Issues(db) <==> Listed(db, line)
  {
  }

  /** One check against the tables: all its rows, and nothing unlisted. */
  method CheckOne(db: Database, lines: seq<Issue>, rows: set<Id>, issue: Id -> Issue) returns (longer: seq<Issue>)
    requires forall id | id in rows :: Listed(db, issue(id))
    requires forall x | x in lines :: Listed(db, x)
    ensures lines <= longer && forall x | x in longer :: Listed(db, x)
    ensures forall id | id in rows :: issue(id) in longer
  {
    longer := Extend(lines, rows, issue);
  }

  /** The checks of main, on one state of the tables. */
  method Check(db: Database) returns (lines: seq<Issue>)
    ensures forall x :: x in lines <==> x in Issues(db)
    ensures lines == [] <==> Consistent(db) && ExpiredClaims(db) == {}
  {
    var claims := db.claims;
    var unclaimed, orphan := (id: Id) => UnclaimedTask(id), (id: Id) => OrphanPlaceholder(id);
    var dangling := (id: Id) => DanglingClaim(id, if id in claims then claims[id].worker else 0);
    var expired := (id: Id) => ExpiredLease(id, if id in claims then claims[id].worker else 0);
    var a := CheckOne(db, [], (set id | id in db.messages && UnclaimedAt(db, id)), unclaimed);
    var b := CheckOne(db, a, (set id | id in db.claims && DanglingAt(db, id)), dangling);
    var c := CheckOne(db, b, (set id | id in db.claims && ExpiredAt(db, id)), expired);
    lines := CheckOne(db, c, (set id | id in db.messages && Orphan(db.messages, id)), orphan);
    forall x | Listed(db, x)
      ensures x in lines
    {
      match x
      case UnclaimedTask(id) => assert unclaimed(id) in a && a <= lines;
      case DanglingClaim(id, _) => assert dangling(id) in b && b <= lines;
      case ExpiredLease(id, _) => assert expired(id) in c && c <= lines;
      case OrphanPlaceholder(id) => assert orphan(id) in lines;
    }
    AllListed(db, lines);
  }

  lemma AllListed(db: Database, lines: seq<Issue>)
    requires forall x :: x in lines <==> Listed(db, x)
    ensures forall x :: x in lines <==> x in Issues(db)
    ensures lines == [] <==> Consistent(db) && ExpiredClaims(db) == {}
  {
    forall x
      ensures x in lines <==> x in Issues(db)
    {
      ListedIff(db, x);
    }
    NoIssues(db);
    assert lines != [] ==> lines[0] in Issues(db);
    assert lines == [] ==> Issues(db) == {};
  }

  /** main: exit code 0 for clean tables or after a repair, else 1. */
  method Run(store: Store, fix: bool) returns (code: nat)
    modifies store
    ensures code == if fix || Issues(old(store.state)) == {} then 0 else 1
    ensures store.state == if fix && Issues(old(store.state)) != {} then Repaired(old(store.state)) else old(store.state)
    ensures fix ==> (Issues(store.state) == {} <==> Issues(old(store.state)) == {} || !ClaimedOrphan(old(store.state)))
  {
    var lines := Check(store.state);
    NoIssues(store.state);
    if lines == [] {
      return 0;
    }
    if fix {
      FixClearsChecksIff(store.state);
      FixedIsRepaired(store.state);
      Fix(store);
      return 0;
    }
    return 1;
  }
}
