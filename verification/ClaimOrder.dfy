/** In which order the worker pool takes messages: the oldest that waits, and in one
    chat never a younger one first, except past a claim that is still to be deleted. */
module ClaimOrder {
  import opened Tables
  import opened PoolSteps
  import opened PoolRuns
  import opened PoolWitnesses

  // ---- what the claim selects, column by column ---------------------------------------------

  /** The selected row is a user row that is pending, or in error long enough, wanted,
      unclaimed, and no task of its chat is being processed. */
  lemma ClaimedWaits(cfg: Settings, db: Database, commands: Option<set<string>>, id: Id)
    requires OldestEligible(cfg, db, commands, id)
    ensures id in db.messages && db.messages[id].role == User && id !in db.claims
    ensures var m := db.messages[id];
            m.status == Pending || (m.status == Error && m.updatedAt + cfg.errorDelay < db.now)
    ensures commands.Some? ==> db.messages[id].content in commands.value
    ensures forall k | k in db.messages && db.messages[k].role == User && db.messages[k].status == Processing ::
              db.messages[k].chat != db.messages[id].chat || db.messages[id].chat == None
  {
  }

  /** And of all such rows none is older. */
  lemma ClaimedIsOldest(cfg: Settings, db: Database, commands: Option<set<string>>, id: Id, j: Id)
    requires OldestEligible(cfg, db, commands, id)
    requires j in db.messages && db.messages[j].role == User && j !in db.claims
    requires db.messages[j].status == Pending ||
             (db.messages[j].status == Error && db.messages[j].updatedAt + cfg.errorDelay < db.now)
    requires commands.Some? ==> db.messages[j].content in commands.value
    requires forall k | k in db.messages && db.messages[k].role == User && db.messages[k].status == Processing ::
               db.messages[k].chat != db.messages[j].chat || db.messages[j].chat == None
    ensures db.messages[id].createdAt <= db.messages[j].createdAt
  {
    assert Eligible(cfg, db, commands, j);
  }

  /** The same for single mode, which has no claims. */
  lemma SingleIsOldest(cfg: Settings, db: Database, commands: Option<set<string>>, id: Id, j: Id)
    requires OldestSingle(cfg, db, commands, id)
    requires j in db.messages && db.messages[j].role == User
    requires db.messages[j].status == Pending ||
             (db.messages[j].status == Error && db.messages[j].updatedAt + cfg.errorDelay < db.now)
    requires commands.Some? ==> db.messages[j].content in commands.value
    requires forall k | k in db.messages && db.messages[k].role == User && db.messages[k].status == Processing ::
               db.messages[k].chat != db.messages[j].chat || db.messages[j].chat == None
    ensures db.messages[id].createdAt <= db.messages[j].createdAt
  {
    assert EligibleSingle(cfg, db, commands, j);
  }

  // ---- order within a chat ---------------------------------------------------------------------

  /** A claim never passes over an older message of the same chat that is pending and
      unclaimed. */
  lemma NoOlderWaits(cfg: Settings, s: Pool, w: WorkerId, id: Id, j: Id)
    requires Enabled(cfg, s, Take(w, id, None))
    requires IsUser(s.db.messages, j) && s.db.messages[j].status == Pending && j !in s.db.claims
    requires s.db.messages[j].chat == s.db.messages[id].chat
    ensures s.db.messages[id].createdAt <= s.db.messages[j].createdAt
  {
    ClaimedWaits(cfg, s.db, None, id);
    ClaimedIsOldest(cfg, s.db, None, id, j);
  }

  /** An older message of the same chat that is neither answered nor given up. */
  predicate OlderOpen(s: Pool, i: Id, id: Id) {
    IsUser(s.db.messages, i) && IsUser(s.db.messages, id) && s.db.messages[i].chat.Some? &&
    s.db.messages[i].chat == s.db.messages[id].chat && s.db.messages[i].createdAt < s.db.messages[id].createdAt &&
    s.db.messages[i].status in {Pending, Processing}
  }

  /** Exactly which older open messages of the chat an ordinary claim overtakes: those
      put back whose claim is still there. */
  lemma OvertakenIff(cfg: Settings, s: Pool, w: WorkerId, id: Id, i: Id)
    requires Enabled(cfg, s, Take(w, id, None))
    ensures OlderOpen(s, i, id) <==>
              IsUser(s.db.messages, i) && s.db.messages[i].chat.Some? && s.db.messages[i].chat == s.db.messages[id].chat &&
              s.db.messages[i].createdAt < s.db.messages[id].createdAt && s.db.messages[i].status == Pending && i in s.db.claims
  {
    ClaimedWaits(cfg, s.db, None, id);
    if OlderOpen(s, i, id) && i !in s.db.claims {
      NoOlderWaits(cfg, s, w, id, i);
    }
  }

  // ---- the chat a gateway sees --------------------------------------------------------------------

  predicate Unnamed(m: Message) {
    m.chat == None || m.chat == Some("")
  }

  /** Two messages of one named chat are of one chat to the gateway as well; of two named
      chats never; without a name the user decides, and a user may bear a chat's name. */
  lemma SameLocalChatIff(a: Message, b: Message)
    ensures !Unnamed(a) && !Unnamed(b) ==> (LocalChat(a) == LocalChat(b) <==> a.chat == b.chat)
    ensures Unnamed(a) && Unnamed(b) && a.user.Some? && b.user.Some? ==> (LocalChat(a) == LocalChat(b) <==> a.user == b.user)
    ensures !Unnamed(a) && Unnamed(b) && b.user.Some? ==> (LocalChat(a) == LocalChat(b) <==> a.chat == b.user)
    ensures Unnamed(a) && a.user == None ==> LocalChat(a) == "None"
  {
  }

  // ---- a deferral lets the next message pass -----------------------------------------------------

  function Later(status: Status): Message {
    Request(Some("chat"), None, "again", 1).(status := status)
  }

  /** Two messages of one chat, the first with its claim. */
  function Pair(first: Message, claims: Claims, one: Local): Pool {
    Pool(Database(map[0 := first, 1 := Later(Pending)], claims, 1), map[1 := one, 2 := STARTED], [])
  }

  lemma TwoWaiting(cfg: Settings) returns (s: Pool)
    ensures Reaches(cfg, Fresh(0), s, Disciplined) && s == Pair(Row(Pending, 0, 0), map[], STARTED)
  {
    var a := TwoGateways(cfg, Disciplined);
    var b := Go(cfg, Fresh(0), a, Tick(1), Disciplined);
    s := Go(cfg, Fresh(0), b, Insert(1, Some("chat"), None, "again"), Disciplined);
    assert s.db.messages == map[0 := Row(Pending, 0, 0), 1 := Later(Pending)];
  }

  lemma FirstTaken(cfg: Settings) returns (s: Pool)
    ensures Reaches(cfg, Fresh(0), s, Disciplined)
    ensures s == Pair(Row(Processing, 0, 1), map[0 := Claim(1, 1 + cfg.timeout)], Holding(Taken(0)))
  {
    var a := TwoWaiting(cfg);
    FirstWaits(cfg, a);
    s := Go(cfg, Fresh(0), a, Take(1, 0, None), Disciplined);
    assert s.db.messages == map[0 := Row(Processing, 0, 1), 1 := Later(Pending)];
    assert STARTED.leases + {0} == {0};
    assert s.workers == map[1 := Holding(Taken(0)), 2 := STARTED];
  }

  lemma FirstWaits(cfg: Settings, s: Pool)
    requires s == Pair(Row(Pending, 0, 0), map[], STARTED)
    ensures Enabled(cfg, s, Take(1, 0, None))
  {
    assert !ChatBusy(s.db.messages, Some("chat"));
    assert Eligible(cfg, s.db, None, 0);
  }

  lemma FirstDeferred(cfg: Settings) returns (s: Pool)
    ensures Reaches(cfg, Fresh(0), s, Disciplined)
    ensures s == Pair(Row(Pending, 0, 1), map[0 := Claim(1, 1 + cfg.timeout)], Holding(Releasing(0)))
  {
    var a := FirstTaken(cfg);
    var b := Rechecked(cfg, a);
    s := Go(cfg, Fresh(0), b, Defer(1), Disciplined);
    assert s.db.messages == map[0 := Row(Pending, 0, 1), 1 := Later(Pending)];
    assert s.workers == map[1 := Holding(Releasing(0)), 2 := STARTED];
  }

  lemma Rechecked(cfg: Settings, a: Pool) returns (s: Pool)
    requires Reaches(cfg, Fresh(0), a, Disciplined)
    requires a == Pair(Row(Processing, 0, 1), map[0 := Claim(1, 1 + cfg.timeout)], Holding(Taken(0)))
    ensures Reaches(cfg, Fresh(0), s, Disciplined)
    ensures s == Pair(Row(Processing, 0, 1), map[0 := Claim(1, 1 + cfg.timeout)], Holding(Checked(0)))
  {
    s := Go(cfg, Fresh(0), a, Recheck(1), Disciplined);
    assert s.workers == map[1 := Holding(Checked(0)), 2 := STARTED];
  }

  /** Such a state is reached by healthy gateways: gateway 1 has put the first message
      back and not yet deleted its claim, and gateway 2 may claim the second. */
  lemma DeferredIsOvertaken(cfg: Settings)
    ensures exists s: Pool :: Reaches(cfg, Fresh(0), s, Disciplined) && Enabled(cfg, s, Take(2, 1, None)) && OlderOpen(s, 0, 1)
  {
    var s := FirstDeferred(cfg);
    assert !ChatBusy(s.db.messages, Some("chat"));
    assert Eligible(cfg, s.db, None, 1) && !Eligible(cfg, s.db, None, 0);
  }
}
