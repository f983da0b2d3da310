/** Replaying a dead letter keeps the invariant: the new job repeats a job that is there. */
module RefreshReplay {
  import opened RefreshDb
  import opened RefreshInvariant

  ghost predicate MayReplay(db: Db, used: set<Id>, failed: Id, id: Id) {
    Replayable(db, failed) && id !in used && db.jobs.Keys <= used
  }

  lemma ReplayParents(db: Db, used: set<Id>, failed: Id, id: Id)
    requires Bounded(db, used) && Parents(db) && MayReplay(db, used, failed, id)
    ensures var db' := ReplayTx(db, failed, id); Bounded(db', used + {id}) && Parents(db')
  {
    assert IsChild(db, failed);
    hide Clash;
    ReplayRefreshes(db, used, failed, id);
  }

  lemma ReplayOpen(db: Db, used: set<Id>, failed: Id, id: Id)
    requires Parents(db) && OneOpenRefresh(db) && MayReplay(db, used, failed, id)
    ensures OneOpenRefresh(ReplayTx(db, failed, id))
  {
    ReplayRefreshes(db, used, failed, id);
    hide Clash, Parents;
  }

  lemma ReplayOwned(db: Db, used: set<Id>, failed: Id, id: Id)
    requires Bounded(db, used) && Parents(db) && RunsOwned(db) && EntriesOwned(db) && MayReplay(db, used, failed, id)
    ensures var db' := ReplayTx(db, failed, id); RunsOwned(db') && EntriesOwned(db')
  {
    assert IsChild(db, failed);
    hide Clash;
    ReplayRefreshes(db, used, failed, id);
  }

  /** The refresh jobs are the ones there were. */
  lemma ReplayRefreshes(db: Db, used: set<Id>, failed: Id, id: Id)
    requires Parents(db) && MayReplay(db, used, failed, id)
    ensures var db' := ReplayTx(db, failed, id);
            && (forall p :: IsRefresh(db', p) <==> IsRefresh(db, p))
            && (forall p :: p in db.jobs ==> db'.jobs[p] == db.jobs[p])
            && (forall p :: IsRefresh(db, p) ==> ParentOpen(db', p) == ParentOpen(db, p))
  {
  }

  lemma ReplayMatch(db: Db, used: set<Id>, failed: Id, id: Id)
    requires Bounded(db, used) && Parents(db) && JobsMatch(db) && MayReplay(db, used, failed, id)
    ensures JobsMatch(ReplayTx(db, failed, id))
  {
    assert IsChild(db, failed) && id !in db.outbox;
    ReplayRefreshes(db, used, failed, id);
    hide Clash, Bounded;
    var db' := ReplayTx(db, failed, id);
    forall j | IsDispatched(db', j) && ParentOpen(db', db'.jobs[j].parent) ensures j in db'.outbox {
      assert IsDispatched(db, j) && IsRefresh(db, db.jobs[j].parent);
    }
  }

  lemma ReplayRepeats(db: Db, used: set<Id>, failed: Id, id: Id)
    requires Repeats(db) && MayReplay(db, used, failed, id)
    ensures Repeats(ReplayTx(db, failed, id))
  {
    assert IsChild(db, failed);
    hide Clash;
  }

  lemma ReplayUnique(db: Db, used: set<Id>, failed: Id, id: Id)
    requires OneJobPerIntent(db) && OneOpenJob(db) && Repeats(db) && MayReplay(db, used, failed, id)
    ensures var db' := ReplayTx(db, failed, id); OneJobPerIntent(db') && OneOpenJob(db')
  {
    assert id !in db.jobs;
  }

  lemma ReplayLocks(db: Db, used: set<Id>, failed: Id, id: Id)
    requires Parents(db) && Locks(db) && MayReplay(db, used, failed, id)
    ensures Locks(ReplayTx(db, failed, id))
  {
    assert IsChild(db, failed);
    ReplayRefreshes(db, used, failed, id);
    hide Clash;
  }

  lemma ReplaySpent(db: Db, used: set<Id>, failed: Id, id: Id)
    requires Parents(db) && JobsSpent(db) && MayReplay(db, used, failed, id)
    ensures JobsSpent(ReplayTx(db, failed, id))
  {
    ReplayRefreshes(db, used, failed, id);
    var db' := ReplayTx(db, failed, id);
    forall j | IsChild(db', j) && ParentOpen(db', db'.jobs[j].parent)
      ensures Spent(db'.outbox, db'.jobs[j].parent, db'.jobs[j].work)
    {
      var original := if j == id then failed else j;
      assert IsChild(db, original) && IsRefresh(db, db.jobs[original].parent);
    }
  }

  lemma ReplayHolders(db: Db, used: set<Id>, failed: Id, id: Id)
    requires Parents(db) && Holders(db) && MayReplay(db, used, failed, id)
    ensures Holders(ReplayTx(db, failed, id))
  {
    ReplayRefreshes(db, used, failed, id);
    var db' := ReplayTx(db, failed, id);
    forall e | e in db.outbox ensures ParentOpen(db', db.outbox[e].parent) == ParentOpen(db, db.outbox[e].parent) {
      assert IsRefresh(db, db.outbox[e].parent);
    }
  }

  lemma ReplayQueued(db: Db, used: set<Id>, failed: Id, id: Id)
    requires Parents(db) && AllQueued(db) && MayReplay(db, used, failed, id)
    ensures AllQueued(ReplayTx(db, failed, id))
  {
    ReplayRefreshes(db, used, failed, id);
    var db' := ReplayTx(db, failed, id);
    forall r | r in db.runs && db.runs[r].parent.Some?
      ensures ParentOpen(db', db.runs[r].parent.value) == ParentOpen(db, db.runs[r].parent.value)
    {
      assert IsRefresh(db, db.runs[r].parent.value);
    }
  }

  lemma ReplayKept(db: Db, used: set<Id>, failed: Id, id: Id)
    requires Parents(db) && Repeats(db) && MayReplay(db, used, failed, id)
    ensures Kept(db, used, ReplayTx(db, failed, id), used + {id})
  {
    ReplayRefreshes(db, used, failed, id);
    assert IsChild(db, failed);
    hide Clash;
  }

  lemma ReplayFrame(db: Db, used: set<Id>, failed: Id, id: Id)
    requires KeysUnique(db.outbox) && InRange(db) && MayReplay(db, used, failed, id)
    ensures var db' := ReplayTx(db, failed, id); KeysUnique(db'.outbox) && InRange(db')
  {
  }

  lemma ReplayKeeps(db: Db, used: set<Id>, failed: Id, id: Id)
    requires DbInv(db, used) && Replayable(db, failed) && id !in used
    ensures DbInv(ReplayTx(db, failed, id), used + {id}) && Kept(db, used, ReplayTx(db, failed, id), used + {id})
  {
    assert MayReplay(db, used, failed, id);
    hide Bounded, Parents, OneOpenRefresh, RunsOwned, EntriesOwned, KeysUnique, JobsMatch, OneJobPerIntent;
    hide OneOpenJob, InRange, Holders, Locks, Repeats, JobsSpent, AllQueued, ItemOk, Kept, MayReplay;
    ReplayParents(db, used, failed, id);
    ReplayOpen(db, used, failed, id);
    ReplayOwned(db, used, failed, id);
    ReplayMatch(db, used, failed, id);
    ReplayRepeats(db, used, failed, id);
    ReplayUnique(db, used, failed, id);
    ReplayLocks(db, used, failed, id);
    ReplaySpent(db, used, failed, id);
    ReplayHolders(db, used, failed, id);
    ReplayQueued(db, used, failed, id);
    ReplayKept(db, used, failed, id);
    ReplayFrame(db, used, failed, id);
  }
}
