// What a worker's coroutine meets whenever it awaits: the clock moves on and everybody else acts.

module Outside {
  import opened Options
  import opened Tables
  import opened Storage

  // Wall-clock milliseconds to the seconds of the tables.
  function Sec(ms: int): Seconds { ms / 1000 }

  class World {
    const db: Store
    const me: WorkerId
    const job: JobId
    const account: AccountKey
    const calm: bool       // no commands, no cancellation, leases kept
    var now: int
    var cancelled: bool    // the worker's cancel event

    constructor (db: Store, me: WorkerId, job: JobId, account: AccountKey, calm: bool, now: int)
      ensures this.db == db && this.me == me && this.job == job && this.account == account && this.calm == calm
      ensures this.now == now && !cancelled
    {
      this.db, this.me, this.job, this.account, this.calm := db, me, job, account, calm;
      this.now, this.cancelled := now, false;
    }

    predicate HoldsJob()
      reads this, db
    { OwnsJob(db.View(), job, me, Sec(now)) }

    predicate HoldsAccount()
      reads this, db
    { OwnsAccount(db.View(), account, me, job, Sec(now)) }

    // LeaseKeeper.assert_ownership.
    predicate Owned()
      reads this, db
    { HoldsJob() && HoldsAccount() }

    // In a calm world the keeper keeps both leases live, nobody cancels and nobody stores a command.
    predicate Calm()
      reads this, db
    {
      calm ==> Owned() && !cancelled && db.jobs[job].command == NoCommand
    }

    // What the others can have done since an earlier moment. Surroundings.OthersKeepRely proves the bound on
    // the tables for every run of the protocol in which this worker's loop does nothing.
    twostate predicate Since()
      reads this, db
    {
      && old(now) <= now
      && (old(cancelled) ==> cancelled)
      && Rely(old(db.View()), Sec(old(now)), db.View(), Sec(now), job, account, me)
    }

    // A sleep never ends early and may end late.
    method Sleep(d: int)
      requires Calm()
      modifies this, db
      ensures Calm() && Since() && now >= old(now) + d
    {
      var late: nat :| late >= 0;
      now := now + (if d > 0 then d else 0) + late;
      if calm {
        db.jobs := db.jobs[job := db.jobs[job].(leaseUntil := Some(Sec(now) + 60))];
        db.accounts := db.accounts[account := db.accounts[account].(leaseUntil := Some(Sec(now) + 60))];
      }
    }
  }
}
