// The store behind one connection, shared by the repositories.

module Storage {
  import opened Tables

  // The three tables behind one connection.
  class Store {
    var jobs: map<JobId, Job>
    var accounts: map<AccountKey, AccountLease>
    var items: seq<Item>

    constructor (jobs: map<JobId, Job>, items: seq<Item>)
      ensures this.jobs == jobs && this.items == items && accounts == map[]
    {
      this.jobs := jobs;
      this.accounts := map[];
      this.items := items;
    }

    function View(): Db
      reads this
    {
      Db(jobs, accounts, items)
    }
  }
}
