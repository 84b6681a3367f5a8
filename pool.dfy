/** DbPool and RegisterDb: the package-level map from a logical database name to
    its connection handle, updated by an unguarded check-then-insert. The
    driver's Open and Ping are oracles passed in by the caller. */
module Pool {
  import opened Wrappers
  import opened Driver
  import opened Dsn

  /** sql.Open(driverName, dataSourceName): a handle, or the error it reports. */
  type Opener = (string, string) -> Result<DbHandle>

  /** db.Ping(): the error it reports, if any. */
  type Pinger = DbHandle -> Option<DbError>

  /** One RegisterDb call on the map `pool`: the map afterwards and the error
      returned. A known name is only pinged. An unknown name first gets the
      placeholder and then, if the driver opens it, the opened handle; on a
      failed open the placeholder stays. */
  function Register(pool: map<string, DbHandle>, driverName: string, dbName: string,
                    database: Database, open: Opener, ping: Pinger)
    : (r: (map<string, DbHandle>, Option<DbError>))
    ensures r.0.Keys == pool.Keys + {dbName}
    ensures forall k :: k in pool && k != dbName ==> r.0[k] == pool[k]
    ensures dbName in pool ==> r.0 == pool && r.1 == ping(pool[dbName])
    ensures dbName !in pool && open(driverName, DataSourceName(database)).Ok? ==>
              r.0[dbName] == open(driverName, DataSourceName(database)).value && r.1 == None
    ensures dbName !in pool && open(driverName, DataSourceName(database)).Err? ==>
              r.0[dbName] == Placeholder && r.1 == Some(open(driverName, DataSourceName(database)).error)
  {
    if dbName in pool then
      (pool, ping(pool[dbName]))
    else
      var reserved := pool[dbName := Placeholder];
      match open(driverName, DataSourceName(database))
      case Ok(db) => (reserved[dbName := db], None)
      case Err(e) => (reserved, Some(e))
  }

  /** The process-wide pool of connections. */
  class DbPool {
    var dbs: map<string, DbHandle>

    /** init(): the pool starts empty. */
    constructor ()
      ensures dbs == map[]
    {
      dbs := map[];
    }

    /** RegisterDb: ping the handle already registered under `dbName`, or
        reserve the name, open a connection from the data source name, and keep
        the handle if the open succeeded. */
    method RegisterDb(driverName: string, dbName: string, database: Database,
                      open: Opener, ping: Pinger) returns (err: Option<DbError>)
      modifies this
      ensures (dbs, err) == Register(old(dbs), driverName, dbName, database, open, ping)
    {
      if dbName in dbs {
        err := ping(dbs[dbName]);
        return;
      }
      dbs := dbs[dbName := Placeholder];
      var dataSourceName := DataSourceName(database);
      match open(driverName, dataSourceName)
      case Ok(db) =>
        dbs := dbs[dbName := db];
        err := None;
      case Err(e) =>
        err := Some(e);
    }
  }

  /** Once a name is in the pool its handle never changes: a later
      registration, with any configuration and any driver answers, only pings
      it. This holds for the placeholder a failed open left behind, so that
      name is never opened again. */
  lemma RegisteredNameIsOnlyPinged(pool: map<string, DbHandle>, driverName: string,
                                   dbName: string, database: Database, open: Opener,
                                   ping: Pinger, driverName': string,
                                   database': Database, open': Opener, ping': Pinger)
    ensures var (pool1, _) := Register(pool, driverName, dbName, database, open, ping);
            Register(pool1, driverName', dbName, database', open', ping')
              == (pool1, ping'(pool1[dbName]))
  {
  }

  /** After a failed open, registering the same name again pings the placeholder. */
  lemma FailedOpenIsNotRetried(pool: map<string, DbHandle>, driverName: string,
                               dbName: string, database: Database, open: Opener,
                               ping: Pinger)
    requires dbName !in pool
    requires open(driverName, DataSourceName(database)).Err?
    ensures var (pool1, _) := Register(pool, driverName, dbName, database, open, ping);
            pool1[dbName] == Placeholder
            && Register(pool1, driverName, dbName, database, open, ping).1 == ping(Placeholder)
  {
  }

  /** One registration request: the arguments of a RegisterDb call and the
      answers the driver gives to that call's Open and Ping. */
  datatype Request = Request(driverName: string, dbName: string, database: Database,
                             open: Opener, ping: Pinger)

  /** A sequence of RegisterDb calls, one after another, each with its own driver answers. */
  function RegisterAll(pool: map<string, DbHandle>, requests: seq<Request>): map<string, DbHandle>
    decreases |requests|
  {
    if requests == [] then pool
    else
      var q := requests[|requests| - 1];
      Register(RegisterAll(pool, requests[..|requests| - 1]),
               q.driverName, q.dbName, q.database, q.open, q.ping).0
  }

  /** After any sequence of registrations the pool holds exactly the names it
      held before and the names asked for, and what it held before is untouched. */
  lemma {:induction false} RegisterAllKeys(pool: map<string, DbHandle>, requests: seq<Request>)
    ensures RegisterAll(pool, requests).Keys
         == pool.Keys + set i | 0 <= i < |requests| :: requests[i].dbName
    ensures forall k :: k in pool ==> RegisterAll(pool, requests)[k] == pool[k]
  {
    if requests != [] {
      var init := requests[..|requests| - 1];
      RegisterAllKeys(pool, init);
      var names := set i | 0 <= i < |requests| :: requests[i].dbName;
      var initNames := set i | 0 <= i < |init| :: init[i].dbName;
      assert names == initNames + {requests[|requests| - 1].dbName} by {
        forall n | n in names ensures n in initNames + {requests[|requests| - 1].dbName} {
          var i :| 0 <= i < |requests| && requests[i].dbName == n;
          if i < |init| {
            assert init[i].dbName == n;
          }
        }
        forall n | n in initNames ensures n in names {
          var i :| 0 <= i < |init| && init[i].dbName == n;
          assert requests[i].dbName == n;
        }
      }
    }
  }
}
