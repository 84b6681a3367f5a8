/** The MySQL data source name built from a Database configuration, and a
    parser that reads the six settings back out of it. */
module Dsn {
  import opened Wrappers
  import opened Text

  /** The Database struct: connection settings for one logical database. */
  datatype Database = Database(user: string, password: string, ip: string,
                               port: string, dbName: string, charset: string)

  /** The character set that goes into the name: "utf8" stands in for an empty one. */
  function EffectiveCharset(database: Database): (cs: string)
    ensures database.charset == "" ==> cs == "utf8"
    ensures database.charset != "" ==> cs == database.charset
  {
    if database.charset == "" then "utf8" else database.charset
  }

  /** getDataSourceName: user:password@tcp(ip:port)/dbName?charset=cs. */
  function DataSourceName(database: Database): string
  {
    database.user + ":" + database.password + "@tcp(" + database.ip + ":" + database.port
      + ")/" + database.dbName + "?charset=" + EffectiveCharset(database)
  }

  /** Reads a data source name of the shape DataSourceName writes: each setting
      runs up to the first delimiter that follows it. */
  function ParseDsn(s: string): Option<Database>
  {
    match SplitFirst(s, ':')
    case None => None
    case Some((user, rest)) => ParseCredentials(user, rest)
  }

  /** After "user:": the password up to '@', then "tcp(". */
  function ParseCredentials(user: string, s: string): Option<Database>
  {
    match SplitFirst(s, '@')
    case None => None
    case Some((password, rest)) =>
      if |rest| < 4 || rest[..4] != "tcp(" then None
      else ParseAddress(user, password, rest[4..])
  }

  /** After "tcp(": the host up to ':' and the port up to ')'. */
  function ParseAddress(user: string, password: string, s: string): Option<Database>
  {
    match SplitFirst(s, ':')
    case None => None
    case Some((ip, rest)) =>
      match SplitFirst(rest, ')')
      case None => None
      case Some((port, tail)) => ParseDbName(user, password, ip, port, tail)
  }

  /** After ")": "/", the database name up to '?', then "charset=" and the charset. */
  function ParseDbName(user: string, password: string, ip: string, port: string, s: string)
    : Option<Database>
  {
    if |s| < 1 || s[0] != '/' then None
    else match SplitFirst(s[1..], '?')
      case None => None
      case Some((dbName, rest)) =>
        if |rest| < 8 || rest[..8] != "charset=" then None
        else Some(Database(user, password, ip, port, dbName, rest[8..]))
  }

  lemma ParseDbNameGlued(user: string, password: string, ip: string, port: string,
                         dbName: string, cs: string)
    requires '?' !in dbName
    ensures ParseDbName(user, password, ip, port, "/" + dbName + "?charset=" + cs)
         == Some(Database(user, password, ip, port, dbName, cs))
  {
    var rest := "charset=" + cs;
    var s := "/" + dbName + "?charset=" + cs;
    assert s[1..] == dbName + ['?'] + rest;
    SplitFirstGlued(dbName, rest, '?');
    assert rest[..8] == "charset=" && rest[8..] == cs;
  }

  lemma ParseAddressGlued(user: string, password: string, ip: string, port: string, tail: string)
    requires ':' !in ip && ')' !in port
    ensures ParseAddress(user, password, ip + ":" + port + ")" + tail)
         == ParseDbName(user, password, ip, port, tail)
  {
    var rest := port + ")" + tail;
    assert ip + ":" + port + ")" + tail == ip + [':'] + rest;
    SplitFirstGlued(ip, rest, ':');
    assert rest == port + [')'] + tail;
    SplitFirstGlued(port, tail, ')');
  }

  lemma ParseCredentialsGlued(user: string, password: string, address: string)
    requires '@' !in password
    ensures ParseCredentials(user, password + "@tcp(" + address)
         == ParseAddress(user, password, address)
  {
    var rest := "tcp(" + address;
    assert password + "@tcp(" + address == password + ['@'] + rest;
    SplitFirstGlued(password, rest, '@');
    assert rest[..4] == "tcp(" && rest[4..] == address;
  }

  /** The name carries every setting, and the charset as defaulted: parsing it
      gives the configuration back, provided no setting contains the delimiter
      that ends it. */
  lemma DsnRoundTrip(database: Database)
    requires ':' !in database.user && '@' !in database.password
    requires ':' !in database.ip && ')' !in database.port && '?' !in database.dbName
    ensures ParseDsn(DataSourceName(database))
         == Some(database.(charset := EffectiveCharset(database)))
  {
    var cs := EffectiveCharset(database);
    var tail := "/" + database.dbName + "?charset=" + cs;
    var address := database.ip + ":" + database.port + ")" + tail;
    var credentials := database.password + "@tcp(" + address;
    assert DataSourceName(database) == database.user + [':'] + credentials;
    SplitFirstGlued(database.user, credentials, ':');
    ParseCredentialsGlued(database.user, database.password, address);
    ParseAddressGlued(database.user, database.password, database.ip, database.port, tail);
    ParseDbNameGlued(database.user, database.password, database.ip, database.port,
                     database.dbName, cs);
  }

  /** An empty charset and an explicit "utf8" give the same name; any other
      charset is used as given. */
  lemma CharsetDefault(database: Database)
    ensures database.charset == "" ==>
      DataSourceName(database) == DataSourceName(database.(charset := "utf8"))
    ensures database.charset != "" ==>
      DataSourceName(database)[|DataSourceName(database)| - |database.charset|..] == database.charset
  {
  }
}
