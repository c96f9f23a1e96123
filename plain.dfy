/**
 * `MysqlConnection`: a readonly set of connection fields, the DSN built from
 * them as written, and `getConnection`, which hands the DSN and the raw
 * credentials to the driver and reports a runtime failure under the
 * database name.
 */
module Plain {
  import opened Wrappers
  import opened Driver
  import Dsn

  /** The constructor's defaults: loopback host, driver `mysql`, port 3306, charset utf8mb4. */
  datatype MysqlConnection = MysqlConnection(
    dbname: string := "",
    username: string := "",
    password: string := "",
    host: string := "127.0.0.1",
    driver: string := "mysql",
    port: string := "3306",
    options: Pairs := [("charset", "utf8mb4")])
  {
    /** `__toString`: the DSN accumulated segment by segment. */
    method ToString() returns (dsn: string)
      ensures dsn == Dsn.Build(driver, host, dbname, port, options)
    {
      dsn := driver + ":host=" + host;
      if dbname != "" {
        dsn := dsn + (";dbname=" + dbname);
      }
      if port != "" {
        dsn := dsn + (";port=" + port);
      }
      assert dsn == Dsn.Build(driver, host, dbname, port, []);
      dsn := Dsn.AppendOptions(dsn, options);
      Dsn.LayoutEndsWithOptions(driver, host, dbname != "", dbname, port != "", port, options);
    }

    /** What `getConnection` hands the driver: the DSN, the raw credentials and the options as attributes. */
    function Request(): (req: Driver.Request)
      ensures req.dsn == Dsn.Build(driver, host, dbname, port, options)
      ensures req.username == username && req.password == password && req.attributes == options
    {
      Driver.Request(Dsn.Build(driver, host, dbname, port, options), username, password, options)
    }

    /**
     * `getConnection`: one call to the driver with `Request()`; success is
     * returned as is, a runtime failure becomes "Gagal Connection ke" and the
     * database name, any other failure passes through.
     */
    function GetConnection<H>(open: Open<H>): (r: Result<H, Error>)
      ensures r.Ok? <==> open(Request()).Ok?
      ensures r.Ok? ==> r.value == open(Request()).value
      ensures r.Err? && r.error.Runtime? ==> r.error == Runtime(FailureMessage(dbname))
      ensures open(Request()).Err? && open(Request()).error.Runtime? ==> r == Err(Runtime(FailureMessage(dbname)))
      ensures open(Request()).Err? && !open(Request()).error.Runtime? ==> r == open(Request())
    {
      CatchRuntime(open(Request()), dbname)
    }
  }

  /** The result depends on the driver only through the one request it is handed. */
  lemma GetConnectionAsksOnlyForRequest<H>(c: MysqlConnection, open1: Open<H>, open2: Open<H>)
    requires open1(c.Request()) == open2(c.Request())
    ensures c.GetConnection(open1) == c.GetConnection(open2)
  {
  }

  /** With the defaults and dbname `testDb`, the example DSN. */
  lemma DefaultDsn()
    ensures MysqlConnection(dbname := "testDb").Request().dsn
         == "mysql:host=127.0.0.1" + ";dbname=testDb" + ";port=3306" + ";charset=utf8mb4"
  {
    var c := MysqlConnection(dbname := "testDb");
    Dsn.BuildExample(c.driver, c.host, c.dbname, c.port, c.options);
  }

  /** Empty dbname and port leave only the head and the options. */
  lemma DsnWithoutDbnameAndPort()
    ensures MysqlConnection(dbname := "", port := "").Request().dsn == "mysql:host=127.0.0.1" + ";charset=utf8mb4"
  {
    var c := MysqlConnection(dbname := "", port := "");
    Dsn.BuildExampleHostOnly(c.driver, c.host, c.options);
  }
}
