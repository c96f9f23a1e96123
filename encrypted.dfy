/**
 * `MysqlEncryptorConnection`: the same fields as the plain connection plus
 * an injected encryptor. Host, dbname and port are decrypted while the DSN
 * is built, username and password before they reach the driver; the driver
 * name and the options never are. `__toString` itself never decrypts.
 */
module Encrypted {
  import opened Wrappers
  import opened Driver
  import Dsn
  import Plain

  /**
   * The encryptor service, known only through its two operations. Decrypting
   * may throw, which the model writes as an `Err`.
   */
  datatype Encryptor = Encryptor(isEncrypted: string -> bool, decrypt: string -> Result<string, Error>)

  datatype MysqlEncryptorConnection = MysqlEncryptorConnection(
    dbname: string := "",
    username: string := "",
    password: string := "",
    host: string := "127.0.0.1",
    driver: string := "mysql",
    port: string := "3306",
    options: Pairs := [("charset", "utf8mb4")],
    encryptor: Encryptor)
  {
    /** The same fields without the encryptor: the plain connection they describe. */
    function AsPlain(): Plain.MysqlConnection {
      Plain.MysqlConnection(dbname, username, password, host, driver, port, options)
    }

    /** `decrypt`: ciphertext goes through the encryptor, plaintext is returned unchanged. */
    function Decrypt(value: string): (r: Result<string, Error>)
      ensures !encryptor.isEncrypted(value) ==> r == Ok(value)
      ensures encryptor.isEncrypted(value) ==> r == encryptor.decrypt(value)
    {
      if encryptor.isEncrypted(value) then encryptor.decrypt(value) else Ok(value)
    }

    /**
     * The value of `__toDsnDecrypt`: host, dbname and port decrypted in that
     * order (the first failure ends it), each optional segment written when
     * the RAW field is non-empty, driver and options unchanged.
     */
    function DecryptedDsn(): (r: Result<string, Error>)
      ensures r.Ok? <==> Decrypt(host).Ok? && (dbname != "" ==> Decrypt(dbname).Ok?) && (port != "" ==> Decrypt(port).Ok?)
      ensures Decrypt(host).Err? ==> r == Err(Decrypt(host).error)
      ensures Decrypt(host).Ok? && dbname != "" && Decrypt(dbname).Err? ==> r == Err(Decrypt(dbname).error)
      ensures Decrypt(host).Ok? && (dbname != "" ==> Decrypt(dbname).Ok?) && port != "" && Decrypt(port).Err?
              ==> r == Err(Decrypt(port).error)
      ensures r.Ok? ==> r.value == Dsn.Layout(driver, Decrypt(host).value,
                                               dbname != "", if dbname != "" then Decrypt(dbname).value else "",
                                               port != "", if port != "" then Decrypt(port).value else "",
                                               options)
      ensures r.Ok? ==> Dsn.Head(driver, Decrypt(host).value) <= r.value
    {
      var h :- Decrypt(host);
      var d :- if dbname != "" then Decrypt(dbname) else Ok("");
      var p :- if port != "" then Decrypt(port) else Ok("");
      Ok(Dsn.Layout(driver, h, dbname != "", d, port != "", p, options))
    }

    /** `__toDsnDecrypt`, accumulated segment by segment. */
    method ToDsnDecrypt() returns (r: Result<string, Error>)
      ensures r == DecryptedDsn()
    {
      var h := Decrypt(host);
      if h.Err? {
        return Err(h.error);
      }
      var dsn := driver + ":host=" + h.value;
      var d, p := "", "";
      if dbname != "" {
        var decrypted := Decrypt(dbname);
        if decrypted.Err? {
          return Err(decrypted.error);
        }
        d := decrypted.value;
        dsn := dsn + (";dbname=" + d);
      }
      if port != "" {
        var decrypted := Decrypt(port);
        if decrypted.Err? {
          return Err(decrypted.error);
        }
        p := decrypted.value;
        dsn := dsn + (";port=" + p);
      }
      assert dsn == Dsn.Layout(driver, h.value, dbname != "", d, port != "", p, []);
      dsn := Dsn.AppendOptions(dsn, options);
      Dsn.LayoutEndsWithOptions(driver, h.value, dbname != "", d, port != "", p, options);
      r := Ok(dsn);
    }

    /** `__toString`: the raw fields, exactly as the plain connection writes them. */
    method ToString() returns (dsn: string)
      ensures dsn == Dsn.Build(driver, host, dbname, port, options)
      ensures dsn == AsPlain().Request().dsn
    {
      dsn := driver + ":host=" + host;
      if dbname != "" {
        dsn := dsn + (";dbname=" + dbname);
      }
      if port != "" {
        dsn := dsn + (";port=" + port);
      }
      assert dsn == Dsn.Build(driver, host, dbname, port, []);
      dsn := Dsn.AppendOptions(dsn, options);
      Dsn.LayoutEndsWithOptions(driver, host, dbname != "", dbname, port != "", port, options);
    }

    /**
     * What `getConnection` hands the driver, unless a decryption throws
     * first: the decrypted DSN, the decrypted username and password, and
     * the options as attributes.
     */
    function Request(): (r: Result<Driver.Request, Error>)
      ensures r.Ok? <==> DecryptedDsn().Ok? && Decrypt(username).Ok? && Decrypt(password).Ok?
      ensures r.Ok? ==> r.value == Driver.Request(DecryptedDsn().value, Decrypt(username).value,
                                                  Decrypt(password).value, options)
      ensures DecryptedDsn().Err? ==> r == Err(DecryptedDsn().error)
      ensures DecryptedDsn().Ok? && Decrypt(username).Err? ==> r == Err(Decrypt(username).error)
      ensures DecryptedDsn().Ok? && Decrypt(username).Ok? && Decrypt(password).Err?
              ==> r == Err(Decrypt(password).error)
    {
      var dsn :- DecryptedDsn();
      var user :- Decrypt(username);
      var pass :- Decrypt(password);
      Ok(Driver.Request(dsn, user, pass, options))
    }

    /**
     * `getConnection`: decryption and driver construction share one
     * try/catch, so a runtime failure of either is reported as "Gagal
     * Connection ke" and the raw, undecrypted dbname.
     */
    function GetConnection<H>(open: Open<H>): (r: Result<H, Error>)
      ensures r.Ok? <==> Request().Ok? && open(Request().value).Ok?
      ensures r.Ok? ==> r.value == open(Request().value).value
      ensures r.Err? && r.error.Runtime? ==> r.error == Runtime(FailureMessage(dbname))
      ensures (Request().Err? && Request().error.Runtime?)
              || (Request().Ok? && open(Request().value).Err? && open(Request().value).error.Runtime?)
              ==> r == Err(Runtime(FailureMessage(dbname)))
      ensures Request().Err? && !Request().error.Runtime? ==> r == Err(Request().error)
      ensures Request().Ok? && open(Request().value).Err? && !open(Request().value).error.Runtime?
              ==> r == open(Request().value)
    {
      var outcome := match Request()
        case Ok(req) => open(req)
        case Err(e) => Err(e);
      CatchRuntime(outcome, dbname)
    }
  }

  /** Nothing that is decrypted is encrypted. */
  ghost predicate PlaintextFields(c: MysqlEncryptorConnection) {
    && !c.encryptor.isEncrypted(c.host)
    && (c.dbname != "" ==> !c.encryptor.isEncrypted(c.dbname))
    && (c.port != "" ==> !c.encryptor.isEncrypted(c.port))
  }

  /** With plaintext host, dbname and port, the decrypted DSN is the `__toString` DSN. */
  lemma DecryptedDsnOfPlaintext(c: MysqlEncryptorConnection)
    requires PlaintextFields(c)
    ensures c.DecryptedDsn() == Ok(Dsn.Build(c.driver, c.host, c.dbname, c.port, c.options))
  {
  }

  /**
   * When decryption keeps empty and non-empty values apart, the decrypted
   * DSN is the plain layout of the decrypted values.
   */
  lemma DecryptedDsnIsBuildOfDecryptedFields(c: MysqlEncryptorConnection, h: string, d: string, p: string)
    requires c.Decrypt(c.host) == Ok(h)
    requires c.dbname != "" ==> c.Decrypt(c.dbname) == Ok(d) && d != ""
    requires c.dbname == "" ==> d == ""
    requires c.port != "" ==> c.Decrypt(c.port) == Ok(p) && p != ""
    requires c.port == "" ==> p == ""
    ensures c.DecryptedDsn() == Ok(Dsn.Build(c.driver, h, d, p, c.options))
  {
  }

  /**
   * Presence is decided on the raw field: a dbname that decrypts to the
   * empty string still gets a `;dbname=` segment, which the plain builder
   * never writes for an empty dbname.
   */
  lemma EmptyDecryptedDbnameKeepsSegment(c: MysqlEncryptorConnection, h: string)
    requires c.dbname != "" && c.port == ""
    requires c.Decrypt(c.host) == Ok(h) && c.Decrypt(c.dbname) == Ok("")
    ensures c.DecryptedDsn() == Ok(Dsn.Head(c.driver, h) + ";dbname=" + Dsn.OptionsSuffix(c.options))
    ensures c.DecryptedDsn() != Ok(Dsn.Build(c.driver, h, "", "", c.options))
  {
    var withSegment := Dsn.Head(c.driver, h) + ";dbname=" + Dsn.OptionsSuffix(c.options);
    assert Dsn.Segment("dbname", "") == ";dbname=";
    assert Dsn.Layout(c.driver, h, true, "", false, "", c.options) == withSegment;
    assert |withSegment| == |Dsn.Build(c.driver, h, "", "", c.options)| + 8;
  }

  /** The same rule for the port: a port decrypting to "" still gets a `;port=` segment. */
  lemma EmptyDecryptedPortKeepsSegment(c: MysqlEncryptorConnection, h: string)
    requires c.dbname == "" && c.port != ""
    requires c.Decrypt(c.host) == Ok(h) && c.Decrypt(c.port) == Ok("")
    ensures c.DecryptedDsn() == Ok(Dsn.Head(c.driver, h) + ";port=" + Dsn.OptionsSuffix(c.options))
    ensures c.DecryptedDsn() != Ok(Dsn.Build(c.driver, h, "", "", c.options))
  {
    var withSegment := Dsn.Head(c.driver, h) + ";port=" + Dsn.OptionsSuffix(c.options);
    assert Dsn.Layout(c.driver, h, false, "", true, "", c.options) == withSegment;
    assert |withSegment| == |Dsn.Build(c.driver, h, "", "", c.options)| + 6;
  }

  /**
   * With nothing encrypted among host, dbname, port, username and password,
   * the decrypting connection behaves exactly like the plain one with the
   * same fields, whatever the driver does.
   */
  lemma PlaintextBehavesLikePlain<H>(c: MysqlEncryptorConnection, open: Open<H>)
    requires PlaintextFields(c)
    requires !c.encryptor.isEncrypted(c.username) && !c.encryptor.isEncrypted(c.password)
    ensures c.GetConnection(open) == c.AsPlain().GetConnection(open)
  {
    DecryptedDsnOfPlaintext(c);
    assert c.Request() == Ok(c.AsPlain().Request());
  }

  /** Encrypted credentials reach the driver decrypted. */
  lemma CredentialsReachDriverDecrypted(c: MysqlEncryptorConnection, user: string, pass: string)
    requires c.encryptor.isEncrypted(c.username) && c.encryptor.decrypt(c.username) == Ok(user)
    requires c.encryptor.isEncrypted(c.password) && c.encryptor.decrypt(c.password) == Ok(pass)
    requires c.DecryptedDsn().Ok?
    ensures c.Request().Ok?
    ensures c.Request().value.username == user && c.Request().value.password == pass
  {
  }
}
