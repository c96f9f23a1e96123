/**
 * `MysqlConnectionContract`: what the registry holds. Both connection
 * variants implement its one operation, `getConnection`.
 */
module Contracts {
  import opened Wrappers
  import opened Driver
  import Plain
  import Encrypted

  datatype ConnectionFactory =
    | Mysql(plain: Plain.MysqlConnection)
    | MysqlEncryptor(decrypting: Encrypted.MysqlEncryptorConnection)
  {
    /** The raw database name a construction failure is reported under. */
    function Target(): string {
      match this
      case Mysql(c) => c.dbname
      case MysqlEncryptor(c) => c.dbname
    }

    /**
     * `getConnection` of whichever variant this is. Common to both: a
     * runtime failure always carries "Gagal Connection ke" and the target
     * database, never the driver's or the encryptor's own message.
     */
    function GetConnection<H>(open: Open<H>): (r: Result<H, Error>)
      ensures r.Err? && r.error.Runtime? ==> r.error == Runtime(FailureMessage(Target()))
      ensures Mysql? && open(plain.Request()).Err? && open(plain.Request()).error.Runtime?
              ==> r == Err(Runtime(FailureMessage(Target())))
      ensures MysqlEncryptor? && ((decrypting.Request().Err? && decrypting.Request().error.Runtime?)
              || (decrypting.Request().Ok? && open(decrypting.Request().value).Err?
                  && open(decrypting.Request().value).error.Runtime?))
              ==> r == Err(Runtime(FailureMessage(Target())))
      ensures Mysql? ==> (r.Ok? <==> open(plain.Request()).Ok?)
      ensures MysqlEncryptor? ==> (r.Ok? <==> decrypting.Request().Ok? && open(decrypting.Request().value).Ok?)
    {
      match this
      case Mysql(c) => c.GetConnection(open)
      case MysqlEncryptor(c) => c.GetConnection(open)
    }
  }
}
