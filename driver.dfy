/**
 * The boundary to the external database library: the request handed to the
 * driver, the kinds of error that can cross the boundary, and the
 * `catch (\RuntimeException $e)` that both connection variants wrap around
 * their construction code.
 */
module Driver {
  import opened Wrappers

  /**
   * An option or attribute list in insertion order, each key and value
   * written as the text PHP interpolates it to.
   */
  type Pairs = seq<(string, string)>

  /** What a connection variant passes to the driver's constructor. */
  datatype Request = Request(dsn: string, username: string, password: string, attributes: Pairs)

  /**
   * A thrown exception. `Runtime` stands for `RuntimeException` and its
   * subclasses, the only kind the connection code catches; `InvalidArgument`
   * for `InvalidArgumentException` (a `LogicException`, never caught here);
   * `Other` for any other throwable.
   */
  datatype Error =
    | Runtime(message: string)
    | InvalidArgument(message: string)
    | Other(message: string)

  /** Building the driver and connection objects: an opaque factory that may fail. */
  type Open<H> = Request -> Result<H, Error>

  /** The message a connection variant throws when construction fails. */
  function FailureMessage(dbname: string): string {
    "Gagal Connection ke " + dbname
  }

  /**
   * The try/catch of `getConnection`: a runtime failure becomes a new
   * runtime failure naming the database; anything else passes unchanged.
   */
  function CatchRuntime<H>(outcome: Result<H, Error>, dbname: string): (r: Result<H, Error>)
    ensures r.Ok? <==> outcome.Ok?
    ensures r.Ok? ==> r.value == outcome.value
    ensures r.Err? && r.error.Runtime? ==> r.error.message == FailureMessage(dbname)
    ensures outcome.Err? && outcome.error.Runtime? ==> r == Err(Runtime(FailureMessage(dbname)))
    ensures outcome.Err? && !outcome.error.Runtime? ==> r == outcome
  {
    match outcome
    case Err(Runtime(_)) => Err(Runtime(FailureMessage(dbname)))
    case _ => outcome
  }
}
