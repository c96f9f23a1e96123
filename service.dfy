/**
 * `ConnectionService`: a readonly, ordered table from service name to
 * connection factory. Resolving a name either fails with "Connection <name>
 * tidak tersedia" or returns whatever that factory's `getConnection`
 * returns; nothing is cached and the table is never changed.
 */
module Service {
  import opened Wrappers
  import opened Driver
  import opened Contracts

  /** Name and factory pairs in insertion order. */
  type Entries = seq<(string, ConnectionFactory)>

  /** No name is stored twice. */
  predicate UniqueKeys(entries: Entries) {
    forall i, j :: 0 <= i < j < |entries| ==> entries[i].0 != entries[j].0
  }

  /** A PHP array from name to factory: insertion order, each key at most once. */
  type Configs = entries: Entries | UniqueKeys(entries)

  function UnknownMessage(name: string): string {
    "Connection " + name + " tidak tersedia"
  }

  /** The position of the first entry with that name, if any. */
  function IndexOf(configs: Entries, name: string): (r: Option<nat>)
    ensures r.None? <==> forall i :: 0 <= i < |configs| ==> configs[i].0 != name
    ensures r.Some? ==> r.value < |configs| && configs[r.value].0 == name
                        && forall j :: 0 <= j < r.value ==> configs[j].0 != name
  {
    if configs == [] then None
    else if configs[0].0 == name then Some(0)
    else
      match IndexOf(configs[1..], name)
      case None => None
      case Some(k) => Some(k + 1)
  }

  datatype ConnectionService = ConnectionService(dbConfigs: Configs)
  {
    /** `getMysqlConnection`, `$dbConfigs[$name] ?? null`: the one factory stored under the name, if any. */
    function GetMysqlConnection(name: string): (r: Option<ConnectionFactory>)
      ensures r.None? <==> forall i :: 0 <= i < |dbConfigs| ==> dbConfigs[i].0 != name
      ensures forall i :: 0 <= i < |dbConfigs| && dbConfigs[i].0 == name ==> r == Some(dbConfigs[i].1)
    {
      match IndexOf(dbConfigs, name)
      case None => None
      case Some(k) => Some(dbConfigs[k].1)
    }

    /**
     * `getConnection`: an unknown name fails with an invalid-argument error
     * before any factory or driver is involved; a known name returns exactly
     * what its factory returns, a runtime failure re-thrown with the same
     * message.
     */
    function GetConnection<H>(name: string, open: Open<H>): (r: Result<H, Error>)
      ensures !HasServiceConnection(name) ==> r == Err(InvalidArgument(UnknownMessage(name)))
      ensures HasServiceConnection(name) ==> r == GetMysqlConnection(name).value.GetConnection(open)
    {
      match GetMysqlConnection(name)
      case None => Err(InvalidArgument(UnknownMessage(name)))
      case Some(db) =>
        match db.GetConnection(open)
        case Err(Runtime(message)) => Err(Runtime(message))
        case outcome => outcome
    }

    /** `getAvailableServiceNames`: the keys, in insertion order. */
    function GetAvailableServiceNames(): (names: seq<string>)
      ensures |names| == |dbConfigs|
      ensures forall i :: 0 <= i < |dbConfigs| ==> names[i] == dbConfigs[i].0
    {
      seq(|dbConfigs|, i requires 0 <= i < |dbConfigs| => dbConfigs[i].0)
    }

    /** `hasServiceConnection`: whether some entry is stored under the name. */
    predicate HasServiceConnection(name: string)
      ensures HasServiceConnection(name) <==> exists i :: 0 <= i < |dbConfigs| && dbConfigs[i].0 == name
    {
      GetMysqlConnection(name) != None
    }
  }

  /** A name is reported as available iff it is among the listed names. */
  lemma HasIffListed(s: ConnectionService, name: string)
    ensures s.HasServiceConnection(name) <==> name in s.GetAvailableServiceNames()
  {
    var names := s.GetAvailableServiceNames();
    if name in names {
      var i :| 0 <= i < |names| && names[i] == name;
      assert s.dbConfigs[i].0 == name;
    }
  }

  /** Every listed name resolves to the factory stored under it. */
  lemma ListedNamesResolve(s: ConnectionService, i: nat)
    requires i < |s.dbConfigs|
    ensures s.GetMysqlConnection(s.GetAvailableServiceNames()[i]) == Some(s.dbConfigs[i].1)
  {
    var k := IndexOf(s.dbConfigs, s.dbConfigs[i].0);
    assert k.Some?;
    assert k.value == i;
  }

  /**
   * The error kinds a caller can see: an invalid-argument error naming the
   * unknown service, or, for a known service, a runtime failure naming that
   * factory's database, or what the factory let through unchanged.
   */
  lemma GetConnectionErrors<H>(s: ConnectionService, name: string, open: Open<H>)
    ensures var r := s.GetConnection(name, open);
            r.Err? && r.error.Runtime? ==>
              s.HasServiceConnection(name)
              && r.error.message == FailureMessage(s.GetMysqlConnection(name).value.Target())
    ensures !s.HasServiceConnection(name) ==> s.GetConnection(name, open).error.message == UnknownMessage(name)
  {
  }

  /** The registry lists no name twice. */
  lemma NamesDistinct(s: ConnectionService)
    ensures forall i, j :: 0 <= i < j < |s.GetAvailableServiceNames()| ==>
              s.GetAvailableServiceNames()[i] != s.GetAvailableServiceNames()[j]
  {
  }
}
