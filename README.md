# yii2-bridge-db: named MySQL connections, modelled in Dafny

The library keeps a readonly registry that maps a service name to a
connection description. It can:

- turn a description into a MySQL DSN (`driver:host=…;dbname=…;port=…;k=v…`);
- hand that DSN, the credentials and the options to the Yii database driver;
- report failures: an unknown name is an invalid-argument error, and a
  failed construction is a runtime error "Gagal Connection ke <dbname>".

A second connection variant passes host, dbname, port, username and
password through an injected encryptor before they reach the driver.

The Dafny model has these modules:

- `Wrappers`: `Option` and `Result`.
- `Driver`:
  - the request handed to the database driver;
  - the error kinds;
  - the driver itself as a parameter `open: Request -> Result<H, Error>`;
  - the `catch (RuntimeException)` mapping shared by both variants.
- `Dsn`: the DSN layout, the `foreach` over the options as a loop, and the
  properties of the layout. Among them:
  - splitting the DSN on `;` gives back its parts;
  - without escaping, different option lists can give the same DSN.
- `Plain`: `MysqlConnection`, a value with the PHP constructor's defaults.
  `__toString` is a method proved equal to `Dsn.Build`.
- `Encrypted`: `MysqlEncryptorConnection` and its encryptor, given as two
  functions. It has `decrypt`, `__toDsnDecrypt` (a method proved equal to
  `DecryptedDsn`), `__toString` and `getConnection`.
- `Contracts`: `MysqlConnectionContract` as a sum of the two variants.
- `Service`: `ConnectionService` over an ordered table of pairs in which
  no name appears twice, as in a PHP array.

Error kinds:

- `Runtime`: `RuntimeException` and its subclasses. It is the only kind
  either `catch` handles.
- `InvalidArgument`: `InvalidArgumentException`.
- `Other`: any other throwable, which no `catch` in the library handles.

Points where the PHP code's exact behaviour matters, and which the model keeps:

- Only `RuntimeException` is caught and renamed. Any other failure of the
  driver or of the encryptor passes through `getConnection` unchanged.
- `ConnectionService::getConnection` re-throws a runtime failure as a new
  `RuntimeException` carrying the same message. It does not re-throw the
  original object.
- `getAvailableServiceNames` is `array_keys` and keeps insertion order.
- `hasServiceConnection` returns `false` for an unknown name. It raises no
  error.
- The decrypting variant decides whether a `;dbname=` or `;port=` segment
  is written from the raw field. It does not look at the decrypted value.
- No character of the DSN is escaped, in either variant.

## Model

| member | source | states |
|---|---|---|
| Driver.CatchRuntime | src/Connection/MysqlConnection.php:50-51 | only a runtime failure is replaced, by "Gagal Connection ke " and the dbname; success and every other error pass through unchanged |
| Dsn.AppendOptions | src/Connection/MysqlConnection.php:67-69 | the loop appends `;key=value` for every option, in order, to the DSN so far |
| Dsn.BuildStartsWithHead | src/Connection/MysqlConnection.php:57 | every DSN starts with `driver:host=` followed by the host exactly as given |
| Dsn.LayoutEndsWithOptions | src/Connection/MysqlConnection.php:57-71 | the option segments come after the host, dbname and port segments |
| Dsn.BuildAppendOption | src/Connection/MysqlConnection.php:67-69 | one more option at the end of the list appends exactly `;key=value` to the DSN |
| Dsn.OptionsSuffixAppend | src/Connection/MysqlConnection.php:67-69 | the options' text of a concatenated list is the concatenation of their texts, so insertion order is kept |
| Dsn.SplitAtDelimiter | src/Connection/MysqlConnection.php:57-71 | splitting on `;` distributes over a joining `;` |
| Dsn.BuildSplitsIntoParts | src/Connection/MysqlConnection.php:57-71 | when no field, key or value holds `;`, splitting the DSN on `;` gives back the head, then `dbname=` (iff dbname is non-empty), then `port=` (iff port is non-empty), then each `key=value` in order |
| Dsn.SplitOptionalSegment | src/Connection/MysqlConnection.php:59-65 | an optional `;dbname=` or `;port=` segment adds its part (`dbname=` or `port=` and the value) exactly when the value is non-empty, and nothing otherwise |
| Dsn.BuildPartCount | src/Connection/MysqlConnection.php:59-65 | an empty dbname or port contributes no part at all, never an empty assignment |
| Dsn.UnescapedOptionsAreAmbiguous | src/Connection/MysqlConnection.php:67-69 | because nothing is escaped, two different option lists can produce the same DSN |
| Dsn.BuildExample | src/Connection/MysqlConnection.php:55-72 | mysql, 127.0.0.1, testDb, 3306 and charset utf8mb4 give `mysql:host=127.0.0.1;dbname=testDb;port=3306;charset=utf8mb4` |
| Dsn.BuildExampleHostOnly | src/Connection/MysqlConnection.php:59-65 | with an empty dbname and port the DSN is `mysql:host=127.0.0.1;charset=utf8mb4` |
| Plain.MysqlConnection.ToString | src/Connection/MysqlConnection.php:55-72 | `__toString` built step by step equals the DSN layout of the fields |
| Plain.MysqlConnection.Request | src/Connection/MysqlConnection.php:36-42 | the driver receives exactly `__toString()`, the raw username and password, and the options as attributes |
| Plain.MysqlConnection.GetConnection | src/Connection/MysqlConnection.php:31-53 | succeeds iff the driver succeeds on that request, with the driver's connection; a runtime failure becomes "Gagal Connection ke " + dbname; other failures pass unchanged |
| Plain.GetConnectionAsksOnlyForRequest | src/Connection/MysqlConnection.php:36-47 | the outcome depends on the driver only through its answer to the one request built from the fields |
| Plain.DefaultDsn | src/Connection/MysqlConnection.php:18-28 | with the constructor defaults and dbname `testDb` the DSN is `mysql:host=127.0.0.1;dbname=testDb;port=3306;charset=utf8mb4` |
| Plain.DsnWithoutDbnameAndPort | src/Connection/MysqlConnection.php:59-65 | the defaults with an empty dbname and port give `mysql:host=127.0.0.1;charset=utf8mb4` |
| Encrypted.MysqlEncryptorConnection.Decrypt | src/Connection/MysqlEncryptorConnection.php:61-64 | a value not recognised as encrypted is returned unchanged; a recognised one is whatever the encryptor's decrypt gives, failure included |
| Encrypted.MysqlEncryptorConnection.ToDsnDecrypt | src/Connection/MysqlEncryptorConnection.php:66-83 | the accumulating loop equals the decrypted DSN: host, dbname and port decrypted in that order, the first failure ends it, driver and options unchanged |
| Encrypted.MysqlEncryptorConnection.ToString | src/Connection/MysqlEncryptorConnection.php:85-102 | `__toString` never decrypts: it is the plain connection's DSN for the same fields |
| Encrypted.MysqlEncryptorConnection.Request | src/Connection/MysqlEncryptorConnection.php:42-48 | the driver receives the decrypted DSN, username and password and the options, unless a decryption fails first; the failure returned is the first one, in the order DSN, username, password |
| Encrypted.MysqlEncryptorConnection.GetConnection | src/Connection/MysqlEncryptorConnection.php:37-59 | succeeds iff decryption and the driver succeed; any runtime failure, from the encryptor or the driver, becomes "Gagal Connection ke " + the raw dbname; other failures pass unchanged |
| Encrypted.DecryptedDsnOfPlaintext | src/Connection/MysqlEncryptorConnection.php:63-83 | with plaintext host, dbname and port the decrypted DSN equals `__toString` |
| Encrypted.DecryptedDsnIsBuildOfDecryptedFields | src/Connection/MysqlEncryptorConnection.php:66-83 | when decryption keeps empty and non-empty values apart, the decrypted DSN is the plain layout of the decrypted host, dbname and port |
| Encrypted.EmptyDecryptedDbnameKeepsSegment | src/Connection/MysqlEncryptorConnection.php:70-72 | presence is decided on the raw field: a dbname decrypting to "" still yields `;dbname=`, which differs from the plain DSN of the decrypted values |
| Encrypted.EmptyDecryptedPortKeepsSegment | src/Connection/MysqlEncryptorConnection.php:74-76 | the same for the port: a port decrypting to "" still yields `;port=`, unlike the plain DSN of the decrypted values |
| Encrypted.PlaintextBehavesLikePlain | src/Connection/MysqlEncryptorConnection.php:37-64 | with nothing encrypted, the decrypting connection gives the same outcome as the plain one with the same fields, for every driver |
| Encrypted.CredentialsReachDriverDecrypted | src/Connection/MysqlEncryptorConnection.php:45-46 | encrypted username and password reach the driver as their decrypted values |
| Contracts.ConnectionFactory.GetConnection | src/Contracts/MysqlConnectionContract.php:12 | for either variant, every runtime failure, from decryption or the driver, becomes "Gagal Connection ke " + the raw dbname; success is exactly that variant's success condition |
| Encrypted.MysqlEncryptorConnection.DecryptedDsn | src/Connection/MysqlEncryptorConnection.php:66-83 | `__toDsnDecrypt` as a value: the first failure in the order host, dbname (when present), port (when present) is returned unchanged; otherwise the DSN is the layout of the decrypted host, dbname and port, with the segments chosen by the raw fields and the driver and options as given |
| Service.IndexOf | src/Service/ConnectionService.php:49-52 | finds the first entry stored under the name, and finds nothing iff no entry has that name |
| Service.ConnectionService.GetMysqlConnection | src/Service/ConnectionService.php:49-52 | nothing iff no entry has the name; otherwise exactly the factory stored under it |
| Service.ConnectionService.HasServiceConnection | src/Service/ConnectionService.php:44-47 | true iff some entry is stored under the name; `Service.HasIffListed` ties it to the listed names |
| Service.ConnectionService.GetConnection | src/Service/ConnectionService.php:25-37 | an unknown name fails with "Connection " + name + " tidak tersedia" without calling any factory; a known name gives exactly its factory's outcome |
| Service.ConnectionService.GetAvailableServiceNames | src/Service/ConnectionService.php:39-42 | the keys of the table, in insertion order |
| Service.HasIffListed | src/Service/ConnectionService.php:44-47 | `hasServiceConnection` is true iff the name is among the listed names |
| Service.ListedNamesResolve | src/Service/ConnectionService.php:39-52 | every listed name resolves to the factory stored under it, at its own position |
| Service.GetConnectionErrors | src/Service/ConnectionService.php:25-37 | the caller sees a runtime failure only for a known name, carrying that factory's dbname; an unknown name's error names it |
| Service.NamesDistinct | src/Service/ConnectionService.php:20-22 | the listed names never repeat, because the table's keys are unique |

## Left out

- The Yii `Driver`, `Connection`, `SchemaCache` and `ArrayCache`. They are
  foreign library code that may open a network connection, so the driver
  is the parameter `open`, which may fail with any error kind.
- The encryptor's cryptography. The encryptor is only its two operations,
  `isEncrypted` and `decrypt`. A failing `decrypt` is an `Err` of one of
  the error kinds.
- `DependencyInjector::inject` and the `#[Inject]` attribute. The encryptor
  is a required constructor field. The `null` default is therefore not
  modelled; in the source, a null encryptor fails on its first use with a
  PHP `Error`.
- Object identity and caching. Connections are returned values. The
  registry and both connection kinds are immutable values, so
  `dbConfigs` cannot change and nothing can be cached. That two calls give
  two distinct connection objects depends on the driver and is not
  modelled.
- Error objects are modelled as a kind and a message only. Exception
  classes below `RuntimeException`, previous exceptions and stack traces
  are not modelled.
- PHP array keys are modelled as strings. PHP stores a numeric string key
  such as `"1"` as the integer `1`. Interpolated into the DSN it prints
  the same, but `getAvailableServiceNames` then returns the integer `1`,
  not the string `"1"`. The model always returns the string.
- Driver.Pairs: option values are modelled as the strings PHP interpolates
  them to. An int is written as its digits, `true` as `1`, and `false` or
  `null` as the empty string. The driver's `attributes` receive those
  strings too, where PHP passes the typed values unchanged.
- Driver.Pairs: an options list may hold a key twice, which a PHP array
  cannot. The DSN lemmas hold for every list, so they cover every PHP
  options array. How PHP merges a repeated key in a literal, where the
  last value wins at the first key's position, happens before this code
  runs and is not modelled. The registry table `Service.Configs` does
  require unique keys.
- `MysqlConnectionContract` is an interface in PHP. Here it is a datatype
  with one case per implementing class, so no third implementation can be
  added.
- `ConnectionServiceContract` declares only the signatures the service
  implements, so it has no separate model.
- The configuration loading (`ConfigBridge`, `ServiceLocator`) and the
  tests against a live MySQL server are not part of this model.
- Contracts.ConnectionFactory.GetConnection states only what both variants
  share: the runtime failure mapping and success. Each variant's full contract is on
  its own `GetConnection`.
