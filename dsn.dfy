/**
 * The layout of a MySQL data source name as both connection variants write
 * it: `driver:host=H`, then `;dbname=D` and `;port=P` when present, then
 * `;key=value` for every option in insertion order. Nothing is escaped.
 *
 * `Split` reads a DSN back into its `;`-separated parts; the round trip
 * `Split(Build(..)) == Parts(..)` holds when no field contains `;`.
 */
module Dsn {
  import opened Driver

  /** The mandatory leading part, `driver:host=H`. */
  function Head(driver: string, host: string): string {
    driver + ":host=" + host
  }

  /** One `;key=value` segment, written without escaping. */
  function Segment(key: string, value: string): string {
    ";" + key + "=" + value
  }

  /** The options' segments, appended one by one in insertion order (the source's `foreach`). */
  function OptionsSuffix(options: Pairs): string {
    if options == [] then ""
    else
      var last := options[|options| - 1];
      OptionsSuffix(options[..|options| - 1]) + Segment(last.0, last.1)
  }

  /** The `foreach` over the options: appends each `;key=value` segment to `dsn0` in order. */
  method AppendOptions(dsn0: string, options: Pairs) returns (dsn: string)
    ensures dsn == dsn0 + OptionsSuffix(options)
  {
    dsn := dsn0;
    for i := 0 to |options|
      invariant dsn == dsn0 + OptionsSuffix(options[..i])
    {
      var (key, value) := options[i];
      assert options[..i + 1] == options[..i] + [(key, value)];
      OptionsSuffixAppendOne(options[..i], key, value);
      dsn := dsn + (";" + key + "=" + value);
    }
    assert options[..|options|] == options;
  }

  /**
   * The DSN text once the values to write are known. Whether the `dbname`
   * and `port` segments are written is decided by the flags, so that the
   * decrypting variant can decide it on the raw field and write the
   * decrypted value.
   */
  function Layout(driver: string, host: string, withDbname: bool, dbname: string,
                  withPort: bool, port: string, options: Pairs): string
  {
    Head(driver, host)
    + (if withDbname then ";dbname=" + dbname else "")
    + (if withPort then ";port=" + port else "")
    + OptionsSuffix(options)
  }

  /** The plain DSN: an empty dbname or port is left out entirely. */
  function Build(driver: string, host: string, dbname: string, port: string, options: Pairs): string {
    Layout(driver, host, dbname != "", dbname, port != "", port, options)
  }

  /** Whatever the other fields hold, the DSN starts with `driver:host=` and the host as given. */
  lemma BuildStartsWithHead(driver: string, host: string, dbname: string, port: string, options: Pairs)
    ensures Head(driver, host) <= Build(driver, host, dbname, port, options)
    ensures Build(driver, host, dbname, port, options)[..|driver| + 6 + |host|] == driver + ":host=" + host
  {
  }

  /** The options' segments come after everything else. */
  lemma LayoutEndsWithOptions(driver: string, host: string, withDbname: bool, dbname: string,
                              withPort: bool, port: string, options: Pairs)
    ensures Layout(driver, host, withDbname, dbname, withPort, port, options)
         == Layout(driver, host, withDbname, dbname, withPort, port, []) + OptionsSuffix(options)
  {
  }

  /** Adding one option to the end of the list appends exactly its segment. */
  lemma OptionsSuffixAppendOne(options: Pairs, key: string, value: string)
    ensures OptionsSuffix(options + [(key, value)]) == OptionsSuffix(options) + Segment(key, value)
  {
    var extended := options + [(key, value)];
    assert extended[..|extended| - 1] == options;
  }

  lemma LayoutAppendOption(driver: string, host: string, withDbname: bool, dbname: string,
                           withPort: bool, port: string, options: Pairs, key: string, value: string)
    ensures Layout(driver, host, withDbname, dbname, withPort, port, options + [(key, value)])
         == Layout(driver, host, withDbname, dbname, withPort, port, options) + Segment(key, value)
  {
    var extended := options + [(key, value)];
    assert extended[..|extended| - 1] == options;
    assert OptionsSuffix(extended) == OptionsSuffix(options) + Segment(key, value);
  }

  lemma BuildAppendOption(driver: string, host: string, dbname: string, port: string, options: Pairs, key: string, value: string)
    ensures Build(driver, host, dbname, port, options + [(key, value)])
         == Build(driver, host, dbname, port, options) + Segment(key, value)
  {
    LayoutAppendOption(driver, host, dbname != "", dbname, port != "", port, options, key, value);
  }

  lemma OptionsSuffixSingle(key: string, value: string)
    ensures OptionsSuffix([(key, value)]) == ";" + key + "=" + value
  {
    assert [(key, value)][..0] == [];
  }

  /** The default fields with dbname `testDb` (the literal is split at its segments). */
  lemma BuildExample(driver: string, host: string, dbname: string, port: string, options: Pairs)
    requires driver == "mysql" && host == "127.0.0.1" && dbname == "testDb" && port == "3306"
    requires options == [("charset", "utf8mb4")]
    ensures Build(driver, host, dbname, port, options)
         == "mysql:host=127.0.0.1" + ";dbname=testDb" + ";port=3306" + ";charset=utf8mb4"
  {
    assert dbname != "" && port != "" by {
      assert |dbname| == 6 && |port| == 4;
    }
    assert Head(driver, host) == "mysql:host=127.0.0.1";
    assert ";dbname=" + dbname == ";dbname=testDb";
    assert ";port=" + port == ";port=3306";
    OptionsSuffixSingle("charset", "utf8mb4");
    assert OptionsSuffix(options) == ";charset=utf8mb4";
  }

  /** The default fields with dbname and port left empty. */
  lemma BuildExampleHostOnly(driver: string, host: string, options: Pairs)
    requires driver == "mysql" && host == "127.0.0.1" && options == [("charset", "utf8mb4")]
    ensures Build(driver, host, "", "", options) == "mysql:host=127.0.0.1" + ";charset=utf8mb4"
  {
    assert Head(driver, host) == "mysql:host=127.0.0.1";
    OptionsSuffixSingle("charset", "utf8mb4");
    assert OptionsSuffix(options) == ";charset=utf8mb4";
    assert Build(driver, host, "", "", options) == Head(driver, host) + "" + "" + OptionsSuffix(options);
  }

  /** The parts a driver reads back from a DSN by splitting it on `;`. */
  function Parts(driver: string, host: string, dbname: string, port: string, options: Pairs): seq<string> {
    [Head(driver, host)]
    + (if dbname != "" then ["dbname=" + dbname] else [])
    + (if port != "" then ["port=" + port] else [])
    + OptionParts(options)
  }

  function OptionParts(options: Pairs): (r: seq<string>)
    ensures |r| == |options|
    ensures forall i :: 0 <= i < |options| ==> r[i] == options[i].0 + "=" + options[i].1
  {
    if options == [] then []
    else
      var last := options[|options| - 1];
      OptionParts(options[..|options| - 1]) + [last.0 + "=" + last.1]
  }

  predicate NoDelimiter(s: string) {
    ';' !in s
  }

  /** Every key and value of the options is free of `;`. */
  predicate OptionsUnescapedSafe(options: Pairs) {
    forall i :: 0 <= i < |options| ==> NoDelimiter(options[i].0) && NoDelimiter(options[i].1)
  }

  /** Splits a string on `;`; there is always at least one part. */
  function Split(s: string): (parts: seq<string>)
    ensures |parts| >= 1
  {
    if s == [] then [""]
    else
      var rest := Split(s[1..]);
      if s[0] == ';' then [""] + rest
      else [[s[0]] + rest[0]] + rest[1..]
  }

  lemma {:induction false} SplitWithoutDelimiter(s: string)
    requires NoDelimiter(s)
    ensures Split(s) == [s]
  {
    if s != [] {
      SplitWithoutDelimiter(s[1..]);
      assert [s[0]] + s[1..] == s;
    }
  }

  /** Splitting distributes over a joining `;`. */
  lemma {:induction false} SplitAtDelimiter(a: string, b: string)
    ensures Split(a + ";" + b) == Split(a) + Split(b)
  {
    if a == [] {
      assert a + ";" + b == [';'] + b;
      assert (a + ";" + b)[1..] == b;
    } else {
      var s := a + ";" + b;
      assert s[0] == a[0];
      assert s[1..] == a[1..] + ";" + b;
      SplitAtDelimiter(a[1..], b);
    }
  }

  /** Appending `;` and a delimiter-free part adds exactly that part. */
  lemma SplitAppendPart(prefix: string, part: string)
    requires NoDelimiter(part)
    ensures Split(prefix + ";" + part) == Split(prefix) + [part]
  {
    SplitAtDelimiter(prefix, part);
    SplitWithoutDelimiter(part);
  }

  lemma SplitSegment(prefix: string, key: string, value: string)
    requires NoDelimiter(key) && NoDelimiter(value)
    ensures Split(prefix + Segment(key, value)) == Split(prefix) + [key + "=" + value]
  {
    assert prefix + Segment(key, value) == prefix + ";" + (key + "=" + value);
    assert ';' !in "=";
    SplitAppendPart(prefix, key + "=" + value);
  }

  lemma SplitHead(driver: string, host: string)
    requires NoDelimiter(driver) && NoDelimiter(host)
    ensures Split(Head(driver, host)) == [Head(driver, host)]
  {
    assert ';' !in ":host=";
    SplitWithoutDelimiter(Head(driver, host));
  }

  /** Dropping the last option keeps the options free of `;`. */
  lemma OptionsUnescapedSafeInit(options: Pairs)
    requires options != [] && OptionsUnescapedSafe(options)
    ensures OptionsUnescapedSafe(options[..|options| - 1])
  {
    var init := options[..|options| - 1];
    forall i | 0 <= i < |init| ensures NoDelimiter(init[i].0) && NoDelimiter(init[i].1) {
      assert init[i] == options[i];
    }
  }

  lemma {:induction false} SplitOptionsSuffix(prefix: string, options: Pairs)
    requires OptionsUnescapedSafe(options)
    ensures Split(prefix + OptionsSuffix(options)) == Split(prefix) + OptionParts(options)
  {
    if options == [] {
      assert prefix + OptionsSuffix(options) == prefix;
    } else {
      var init, last := options[..|options| - 1], options[|options| - 1];
      OptionsUnescapedSafeInit(options);
      var before := prefix + OptionsSuffix(init);
      SplitOptionsSuffix(prefix, init);
      OptionsSuffixAppendOne(init, last.0, last.1);
      assert init + [last] == options;
      assert prefix + OptionsSuffix(options) == before + Segment(last.0, last.1);
      SplitSegment(before, last.0, last.1);
    }
  }


  /**
   * Round trip: when no field contains the delimiter, splitting the DSN on
   * `;` gives back exactly the head, the dbname part iff dbname is
   * non-empty, the port part iff port is non-empty, and one `key=value`
   * part per option in insertion order.
   */
  lemma BuildSplitsIntoParts(driver: string, host: string, dbname: string, port: string, options: Pairs)
    requires NoDelimiter(driver) && NoDelimiter(host) && NoDelimiter(dbname) && NoDelimiter(port)
    requires OptionsUnescapedSafe(options)
    ensures Split(Build(driver, host, dbname, port, options)) == Parts(driver, host, dbname, port, options)
  {
    var fixedPart := Build(driver, host, dbname, port, []);
    SplitFixedPart(driver, host, dbname, port);
    LayoutEndsWithOptions(driver, host, dbname != "", dbname, port != "", port, options);
    assert Build(driver, host, dbname, port, options) == fixedPart + OptionsSuffix(options);
    SplitOptionsSuffix(fixedPart, options);
    var fixedParts := [Head(driver, host)]
      + (if dbname != "" then ["dbname=" + dbname] else [])
      + (if port != "" then ["port=" + port] else []);
    assert Parts(driver, host, dbname, port, []) == fixedParts + [];
    assert Parts(driver, host, dbname, port, options) == fixedParts + OptionParts(options);
  }

  /** Appending `;`, a `;`-free name and a `;`-free value adds exactly the part name + value. */
  lemma SplitNamedPart(prefix: string, name: string, value: string)
    requires NoDelimiter(name) && NoDelimiter(value)
    ensures Split(prefix + (";" + name + value)) == Split(prefix) + [name + value]
  {
    assert prefix + (";" + name + value) == prefix + ";" + (name + value);
    SplitAppendPart(prefix, name + value);
  }

  /**
   * An optional segment `;` + `name` + value, such as `;dbname=` and the
   * dbname, adds the part `name` + value exactly when the value is
   * non-empty, and nothing otherwise.
   */
  lemma SplitOptionalSegment(prefix: string, name: string, value: string)
    requires NoDelimiter(name) && NoDelimiter(value)
    ensures Split(prefix + (if value != "" then ";" + name + value else ""))
         == Split(prefix) + (if value != "" then [name + value] else [])
  {
    if value != "" {
      SplitNamedPart(prefix, name, value);
    } else {
      assert prefix + "" == prefix;
    }
  }

  /** The part of the round trip before the options. */
  lemma SplitFixedPart(driver: string, host: string, dbname: string, port: string)
    requires NoDelimiter(driver) && NoDelimiter(host) && NoDelimiter(dbname) && NoDelimiter(port)
    ensures Split(Build(driver, host, dbname, port, [])) == Parts(driver, host, dbname, port, [])
  {
    var head := Head(driver, host);
    var dbnamePart: string := if dbname != "" then ";dbname=" + dbname else "";
    var portPart: string := if port != "" then ";port=" + port else "";
    SplitHead(driver, host);
    assert ";dbname=" == ";" + "dbname=" && ';' !in "dbname=";
    SplitOptionalSegment(head, "dbname=", dbname);
    assert ";port=" == ";" + "port=" && ';' !in "port=";
    SplitOptionalSegment(head + dbnamePart, "port=", port);
    assert Build(driver, host, dbname, port, []) == head + dbnamePart + portPart + "";
    assert head + dbnamePart + portPart + "" == head + dbnamePart + portPart;
    assert Parts(driver, host, dbname, port, [])
        == [head] + (if dbname != "" then ["dbname=" + dbname] else [])
           + (if port != "" then ["port=" + port] else []) + [];
  }

  /** An empty dbname or port contributes no part at all, never an empty assignment. */
  lemma BuildPartCount(driver: string, host: string, dbname: string, port: string, options: Pairs)
    requires NoDelimiter(driver) && NoDelimiter(host) && NoDelimiter(dbname) && NoDelimiter(port)
    requires OptionsUnescapedSafe(options)
    ensures |Split(Build(driver, host, dbname, port, options))|
         == 1 + (if dbname != "" then 1 else 0) + (if port != "" then 1 else 0) + |options|
  {
    BuildSplitsIntoParts(driver, host, dbname, port, options);
  }

  /** Appending options appends their segments: insertion order is kept. */
  lemma {:induction false} OptionsSuffixAppend(a: Pairs, b: Pairs)
    ensures OptionsSuffix(a + b) == OptionsSuffix(a) + OptionsSuffix(b)
  {
    if b == [] {
      assert a + b == a;
    } else {
      var init := b[..|b| - 1];
      assert (a + b)[..|a + b| - 1] == a + init;
      assert (a + b)[|a + b| - 1] == b[|b| - 1];
      OptionsSuffixAppend(a, init);
    }
  }

  /**
   * Without escaping, a value holding `;` cannot be told apart from an
   * extra option: two different option lists give the same DSN.
   */
  lemma UnescapedOptionsAreAmbiguous()
    ensures exists o1: Pairs, o2: Pairs ::
              o1 != o2 && Build("mysql", "127.0.0.1", "testDb", "", o1) == Build("mysql", "127.0.0.1", "testDb", "", o2)
  {
    var o1: Pairs := [("charset", "utf8mb4;port=1")];
    var o2: Pairs := [("charset", "utf8mb4"), ("port", "1")];
    assert o1 != o2 by { assert |o1| != |o2|; }
    assert o2[..1] == [("charset", "utf8mb4")];
    assert Build("mysql", "127.0.0.1", "testDb", "", o1) == Build("mysql", "127.0.0.1", "testDb", "", o2);
  }
}
