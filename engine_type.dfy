/** The table engines the front end knows about, and which of them accept
    NOT NULL column definitions. The lookup by name is case-insensitive: the
    name is upper-cased and then resolved like `Enum.valueOf`, which fails on
    a name that is not one of the ten constants. */
module EngineType {

  datatype EngineType =
    | OLAP
    | MYSQL
    | BROKER
    | ELASTICSEARCH
    | HIVE
    | ICEBERG
    | HUDI
    | JDBC
    | ODPS
    | FILE

  /** `valueOf` throws `IllegalArgumentException` for an unknown constant name. */
  datatype Result<T> = Ok(value: T) | UnknownEngine(name: string)

  /** The declared name of each constant, as `name()` returns it. */
  function Name(e: EngineType): string {
    match e
    case OLAP => "OLAP"
    case MYSQL => "MYSQL"
    case BROKER => "BROKER"
    case ELASTICSEARCH => "ELASTICSEARCH"
    case HIVE => "HIVE"
    case ICEBERG => "ICEBERG"
    case HUDI => "HUDI"
    case JDBC => "JDBC"
    case ODPS => "ODPS"
    case FILE => "FILE"
  }

  /** The ten constant names, in declaration order. */
  const AllNames: seq<string> :=
    ["OLAP", "MYSQL", "BROKER", "ELASTICSEARCH", "HIVE", "ICEBERG", "HUDI", "JDBC", "ODPS", "FILE"]

  /** Exact-match lookup of a constant by its declared name. */
  function ValueOf(name: string): (r: Result<EngineType>)
    ensures r.Ok? <==> name in AllNames
    ensures r.Ok? ==> Name(r.value) == name
    ensures r.UnknownEngine? ==> r.name == name
  {
    if name == "OLAP" then Ok(OLAP)
    else if name == "MYSQL" then Ok(MYSQL)
    else if name == "BROKER" then Ok(BROKER)
    else if name == "ELASTICSEARCH" then Ok(ELASTICSEARCH)
    else if name == "HIVE" then Ok(HIVE)
    else if name == "ICEBERG" then Ok(ICEBERG)
    else if name == "HUDI" then Ok(HUDI)
    else if name == "JDBC" then Ok(JDBC)
    else if name == "ODPS" then Ok(ODPS)
    else if name == "FILE" then Ok(FILE)
    else UnknownEngine(name)
  }

  /** Looking a constant up by its own name gives that constant back. */
  lemma ValueOfName(e: EngineType)
    ensures ValueOf(Name(e)) == Ok(e)
  {
    match e
    case OLAP =>
    case MYSQL =>
    case BROKER =>
    case ELASTICSEARCH =>
    case HIVE =>
    case ICEBERG =>
    case HUDI =>
    case JDBC =>
    case ODPS =>
    case FILE =>
  }

  /** The engines whose tables accept NOT NULL columns. */
  const SupportNotNullSet: set<EngineType> := {OLAP, MYSQL, BROKER}

  /** The engine a table gets when none is named. */
  function DefaultEngine(): (e: EngineType)
    ensures Name(e) == "OLAP"
    ensures e in SupportNotNullSet
  {
    OLAP
  }

  /** Upper-cases the ASCII letters of a string, leaving every other character as it is. */
  function ToUpperCase(s: string): (r: string)
    ensures |r| == |s|
    ensures forall i :: 0 <= i < |s| ==> r[i] == UpperChar(s[i])
  {
    if s == [] then [] else [UpperChar(s[0])] + ToUpperCase(s[1..])
  }

  function UpperChar(c: char): (u: char)
    ensures !('a' <= u <= 'z')
    ensures 'A' <= c <= 'Z' ==> u == c
  {
    if 'a' <= c <= 'z' then (c as int - 'a' as int + 'A' as int) as char else c
  }

  /** Upper-casing twice is upper-casing once. */
  lemma ToUpperCaseIdempotent(s: string)
    ensures ToUpperCase(ToUpperCase(s)) == ToUpperCase(s)
  {
    var u := ToUpperCase(s);
    assert forall i :: 0 <= i < |u| ==> UpperChar(u[i]) == u[i];
  }

  /** Whether a table of the named engine may declare NOT NULL columns; an
      unknown engine name is an error rather than `false`. */
  function SupportNotNullColumn(engineName: string): (r: Result<bool>)
    ensures r.Ok? <==> ToUpperCase(engineName) in AllNames
    ensures r.UnknownEngine? ==> r.name == ToUpperCase(engineName)
  {
    match ValueOf(ToUpperCase(engineName))
    case Ok(e) => Ok(e in SupportNotNullSet)
    case UnknownEngine(n) => UnknownEngine(n)
  }

  /** True exactly for the names that upper-case to OLAP, MYSQL or BROKER. */
  lemma SupportNotNullColumnTrue(engineName: string)
    ensures SupportNotNullColumn(engineName) == Ok(true)
        <==> ToUpperCase(engineName) in {"OLAP", "MYSQL", "BROKER"}
  {
    var u := ToUpperCase(engineName);
    match ValueOf(u)
    case Ok(e) =>
      assert Name(e) == u;
      NameSupportsNotNull(e);
    case UnknownEngine(_) =>
      assert u !in AllNames;
  }

  /** The supporting engines are exactly those named OLAP, MYSQL or BROKER. */
  lemma NameSupportsNotNull(e: EngineType)
    ensures e in SupportNotNullSet <==> Name(e) in {"OLAP", "MYSQL", "BROKER"}
    ensures e !in SupportNotNullSet
        <==> Name(e) in {"ELASTICSEARCH", "HIVE", "ICEBERG", "HUDI", "JDBC", "ODPS", "FILE"}
  {
    match e
    case OLAP =>
    case MYSQL =>
    case BROKER =>
    case ELASTICSEARCH => assert Name(e)[0] == 'E';
    case HIVE => assert Name(e)[0] == 'H';
    case ICEBERG => assert Name(e)[0] == 'I';
    case HUDI => assert Name(e)[0] == 'H';
    case JDBC => assert Name(e)[0] == 'J';
    case ODPS => assert Name(e)[1] == 'D';
    case FILE => assert Name(e)[0] == 'F';
  }

  /** False exactly for the names that upper-case to one of the other seven constants. */
  lemma SupportNotNullColumnFalse(engineName: string)
    ensures SupportNotNullColumn(engineName) == Ok(false)
        <==> ToUpperCase(engineName) in {"ELASTICSEARCH", "HIVE", "ICEBERG", "HUDI", "JDBC", "ODPS", "FILE"}
  {
    var u := ToUpperCase(engineName);
    match ValueOf(u)
    case Ok(e) =>
      assert Name(e) == u;
      NameSupportsNotNull(e);
    case UnknownEngine(_) =>
      assert u !in AllNames;
  }

  /** Any other name fails, naming the upper-cased string that was looked up. */
  lemma SupportNotNullColumnUnknown(engineName: string)
    ensures SupportNotNullColumn(engineName).UnknownEngine?
        <==> ToUpperCase(engineName) !in AllNames
    ensures SupportNotNullColumn(engineName).UnknownEngine? ==>
              SupportNotNullColumn(engineName).name == ToUpperCase(engineName)
  {
  }

  /** The answer for a name is the answer for its upper-case form. */
  lemma SupportNotNullColumnCaseInsensitive(engineName: string)
    ensures SupportNotNullColumn(engineName) == SupportNotNullColumn(ToUpperCase(engineName))
  {
    ToUpperCaseIdempotent(engineName);
  }

  /** Concrete instances: "olap" and "Broker" qualify. */
  lemma SupportNotNullColumnAccepts()
    ensures SupportNotNullColumn("olap") == Ok(true)
    ensures SupportNotNullColumn("Broker") == Ok(true)
  {
    assert ToUpperCase("olap") == "OLAP";
    assert ToUpperCase("Broker") == "BROKER";
  }

  /** Concrete instances: "hive" does not qualify and "kudu" is an error. */
  lemma SupportNotNullColumnRejects()
    ensures SupportNotNullColumn("hive") == Ok(false)
    ensures SupportNotNullColumn("kudu").UnknownEngine?
  {
    assert ToUpperCase("hive") == "HIVE";
    assert ToUpperCase("kudu") == "KUDU";
  }
}
