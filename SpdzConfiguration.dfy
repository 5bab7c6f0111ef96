/**
 * The SPDZ suite's configuration read from the `-D` properties of the
 * command line: a maximum bit length (default 64, at least 2), the path of
 * the preprocessed triples (default "/triples") and whether dummy
 * preprocessed data is used (default false).
 */
module SpdzConfig {
  import opened Wrappers
  import opened Decimal

  const MAX_BIT_LENGTH_KEY: string := "spdz.maxBitLength"
  const TRIPLE_PATH_KEY: string := "spdz.triplePath"
  const USE_DUMMY_DATA_KEY: string := "spdz.useDummyData"

  /** The `-D` properties given on the command line. */
  type Properties = map<string, string>

  datatype SpdzConfiguration = SpdzConfiguration(maxBitLength: int, triplePath: string, useDummyData: bool)

  /** Why `fromCmdLine` throws: an uncaught `NumberFormatException` or its own `ParseException`. */
  datatype ConfigError =
    | NumberFormat(cause: NumberFormatException)
    | ParseException(message: string)

  /** `Properties.getProperty(key, default)`. */
  function GetProperty(p: Properties, key: string, default: string): string
  {
    if key in p then p[key] else default
  }

  /** Lower case for ASCII letters; other characters are left as they are. */
  function ToLowerAscii(c: char): char
  {
    if 'A' <= c <= 'Z' then (c as int - 'A' as int + 'a' as int) as char else c
  }

  /** `String.equalsIgnoreCase` on ASCII text. */
  predicate EqualsIgnoreCase(a: string, b: string)
  {
    |a| == |b| && forall i :: 0 <= i < |a| ==> ToLowerAscii(a[i]) == ToLowerAscii(b[i])
  }

  /** The ASCII lower-case form of a whole string. */
  function LowerAscii(s: string): (t: string)
    ensures |t| == |s|
  {
    seq(|s|, i requires 0 <= i < |s| => ToLowerAscii(s[i]))
  }

  /** `Boolean.parseBoolean`: true exactly for "true" in any mix of cases. */
  function ParseBoolean(s: string): (b: bool)
    ensures b <==> LowerAscii(s) == "true"
  {
    var r := EqualsIgnoreCase(s, "true");
    assert r ==> LowerAscii(s) == "true" by {
      if r {
        forall i | 0 <= i < 4
          ensures LowerAscii(s)[i] == "true"[i]
        {
          assert ToLowerAscii("true"[i]) == "true"[i];
        }
      }
    }
    assert LowerAscii(s) == "true" ==> r by {
      if LowerAscii(s) == "true" {
        forall i | 0 <= i < |s|
          ensures ToLowerAscii(s[i]) == ToLowerAscii("true"[i])
        {
          assert ToLowerAscii(s[i]) == LowerAscii(s)[i];
        }
      }
    }
    r
  }

  /**
   * `fromCmdLine`: parses the bit length (a parse error is not caught),
   * rejects a bit length below 2, then takes the triple path verbatim and the
   * dummy-data flag through `parseBoolean`.
   */
  function FromCmdLine(p: Properties): (r: Result<SpdzConfiguration, ConfigError>)
    ensures ParseInt(GetProperty(p, MAX_BIT_LENGTH_KEY, "64")).Failure? ==>
      r == Failure(NumberFormat(ParseInt(GetProperty(p, MAX_BIT_LENGTH_KEY, "64")).error))
    ensures ParseInt(GetProperty(p, MAX_BIT_LENGTH_KEY, "64")).Success? &&
            ParseInt(GetProperty(p, MAX_BIT_LENGTH_KEY, "64")).value < 2 ==>
      r == Failure(ParseException("spdz.maxBitLength must be > 1"))
    ensures ParseInt(GetProperty(p, MAX_BIT_LENGTH_KEY, "64")).Success? &&
            ParseInt(GetProperty(p, MAX_BIT_LENGTH_KEY, "64")).value >= 2 ==>
      r.Success?
    ensures r.Success? ==>
      && 2 <= r.value.maxBitLength <= INT_MAX
      && ParseInt(GetProperty(p, MAX_BIT_LENGTH_KEY, "64")) == Success(r.value.maxBitLength)
    ensures r.Success? ==> r.value.triplePath == (if TRIPLE_PATH_KEY in p then p[TRIPLE_PATH_KEY] else "/triples")
    ensures r.Success? ==>
      (r.value.useDummyData <==> USE_DUMMY_DATA_KEY in p && LowerAscii(p[USE_DUMMY_DATA_KEY]) == "true")
  {
    var parsed := ParseInt(GetProperty(p, MAX_BIT_LENGTH_KEY, "64"));
    if parsed.Failure? then Failure(NumberFormat(parsed.error))
    else if parsed.value < 2 then Failure(ParseException("spdz.maxBitLength must be > 1"))
    else
      var triplePath := GetProperty(p, TRIPLE_PATH_KEY, "/triples");
      var useDummyData := ParseBoolean(GetProperty(p, USE_DUMMY_DATA_KEY, "False"));
      Success(SpdzConfiguration(parsed.value, triplePath, useDummyData))
  }

  /** With no properties at all every default applies. */
  lemma FromCmdLineDefaults()
    ensures FromCmdLine(map[]) == Success(SpdzConfiguration(64, "/triples", false))
  {
    ParseIntOfIntToString(64);
    assert IntToString(64) == "64";
  }

  /** The properties that render a configuration read back as that configuration. */
  function PropertiesFor(c: SpdzConfiguration): (p: Properties)
    ensures MAX_BIT_LENGTH_KEY in p && TRIPLE_PATH_KEY in p && USE_DUMMY_DATA_KEY in p
  {
    map[MAX_BIT_LENGTH_KEY := IntToString(c.maxBitLength),
        TRIPLE_PATH_KEY := c.triplePath,
        USE_DUMMY_DATA_KEY := if c.useDummyData then "true" else "false"]
  }

  /** Every configuration `fromCmdLine` can return is read back from its own properties. */
  lemma FromCmdLineOfPropertiesFor(c: SpdzConfiguration)
    requires 2 <= c.maxBitLength <= INT_MAX
    ensures FromCmdLine(PropertiesFor(c)) == Success(c)
  {
    var p := PropertiesFor(c);
    ParseIntOfIntToString(c.maxBitLength);
    assert p[MAX_BIT_LENGTH_KEY] == IntToString(c.maxBitLength);
    if !c.useDummyData {
      assert ToLowerAscii(p[USE_DUMMY_DATA_KEY][0]) != ToLowerAscii("true"[0]);
    }
  }

  /** A 32-bit bit length below 2 is rejected whatever the other properties say. */
  lemma FromCmdLineRejectsSmall(p: Properties, n: int)
    requires INT_MIN <= n < 2
    requires MAX_BIT_LENGTH_KEY in p && p[MAX_BIT_LENGTH_KEY] == IntToString(n)
    ensures FromCmdLine(p) == Failure(ParseException("spdz.maxBitLength must be > 1"))
  {
    ParseIntOfIntToString(n);
  }
}
