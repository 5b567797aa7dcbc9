/**
 * The configuration manager: two fixed tables of named values (integers
 * and strings), filled with defaults and then overwritten line by line
 * from the configuration file. Reading the file is I/O and stays out;
 * each line the loader passes on is an input here. The string helpers
 * str_trim and str2int are not part of this model and enter as function
 * parameters.
 */
module Config {
  import opened Wrappers
  import opened Bytes

  /** Integer value indexes. */
  const ConfigIntConnectPort: nat := 0
  const ConfigIntFpsLimit: nat := 1
  const ConfigMaxIntVal: nat := 2

  /** String value indexes. */
  const ConfigStringConnectHost: nat := 0
  const ConfigMaxStringVal: nat := 1

  /** One configuration slot; only an initialized slot has an identifier a line can name. */
  datatype ConfigValue = ConfigValue(identifier: string, initialized: bool, strValue: string, intValue: I64)

  /** A slot as the constructor leaves it: value-initialized and not initialized. */
  const Unset := ConfigValue("", false, "", 0)

  /** The slot a lookup from position i finds: the first initialized slot with that identifier, or |vals| when there is none. */
  function IndexFrom(vals: seq<ConfigValue>, id: string, i: nat): (r: nat)
    requires i <= |vals|
    ensures i <= r <= |vals|
    ensures r < |vals| ==> vals[r].initialized && vals[r].identifier == id
    ensures forall k :: i <= k < r ==> !(vals[k].initialized && vals[k].identifier == id)
    decreases |vals| - i
  {
    if i == |vals| then |vals|
    else if vals[i].initialized && vals[i].identifier == id then i
    else IndexFrom(vals, id, i + 1)
  }

  /** Get*IndexByIdentifier as a value: the table's size plays the MAX sentinel. */
  function IndexOf(vals: seq<ConfigValue>, id: string): (r: nat)
    ensures r <= |vals|
    ensures r < |vals| <==> exists k :: 0 <= k < |vals| && vals[k].initialized && vals[k].identifier == id
  {
    IndexFrom(vals, id, 0)
  }

  /** The loop of Get*IndexByIdentifier. */
  method FindIndex(vals: seq<ConfigValue>, id: string) returns (r: nat)
    ensures r == IndexOf(vals, id)
  {
    var i := 0;
    while i < |vals|
      invariant i <= |vals|
      invariant IndexOf(vals, id) == IndexFrom(vals, id, i)
    {
      if vals[i].initialized && vals[i].identifier == id {
        return i;
      }
      i := i + 1;
    }
    return i;
  }

  /** The indexes of the slots not initialized from position i on, in order. */
  function UnsetFrom(vals: seq<ConfigValue>, i: nat): (r: seq<nat>)
    requires i <= |vals|
    ensures forall k :: 0 <= k < |r| ==> i <= r[k] < |vals| && !vals[r[k]].initialized
    ensures forall k :: i <= k < |vals| && !vals[k].initialized ==> k in r
    decreases |vals| - i
  {
    if i == |vals| then []
    else if !vals[i].initialized then [i] + UnsetFrom(vals, i + 1)
    else UnsetFrom(vals, i + 1)
  }

  /** The position of the first occurrence of c in s (find_first_of with a single character). */
  function FirstOf(s: string, c: char): (r: Option<nat>)
    ensures r.Some? ==> r.value < |s| && s[r.value] == c && forall k :: 0 <= k < r.value ==> s[k] != c
    ensures r.None? ==> forall k :: 0 <= k < |s| ==> s[k] != c
  {
    if s == [] then None
    else if s[0] == c then Some(0)
    else match FirstOf(s[1..], c)
      case None => None
      case Some(k) => Some(k + 1)
  }

  /** What ProcessConfigLine does with one line. */
  datatype LineOutcome =
    | Comment
    | InvalidLine
    | IntSet(intIndex: nat, value: I64)
    | InvalidIntegral(text: string)
    | StringSet(strIndex: nat, text: string)
    | Unrecognized(identifier: string)

  /**
   * ProcessConfigLine on a non-empty line: '#' starts a comment; a line
   * without '=' or ending in it is invalid; otherwise the trimmed left
   * side is looked up among the integer identifiers first, then among the
   * string identifiers, and the trimmed right side becomes the value.
   */
  function Classify(ints: seq<ConfigValue>, strs: seq<ConfigValue>, line: string,
                    trim: string -> string, parse: string -> Option<I64>): (r: LineOutcome)
    requires |line| > 0
    ensures r.IntSet? ==> r.intIndex < |ints|
    ensures r.StringSet? ==> r.strIndex < |strs|
    ensures line[0] == '#' <==> r == Comment
    ensures r.Unrecognized? ==> IndexOf(ints, r.identifier) == |ints| && IndexOf(strs, r.identifier) == |strs|
  {
    if line[0] == '#' then Comment
    else match FirstOf(line, '=')
      case None => InvalidLine
      case Some(eq) =>
        if eq == |line| - 1 then InvalidLine
        else
          var id := trim(line[..eq]);
          var value := trim(line[eq + 1..]);
          var ii := IndexOf(ints, id);
          if ii < |ints| then
            match parse(value)
            case Some(v) => IntSet(ii, v)
            case None => InvalidIntegral(value)
          else
            var si := IndexOf(strs, id);
            if si < |strs| then StringSet(si, value) else Unrecognized(id)
  }

  /** The slot tables after a classified line: SetIntValue or SetStringValue on the slot found, nothing otherwise. */
  function Apply(ints: seq<ConfigValue>, strs: seq<ConfigValue>, o: LineOutcome): (seq<ConfigValue>, seq<ConfigValue>)
    requires o.IntSet? ==> o.intIndex < |ints|
    requires o.StringSet? ==> o.strIndex < |strs|
  {
    match o
    case IntSet(i, v) => (ints[i := ints[i].(intValue := v)], strs)
    case StringSet(i, t) => (ints, strs[i := strs[i].(strValue := t)])
    case _ => (ints, strs)
  }

  /**
   * A configuration line only ever changes values: no slot gains or loses
   * its identifier or its initialized flag, so the set of names a later
   * line can use is fixed by the defaults.
   */
  lemma LineKeepsNames(ints: seq<ConfigValue>, strs: seq<ConfigValue>, line: string,
                       trim: string -> string, parse: string -> Option<I64>)
    requires |line| > 0
    ensures var o := Classify(ints, strs, line, trim, parse);
            var (ints', strs') := Apply(ints, strs, o);
            |ints'| == |ints| && |strs'| == |strs| &&
            (forall i :: 0 <= i < |ints| ==> ints'[i].identifier == ints[i].identifier && ints'[i].initialized == ints[i].initialized) &&
            (forall i :: 0 <= i < |strs| ==> strs'[i].identifier == strs[i].identifier && strs'[i].initialized == strs[i].initialized)
  {
  }

  /**
   * A line naming an initialized integer slot whose value parses stores
   * that value in the first slot with the name; the string table stays.
   */
  lemma IntLineStores(ints: seq<ConfigValue>, strs: seq<ConfigValue>, line: string, eq: nat,
                      trim: string -> string, parse: string -> Option<I64>)
    requires 0 < eq < |line| - 1 && line[eq] == '=' && line[0] != '#'
    requires forall k :: 0 <= k < eq ==> line[k] != '='
    requires IndexOf(ints, trim(line[..eq])) < |ints| && parse(trim(line[eq + 1..])).Some?
    ensures var (ints', strs') := Apply(ints, strs, Classify(ints, strs, line, trim, parse));
            var i := IndexOf(ints, trim(line[..eq]));
            ints'[i].intValue == parse(trim(line[eq + 1..])).value && strs' == strs &&
            forall k :: 0 <= k < |ints| && k != i ==> ints'[k] == ints[k]
  {
    assert FirstOf(line, '=') == Some(eq);
  }

  /** The defaults InitDefaults installs. */
  const DefaultInts := [ConfigValue("connect_port", true, "", 7874), ConfigValue("fps_limit", true, "", 200)]
  const DefaultStrs := [ConfigValue("connect_ip", true, "127.0.0.1", 0)]

  /** ValidateConfig's error count: a port outside 1..65535 and an FPS limit of 10 or less are errors. */
  function ErrorCount(ints: seq<ConfigValue>): (r: nat)
    requires |ints| == ConfigMaxIntVal
    ensures r == 0 <==> 0 < ints[ConfigIntConnectPort].intValue < 65536 && ints[ConfigIntFpsLimit].intValue > 10
  {
    var port := ints[ConfigIntConnectPort].intValue;
    (if port <= 0 || port >= 65536 then 1 else 0) + (if ints[ConfigIntFpsLimit].intValue <= 10 then 1 else 0)
  }

  /** The defaults pass validation, leave no slot uninitialized and are found by their names. */
  lemma DefaultsValid()
    ensures ErrorCount(DefaultInts) == 0
    ensures UnsetFrom(DefaultInts, 0) == [] && UnsetFrom(DefaultStrs, 0) == []
    ensures IndexOf(DefaultInts, "connect_port") == ConfigIntConnectPort
    ensures IndexOf(DefaultInts, "fps_limit") == ConfigIntFpsLimit
    ensures IndexOf(DefaultStrs, "connect_ip") == ConfigStringConnectHost
    ensures IndexOf(DefaultStrs, "connect_port") == |DefaultStrs|
  {
    assert DefaultInts[0].identifier != "fps_limit";
    assert DefaultStrs[0].identifier != "connect_port";
  }

  class ConfigMgr {
    var intValues: seq<ConfigValue>
    var strValues: seq<ConfigValue>

    /** Both tables sized to their MAX index, every slot uninitialized. */
    constructor ()
      ensures intValues == [Unset, Unset] && strValues == [Unset]
    {
      intValues := [Unset, Unset];
      strValues := [Unset];
    }

    predicate Valid()
      reads this
    {
      |intValues| == ConfigMaxIntVal && |strValues| == ConfigMaxStringVal
    }

    /** SetConfigIntField: an empty identifier is refused; otherwise the slot gets its name and default and becomes initialized. */
    method SetConfigIntField(index: nat, identifier: string, defaultValue: I32)
      requires Valid() && index < ConfigMaxIntVal
      modifies this`intValues
      ensures Valid()
      ensures intValues == if identifier == "" then old(intValues)
                           else old(intValues)[index := ConfigValue(identifier, true, old(intValues)[index].strValue, defaultValue)]
    {
      if identifier == "" {
        return;
      }
      intValues := intValues[index := ConfigValue(identifier, true, intValues[index].strValue, defaultValue)];
    }

    method SetConfigStringField(index: nat, identifier: string, defaultValue: string)
      requires Valid() && index < ConfigMaxStringVal
      modifies this`strValues
      ensures Valid()
      ensures strValues == if identifier == "" then old(strValues)
                           else old(strValues)[index := ConfigValue(identifier, true, defaultValue, old(strValues)[index].intValue)]
    {
      if identifier == "" {
        return;
      }
      strValues := strValues[index := ConfigValue(identifier, true, defaultValue, strValues[index].intValue)];
    }

    /** InitDefaults on a fresh manager installs exactly the default tables. */
    method InitDefaults()
      requires Valid()
      modifies this
      ensures Valid()
      ensures old(intValues) == [Unset, Unset] && old(strValues) == [Unset] ==> intValues == DefaultInts && strValues == DefaultStrs
    {
      SetConfigStringField(ConfigStringConnectHost, "connect_ip", "127.0.0.1");
      SetConfigIntField(ConfigIntConnectPort, "connect_port", 7874);
      SetConfigIntField(ConfigIntFpsLimit, "fps_limit", 200);
    }

    method GetIntIndexByIdentifier(identifier: string) returns (r: nat)
      ensures r == IndexOf(intValues, identifier)
    {
      r := FindIndex(intValues, identifier);
    }

    method GetStringIndexByIdentifier(identifier: string) returns (r: nat)
      ensures r == IndexOf(strValues, identifier)
    {
      r := FindIndex(strValues, identifier);
    }

    function GetIntValue(index: nat): I64
      requires Valid() && index < ConfigMaxIntVal
      reads this
    {
      intValues[index].intValue
    }

    function GetStringValue(index: nat): string
      requires Valid() && index < ConfigMaxStringVal
      reads this
    {
      strValues[index].strValue
    }

    /**
     * ValidateConfig: the verdict is "no errors"; the uninitialized slots
     * of both tables are reported, in index order, as warnings only.
     */
    method ValidateConfig() returns (ok: bool, intWarnings: seq<nat>, strWarnings: seq<nat>)
      requires Valid()
      ensures ok <==> ErrorCount(intValues) == 0
      ensures intWarnings == UnsetFrom(intValues, 0) && strWarnings == UnsetFrom(strValues, 0)
    {
      var errorCount := 0;
      var port := GetIntValue(ConfigIntConnectPort);
      if port <= 0 || port >= 65536 {
        errorCount := errorCount + 1;
      }
      if GetIntValue(ConfigIntFpsLimit) <= 10 {
        errorCount := errorCount + 1;
      }
      intWarnings := UnsetIndexes(intValues);
      strWarnings := UnsetIndexes(strValues);
      ok := errorCount == 0;
    }

    /** ProcessConfigLine, for the non-empty trimmed lines LoadConfig hands it. */
    method ProcessConfigLine(line: string, trim: string -> string, parse: string -> Option<I64>) returns (o: LineOutcome)
      requires |line| > 0
      modifies this
      ensures o == Classify(old(intValues), old(strValues), line, trim, parse)
      ensures (intValues, strValues) == Apply(old(intValues), old(strValues), o)
    {
      o := Classify(intValues, strValues, line, trim, parse);
      if line[0] == '#' {
        return;
      }
      var eqAt := FirstOf(line, '=');
      if eqAt.None? || eqAt.value == |line| - 1 {
        return;
      }
      var eq := eqAt.value;
      var identifier := trim(line[..eq]);
      var value := trim(line[eq + 1..]);
      var iindex := GetIntIndexByIdentifier(identifier);
      if iindex != |intValues| {
        var res := parse(value);
        if res.Some? {
          intValues := intValues[iindex := intValues[iindex].(intValue := res.value)];
        }
        return;
      }
      var sindex := GetStringIndexByIdentifier(identifier);
      if sindex != |strValues| {
        strValues := strValues[sindex := strValues[sindex].(strValue := value)];
      }
    }
  }

  /** The reporting loops of ValidateConfig. */
  method UnsetIndexes(vals: seq<ConfigValue>) returns (r: seq<nat>)
    ensures r == UnsetFrom(vals, 0)
  {
    r := [];
    var i := 0;
    while i < |vals|
      invariant i <= |vals|
      invariant r + UnsetFrom(vals, i) == UnsetFrom(vals, 0)
    {
      if !vals[i].initialized {
        r := r + [i];
      }
      i := i + 1;
    }
  }
}
