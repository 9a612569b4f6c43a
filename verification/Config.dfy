/** The secret-key resolver of `PaystackConfig`: environment variables, then
    system properties, then configuration files, first match wins.

    The process environment, the system properties, the class path and the
    file system are inputs (`Sources`), and the YAML and `java.util.Properties`
    parsers are oracles (`Parsers`); what is modelled is the order of the
    lookups and the rules that pick a value out of each parsed file. */
module Config {
  import opened Wrappers
  import opened Strings

  // ---------------------------------------------------------------------------
  // Names
  // ---------------------------------------------------------------------------

  datatype KeyType = LIVE | TEST

  /** The names tried, in this order, for a LIVE key. */
  const LiveEnvKeys: seq<string> := ["PAYSTACK_LIVE_SECRET_KEY", "paystack.live.secretKey"]

  /** The names tried, in this order, for a TEST key. */
  const TestEnvKeys: seq<string> := ["PAYSTACK_TEST_SECRET_KEY", "paystack.test.secretKey"]

  /** The configuration file names, in the order they are searched. */
  const ConfigFiles: seq<string> := [
    "application.yml",
    "application.yaml",
    "application.properties",
    "paystack.yml",
    "paystack.yaml",
    "paystack.properties",
    ".env"
  ]

  /** The names consulted among environment variables and system properties. */
  function EnvKeys(keyType: KeyType): seq<string> {
    if keyType == LIVE then LiveEnvKeys else TestEnvKeys
  }

  /** LIVE consults exactly the LIVE pair, TEST exactly the TEST pair, and
      the two pairs share no name. */
  lemma EnvKeysSelection(keyType: KeyType)
    ensures keyType == LIVE ==> EnvKeys(keyType) == ["PAYSTACK_LIVE_SECRET_KEY", "paystack.live.secretKey"]
    ensures keyType == TEST ==> EnvKeys(keyType) == ["PAYSTACK_TEST_SECRET_KEY", "paystack.test.secretKey"]
    ensures forall n :: n in EnvKeys(LIVE) ==> n !in EnvKeys(TEST)
  {
    assert "PAYSTACK_LIVE_SECRET_KEY"[9] != "PAYSTACK_TEST_SECRET_KEY"[9];
    assert "paystack.live.secretKey"[9] != "paystack.test.secretKey"[9];
  }

  // ---------------------------------------------------------------------------
  // Inputs
  // ---------------------------------------------------------------------------

  /** Where a configuration file is looked for, in search order. */
  datatype Location = Classpath | WorkingDirectory | UserHome

  const Locations: seq<Location> := [Classpath, WorkingDirectory, UserHome]

  /** A directory the file system is asked about. The home directory is the
      one the `user.home` system property names, `None` when it is unset. */
  datatype Directory = ClasspathRoot | CurrentDirectory | HomeDirectory(userHome: Option<string>)

  const UserHomeProperty: string := "user.home"

  /** What opening a file at a location gives: no such file, an I/O error
      while opening or closing it, or its content. */
  datatype Probe = Missing | Unreadable | Readable(content: string)

  /** A loaded YAML document: a Java `String`, a `Map`, or anything else
      (null, a number, a boolean, a list). */
  datatype YamlNode = Text(text: string) | Mapping(entries: map<string, YamlNode>) | Other

  /** Everything the resolver reads from the outside world. */
  datatype Sources = Sources(
    env: map<string, string>,
    sysProps: map<string, string>,
    fileAt: (Directory, string) -> Probe)

  /** The value of the `user.home` system property. */
  function UserHomeOf(sysProps: map<string, string>): Option<string> {
    if UserHomeProperty in sysProps then Some(sysProps[UserHomeProperty]) else None
  }

  /** The directory a search location stands for; the home directory is read
      from the system properties when the search reaches it. */
  function DirectoryOf(loc: Location, sysProps: map<string, string>): Directory {
    match loc
    case Classpath => ClasspathRoot
    case WorkingDirectory => CurrentDirectory
    case UserHome => HomeDirectory(UserHomeOf(sysProps))
  }

  /** Opening `fileName` at a search location. */
  function FileAt(sources: Sources, loc: Location, fileName: string): Probe {
    sources.fileAt(DirectoryOf(loc, sources.sysProps), fileName)
  }

  /** The file parsers; `None` stands for a parse exception. A `.env` file is
      read with the `.properties` parser. */
  datatype Parsers = Parsers(
    yaml: string -> Option<YamlNode>,
    properties: string -> Option<map<string, string>>)

  // ---------------------------------------------------------------------------
  // Environment variables and system properties
  // ---------------------------------------------------------------------------

  /** `name` is bound to a non-empty value in `lookup`. */
  predicate NonEmptyIn(lookup: map<string, string>, name: string) {
    name in lookup && lookup[name] != ""
  }

  /** `checkEnvironmentVariables` / `checkSystemProperties`: the value of the
      first name bound to a non-empty value; unbound names and empty values
      are skipped. */
  function FirstNonEmpty(names: seq<string>, lookup: map<string, string>): (r: Option<string>)
    ensures r.None? <==> forall i :: 0 <= i < |names| ==> !NonEmptyIn(lookup, names[i])
    ensures r.Some? ==> r.value != ""
    ensures r.Some? ==>
      exists i :: 0 <= i < |names| && NonEmptyIn(lookup, names[i]) && lookup[names[i]] == r.value
        && forall j :: 0 <= j < i ==> !NonEmptyIn(lookup, names[j])
  {
    if |names| == 0 then None
    else if NonEmptyIn(lookup, names[0]) then Some(lookup[names[0]])
    else
      var r := FirstNonEmpty(names[1..], lookup);
      assert r.Some? ==> (exists i :: 1 <= i < |names| && NonEmptyIn(lookup, names[i]) && lookup[names[i]] == r.value
                            && forall j :: 0 <= j < i ==> !NonEmptyIn(lookup, names[j])) by {
        if r.Some? {
          var i :| 0 <= i < |names[1..]| && NonEmptyIn(lookup, names[1..][i]) && lookup[names[1..][i]] == r.value
            && forall j :: 0 <= j < i ==> !NonEmptyIn(lookup, names[1..][j]);
          assert forall j :: 0 <= j < i + 1 ==> !NonEmptyIn(lookup, names[j]) by {
            forall j | 0 <= j < i + 1 ensures !NonEmptyIn(lookup, names[j]) {
              if j > 0 {
                assert names[j] == names[1..][j - 1];
              }
            }
          }
        }
      }
      r
  }

  /** Only the listed names are consulted: two lookups that agree on them
      give the same answer, whatever else they hold. */
  lemma {:induction false} FirstNonEmptyOnlyReadsNames(names: seq<string>, a: map<string, string>, b: map<string, string>)
    requires forall n :: n in names ==> (n in a <==> n in b) && (n in a ==> a[n] == b[n])
    ensures FirstNonEmpty(names, a) == FirstNonEmpty(names, b)
  {
    if |names| > 0 {
      FirstNonEmptyOnlyReadsNames(names[1..], a, b);
    }
  }

  // ---------------------------------------------------------------------------
  // Configuration files
  // ---------------------------------------------------------------------------

  datatype Format = YamlFormat | PropertiesFormat | DotenvFormat

  /** `extractKeyFromInputStream` dispatch: by suffix for YAML and
      properties files, by the exact name for `.env`, nothing otherwise. */
  function FormatOf(fileName: string): Option<Format> {
    if EndsWith(fileName, ".yml") || EndsWith(fileName, ".yaml") then Some(YamlFormat)
    else if EndsWith(fileName, ".properties") then Some(PropertiesFormat)
    else if fileName == ".env" then Some(DotenvFormat)
    else None
  }

  /** A name whose last character differs from the suffix's does not end with it. */
  lemma LastCharRulesOutSuffix(s: string, suffix: string)
    requires |s| > 0 && |suffix| > 0 && s[|s| - 1] != suffix[|suffix| - 1]
    ensures !EndsWith(s, suffix)
  {
    if |suffix| <= |s| {
      assert s[|s| - |suffix|..][|suffix| - 1] == s[|s| - 1];
    }
  }

  /** A name ending with the suffix text ends with the suffix. */
  lemma SuffixAt(s: string, suffix: string, start: nat)
    requires start <= |s| && s[start..] == suffix
    ensures EndsWith(s, suffix)
  {
  }

  /** The formats of the seven configuration files, and names outside the
      three rules that read nothing. */
  lemma ConfigFileFormats()
    ensures FormatOf("application.yml") == Some(YamlFormat)
    ensures FormatOf("application.yaml") == Some(YamlFormat)
    ensures FormatOf("application.properties") == Some(PropertiesFormat)
    ensures FormatOf("paystack.yml") == Some(YamlFormat)
    ensures FormatOf("paystack.yaml") == Some(YamlFormat)
    ensures FormatOf("paystack.properties") == Some(PropertiesFormat)
    ensures FormatOf(".env") == Some(DotenvFormat)
    ensures FormatOf("paystack.env") == None
    ensures FormatOf("application.json") == None
  {
    SuffixAt("application.yml", ".yml", 11);
    SuffixAt("application.yaml", ".yaml", 11);
    SuffixAt("paystack.yml", ".yml", 8);
    SuffixAt("paystack.yaml", ".yaml", 8);
    SuffixAt("application.properties", ".properties", 11);
    SuffixAt("paystack.properties", ".properties", 8);
    LastCharRulesOutSuffix("application.properties", ".yml");
    LastCharRulesOutSuffix("application.properties", ".yaml");
    LastCharRulesOutSuffix("paystack.properties", ".yml");
    LastCharRulesOutSuffix("paystack.properties", ".yaml");
    LastCharRulesOutSuffix(".env", ".yml");
    LastCharRulesOutSuffix(".env", ".yaml");
    LastCharRulesOutSuffix(".env", ".properties");
    LastCharRulesOutSuffix("paystack.env", ".yml");
    LastCharRulesOutSuffix("paystack.env", ".yaml");
    LastCharRulesOutSuffix("paystack.env", ".properties");
    LastCharRulesOutSuffix("application.json", ".yml");
    LastCharRulesOutSuffix("application.json", ".yaml");
    LastCharRulesOutSuffix("application.json", ".properties");
  }

  /** The child of a YAML map under `key`; a missing key reads as `null`. */
  function Child(entries: map<string, YamlNode>, key: string): YamlNode {
    if key in entries then entries[key] else Other
  }

  /** `extractNestedValue`, as a recursive reference definition: descend
      through maps along `keys` and accept only a string at the end. */
  function NestedValue(node: YamlNode, keys: seq<string>): Option<string>
    decreases |keys|
  {
    if |keys| == 0 then (if node.Text? then Some(node.text) else None)
    else if node.Mapping? then NestedValue(Child(node.entries, keys[0]), keys[1..])
    else None
  }

  /** `extractNestedValue`, with the loop of the Java method. */
  method ExtractNestedValue(data: YamlNode, keys: seq<string>) returns (r: Option<string>)
    ensures r == NestedValue(data, keys)
  {
    var current := data;
    var i := 0;
    while i < |keys|
      invariant 0 <= i <= |keys|
      invariant NestedValue(current, keys[i..]) == NestedValue(data, keys)
    {
      if current.Mapping? {
        current := Child(current.entries, keys[i]);
      } else {
        return None;
      }
      i := i + 1;
    }
    r := if current.Text? then Some(current.text) else None;
  }

  /** A value comes out only along a path of maps ending in a string; any
      non-map on the way, any missing key and any non-string leaf gives none. */
  lemma NestedValueTwoLevels(doc: YamlNode, outer: string, inner: string)
    ensures NestedValue(doc, [outer, inner]).Some? <==>
      doc.Mapping? && outer in doc.entries && doc.entries[outer].Mapping?
      && inner in doc.entries[outer].entries && doc.entries[outer].entries[inner].Text?
    ensures NestedValue(doc, [outer, inner]).Some? ==>
      NestedValue(doc, [outer, inner]).value == doc.entries[outer].entries[inner].text
  {
    assert [outer, inner][1..] == [inner];
    assert [inner][1..] == [];
    if doc.Mapping? {
      var mid := Child(doc.entries, outer);
      assert NestedValue(doc, [outer, inner]) == NestedValue(mid, [inner]);
      if mid.Mapping? {
        assert NestedValue(mid, [inner]) == NestedValue(Child(mid.entries, inner), []);
      }
    }
  }

  const YamlKeyPath: seq<string> := ["paystack", "secretKey"]
  const PropertiesKey: string := "paystack.secretKey"
  const DotenvKey: string := "PAYSTACK_SECRET_KEY"

  /** `props.getProperty(key)`. */
  function Property(parsed: Option<map<string, string>>, key: string): Option<string> {
    if parsed.Some? && key in parsed.value then Some(parsed.value[key]) else None
  }

  /** The key a readable file yields, by the format its name selects; a
      parse failure yields nothing. */
  function ExtractKey(fileName: string, content: string, parsers: Parsers): (r: Option<string>)
    ensures FormatOf(fileName).None? ==> r.None?
    ensures FormatOf(fileName) == Some(YamlFormat) ==>
      r == (if parsers.yaml(content).Some? then NestedValue(parsers.yaml(content).value, YamlKeyPath) else None)
    ensures FormatOf(fileName) == Some(PropertiesFormat) ==> r == Property(parsers.properties(content), PropertiesKey)
    ensures FormatOf(fileName) == Some(DotenvFormat) ==> r == Property(parsers.properties(content), DotenvKey)
  {
    match FormatOf(fileName)
    case None => None
    case Some(YamlFormat) =>
      (match parsers.yaml(content)
       case None => None
       case Some(doc) => NestedValue(doc, YamlKeyPath))
    case Some(PropertiesFormat) => Property(parsers.properties(content), PropertiesKey)
    case Some(DotenvFormat) => Property(parsers.properties(content), DotenvKey)
  }

  /** `checkClasspathResource` / `checkFileInCurrentDirectory` /
      `checkFileInUserHome`: a missing or unreadable file yields nothing. */
  function ProbeKey(fileName: string, probe: Probe, parsers: Parsers): (r: Option<string>)
    ensures !probe.Readable? ==> r.None?
  {
    if probe.Readable? then ExtractKey(fileName, probe.content, parsers) else None
  }

  /** The value found at the `k`-th place of the file search: file
      `files[k / 3]` at location `Locations[k % 3]`. */
  function ValueAt(files: seq<string>, k: nat, sources: Sources, parsers: Parsers): Option<string>
    requires k < 3 * |files|
  {
    var fileName := files[k / 3];
    ProbeKey(fileName, FileAt(sources, Locations[k % 3], fileName), parsers)
  }

  /** The values of all places of the file search, in search order. */
  function Places(files: seq<string>, sources: Sources, parsers: Parsers): (vals: seq<Option<string>>)
    ensures |vals| == 3 * |files|
    ensures forall k :: 0 <= k < |vals| ==> vals[k] == ValueAt(files, k, sources, parsers)
  {
    seq(3 * |files|, k requires 0 <= k < 3 * |files| => ValueAt(files, k, sources, parsers))
  }

  /** The first present value, the order-of-search reference for the files. */
  function FirstSome(vals: seq<Option<string>>): (r: Option<string>)
    ensures r.None? <==> forall k :: 0 <= k < |vals| ==> vals[k].None?
    ensures r.Some? ==> exists k :: 0 <= k < |vals| && vals[k] == r && forall j :: 0 <= j < k ==> vals[j].None?
  {
    if |vals| == 0 then None
    else if vals[0].Some? then vals[0]
    else
      var r := FirstSome(vals[1..]);
      assert r.Some? ==> (exists k :: 1 <= k < |vals| && vals[k] == r && forall j :: 0 <= j < k ==> vals[j].None?) by {
        if r.Some? {
          var k :| 0 <= k < |vals[1..]| && vals[1..][k] == r && forall j :: 0 <= j < k ==> vals[1..][j].None?;
          assert forall j :: 0 <= j < k + 1 ==> vals[j].None? by {
            forall j | 0 <= j < k + 1 ensures vals[j].None? {
              if j > 0 {
                assert vals[j] == vals[1..][j - 1];
              }
            }
          }
        }
      }
      r
  }

  /** Places holding nothing can be skipped. */
  lemma {:induction false} FirstSomeSkip(vals: seq<Option<string>>, k: nat)
    requires k <= |vals|
    requires forall j :: 0 <= j < k ==> vals[j].None?
    ensures FirstSome(vals) == FirstSome(vals[k..])
  {
    if k > 0 {
      FirstSomeSkip(vals[1..], k - 1);
      assert vals[1..][k - 1..] == vals[k..];
    }
  }

  /** The first three places are the first file at the three locations,
      in order; dropping the first file drops exactly those three places. */
  lemma PlacesHead(files: seq<string>, sources: Sources, parsers: Parsers)
    requires |files| > 0
    ensures var places := Places(files, sources, parsers);
      && places[0] == ProbeKey(files[0], FileAt(sources, Classpath, files[0]), parsers)
      && places[1] == ProbeKey(files[0], FileAt(sources, WorkingDirectory, files[0]), parsers)
      && places[2] == ProbeKey(files[0], FileAt(sources, UserHome, files[0]), parsers)
      && places[3..] == Places(files[1..], sources, parsers)
  {
    var all := Places(files, sources, parsers);
    var rest := Places(files[1..], sources, parsers);
    assert all[0] == ValueAt(files, 0, sources, parsers);
    assert all[1] == ValueAt(files, 1, sources, parsers);
    assert all[2] == ValueAt(files, 2, sources, parsers);
    forall k | 0 <= k < |rest|
      ensures all[3..][k] == rest[k]
    {
      assert (k + 3) / 3 == k / 3 + 1;
      assert (k + 3) % 3 == k % 3;
    }
  }

  /** Looking through three places one at a time. */
  lemma FirstSomeOfThree(vals: seq<Option<string>>)
    requires |vals| >= 3
    ensures FirstSome(vals) ==
      if vals[0].Some? then vals[0]
      else if vals[1].Some? then vals[1]
      else if vals[2].Some? then vals[2]
      else FirstSome(vals[3..])
  {
    if vals[0].None? && vals[1].None? && vals[2].None? {
      FirstSomeSkip(vals, 3);
    } else if vals[0].None? && vals[1].None? {
      FirstSomeSkip(vals, 2);
      assert vals[2..][0] == vals[2];
    } else if vals[0].None? {
      FirstSomeSkip(vals, 1);
      assert vals[1..][0] == vals[1];
    }
  }

  /** `checkConfigurationFiles`: for each file in order, the class path, then
      the working directory, then the home directory. The search stops at the
      first place that yields a value, even an empty one. */
  function SearchFiles(files: seq<string>, sources: Sources, parsers: Parsers): (r: Option<string>)
    ensures r == FirstSome(Places(files, sources, parsers))
  {
    if |files| == 0 then None
    else
      var fileName := files[0];
      var inClasspath := ProbeKey(fileName, FileAt(sources, Classpath, fileName), parsers);
      var inWorkingDirectory := ProbeKey(fileName, FileAt(sources, WorkingDirectory, fileName), parsers);
      var inUserHome := ProbeKey(fileName, FileAt(sources, UserHome, fileName), parsers);
      PlacesHead(files, sources, parsers);
      FirstSomeOfThree(Places(files, sources, parsers));
      if inClasspath.Some? then inClasspath
      else if inWorkingDirectory.Some? then inWorkingDirectory
      else if inUserHome.Some? then inUserHome
      else SearchFiles(files[1..], sources, parsers)
  }

  // ---------------------------------------------------------------------------
  // Resolution
  // ---------------------------------------------------------------------------

  /** `findApiKey`: environment variables, then system properties, then the
      configuration files. */
  function FindApiKey(keyType: KeyType, sources: Sources, parsers: Parsers): Option<string> {
    var names := EnvKeys(keyType);
    var fromEnv := FirstNonEmpty(names, sources.env);
    if fromEnv.Some? then fromEnv
    else
      var fromProps := FirstNonEmpty(names, sources.sysProps);
      if fromProps.Some? then fromProps
      else SearchFiles(ConfigFiles, sources, parsers)
  }

  /** A non-empty environment variable wins whatever the system properties
      and the files hold. */
  lemma EnvironmentWins(keyType: KeyType, sources: Sources, parsers: Parsers,
                        sysProps: map<string, string>, fileAt: (Directory, string) -> Probe)
    requires exists i :: 0 <= i < |EnvKeys(keyType)| && NonEmptyIn(sources.env, EnvKeys(keyType)[i])
    ensures FindApiKey(keyType, sources, parsers) == FirstNonEmpty(EnvKeys(keyType), sources.env)
    ensures FindApiKey(keyType, sources, parsers) ==
            FindApiKey(keyType, sources.(sysProps := sysProps, fileAt := fileAt), parsers)
  {
  }

  /** With no usable environment variable, a non-empty system property wins
      whatever the files hold. */
  lemma SystemPropertiesBeforeFiles(keyType: KeyType, sources: Sources, parsers: Parsers,
                                    fileAt: (Directory, string) -> Probe)
    requires forall i :: 0 <= i < |EnvKeys(keyType)| ==> !NonEmptyIn(sources.env, EnvKeys(keyType)[i])
    requires exists i :: 0 <= i < |EnvKeys(keyType)| && NonEmptyIn(sources.sysProps, EnvKeys(keyType)[i])
    ensures FindApiKey(keyType, sources, parsers) == FirstNonEmpty(EnvKeys(keyType), sources.sysProps)
    ensures FindApiKey(keyType, sources, parsers) == FindApiKey(keyType, sources.(fileAt := fileAt), parsers)
  {
  }

  /** The files are consulted exactly when neither the environment nor the
      system properties hold a non-empty value under a key name. */
  lemma FilesConsultedLast(keyType: KeyType, sources: Sources, parsers: Parsers)
    requires forall i :: 0 <= i < |EnvKeys(keyType)| ==> !NonEmptyIn(sources.env, EnvKeys(keyType)[i])
    requires forall i :: 0 <= i < |EnvKeys(keyType)| ==> !NonEmptyIn(sources.sysProps, EnvKeys(keyType)[i])
    ensures FindApiKey(keyType, sources, parsers) == SearchFiles(ConfigFiles, sources, parsers)
  {
  }

  /** Environment variables outside the key type's pair change nothing, and
      neither do system properties outside that pair and `user.home`. */
  lemma OnlyKeyNamesConsulted(keyType: KeyType, sources: Sources, parsers: Parsers,
                              env: map<string, string>, sysProps: map<string, string>)
    requires forall n :: n in EnvKeys(keyType) ==> (n in env <==> n in sources.env) && (n in env ==> env[n] == sources.env[n])
    requires forall n :: n in EnvKeys(keyType) + [UserHomeProperty] ==>
      (n in sysProps <==> n in sources.sysProps) && (n in sysProps ==> sysProps[n] == sources.sysProps[n])
    ensures FindApiKey(keyType, sources, parsers) == FindApiKey(keyType, sources.(env := env, sysProps := sysProps), parsers)
  {
    var changed := sources.(env := env, sysProps := sysProps);
    FirstNonEmptyOnlyReadsNames(EnvKeys(keyType), env, sources.env);
    FirstNonEmptyOnlyReadsNames(EnvKeys(keyType), sysProps, sources.sysProps);
    assert changed.fileAt == sources.fileAt;
    assert UserHomeProperty in EnvKeys(keyType) + [UserHomeProperty];
    assert UserHomeOf(changed.sysProps) == UserHomeOf(sources.sysProps);
    SearchFilesOnlyReadsFiles(ConfigFiles, changed, sources, parsers);
  }

  /** `user.home` is consulted: moving it to another directory moves the
      home-directory places of the search with it. */
  lemma HomePlacesFollowUserHome(files: seq<string>, sources: Sources, parsers: Parsers, home: string, k: nat)
    requires k < 3 * |files| && k % 3 == 2
    ensures ValueAt(files, k, sources.(sysProps := sources.sysProps[UserHomeProperty := home]), parsers)
         == ProbeKey(files[k / 3], sources.fileAt(HomeDirectory(Some(home)), files[k / 3]), parsers)
  {
  }

  /** The file search reads neither the environment nor any system property
      but `user.home`. */
  lemma SearchFilesOnlyReadsFiles(files: seq<string>, a: Sources, b: Sources, parsers: Parsers)
    requires a.fileAt == b.fileAt
    requires UserHomeOf(a.sysProps) == UserHomeOf(b.sysProps)
    ensures SearchFiles(files, a, parsers) == SearchFiles(files, b, parsers)
  {
    assert Places(files, a, parsers) == Places(files, b, parsers);
  }

  // ---------------------------------------------------------------------------
  // Construction
  // ---------------------------------------------------------------------------

  /** A constructed `PaystackConfig`. */
  datatype PaystackConfig = PaystackConfig(keyType: KeyType, envKeys: seq<string>, apiKey: string)

  /** The `IllegalStateException` a failed construction throws. */
  datatype ConfigError = IllegalState(message: string)

  const NoKeyMessage: string := "No Paystack API key found in any configuration source"

  /** The key was found directly in one of the places the resolver reads. */
  ghost predicate FoundIn(keyType: KeyType, sources: Sources, parsers: Parsers, key: string) {
    || (exists n :: n in EnvKeys(keyType) && n in sources.env && sources.env[n] == key)
    || (exists n :: n in EnvKeys(keyType) && n in sources.sysProps && sources.sysProps[n] == key)
    || (exists k :: 0 <= k < 3 * |ConfigFiles| && ValueAt(ConfigFiles, k, sources, parsers) == Some(key))
  }

  /** `new PaystackConfig(keyType)`: resolve the key and refuse a missing or
      empty one. */
  function NewPaystackConfig(keyType: KeyType, sources: Sources, parsers: Parsers): (r: Result<PaystackConfig, ConfigError>)
    ensures r.Success? <==> FindApiKey(keyType, sources, parsers).Some? && FindApiKey(keyType, sources, parsers).value != ""
    ensures r.Success? ==> r.value.apiKey != "" && FoundIn(keyType, sources, parsers, r.value.apiKey)
    ensures r.Success? ==> r.value.keyType == keyType && r.value.envKeys == EnvKeys(keyType)
    ensures r.Failure? ==> r.error == IllegalState(NoKeyMessage)
  {
    var key := FindApiKey(keyType, sources, parsers);
    if key.None? || key.value == "" then Failure(IllegalState(NoKeyMessage))
    else Success(PaystackConfig(keyType, EnvKeys(keyType), key.value))
  }

  /** `getApiKey`. */
  function GetApiKey(config: PaystackConfig): string {
    config.apiKey
  }

  /** A constructed configuration hands out exactly the resolved key, and
      that key is never empty. */
  lemma GetApiKeyIsResolvedKey(keyType: KeyType, sources: Sources, parsers: Parsers)
    ensures var config := NewPaystackConfig(keyType, sources, parsers);
      config.Success? ==>
        GetApiKey(config.value) != "" && Some(GetApiKey(config.value)) == FindApiKey(keyType, sources, parsers)
  {
  }

  /** The file search is not skip-empty like the environment lookup: an
      empty value at an earlier place ends the search, and construction
      fails even though a later place holds a usable key. */
  lemma EmptyFileValueMasksLaterKey(keyType: KeyType, sources: Sources, parsers: Parsers, k: nat, m: nat)
    ensures
      && (forall i :: 0 <= i < |EnvKeys(keyType)| ==> !NonEmptyIn(sources.env, EnvKeys(keyType)[i]))
      && (forall i :: 0 <= i < |EnvKeys(keyType)| ==> !NonEmptyIn(sources.sysProps, EnvKeys(keyType)[i]))
      && k < m < 3 * |ConfigFiles|
      && ValueAt(ConfigFiles, k, sources, parsers) == Some("")
      && (forall j :: 0 <= j < k ==> ValueAt(ConfigFiles, j, sources, parsers).None?)
      && ValueAt(ConfigFiles, m, sources, parsers).Some? && ValueAt(ConfigFiles, m, sources, parsers).value != ""
      ==> NewPaystackConfig(keyType, sources, parsers).Failure?
  {
    if && (forall i :: 0 <= i < |EnvKeys(keyType)| ==> !NonEmptyIn(sources.env, EnvKeys(keyType)[i]))
       && (forall i :: 0 <= i < |EnvKeys(keyType)| ==> !NonEmptyIn(sources.sysProps, EnvKeys(keyType)[i]))
       && k < 3 * |ConfigFiles|
       && ValueAt(ConfigFiles, k, sources, parsers) == Some("")
       && (forall j :: 0 <= j < k ==> ValueAt(ConfigFiles, j, sources, parsers).None?)
    {
      FilesConsultedLast(keyType, sources, parsers);
      var places := Places(ConfigFiles, sources, parsers);
      assert SearchFiles(ConfigFiles, sources, parsers) == FirstSome(places);
      assert forall j :: 0 <= j < k ==> places[j].None?;
      FirstSomeSkip(places, k);
      assert places[k..][0] == Some("");
      assert FirstSome(places[k..]) == Some("");
      assert FindApiKey(keyType, sources, parsers) == Some("");
    }
  }

  /** The world of the masking example: `application.yml` on the class path
      sets `paystack.secretKey` to the empty string, and `paystack.properties`
      in the home directory `/home/dev` holds a real key. Nothing else
      exists. */
  function MaskingFiles(dir: Directory, name: string): Probe {
    if dir == ClasspathRoot && name == "application.yml" then Readable("yml")
    else if dir == HomeDirectory(Some("/home/dev")) && name == "paystack.properties" then Readable("properties")
    else Missing
  }

  function MaskingSources(): Sources {
    Sources(map[], map[UserHomeProperty := "/home/dev"], MaskingFiles)
  }

  function MaskingParsers(): Parsers {
    Parsers(
      (c: string) => Some(Mapping(map["paystack" := Mapping(map["secretKey" := Text("")])])),
      (c: string) => Some(map["paystack.secretKey" := "sk_test_1"]))
  }

  /** The first place of the search, `application.yml` on the class path, yields the empty string. */
  lemma MaskingYamlYieldsEmpty()
    ensures ValueAt(ConfigFiles, 0, MaskingSources(), MaskingParsers()) == Some("")
  {
    SuffixAt("application.yml", ".yml", 11);
    NestedValueTwoLevels(Mapping(map["paystack" := Mapping(map["secretKey" := Text("")])]), "paystack", "secretKey");
  }

  /** Place 17, `paystack.properties` in the home directory, yields the real key. */
  lemma MaskingPropertiesYieldKey()
    ensures ValueAt(ConfigFiles, 17, MaskingSources(), MaskingParsers()) == Some("sk_test_1")
  {
    SuffixAt("paystack.properties", ".properties", 8);
    LastCharRulesOutSuffix("paystack.properties", ".yml");
    LastCharRulesOutSuffix("paystack.properties", ".yaml");
  }

  /** An instance of the masking: the home directory's key is never reached,
      and construction fails. */
  lemma EmptyYamlKeyHidesPropertiesKey()
    ensures ValueAt(ConfigFiles, 17, MaskingSources(), MaskingParsers()) == Some("sk_test_1")
    ensures NewPaystackConfig(TEST, MaskingSources(), MaskingParsers()).Failure?
  {
    MaskingYamlYieldsEmpty();
    MaskingPropertiesYieldKey();
    EmptyFileValueMasksLaterKey(TEST, MaskingSources(), MaskingParsers(), 0, 17);
  }
}
