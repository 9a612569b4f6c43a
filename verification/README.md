# Paystack4J core, modelled in Dafny

Paystack4J is a Java client for the Paystack payments REST API. Most of it is
glue around an HTTP client and a JSON library. Three pieces hold rules that
can be stated and proved once the I/O is turned into inputs:

- **`PaystackConfig`** (`Config.dfy`) finds the secret key. It tries the
  environment variables first, then the system properties, then seven
  configuration files. Each file is tried on the class path, then in the
  working directory, then in the home directory. A YAML file is read at
  `paystack` → `secretKey`, a `.properties` file at `paystack.secretKey`,
  and `.env` at `PAYSTACK_SECRET_KEY`. Construction fails when the key it
  finds is missing or empty.
- **`RequestBuilder`** (`RequestBuilder.dfy`) holds a base URL and a
  parameter map. It builds one request for each of the nine `build*Request`
  overloads. The model records which URL is used, where the parameters go
  (query string or form fields), and whether the JSON content-type header
  is set.
- **`RequestExecutor`** (`RequestExecutor.dfy`) holds the process-wide key.
  It refuses a null or blank key. Otherwise it adds the `Accept` and
  `Authorization: Bearer` headers, sends the request, and classifies what
  comes back, in this order: transport failure, status 400 or above, null
  body, parse failure. Every failure is one `APIException` with a message.
  `Cause` reads those messages back into tagged causes, and
  `MessageRoundTrip` proves that the messages tell the causes apart.
- `Client.dfy` covers the two ways to construct a client:
  `PaystackClient.Impl` and `PaystackClientConfiguration.buildClient`.
- `Strings.dfy` holds the Java string operations the rules depend on:
  `endsWith`, `trim` and the decimal rendering of an `int`.

The world outside the program becomes input:
- The environment and the system properties are `map<string, string>`.
- The class path and the file system are a function from (location, file
  name) to `Missing`, `Unreadable` or `Readable(content)`.
- The YAML and `Properties` parsers, the HTTP transport and the JSON parser
  are functions passed in.

Java's mutable builder and static key become immutable values. Each
operation returns the next state. A build takes the builder and returns only
the request, so building never changes the builder.

Three behaviours of the code are easy to misread, and the model keeps them:
- The file search returns the first value a file yields, even an empty one:
  each probe is tested only against `null`
  (`PaystackConfig.java:110`, `:116`, `:122`). An empty key in an earlier
  file therefore hides a valid key in a later one, and construction then
  fails (`PaystackConfig.java:53-56`). `Config.EmptyFileValueMasksLaterKey`
  proves this, and `Config.EmptyYamlKeyHidesPropertiesKey` gives an
  instance.
- Only a `null` response body is refused (`RequestExecutor.java:43-45`). An
  empty body goes to the JSON parser.
- A missing or blank key at request time is refused with the same
  `APIException` as every other request failure
  (`RequestExecutor.java:28-30`). The `IllegalStateException` that
  `buildClient` documents for a missing key
  (`PaystackClientConfiguration.java:29`) comes only from construction.

Also proved: the resolver accepts a key made only of spaces, because it
refuses only empty keys, but the executor refuses it on every request
(`Client.BlankKeyBuildsButCannotSend`).

## Model

| member | source | states |
|---|---|---|
| Config.EnvKeysSelection | src/main/java/com/dvc/paystack4j/config/PaystackConfig.java:18-26 | LIVE uses exactly `PAYSTACK_LIVE_SECRET_KEY`, `paystack.live.secretKey` in that order. TEST uses the `TEST` pair. The two pairs share no name. |
| Config.FirstNonEmpty | src/main/java/com/dvc/paystack4j/config/PaystackConfig.java:81-103 | The result is the value of the first name bound to a non-empty value, and every earlier name is unbound or empty. It is none exactly when no name has a non-empty value, and a result is never empty. |
| Config.FirstNonEmptyOnlyReadsNames | src/main/java/com/dvc/paystack4j/config/PaystackConfig.java:81-103 | Only the listed names are read: two lookups that agree on them give the same answer. |
| Config.OnlyKeyNamesConsulted | src/main/java/com/dvc/paystack4j/config/PaystackConfig.java:44-47 | Environment variables outside the key type's pair never change the resolved key. Neither do system properties outside that pair and `user.home`. |
| Config.HomePlacesFollowUserHome | src/main/java/com/dvc/paystack4j/config/PaystackConfig.java:154-164 | The home-directory places of the search open the file in the directory that `user.home` names. Setting `user.home` to another directory makes the search read that directory. |
| Config.EnvironmentWins | src/main/java/com/dvc/paystack4j/config/PaystackConfig.java:59-79 | If some key name has a non-empty environment value, the result is the environment's answer, whatever the system properties and files hold. |
| Config.SystemPropertiesBeforeFiles | src/main/java/com/dvc/paystack4j/config/PaystackConfig.java:59-79 | With no usable environment variable, a non-empty system property wins, whatever the files hold. |
| Config.FilesConsultedLast | src/main/java/com/dvc/paystack4j/config/PaystackConfig.java:59-79 | When neither the environment nor the system properties has a non-empty value, the result is that of the file search. |
| Config.ConfigFileFormats | src/main/java/com/dvc/paystack4j/config/PaystackConfig.java:166-175 | The `.yml`/`.yaml` files read as YAML, the `.properties` files as properties, `.env` as dotenv. Other names, such as `paystack.env`, read as nothing. |
| Config.ExtractNestedValue | src/main/java/com/dvc/paystack4j/config/PaystackConfig.java:210-220 | The Java loop over the keys computes the same as the recursive descent `NestedValue`. |
| Config.NestedValueTwoLevels | src/main/java/com/dvc/paystack4j/config/PaystackConfig.java:210-220 | A two-key lookup yields a value iff the document is a map, the first key holds a map, and the second key holds a string. That string is the value. A non-map on the way, a missing key or a non-string leaf gives none. |
| Config.ExtractKey | src/main/java/com/dvc/paystack4j/config/PaystackConfig.java:166-208 | A YAML file yields `paystack`→`secretKey`. A properties file yields `paystack.secretKey`, and `.env` yields `PAYSTACK_SECRET_KEY`. A parse failure or an unknown format yields nothing. |
| Config.ProbeKey | src/main/java/com/dvc/paystack4j/config/PaystackConfig.java:131-164 | A missing or unreadable file at a location yields nothing, so the search goes on. |
| Config.SearchFiles | src/main/java/com/dvc/paystack4j/config/PaystackConfig.java:105-129 | The nested file-then-location loop returns the first value in the flat order: place `k` is file `k / 3` at location class path, working directory, home (`k % 3`). |
| Config.EmptyFileValueMasksLaterKey | src/main/java/com/dvc/paystack4j/config/PaystackConfig.java:105-129 | An empty value at the first place that yields one ends the search, and construction fails even if a later place holds a non-empty key. |
| Config.EmptyYamlKeyHidesPropertiesKey | src/main/java/com/dvc/paystack4j/config/PaystackConfig.java:105-129 | A concrete case: `application.yml` on the class path has an empty `paystack.secretKey`, and `paystack.properties` at home holds `sk_test_1`. Construction fails. |
| Config.NewPaystackConfig | src/main/java/com/dvc/paystack4j/config/PaystackConfig.java:44-57 | Construction succeeds iff the resolved key is present and non-empty. The stored key then came from one of the consulted environment variables, system properties or file places. Failure carries "No Paystack API key found in any configuration source". |
| Config.GetApiKeyIsResolvedKey | src/main/java/com/dvc/paystack4j/config/PaystackConfig.java:222-224 | `getApiKey` returns exactly the resolved key, and it is non-empty. |
| RequestBuilder.NewBuilder | src/main/java/com/dvc/paystack4j/common/RequestBuilder.java:17-20 | A new builder has the given base URL and no parameters. |
| RequestBuilder.AddParameter | src/main/java/com/dvc/paystack4j/common/RequestBuilder.java:28-31 | The key maps to the value. Every other key keeps its value. The key set grows by that key only, and the base URL is unchanged. |
| RequestBuilder.AddParameterLastWriteWins | src/main/java/com/dvc/paystack4j/common/RequestBuilder.java:28-31 | A second write under the same key replaces the first, and `getParameters` shows the value written last. |
| RequestBuilder.AddParameters | src/main/java/com/dvc/paystack4j/common/RequestBuilder.java:38-41 | This is a right-biased merge: keys of the argument take its values, other keys keep theirs, and the key set is the union. |
| RequestBuilder.AddParametersIsAddEach | src/main/java/com/dvc/paystack4j/common/RequestBuilder.java:38-41 | Adding the entries one key at a time, in any order that lists every key, equals `addParameters`. |
| RequestBuilder.ClearParameters | src/main/java/com/dvc/paystack4j/common/RequestBuilder.java:47-50 | No parameter remains, and the base URL is unchanged. |
| RequestBuilder.SetBaseUrl | src/main/java/com/dvc/paystack4j/common/RequestBuilder.java:161-164 | The base URL is replaced, and the parameters are unchanged. |
| RequestBuilder.ClearAndSetBaseUrlCommute | src/main/java/com/dvc/paystack4j/common/RequestBuilder.java:161-172 | Clearing and setting the base URL commute. `getBaseUrl` survives a clear, and `getParameters` survives a URL change. |
| RequestBuilder.Build | src/main/java/com/dvc/paystack4j/common/RequestBuilder.java:64-154 | The method follows the overload. The URL is the base alone for list GET and both POSTs, and base + "/" + id otherwise. Body variants send the parameters in the query with `Content-Type: application/json` and the body unchanged. Form variants send form fields with no header. GET and DELETE send the query only. |
| RequestBuilder.JsonHeaderIffBody | src/main/java/com/dvc/paystack4j/common/RequestBuilder.java:83-144 | The JSON content-type header is present, and a body is carried, exactly for the body-taking overloads. |
| RequestBuilder.BuildCarriesParameters | src/main/java/com/dvc/paystack4j/common/RequestBuilder.java:64-154 | Query and form fields are disjoint, together they are exactly the builder's parameters, and form fields are used only by the form overloads. |
| RequestBuilder.BuildSeesAddedParameter | src/main/java/com/dvc/paystack4j/common/RequestBuilder.java:64-154 | A parameter added before a build appears in the request, in the fields or the query, with the value written last. |
| RequestBuilder.PostVariantsExample | src/main/java/com/dvc/paystack4j/common/RequestBuilder.java:83-98 | A JSON POST sends `a=1` in the query string with body `{"x":1}` and the JSON content type. A form POST of `a=1, b=2` sends exactly those form fields and no content type. |
| RequestBuilder.BuildTargetsDetermineId | src/main/java/com/dvc/paystack4j/common/RequestBuilder.java:74-154 | For id-taking overloads on the same builder, equal target URLs mean equal ids. |
| RequestExecutor.SetKey | src/main/java/com/dvc/paystack4j/common/RequestExecutor.java:16-18 | The stored key becomes the given one, null included. |
| RequestExecutor.SetKeyLastWins | src/main/java/com/dvc/paystack4j/common/RequestExecutor.java:16-18 | Of two `setKey` calls the last wins, and the earlier leaves no trace. |
| RequestExecutor.ValidKeyIffNotBlank | src/main/java/com/dvc/paystack4j/common/RequestExecutor.java:28-30 | The guard passes iff the key is non-null and holds a character above U+0020, which is what `trim().isEmpty()` tests. |
| RequestExecutor.Authorize | src/main/java/com/dvc/paystack4j/common/RequestExecutor.java:33-36 | The built headers are kept as a prefix. `Accept: application/json` and `Authorization: Bearer <key>` follow, with the key recoverable after `Bearer `. Nothing else in the request changes. |
| RequestExecutor.MessageRoundTrip | src/main/java/com/dvc/paystack4j/common/RequestExecutor.java:38-53 | Reading any failure message back gives the cause it was made from, including the status code and status text. |
| RequestExecutor.MessageInjective | src/main/java/com/dvc/paystack4j/exceptions/APIException.java:3-9 | The one exception kind still separates its causes: different causes give different messages. |
| RequestExecutor.Classify | src/main/java/com/dvc/paystack4j/common/RequestExecutor.java:38-53 | The result is success iff the response arrived, the status is below 400, the body is non-null and it parses. The result is then the parsed document. No response failure reads as a missing key. Each failing check has its own cause: a transport failure carries its detail, a status ≥ 400 carries its status and text, a null body below 400 is the empty-body cause, and a parse failure carries the parser's error. |
| RequestExecutor.ClassifyMessages | src/main/java/com/dvc/paystack4j/common/RequestExecutor.java:38-53 | The message for each failing check: "Network or request error: " plus the detail; "Request failed with status <status>: <statusText>"; "Received empty response body"; "Failed to parse JSON response: " plus the parser's error. |
| RequestExecutor.ExecuteFailureMessages | src/main/java/com/dvc/paystack4j/common/RequestExecutor.java:27-54 | With a usable key, each failing check reaches the caller as an `APIException` carrying exactly that check's message. |
| RequestExecutor.Execute | src/main/java/com/dvc/paystack4j/common/RequestExecutor.java:27-54 | A request is sent iff the key is valid, and what is sent is the authorized request. An invalid key fails with "API secret key cannot be null or empty". Otherwise the result is a document exactly when `Classify` gives one, and a failure carries the message of `Classify`'s cause. |
| RequestExecutor.ExecuteFailureNamesCause | src/main/java/com/dvc/paystack4j/common/RequestExecutor.java:27-54 | Every failure message reads back as its cause: the missing key when nothing was sent, otherwise the classification of the transport's answer. |
| RequestExecutor.StatusCheckedBeforeBody | src/main/java/com/dvc/paystack4j/common/RequestExecutor.java:38-45 | Status ≥ 400 is classified as that status and text whatever the body, null included. The message is "Request failed with status <status>: <statusText>". |
| RequestExecutor.NotFoundMessage | src/main/java/com/dvc/paystack4j/common/RequestExecutor.java:39-40 | A 404 is reported as "Request failed with status 404: " followed by the status text. |
| RequestExecutor.SuccessExactlyWhenAllChecksPass | src/main/java/com/dvc/paystack4j/common/RequestExecutor.java:43-47 | With a valid key the result is a document iff the response arrived, the status is below 400, the body is non-null and it parses to that document. |
| Client.NewClient | src/main/java/com/dvc/paystack4j/PaystackClient.java:32-34 | Constructing a client stores its key as the executor's key. |
| Client.LaterClientReplacesKey | src/main/java/com/dvc/paystack4j/PaystackClient.java:32-34 | The key is process-wide: a second client's key replaces the first client's. |
| Client.BuildClient | src/main/java/com/dvc/paystack4j/PaystackClientConfiguration.java:31-33 | Succeeds iff configuration succeeds. The stored key is then the resolved non-empty key. Otherwise it fails with the configuration error and constructs no client. |
| Client.BlankKeyBuildsButCannotSend | src/main/java/com/dvc/paystack4j/config/PaystackConfig.java:53-56 | A key of one space passes construction, which refuses only empty keys. Every request then fails with the missing-key error and sends nothing. |

## Left out

- The HTTP transport, Unirest request and response objects, and `asJson()`.
  They are a function from the request sent to a response or a transport
  failure. How Unirest serialises the query string into the URL and encodes
  form fields is not modelled.
- JSON, YAML and `java.util.Properties` parsing. Each is a function passed
  in. JSON numbers are integers: floating point is not modelled.
- File-system and class-path access, `System.getenv` and
  `System.getProperty`. They are maps and a probe function. The home
  directory is the one `user.home` names. When `user.home` is unset, Java
  throws a `NullPointerException` from `Paths.get`
  (`PaystackConfig.java:155`). The model instead asks the probe function
  about `HomeDirectory(None)`.
- `new PaystackConfig(null)`: the `keyType == LIVE` test
  (`PaystackConfig.java:46`) sends a null key type to the TEST names. A
  `KeyType` here is always LIVE or TEST.
- A null `id` in the id-taking `build*Request` overloads
  (`RequestBuilder.java:75` and the other overloads that take an id).
  Java concatenates it as the text `null`, giving `<baseUrl>/null`. Ids
  here are strings.
- A null parameter key, which `HashMap` accepts
  (`RequestBuilder.java:29`). Keys here are strings.
- `addParameters(null)`, which throws a `NullPointerException` from
  `putAll` (`RequestBuilder.java:39`). The map argument here is always a
  map.
- Logging through slf4j, which has no effect on behaviour.
- Thread safety of the static key. The key is one state value, and there is
  no concurrency.
- The 22 resource accessors of `PaystackClient.Impl`. Each returns a new
  object of a class this model does not include, and they hold no logic.
- A null exception message or null status text. Java would render it as
  the word `null`; here every message and status text is a string.

