# Nightly add-on build trigger, modelled in Dafny

The nightly trigger asks CircleCI to rebuild a list of Event Espresso add-on
projects every night. It builds each add-on twice: once against the
`master` branch of the main ("core") project, and once against the latest
release tag of that project. The tag is read from the GitHub tag listing.
This model covers two pieces of the program:

- **Config** (`config.dfy`): the configuration object. It starts from
  twelve compiled-in defaults. Every key of the decoded JSON options file
  that names one of those properties and carries a non-empty value (in the
  sense of PHP `empty()`) replaces that property's value. An unreadable file
  and a file that decodes to `null` are the two error outcomes. PHP visits
  the decoded object's keys in insertion order. The model's loop visits them
  in an arbitrary order, and its contract shows that the result does not
  depend on the order.
- **Runner** (`runner.dfy`): the constructor resolves the latest tag once,
  as the name of the first entry of the tag listing, or fails. Then
  `triggerNightlies` walks the project list in order. For each project it
  POSTs a "master" request and then a tag request, each to the fixed
  CircleCI build URL of that project, with the body `{RELEASE_BUILD: branch}`.
  A warning carrying the response body is logged when the status is not 200.

`json.dfy` holds the decoded JSON values and the `empty()` test. `base.dfy`
holds the `Option` and `Result` wrappers.

The HTTP client is a function from (request number, request) to a response,
so a server may answer each request differently. The tag listing is a
function from (user, repository) to a sequence of tag entries. A run is a
pure function from these oracles and the settings to the sequence of
observable events: each POST sent and each warning logged, in order. Every
run property is proved against an independent reference. The reference is
a flat `Plan` of requests, where request 2k builds project k against
"master" and request 2k+1 builds it against the tag. `Dispatched` then
replays that plan, one POST per request plus a warning after each answer
other than 200.

The request body is `{"RELEASE_BUILD": branch}`, and a response counts as a
failure when its status is not exactly 200 (`!== 200`).

## Model

| member | source | states |
|---|---|---|
| Json.IsEmpty | src/Config.php:148 | A decoded value is empty exactly when it is one of null, false, 0, 0.0, "", "0" or the empty array; objects are never empty |
| Config.FieldNamed | src/Config.php:148 | A key names a field exactly when it equals that field's property name; a key equal to no property name names nothing |
| Config.NameRoundTrip | src/Config.php:25-118 | Every declared property is found again by its own name |
| Config.Default | src/Config.php:25-118 | Every compiled-in default is an empty value (an empty string or an empty array), except the defaults of redis_host and redis_port |
| Config.Defaults | src/Config.php:25-118 | The initial object holds each field's declared default |
| Config.Set | src/Config.php:149 | Assigning a property changes that field to the value and leaves every other field as it was |
| Config.Apply | src/Config.php:147-151 | One loop iteration: a key naming a field with a non-empty value overwrites that field; an unknown key or an empty value changes nothing; no other field changes |
| Config.OverlayOnto | src/Config.php:147-151 | After the whole object, each field holds the object's value under its property name when present and non-empty, otherwise its earlier value |
| Config.ApplyExtendsOverlay | src/Config.php:147-151 | Processing one more key gives the overlay of the object extended by that entry, so the visiting order does not matter |
| Config.ApplyObject | src/Config.php:147-151 | The loop over a decoded object, visiting keys in any order, ends with the defaults overlaid with that object |
| Config.SetUp | src/Config.php:135-152 | An unreadable file fails with InvalidArgument and its message; a null decode fails with Logic; a decoded object yields the defaults overlaid with that object; any other decoded value leaves the defaults |
| Config.UnknownKeyIgnored | src/Config.php:148 | A key that names no property can be dropped from the object without changing the configuration |
| Config.EmptyValueIgnored | src/Config.php:148 | A key with an empty value can be dropped from the object without changing the configuration |
| Config.AllEmptyKeepsDefaults | src/Config.php:147-151 | An object whose values are all empty yields exactly the defaults |
| Config.GettersAfterOverlay | src/Config.php:158-260 | Each getter returns the decoded value under its property name when non-empty, otherwise the literal default of that property |
| Runner.LatestTag | src/Runner.php:95-110 | The tag is the name of the first listed entry; an empty listing or a first entry without a name fails with UnexpectedValue and its fixed message |
| Runner.OnlyFirstTagMatters | src/Runner.php:103 | Entries after the first never change the resolved tag |
| Runner.BuildUrl | src/Runner.php:73-76 | The build URL is the CircleCI prefix, the project, the tree/master query and the token; the project can be read back from it |
| Runner.NightlyRequest | src/Runner.php:73-83 | A notification is a POST to the project's build URL whose body has exactly one key, RELEASE_BUILD, holding the branch |
| Runner.UrlIgnoresBranch | src/Runner.php:73-81 | The URL is the same for every branch; two requests for one project differ exactly when their branches differ |
| Runner.TriggerNightly | src/Runner.php:71-88 | One notification posts its request and then logs the response body as a warning exactly when the status is not 200 |
| Runner.Plan | src/Runner.php:63-66 | The requests of a run number twice the projects; request 2k builds project k on master and request 2k+1 builds it on the tag |
| Runner.TriggerAllFollowsPlan | src/Runner.php:63-66 | The loop over projects produces exactly the flat plan, each request followed by its warning if any |
| Runner.PostsOfDispatched | src/Runner.php:84-87 | Every planned request is sent, in order, whatever statuses the earlier responses carried, for a client that returns every status (the default client throws on 4xx/5xx, see Left out) |
| Runner.NoWarningsIffAllOk | src/Runner.php:84-87 | No warning is logged exactly when every request is answered with status 200 |
| Runner.NewRunner | src/Runner.php:49-56 | The constructor succeeds exactly when the tag resolves for the configured user and main project, and keeps that tag |
| Runner.TriggerNightlies | src/Runner.php:59-67 | A constructed runner sends two notifications per project in list order, using the tag resolved by the constructor |
| Runner.Run | src/Runner.php:49-67 | A run fails, sending nothing, exactly when the tag cannot be resolved; otherwise its events are the dispatched plan for that one tag |
| Runner.RunRequests | src/Runner.php:63-81 | In a successful run, for each project k, POST 2k goes to project k's URL with branch master, and POST 2k+1 goes to the same URL with the resolved tag |
| Runner.RunWarnings | src/Runner.php:84-87 | A successful run logs no warning exactly when all of its requests are answered with 200 |
| Runner.RunnerConfigOf | src/Runner.php:63-100 | The runner's string settings are the configuration's project list and strings, available when they have the documented array-of-strings and string types |
| Runner.DefaultsNotifyNobody | src/Config.php:25-88 | With no settings supplied, the project list is empty, so a run sends no notification |

## Left out

- Reading the options file (`is_readable`, `file_get_contents`) and JSON decoding. They become the `readable` flag and the decoded `Value`. JSON numbers too large for a PHP integer, and floating-point rounding, are not modelled.
- PHP type juggling of settings whose JSON type differs from the documented one. Examples are a number used as a project name, or a string where the project list is expected. `RunnerConfigOf` gives no runner settings for such a configuration.
- The Guzzle transport and the GitHub API client. They are the `Http` and `TagSource` oracles. Transport exceptions are not modelled: the code does not catch them, it only lets them propagate. The client is built with default options, and a default Guzzle client throws on a 4xx or 5xx status before the `!== 200` test runs, so such an answer ends the run. The warning-and-continue path of the model is that of a client that returns every status; for the default client it holds only for statuses other than 200 below 400.
- Logger internals. A warning is an event carrying the response body.
- The entry script `runner.php` is not part of this model. That covers the log handler setup, the missing-file check, the Redis connection and authentication, the GitHub client cache and authentication, and the catch-all error logging and exit.
