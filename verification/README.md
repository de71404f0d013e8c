# Cloud Controller core: app manifests, Diego dispatch, service-key access

This project models three parts of the Cloud Foundry Cloud Controller (`cloud_controller_ng`) in Dafny and proves properties of them.

- **AppManifestMessage.** This is the message built from an app manifest. It has two jobs:
  - validate the manifest's attributes and report one full error message per problem;
  - turn the attributes into the messages the scale, process-update, app-update, environment-variable and route handlers consume.

  Modules: `ManifestValue` (the parsed YAML), `Text` (integer literals), `ByteConverter` (amounts such as `200GB`), `ManifestValidation`, `ManifestMessages` and `ManifestExamples`. `ManifestExamples` holds the concrete manifests the behaviour is pinned by.
  All of these are pure functions and lemmas.
- **Diego::Messenger.** This is the dispatcher that sends staging, desire and stop requests to the scheduler back ends.
  - Without its switches, it goes through the legacy stager and nsync.
  - With `temporary_local_staging` or `temporary_local_apps` on, it goes directly to the BBS.

  The routing policy is a set of pure functions (`DiegoRouting`). The clients are classes whose `calls` log (and, for the BBS apps client, the desired LRPs held) the methods update (`DiegoClients`). The `Messenger` class is proved against the routing functions (`DiegoMessenger`).
- **ServiceKeyAccess.** This is the access policy for service keys, together with the `allow_op_on_object` matcher its specs are written with. Each operation has two checks:
  - a token-level check, `<op>_with_token`;
  - an object-level check, `<op>`.

  The matcher passes when both pass. `ServiceKeyAccessRules` proves the access table role by role.

The model follows the behaviour the components' specs pin down; where they are silent, it makes the choices listed under "Left out".

## Model

| member | source | states |
|---|---|---|
| ManifestValue.Lookup | spec/unit/messages/app_manifest_message_spec.rb:7-15 | a key is found exactly when some entry carries it, and the value found is that of an entry with the key (the last one, as in a Ruby Hash) |
| ManifestValue.Attribute | spec/unit/messages/app_manifest_message_spec.rb:996-1002 | an attribute written as nil reads as absent; any other written value reads as itself |
| ManifestValue.HashItems | spec/unit/messages/app_manifest_message_spec.rb:367-377 | a value counts as a list of hashes only when it is a list and every item is a hash, and then item by item |
| ManifestValue.Underscore | spec/unit/messages/app_manifest_message_spec.rb:446-464 | underscoring keeps the length, replaces every '-' by '_' and leaves no '-' behind |
| ManifestValue.UnderscoreKeys | spec/unit/messages/app_manifest_message_spec.rb:446-464 | every top-level key is underscored, in order; values other than a process list are kept, and a process list keeps its items with each hash item's keys underscored |
| ManifestValue.LookupLast | spec/unit/messages/app_manifest_message_spec.rb:446-464 | reading a key yields the value of the last entry written under it: a later assignment replaces an earlier one |
| ManifestValue.UnderscoredLookup | spec/unit/messages/app_manifest_message_spec.rb:446-464 | after create_from_yml, a hyphenated attribute is read under its underscored name, unless a later key underscores to the same name |
| ManifestValue.CollidingKeysLastWins | spec/unit/messages/app_manifest_message_spec.rb:446-464 | when two keys underscore to the same name, the value written last is the one read |
| ManifestValue.UnderscoreItems | spec/unit/messages/app_manifest_message_spec.rb:446-464 | every hash listed under processes has its keys underscored and its values kept; other items are kept |
| ManifestMessages.CreateFromYml | spec/unit/messages/app_manifest_message_spec.rb:446-464 | create_from_yml keeps the number and order of entries and underscores every key; a value is kept unless it is the process list, whose hash items get underscored keys and keep their count |
| Text.NatToDigitsRoundTrip | spec/unit/messages/app_manifest_message_spec.rb:1005-1014 | the decimal rendering of a natural number reads back as that number |
| Text.IntToStringRoundTrip | spec/unit/messages/app_manifest_message_spec.rb:1005-1014 | Integer#to_s of any integer is read back by the integer-literal parser as the same integer |
| Text.DigitsValueAppend | spec/unit/messages/app_manifest_message_spec.rb:481-519 | the value of concatenated digits is the first part shifted by the second's length plus the second |
| ByteConverter.ParseUnit | spec/unit/messages/app_manifest_message_spec.rb:18-28 | a unit is recognised exactly when the text spells one of B, K, KB, M, MB, G, GB, T, TB in either case |
| ByteConverter.ParseQuantity | spec/unit/messages/app_manifest_message_spec.rb:17-91 | an amount is not a number exactly when it does not start like one; a parsed amount is well formed and renders back to the text |
| ByteConverter.ParseRendered | spec/unit/messages/app_manifest_message_spec.rb:17-91 | every well-formed amount parses back to itself (round trip) |
| ByteConverter.Megabytes | spec/unit/messages/app_manifest_message_spec.rb:481-519 | the megabytes are the floor of the magnitude in mebibytes, sign kept, never rounded up |
| ByteConverter.ToMegabytes | spec/unit/messages/app_manifest_message_spec.rb:80-90 | the conversion reports "not a number" exactly for text that does not start like a number |
| ByteConverter.ConvertWholeAmount | spec/unit/messages/app_manifest_message_spec.rb:470-519 | a whole number with a supported unit converts to number times the binary multiplier, floored to megabytes |
| ByteConverter.UnsupportedUnit | spec/unit/messages/app_manifest_message_spec.rb:18-28 | a number followed by anything but a supported unit is rejected for its unit |
| ManifestValidation.ByteFieldErrors | spec/unit/messages/app_manifest_message_spec.rb:17-91 | an amount gets at most one error, and none exactly when the converter skips it (absent or blank) or it converts to at least 1MB |
| ManifestValidation.ConvertToMb | spec/unit/messages/app_manifest_message_spec.rb:17-91 | an amount is skipped exactly when absent or blank (nil, false, blank text, empty list or hash); a bare integer or float is rejected for its unit; true or a non-empty list or hash is not a number |
| ManifestValidation.BareIntegerAmount | spec/unit/messages/app_manifest_message_spec.rb:417-443 | a bare integer amount (memory: 120) gets exactly the unsupported-unit error |
| ManifestValidation.UnsupportedUnitAmount | spec/unit/messages/app_manifest_message_spec.rb:18-28 | '200INVALID' and every number with an unsupported suffix get exactly the unsupported-unit error |
| ManifestValidation.NonNumericAmount | spec/unit/messages/app_manifest_message_spec.rb:80-90 | text that does not start like a number ('gerg herscheiser') gets exactly the not-a-number error |
| ManifestValidation.WholeAmountErrors | spec/unit/messages/app_manifest_message_spec.rb:495-519 | a whole amount with a unit is valid exactly when it is at least one mebibyte, and otherwise gets only the "greater than 0MB" error |
| ManifestValidation.ByteAmountErrors | spec/unit/messages/app_manifest_message_spec.rb:495-519 | an amount of so many bytes is in error exactly when below one megabyte |
| ManifestValidation.VisibleAmountErrors | spec/unit/messages/app_manifest_message_spec.rb:29-53 | an amount converting to fewer than 1MB gets exactly the "greater than 0MB" error, otherwise none |
| ManifestValidation.NegativeAmountErrors | spec/unit/messages/app_manifest_message_spec.rb:29-53 | every negative amount with a supported unit ('-1MB', '-35B') gets exactly the "greater than 0MB" error |
| ManifestValidation.BareIntegerHasNoUnit | spec/unit/messages/app_manifest_message_spec.rb:417-443 | every integer printed by to_s is rejected by the converter for its missing unit |
| ManifestValidation.InstancesErrors | spec/unit/messages/app_manifest_message_spec.rb:143-179 | instances get at most one error, and none exactly when absent, nil, or a non-negative integer written as a number or an integer literal |
| ManifestValidation.ScaleErrors | spec/unit/messages/app_manifest_message_spec.rb:17-179 | the scale attributes give at most three errors, one per attribute |
| ManifestValidation.ScaleEmpty | spec/unit/messages/app_manifest_message_spec.rb:17-179 | the scale attributes give no error exactly when instances are absent or a non-negative integer and memory and disk_quota are each skipped or at least 1MB |
| ManifestValidation.BuildpackErrors | spec/unit/messages/app_manifest_message_spec.rb:93-116 | a buildpack gives an error exactly when written and not a string, and then only "Buildpacks can only contain strings" |
| ManifestValidation.StackErrors | spec/unit/messages/app_manifest_message_spec.rb:118-141 | a stack gives an error exactly when written and not a string, and then only "Stack must be a string" |
| ManifestValidation.EnvErrors | spec/unit/messages/app_manifest_message_spec.rb:181-217 | env that is not a hash gives only "env must be a hash of keys and values"; env gives no error exactly when absent or a hash whose every name is accepted |
| ManifestValidation.EnvKeyError | spec/unit/messages/app_manifest_message_spec.rb:196-217 | a variable name is accepted exactly when it is non-empty, is not PORT and starts with neither VCAP_ nor VMC_ |
| ManifestValidation.EnvKeyErrors | spec/unit/messages/app_manifest_message_spec.rb:196-217 | the variables get no error exactly when every name is accepted, and never more errors than variables |
| ManifestValidation.EnvKeyErrorsAppend | spec/unit/messages/app_manifest_message_spec.rb:196-217 | each variable contributes its own errors independently of the others |
| ManifestValidation.DifferentPrefix | spec/unit/messages/app_manifest_message_spec.rb:196-217 | one differing character rules out a reserved prefix |
| ManifestValidation.RouteUrlErrors | spec/unit/messages/app_manifest_message_spec.rb:238-255 | the routes give no error exactly when the URL parser accepts every one, at most one per route, and each error names a rejected route |
| ManifestValidation.RouteErrors | spec/unit/messages/app_manifest_message_spec.rb:220-266 | routes that are not a list of hashes give only "Routes must be a list of route hashes"; routes give no error exactly when absent or a list of hashes whose every route is accepted |
| ManifestValidation.NoRouteErrors | spec/unit/messages/app_manifest_message_spec.rb:268-307 | no-route gets at most one error: "must be a boolean" when not a boolean, the combination error when true beside written routes, and none exactly when neither holds |
| ManifestValidation.RandomRouteErrors | spec/unit/messages/app_manifest_message_spec.rb:309-347 | random-route gives an error exactly when written and not a boolean, and then only "Random-route must be a boolean"; routes beside it are no error |
| ManifestValidation.ServicesErrors | spec/unit/messages/app_manifest_message_spec.rb:350-365 | services give an error exactly when written and not a list, and then only "Services must be a list of service instance names" |
| ManifestValidation.ProcessesErrors | spec/unit/messages/app_manifest_message_spec.rb:367-414 | processes that are not a list of hashes give only "Processes must be an array of process configurations"; processes give no error exactly when absent or a list whose errors are empty |
| ManifestValidation.ProcessListErrorsEmpty | spec/unit/messages/app_manifest_message_spec.rb:379-414 | a process list has no error exactly when every process has a non-blank type, no type is written twice and every process's scale is valid |
| ManifestValidation.NoDuplicateTypes | spec/unit/messages/app_manifest_message_spec.rb:401-414 | no duplicate is reported exactly when no type occurs twice |
| ManifestValidation.ValidExactlyWhenConforms | spec/unit/messages/app_manifest_message_spec.rb:6-443 | a manifest message is valid exactly when it meets every attribute rule at once: scale, buildpack, stack, env, routes, no-route, random-route, services and processes |
| ManifestValidation.MissingTypeErrors | spec/unit/messages/app_manifest_message_spec.rb:379-399 | processes lacking a type give one error however many lack it, and none exactly when every process has a non-blank type (nil, false, blank text, [] and {} count as blank) |
| ManifestExamples.BlankTypeIsMissing | spec/unit/messages/app_manifest_message_spec.rb:390-399 | a process whose type is written blank (nil, false, blank text, [] or {}) gives exactly the missing-type error |
| ManifestValidation.DuplicateTypeErrors | spec/unit/messages/app_manifest_message_spec.rb:401-414 | one "may only be present once" message per duplicated type, in order |
| ManifestValidation.DuplicateTypesExactlyOnce | spec/unit/messages/app_manifest_message_spec.rb:401-414 | a type written more than once is reported exactly once, any other type never |
| ManifestValidation.DuplicateTypeErrorCount | spec/unit/messages/app_manifest_message_spec.rb:401-414 | each repeated process type earns exactly one duplicate error, however often it repeats |
| ManifestValidation.DistinctOnce | spec/unit/messages/app_manifest_message_spec.rb:401-414 | uniq lists every written element exactly once |
| ManifestValidation.KeepRepeatedCount | spec/unit/messages/app_manifest_message_spec.rb:401-414 | keeping the repeated candidates keeps each exactly as often as it is a candidate, when it repeats |
| ManifestValidation.OccurrencesWithout | spec/unit/messages/app_manifest_message_spec.rb:401-414 | removing a value removes all its occurrences and keeps every other count |
| ManifestValidation.OccurrencesAppend | spec/unit/messages/app_manifest_message_spec.rb:401-414 | counts add up over concatenation |
| ManifestValidation.OccurrencesPositive | spec/unit/messages/app_manifest_message_spec.rb:401-414 | a value occurs a positive number of times exactly when it is in the list |
| ManifestValidation.ErrorOccurrences | spec/unit/messages/app_manifest_message_spec.rb:401-414 | a duplicate message occurs as often as its type is listed as duplicated |
| ManifestValidation.DuplicateMessageInjective | spec/unit/messages/app_manifest_message_spec.rb:401-414 | different types give different duplicate messages |
| ManifestValidation.ProcessAttributeErrorsEmpty | spec/unit/messages/app_manifest_message_spec.rb:532-584 | the process list's scale attributes have no error exactly when no process's do |
| ManifestValidation.FlattenEmpty | spec/unit/messages/app_manifest_message_spec.rb:379-414 | the errors of several processes, joined, are empty exactly when each process's are |
| ManifestValidation.Without | spec/unit/messages/app_manifest_message_spec.rb:401-414 | removal keeps exactly the other elements |
| ManifestValidation.Distinct | spec/unit/messages/app_manifest_message_spec.rb:401-414 | uniq keeps exactly the elements of its input |
| ManifestMessages.ProcessTypes | spec/unit/messages/app_manifest_message_spec.rb:532-584 | one type per listed process, in order |
| ManifestMessages.Processes | spec/unit/messages/app_manifest_message_spec.rb:532-584 | the listed processes are exactly the hashes under processes, in order, and there are none unless processes is a list of hashes |
| ManifestMessages.ProcessScales | spec/unit/messages/app_manifest_message_spec.rb:532-584 | one scale message per listed process, in order, typed by the process's type, with its instances and its amounts converted to megabytes |
| ManifestMessages.ScaleOf | spec/unit/messages/app_manifest_message_spec.rb:467-530 | a scale message carries the type, the instances exactly when written, and memory and disk converted to megabytes |
| ManifestMessages.ScaleMessages | spec/unit/messages/app_manifest_message_spec.rb:466-632 | one message per listed process, plus one for the app level exactly when scale is requested and no web process is listed; that app-level web message comes first, and otherwise the messages are exactly the listed processes' |
| ManifestMessages.UpdateMessages | spec/unit/messages/app_manifest_message_spec.rb:634-938 | one update per listed process, plus one for the app level exactly when an update is requested and no web process is listed; that app-level web update comes first, and otherwise the updates are exactly the listed processes' |
| ManifestMessages.UpdateOf | spec/unit/messages/app_manifest_message_spec.rb:634-758 | an update message carries the type, the command as translated, the health-check type with none read as process, the endpoint defaulted for http, and the timeout as written |
| ManifestMessages.ProcessUpdates | spec/unit/messages/app_manifest_message_spec.rb:760-938 | one update message per listed process, in order, typed by the process's type, with its command, health-check type, health-check endpoint and timeout translated as at the app level |
| ManifestMessages.Command | spec/unit/messages/app_manifest_message_spec.rb:712-744 | a command written as nil becomes the literal "null"; any other written command is kept, and an absent one stays absent |
| ManifestMessages.HealthCheckType | spec/unit/messages/app_manifest_message_spec.rb:663-672 | the deprecated type none becomes process; every other written type is kept |
| ManifestMessages.HealthCheckEndpoint | spec/unit/messages/app_manifest_message_spec.rb:686-708 | a written endpoint is kept; an endpoint is absent exactly when none is written and the type is not http |
| ManifestMessages.Buildpacks | spec/unit/messages/app_manifest_message_spec.rb:988-1002 | nil or "default" asks for no buildpacks; any other buildpack is the one buildpack asked for |
| ManifestMessages.AppUpdateLifecycle | spec/unit/messages/app_manifest_message_spec.rb:940-1003 | a lifecycle exists exactly when a buildpack or stack is written; buildpacks appear exactly when one is written, and are then those the written buildpack asks for; the stack is as written |
| ManifestMessages.EnvironmentVariables | spec/unit/messages/app_manifest_message_spec.rb:1005-1014 | variables exist exactly when env is a hash, with the same names in the same order, each value passed on as its text |
| ManifestMessages.StringifyValues | spec/unit/messages/app_manifest_message_spec.rb:1005-1014 | every variable keeps its name, and its value is passed on as text |
| ManifestMessages.RoutesUpdate | spec/unit/messages/app_manifest_message_spec.rb:1016-1046 | a routes update exists exactly when routes are written |
| ManifestMessages.EmptyManifest | spec/unit/messages/app_manifest_message_spec.rb:521-529 | an empty manifest asks for no scale, no update, no lifecycle, no variables and no routes |
| ManifestMessages.WebProcessOverridesAppLevel | spec/unit/messages/app_manifest_message_spec.rb:587-604 | with a web process listed, the app-level attributes change neither scale nor update messages |
| ManifestMessages.AppLevelWebComesFirst | spec/unit/messages/app_manifest_message_spec.rb:606-629 | without a listed web process, the app-level attributes give the first message, typed web, followed by the listed processes |
| ManifestMessages.ScaleMessageTypes | spec/unit/messages/app_manifest_message_spec.rb:466-632 | the types of the scale messages are web (when the app level counts) followed by the listed types |
| ManifestMessages.AtMostOneWebScale | spec/unit/messages/app_manifest_message_spec.rb:587-629 | unless web is listed twice, at most one scale message is for web |
| ManifestMessages.DeclaredTypeOccurrences | spec/unit/messages/app_manifest_message_spec.rb:401-414 | validation and translation count every non-blank process type alike |
| ManifestMessages.ValidManifestScalesWebOnce | spec/unit/messages/app_manifest_message_spec.rb:401-414 | a valid manifest yields at most one scale message for web |
| ManifestMessages.WebListedOnce | spec/unit/messages/app_manifest_message_spec.rb:401-414 | a process list without errors names web at most once |
| ManifestMessages.IntegerVariableRoundTrip | spec/unit/messages/app_manifest_message_spec.rb:1005-1014 | an integer variable's text reads back as the same integer |
| ManifestExamples.WholeAmountConverts | spec/unit/messages/app_manifest_message_spec.rb:470-479 | a whole amount with a unit converts to its floored size in mebibytes |
| ManifestExamples.Gigabytes200 | spec/unit/messages/app_manifest_message_spec.rb:470-479 | 200GB is 204800 megabytes |
| ManifestExamples.Gigabytes1000 | spec/unit/messages/app_manifest_message_spec.rb:470-479 | 1000GB is 1024000 megabytes |
| ManifestExamples.Gigabytes5 | spec/unit/messages/app_manifest_message_spec.rb:606-629 | 5GB is 5120 megabytes |
| ManifestExamples.Gigabytes30 | spec/unit/messages/app_manifest_message_spec.rb:606-629 | 30GB is 30720 megabytes |
| ManifestExamples.Bytes3145728 | spec/unit/messages/app_manifest_message_spec.rb:481-493 | 3145728B is 3 megabytes |
| ManifestExamples.Bytes7340032 | spec/unit/messages/app_manifest_message_spec.rb:481-493 | 7340032B is 7 megabytes |
| ManifestExamples.Bytes1048576 | spec/unit/messages/app_manifest_message_spec.rb:495-507 | exactly one mebibyte in bytes is 1 megabyte |
| ManifestExamples.Bytes1048575 | spec/unit/messages/app_manifest_message_spec.rb:509-519 | one byte short of a mebibyte floors to 0 megabytes |
| ManifestExamples.UnrequestedRouteAndProcessErrors | spec/unit/messages/app_manifest_message_spec.rb:7-15 | attributes that are not written give no errors |
| ManifestExamples.AppAttributeErrors | spec/unit/messages/app_manifest_message_spec.rb:417-443 | without routes or processes, the errors are those of scale, buildpack, stack and env, in that order |
| ManifestExamples.ScaleAttributeErrors | spec/unit/messages/app_manifest_message_spec.rb:7-15 | with only scale attributes written, the errors are exactly the scale errors |
| ManifestExamples.NegativeKilobytes | spec/unit/messages/app_manifest_message_spec.rb:417-443 | disk_quota '-120KB' is not greater than 0MB |
| ManifestExamples.NegativeInstances | spec/unit/messages/app_manifest_message_spec.rb:168-178 | instances -1 must be at least 0 |
| ManifestExamples.NonStringBuildpack | spec/unit/messages/app_manifest_message_spec.rb:105-115 | a buildpack that is not a string gets the buildpack error |
| ManifestExamples.NonStringStack | spec/unit/messages/app_manifest_message_spec.rb:130-140 | a stack that is not a string gets the stack error |
| ManifestExamples.NonHashEnv | spec/unit/messages/app_manifest_message_spec.rb:182-194 | env that is not a hash gets the env error |
| ManifestExamples.SixBadScaleErrors | spec/unit/messages/app_manifest_message_spec.rb:417-443 | the three bad scale attributes give the instances, memory and disk errors, in that order |
| ManifestExamples.SixBadOtherErrors | spec/unit/messages/app_manifest_message_spec.rb:417-443 | the bad buildpack, stack and env give one error each |
| ManifestExamples.SixErrors | spec/unit/messages/app_manifest_message_spec.rb:417-443 | six invalid attributes give exactly six errors, one each |
| ManifestExamples.SixBadAttributesWritten | spec/unit/messages/app_manifest_message_spec.rb:418-427 | the manifest of the six bad attributes is one SixErrors applies to |
| ManifestExamples.BadKeyErrors | spec/unit/messages/app_manifest_message_spec.rb:196-217 | the empty, VCAP_, VMC_ and PORT names give one error each, in order |
| ManifestExamples.EnvOnlyErrors | spec/unit/messages/app_manifest_message_spec.rb:196-217 | with only env written, the errors are the variable-name errors |
| ManifestExamples.BadEnvironmentKeys | spec/unit/messages/app_manifest_message_spec.rb:196-217 | a manifest with the four bad variable names is invalid with exactly those four errors |
| ManifestExamples.BadEnvironmentKeysWritten | spec/unit/messages/app_manifest_message_spec.rb:196-217 | the manifest of the four bad variable names is one BadEnvironmentKeys applies to |
| ManifestExamples.TwiceEachDeclared | spec/unit/messages/app_manifest_message_spec.rb:401-414 | four processes typed a, a, b, b declare the types a, a, b, b |
| ManifestExamples.TwiceEachDuplicates | spec/unit/messages/app_manifest_message_spec.rb:401-414 | a, a, b, b has the duplicates a and b |
| ManifestExamples.TwiceEachErrors | spec/unit/messages/app_manifest_message_spec.rb:401-414 | such a process list has exactly the two duplicate errors |
| ManifestExamples.RepeatedProcessTypes | spec/unit/messages/app_manifest_message_spec.rb:401-414 | processes foo, foo, bob, bob give exactly "foo Process may only be present once" and "bob Process may only be present once" |
| ManifestExamples.RepeatedTypesWritten | spec/unit/messages/app_manifest_message_spec.rb:401-414 | the spec's four processes are typed twice each and have valid scales |
| ManifestExamples.FourTypedScales | spec/unit/messages/app_manifest_message_spec.rb:401-414 | four processes each with a type and a non-negative instance count have valid scales |
| ManifestExamples.MalformedRoutes | spec/unit/messages/app_manifest_message_spec.rb:238-255 | only the routes the URL parser rejects are reported, in order |
| ManifestExamples.RouteAttributeErrors | spec/unit/messages/app_manifest_message_spec.rb:220-347 | with only route attributes written, the errors are those of routes, no-route and random-route, in that order |
| ManifestExamples.AcceptedRoutes | spec/unit/messages/app_manifest_message_spec.rb:221-236 | a list of route hashes whose routes the URL parser accepts gives no route error |
| ManifestExamples.ValidRoutes | spec/unit/messages/app_manifest_message_spec.rb:221-236 | two routes the URL parser accepts make a valid message |
| ManifestExamples.ValidRoutesWritten | spec/unit/messages/app_manifest_message_spec.rb:222-229 | the two-route manifest is one ValidRoutes applies to |
| ManifestExamples.RoutesNotHashes | spec/unit/messages/app_manifest_message_spec.rb:257-266 | routes ['blah'] give exactly "Routes must be a list of route hashes" |
| ManifestExamples.NoRouteAlone | spec/unit/messages/app_manifest_message_spec.rb:271-278 | no-route: true alone is valid |
| ManifestExamples.NoRouteNotBoolean | spec/unit/messages/app_manifest_message_spec.rb:280-288 | a no-route that is not a boolean gives exactly "No-route must be a boolean" |
| ManifestExamples.NoRouteWithRoutes | spec/unit/messages/app_manifest_message_spec.rb:290-306 | no-route: true beside an accepted route gives exactly the combination error |
| ManifestExamples.NoRouteWithRoutesWritten | spec/unit/messages/app_manifest_message_spec.rb:291-299 | the no-route manifest with a route is one NoRouteWithRoutes applies to |
| ManifestExamples.RandomRouteAlone | spec/unit/messages/app_manifest_message_spec.rb:312-319 | random-route: true alone is valid |
| ManifestExamples.RandomRouteNotBoolean | spec/unit/messages/app_manifest_message_spec.rb:321-329 | a random-route that is not a boolean gives exactly "Random-route must be a boolean" |
| ManifestExamples.RandomRouteWithRoutes | spec/unit/messages/app_manifest_message_spec.rb:331-346 | random-route: true beside an accepted route is valid |
| ManifestExamples.RandomRouteWithRoutesWritten | spec/unit/messages/app_manifest_message_spec.rb:332-340 | the random-route manifest with a route is one RandomRouteWithRoutes applies to |
| ManifestExamples.ServicesNotList | spec/unit/messages/app_manifest_message_spec.rb:350-365 | services 'string' give exactly one error, "Services must be a list of service instance names" |
| ManifestExamples.ProcessesNotArray | spec/unit/messages/app_manifest_message_spec.rb:367-377 | processes 'string' give exactly one error, "Processes must be an array of process configurations" |
| ManifestExamples.ScaleOnlyErrors | spec/unit/messages/app_manifest_message_spec.rb:467-519 | with only scale attributes written, the errors are those of instances, memory and disk |
| ManifestExamples.ScaleOnlyMessages | spec/unit/messages/app_manifest_message_spec.rb:467-519 | with only scale attributes written, the one scale message is for web with the converted amounts |
| ManifestExamples.ZeroMegabytesError | spec/unit/messages/app_manifest_message_spec.rb:509-519 | an amount that converts to 0MB is not greater than 0MB |
| ManifestExamples.OneByteShort | spec/unit/messages/app_manifest_message_spec.rb:509-519 | memory and disk one byte short of a mebibyte give exactly the two "greater than 0MB" errors |
| ManifestExamples.OneByteShortWritten | spec/unit/messages/app_manifest_message_spec.rb:509-519 | the one-byte-short manifest is one OneByteShort applies to |
| ManifestExamples.AppLevelScale | spec/unit/messages/app_manifest_message_spec.rb:470-479 | instances 5, memory 200GB and disk 1000GB are valid and give one web scale message with 204800 and 1024000 megabytes |
| ManifestExamples.AppLevelScaleWritten | spec/unit/messages/app_manifest_message_spec.rb:470-479 | the app-level scale manifest is one AppLevelScale applies to |
| ManifestExamples.LargeProcessScale | spec/unit/messages/app_manifest_message_spec.rb:532-584 | a process with instances 5, 200GB and 1000GB scales to 5, 204800 and 1024000 |
| ManifestExamples.ListedWebWins | spec/unit/messages/app_manifest_message_spec.rb:587-604 | a listed web process wins: the only scale message is the web process's |
| ManifestExamples.AppLevelThenWorker | spec/unit/messages/app_manifest_message_spec.rb:606-629 | with a listed worker, the app level scales web first (1, 5120, 30720), then the worker |
| ManifestExamples.ListedWeb | spec/unit/messages/app_manifest_message_spec.rb:587-604 | the spec's web process is a large process typed web |
| ManifestExamples.ListedWorker | spec/unit/messages/app_manifest_message_spec.rb:606-629 | the spec's worker process is a large process typed worker |
| ManifestExamples.HealthCheckNone | spec/unit/messages/app_manifest_message_spec.rb:663-672 | health_check_type none gives one web update with type process |
| ManifestExamples.HealthCheckHttp | spec/unit/messages/app_manifest_message_spec.rb:686-696 | health_check_type http gives the default endpoint "/" |
| ManifestExamples.HealthCheckPort | spec/unit/messages/app_manifest_message_spec.rb:698-708 | health_check_type port gives no endpoint |
| ManifestExamples.TimeoutOnly | spec/unit/messages/app_manifest_message_spec.rb:674-684 | a timeout alone gives one web update with only the timeout |
| ManifestExamples.NullCommand | spec/unit/messages/app_manifest_message_spec.rb:724-733 | a nil command gives the command "null" |
| ManifestExamples.LifecycleDefaults | spec/unit/messages/app_manifest_message_spec.rb:975-1002 | "default" or nil buildpacks ask for no buildpacks; a stack alone leaves buildpacks unrequested |
| ManifestExamples.VariablesAsText | spec/unit/messages/app_manifest_message_spec.rb:1005-1014 | variable values are passed on as text, false as "false" |
| DiegoTypes.ProcessGuid | spec/unit/lib/cloud_controller/diego/messenger_spec.rb:68 | the process guid is the process's guid, a '-', and its version |
| DiegoTypes.ProcessGuidInjective | spec/unit/lib/cloud_controller/diego/messenger_spec.rb:68 | processes with equal-length guids share a process guid only when they are equal |
| DiegoRouting.Record | spec/unit/lib/cloud_controller/diego/messenger_spec.rb:41-46 | recording a call appends it to its recipient's log and leaves every other log as it was |
| DiegoRouting.OneCallPerDispatch | spec/unit/lib/cloud_controller/diego/messenger_spec.rb:24-165 | every dispatch adds exactly one call across the four clients |
| DiegoRouting.StageRouting | spec/unit/lib/cloud_controller/diego/messenger_spec.rb:24-63 | staging is addressed by the droplet guid; it goes to the BBS stager with the staging task exactly when local staging is on and the lifecycle is buildpack, and otherwise to the stager with the package request |
| DiegoRouting.DesireRouting | spec/unit/lib/cloud_controller/diego/messenger_spec.rb:65-105 | desire is addressed by the process guid; nsync gets the desire request with the configured timeout, or with local apps the BBS gets the LRP built from config, process and desire message |
| DiegoRouting.CreateWhenAbsent | spec/unit/lib/cloud_controller/diego/messenger_spec.rb:97-103 | with local apps, an LRP the BBS does not hold is created and one it holds is updated |
| DiegoRouting.DesireIdempotent | spec/unit/lib/cloud_controller/diego/messenger_spec.rb:97-103 | desiring twice leaves the BBS as desiring once, which holds exactly the built LRP under the process guid and keeps every other LRP |
| DiegoRouting.StopStagingRouting | spec/unit/lib/cloud_controller/diego/messenger_spec.rb:107-119 | stop staging always reaches the stager with the staging guid unchanged |
| DiegoRouting.StopIndexRouting | spec/unit/lib/cloud_controller/diego/messenger_spec.rb:121-135 | stop index always reaches nsync with the process guid and the index |
| DiegoRouting.StopAppRouting | spec/unit/lib/cloud_controller/diego/messenger_spec.rb:137-165 | stop app reaches nsync, or the BBS apps client when local apps are on, and the BBS then no longer holds the LRP |
| DiegoClients.StagerClient.Stage | spec/unit/lib/cloud_controller/diego/messenger_spec.rb:45 | the stager records the stage call with its guid and message |
| DiegoClients.StagerClient.StopStaging | spec/unit/lib/cloud_controller/diego/messenger_spec.rb:117 | the stager records the stop-staging call |
| DiegoClients.NsyncClient.DesireApp | spec/unit/lib/cloud_controller/diego/messenger_spec.rb:81 | nsync records the desire call |
| DiegoClients.NsyncClient.StopIndex | spec/unit/lib/cloud_controller/diego/messenger_spec.rb:133 | nsync records the stop-index call |
| DiegoClients.NsyncClient.StopApp | spec/unit/lib/cloud_controller/diego/messenger_spec.rb:148 | nsync records the stop-app call |
| DiegoClients.BbsStagerClient.Stage | spec/unit/lib/cloud_controller/diego/messenger_spec.rb:60 | the BBS stager records the stage call |
| DiegoClients.BbsAppsClient.DesireApp | spec/unit/lib/cloud_controller/diego/messenger_spec.rb:85 | the BBS apps client records the desire call and holds the LRP under the guid |
| DiegoClients.BbsAppsClient.UpdateApp | spec/unit/lib/cloud_controller/diego/messenger_spec.rb:97-103 | the BBS apps client records the update call and holds the new LRP under the guid |
| DiegoClients.BbsAppsClient.StopApp | spec/unit/lib/cloud_controller/diego/messenger_spec.rb:162 | the BBS apps client records the stop call and no longer holds the guid |
| DiegoClients.CreateOrUpdateApp | spec/unit/lib/cloud_controller/diego/messenger_spec.rb:97-103 | one call, update when the LRP is held and create otherwise; afterwards the BBS holds the built LRP under the guid |
| DiegoMessenger.Messenger.SendStageRequest | spec/unit/lib/cloud_controller/diego/messenger_spec.rb:24-63 | exactly the staging call the routing policy picks is recorded, on its client, and no other log or LRP changes |
| DiegoMessenger.Messenger.SendDesireRequest | spec/unit/lib/cloud_controller/diego/messenger_spec.rb:65-105 | exactly the desire call the routing policy picks is recorded, and the BBS's LRPs are updated by it |
| DiegoMessenger.Messenger.SendStopStagingRequest | spec/unit/lib/cloud_controller/diego/messenger_spec.rb:107-119 | exactly the stop-staging call is recorded on the stager |
| DiegoMessenger.Messenger.SendStopIndexRequest | spec/unit/lib/cloud_controller/diego/messenger_spec.rb:121-135 | exactly the stop-index call is recorded on nsync |
| DiegoMessenger.Messenger.SendStopAppRequest | spec/unit/lib/cloud_controller/diego/messenger_spec.rb:137-165 | exactly the stop-app call the routing policy picks is recorded, and the BBS drops the LRP when it is the recipient |
| DiegoMessenger.Messenger.Logs | spec/unit/lib/cloud_controller/diego/messenger_spec.rb:9-11 | the logs are those of the four clients |
| DiegoMessenger.Messenger.constructor | spec/unit/lib/cloud_controller/diego/messenger_spec.rb:7-21 | the messenger holds the configuration and the four injected clients |
| DiegoMessenger.DesireTwice | spec/unit/lib/cloud_controller/diego/messenger_spec.rb:84-103 | with local apps, two desires for a new process create and then update it, nsync is untouched, and the BBS ends as after one desire |
| ServiceKeyAccess.ParseOpName | spec/unit/access/service_key_access_spec.rb:18-19 | a name denotes an operation exactly when it is that operation's name |
| ServiceKeyAccess.OpNameIsPlain | spec/support/matchers/allow_op_on_object.rb:3 | no operation's name already ends in _with_token |
| ServiceKeyAccess.ParseQuery | spec/support/matchers/allow_op_on_object.rb:3 | a parsed check names itself back |
| ServiceKeyAccess.ParseQueryName | spec/support/matchers/allow_op_on_object.rb:3 | every check is found again from its name (round trip) |
| ServiceKeyAccess.Can | spec/support/matchers/allow_op_on_object.rb:3 | can? fails exactly for a name that denotes no check, and otherwise answers the token or object check the name denotes |
| ServiceKeyAccess.TokenCheckIgnoresParams | spec/support/matchers/allow_op_on_object.rb:3 | a token-level check looks at neither the key nor the extra parameters |
| AccessMatchers.AllowOpOnObject | spec/support/matchers/allow_op_on_object.rb:1-9 | the matcher passes exactly when the token check, asked without parameters, and the object check with them both pass; a failing token check fails it |
| AccessMatchers.MatcherIsConjunction | spec/support/matchers/allow_op_on_object.rb:3 | for a known operation the matcher is the conjunction of the two checks |
| ServiceKeyAccessRules.IndexWithoutRelatedObject | spec/unit/access/service_key_access_spec.rb:57-85 | listing without a related object is open to every caller |
| ServiceKeyAccessRules.IndexWithRelatedObject | spec/unit/access/service_key_access_spec.rb:207-213 | listing a related instance's keys is allowed exactly to admins, read-only admins and space developers |
| ServiceKeyAccessRules.AdminFullAccess | spec/unit/access/service_key_access_spec.rb:21-31 | an admin may do every operation |
| ServiceKeyAccessRules.AdminReadOnlyAccess | spec/unit/access/service_key_access_spec.rb:33-43 | a read-only admin may read and not write |
| ServiceKeyAccessRules.SpaceDeveloperOperations | spec/unit/access/service_key_access_spec.rb:189-199 | a space developer may create, read, delete and read credentials, but not read for update |
| ServiceKeyAccessRules.SuspendedOrgIsReadOnly | spec/unit/access/service_key_access_spec.rb:201-205 | in a suspended organization a space developer may read but not write |
| ServiceKeyAccessRules.ReadScopeIsReadOnly | spec/unit/access/service_key_access_spec.rb:216-238 | without the write scope nobody but an admin writes; a space developer with the read scope still reads |
| ServiceKeyAccessRules.NoScopesNoAccess | spec/unit/access/service_key_access_spec.rb:240-262 | a token with no scopes gets no access, yet may still list |
| ServiceKeyAccessRules.DefensiveRolesNoAccess | spec/unit/access/service_key_access_spec.rb:57-187 | organization roles, space managers and space auditors get no access, may not read credentials and may not list a related instance's keys |
| ServiceKeyAccessRules.ReadEnvOnlyForDevelopers | spec/unit/access/service_key_access_spec.rb:189-199 | apart from admins and read-only admins, credentials are readable only by space developers, and by a space developer exactly when the token carries the read scope or the caller is also a global auditor |

## Left out

- Route URLs are checked by a URI parser that is not part of this model. `ManifestValidation.RouteErrors` takes the URL check as a parameter `wellFormedUrl`, so the invalid-URI test is modelled only through that parameter.
- Variable values that are floats, lists or hashes are printed by Ruby's own `to_s`. `ManifestMessages.EnvValueText` takes that printer as a parameter `renderOther`. Strings, booleans, integers and nil are printed in the model.
- Whether a buildpack or stack exists is a database lookup; it is not part of this model. Only the type checks are modelled.
- String#underscore is modelled only for what manifest keys use: '-' becomes '_'. Camel-case splitting is not modelled.
- String#blank? is modelled over ASCII white space only (space, tab, newline, carriage return). Unicode blanks are not.
- Float amounts such as `memory: 1.5` are rejected for their missing unit. The exact printing of floats is not modelled.
- ByteConverter.Megabytes: computes exactly over decimal digits. The converter's double-precision arithmetic can differ for fractions finer than a double can hold; that rounding is not modelled.
- ManifestValidation.DeclaredTypes: only string types are compared for duplicates. Two processes whose types are the same non-string value (say, both 1) are not reported as duplicates.
- ManifestValidation.IsBlank: Object#blank? is modelled for the YAML values only: nil, false, blank text, an empty list and an empty hash.
- The message objects (`ScaleMessage`, `UpdateMessage`, `LifecycleData`) are values. Their own validations are not part of this model.
- Env and process errors are given in one fixed order. Where the specs compare with `match_array`, only the set of messages is pinned.
- ManifestExamples.OneByteShort covers the app-level amounts. The same case for a listed process follows from ManifestValidation.WholeAmountErrors and is not written out.
- The payload builders (Diego::Protocol, RecipeBuilder, AppRecipeBuilder) are deterministic. They are free datatype constructors identified by their arguments, and their internal message formats are not modelled.
- Network errors raised by the clients, and their propagation, are not modelled. Each client call always succeeds and is recorded.
- DiegoTypes.ProcessGuid: the exact format of ProcessGuid.from_process is not part of this model. It is modelled as guid, '-', version, and injectivity is proved for guids of equal length (as fixed-width guids are).
- DiegoClients.BbsAppsClient.StopApp is modelled as removing the desired LRP from the BBS. The BBS's own state is not otherwise modelled.
- Staging calls are addressed by the droplet guid, as the staging tests expect.
- DiegoRouting.StageRouting: a staging with no lifecycle recorded goes to the stager. The tests do not pin that case; it is a choice of this model.
- The switches are read from the configuration the Messenger holds. The configuration passed to each call feeds the builders and the health-check timeout.
- ServiceKeyAccessRules: the shared examples (`full_access`, `read_only_access`, `no_access`) are not part of this model. They are taken to cover read plus the writing operations create, read_for_update, update and delete.
- ServiceKeyAccess.ObjectAllows: the related object given to `index` is taken to be the key's own service instance.
- ServiceKeyAccess.ObjectAllows: read_for_update and update are allowed only to admins. The specs deny read_for_update to space developers and pin update only through the shared examples.
- ServiceKeyAccessRules: the global auditor's access beyond listing is assumed. The global-auditor spec pins only that it may list without a related object and not with one; its read access follows only from the assumed token rule for global auditors, through which ReadEnvOnlyForDevelopers lets a space developer who is also a global auditor read credentials without the read scope.
- Not logged in is modelled as a caller with no roles. The user lookup and token decoding themselves are not modelled.
