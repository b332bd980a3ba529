# AppCfg invocation of the maven-gae-plugin, in Dafny

`EngineGoalBase` is the base class of the plugin's Maven goals that drive
Google App Engine's `AppCfg` tool. Before it calls `AppCfg`, it does three
things:

- It builds the command line from the goal's configuration: the SDK root, the
  upload server, prompt suppression, the e-mail, host and proxy, `--passin`,
  jar splitting and keeping the upload directory.
- It fills gaps in that configuration from the `<server>` and `<proxy>` entries
  of Maven's `settings.xml`.
- It prepares two JVM system properties, `appengine.sdk.root` and
  `java.class.path`.

It then either calls `AppCfg.main` directly or, when the settings entry holds
a password, starts a thread that types that password into AppCfg's standard
input.

The project models this core in six modules:

| file | module | contents |
|---|---|---|
| `wrappers.dfy` | `Wrappers` | `Option`. A Java reference that may be `null` is an `Option`. |
| `java_text.dfy` | `JavaText` | The `java.lang.String` behaviour the code relies on: `"" + s` on a null reference gives `"null"`, `s != null && s.length() > 0`, `String.contains`, and rendering an `int` in decimal. |
| `maven_settings.dfy` | `MavenSettings` | The parts of Maven's `Settings`, `Server` and `Proxy` that are read. |
| `argument_builder.dfy` | `ArgumentBuilder` | The argument vector and `runAppCfg`'s password decision, as functions of the goal's fields (`Config`), with the lemmas about them. |
| `sdk_setup.dfy` | `SdkSetup` | `assureSystemProperties`, as a function from the system properties before the call to the properties after it and the failure, if any. Also holds the lemmas about it. |
| `engine_goal.dfy` | `EngineGoal` | The imperative class `EngineGoalBase`, with the fields and methods the model covers (see "Left out"). `hasServerSettings` is the function `ArgumentBuilder.HasServerSettings`. |

In `EngineGoal`:

- `ArgList` stands for the `java.util.List<String>` that the `add*Option`
  helpers append to in place.
- `SystemProperties` stands for the JVM's global property table.
- Each method is proved against the functions of `ArgumentBuilder` and
  `SdkSetup`.

Two quirks of the code are modelled as written:

- `addEmailOption` sets the `passIn` field while the vector is being built. So
  `--passin` reflects that assignment, and the object leaves
  `getAppCfgArgs` changed (`AfterBuild`).
- The tools jar is built from the `sdkDir` field, not from the resolved
  `appengine.sdk.root` property. When the property is set and `sdkDir` is
  `null`, the jar path is `null/lib/appengine-tools-api.jar`.

## Model

Source paths are relative to the repository root.

| member | source | states |
|---|---|---|
| JavaText.ContainsIffWindow | src/main/java/net/kindleit/gae/EngineGoalBase.java:275 | The model of `classpath.contains(toolsJar)` holds exactly when some window of the class path equals the jar path. |
| JavaText.Contains | src/main/java/net/kindleit/gae/EngineGoalBase.java:275 | Definition of `String.contains`: `t` is a prefix of `s` or of one of its tails. A contained string is never longer than the container. Its properties are stated by `ContainsIffWindow` and `ContainsSuffix`. |
| JavaText.JavaString | src/main/java/net/kindleit/gae/EngineGoalBase.java:303 | Definition of Java's `"" + s`: the string itself, or the text `null` for a null reference. |
| JavaText.IntToString | src/main/java/net/kindleit/gae/EngineGoalBase.java:327 | Definition of the decimal rendering of the port. The result is non-empty: digits, with a leading `-` for negative ports. `NatToStringRoundTrip` states that it reads back. |
| JavaText.ContainsSuffix | src/main/java/net/kindleit/gae/EngineGoalBase.java:275-277 | A class path that ends in the jar contains it, so the appended class path passes the `contains` test. |
| JavaText.NatToStringRoundTrip | src/main/java/net/kindleit/gae/EngineGoalBase.java:327 | The decimal port in `host:port` reads back as the port and starts with `0` only for port 0. |
| ArgumentBuilder.StringOption | src/main/java/net/kindleit/gae/EngineGoalBase.java:341-346 | At most one token. A token is produced exactly when the value is non-null and non-empty, and it is the key followed by the value. |
| ArgumentBuilder.BooleanOption | src/main/java/net/kindleit/gae/EngineGoalBase.java:334-339 | At most one token. A token is produced exactly when the flag is set, and it is the bare key. |
| ArgumentBuilder.HasServerSettings | src/main/java/net/kindleit/gae/EngineGoalBase.java:162-169 | True exactly when a server id is configured and `settings.xml` has an entry for it. |
| ArgumentBuilder.HostPort | src/main/java/net/kindleit/gae/EngineGoalBase.java:327 | `host + ":" + port` is never empty, so a settings proxy always produces a `--proxy=` token. |
| ArgumentBuilder.EmailOption | src/main/java/net/kindleit/gae/EngineGoalBase.java:309-320 | Definition of what `addEmailOption` appends: at most one token. Its properties are stated by `EmailPrecedence` and `TokensOfOption`. |
| ArgumentBuilder.ProxyOption | src/main/java/net/kindleit/gae/EngineGoalBase.java:322-332 | Definition of what `addProxyOption` appends: at most one token. Its properties are stated by `ProxyPrecedence` and `ProxyGapAsWritten`. |
| ArgumentBuilder.ForcesPassIn | src/main/java/net/kindleit/gae/EngineGoalBase.java:313-316 | Definition of the case in which `addEmailOption` sets `passIn`. It requires a server entry and no configured e-mail. Its effect is stated by `AfterBuild`, `BooleanFlags` and `RebuildIsStable`. |
| ArgumentBuilder.CommonArgs | src/main/java/net/kindleit/gae/EngineGoalBase.java:300-307 | One or two tokens. The first is `--sdk_root=` plus the SDK dir (`null` rendered as text). A second token, `--server=` plus the upload server, is present exactly when the upload server is non-empty. |
| ArgumentBuilder.AppCfgArgs | src/main/java/net/kindleit/gae/EngineGoalBase.java:286-298 | Definition of the vector `getAppCfgArgs` returns. It is non-empty and starts with the SDK root. Its properties are stated by `AppCfgArgsInCallOrder`, `TokensOfOption`, `TokenOrder` and the lemmas that follow them. |
| ArgumentBuilder.AppCfgArgsInCallOrder | src/main/java/net/kindleit/gae/EngineGoalBase.java:286-298 | The vector is the common arguments followed by the seven helper contributions, in the order `getAppCfgArgs` calls the helpers. |
| ArgumentBuilder.TokensOfOption | src/main/java/net/kindleit/gae/EngineGoalBase.java:286-298 | The tokens that carry an option's key are exactly that option's contribution, so no option appears twice. |
| ArgumentBuilder.TokenOrder | src/main/java/net/kindleit/gae/EngineGoalBase.java:286-298 | Every token carries exactly one option key. Keys occur in the fixed order sdk_root, server, disable_prompt, email, host, proxy, passin, enable_jar_splitting, retain_upload_dir. |
| ArgumentBuilder.LeadingTokens | src/main/java/net/kindleit/gae/EngineGoalBase.java:300-307 | The vector starts with the SDK root. The upload server is the second token exactly when it is non-empty, and it appears nowhere otherwise. |
| ArgumentBuilder.FlagPresence | src/main/java/net/kindleit/gae/EngineGoalBase.java:334-339 | An option added through `addBooleanOption` is in the vector exactly when its flag is set. |
| ArgumentBuilder.DisablePromptFlag | src/main/java/net/kindleit/gae/EngineGoalBase.java:289 | `--disable_prompt` is present exactly when Maven runs non-interactively. |
| ArgumentBuilder.BooleanFlags | src/main/java/net/kindleit/gae/EngineGoalBase.java:293-295 | `--enable_jar_splitting` and `--retain_upload_dir` follow their fields. `--passin` is present exactly when the field is set or a settings entry with a password supplied the e-mail. |
| ArgumentBuilder.EmailPrecedence | src/main/java/net/kindleit/gae/EngineGoalBase.java:309-320 | The `--email=` token is the settings username when a server entry is used and no e-mail is configured, and the configured e-mail otherwise. An empty or missing value produces no token. |
| ArgumentBuilder.ProxyPrecedence | src/main/java/net/kindleit/gae/EngineGoalBase.java:322-332 | A configured proxy wins. Otherwise, with a server entry in use, the active settings proxy is given as `host:port`, and there is no token when neither applies. |
| ArgumentBuilder.AfterBuild | src/main/java/net/kindleit/gae/EngineGoalBase.java:314-317 | Building the vector changes only `passIn`. Afterwards `passIn` is set exactly when it was set before or the settings password case forced it. |
| ArgumentBuilder.RebuildIsStable | src/main/java/net/kindleit/gae/EngineGoalBase.java:309-320 | The forced case puts `--passin` in the vector and leaves the field set. Building again produces the same vector and the same state. |
| ArgumentBuilder.InjectedPassword | src/main/java/net/kindleit/gae/EngineGoalBase.java:188-193 | A password is typed in exactly when a server entry is in use and it has a password, and it is that password. |
| ArgumentBuilder.InjectionImpliesPassIn | src/main/java/net/kindleit/gae/EngineGoalBase.java:188-193 | When the password is typed in and no e-mail was configured, `--passin` is in the vector. |
| ArgumentBuilder.PassInGapAsWritten | src/main/java/net/kindleit/gae/EngineGoalBase.java:309-320 | As written, when an e-mail is configured, `passIn` is unset and a settings password is typed in, the vector has no `--passin`. |
| ArgumentBuilder.PassInGapWitness | src/main/java/net/kindleit/gae/EngineGoalBase.java:188-193 | A concrete configuration with an explicit e-mail and the settings password `pw`: `pw` is typed in and there is no `--passin`. |
| ArgumentBuilder.IntendedInjectionImpliesPassIn | src/main/java/net/kindleit/gae/EngineGoalBase.java:91-97 | Under the documented rule, every injected password comes with `--passin`. Runs that inject no password get the same vector as the code produces. |
| ArgumentBuilder.ProxyGapAsWritten | src/main/java/net/kindleit/gae/EngineGoalBase.java:322-332 | As written, with no usable server entry and no configured proxy, the vector has no `--proxy=` token, even when `settings.xml` has an active proxy. |
| ArgumentBuilder.ProxyOptionIntended | src/main/java/net/kindleit/gae/EngineGoalBase.java:124-130 | The documented default for the proxy: at most one token. With no configured proxy, the token comes from the active settings proxy, whatever the server entry. |
| ArgumentBuilder.IntendedProxyDefault | src/main/java/net/kindleit/gae/EngineGoalBase.java:124-130 | Under the documented default, an active settings proxy becomes `--proxy=host:port` whenever no proxy is configured. Wherever the code consults the settings or the configured proxy, the two rules give the same token. |
| SdkSetup.ResolvedSdk | src/main/java/net/kindleit/gae/EngineGoalBase.java:256-263 | The SDK root in force is the `appengine.sdk.root` property when set, and `sdkDir` otherwise. |
| SdkSetup.ToolsJar | src/main/java/net/kindleit/gae/EngineGoalBase.java:274 | Definition of the tools jar path. It always ends in `/lib/appengine-tools-api.jar`. |
| SdkSetup.Assure | src/main/java/net/kindleit/gae/EngineGoalBase.java:253-279 | Definition of `assureSystemProperties` as a function: it never removes a property. Its properties are stated by `UndefinedHome`, `NotADirectory`, `ClassPathMissing`, `ClassPathExtended`, `OnlyTwoPropertiesChange`, `Established` and `Idempotent`. |
| SdkSetup.UndefinedHome | src/main/java/net/kindleit/gae/EngineGoalBase.java:256-261 | The call fails with "property not set" exactly when neither the property nor `sdkDir` is set, and then changes nothing. |
| SdkSetup.NotADirectory | src/main/java/net/kindleit/gae/EngineGoalBase.java:262-268 | The call fails with "not a directory" exactly when the resolved root is not a directory. The root property has been set by then, and nothing else has changed. |
| SdkSetup.ClassPathMissing | src/main/java/net/kindleit/gae/EngineGoalBase.java:273-275 | An unset `java.class.path` fails the call (a `NullPointerException`) exactly when the root resolved to a directory, and then only the root property has changed. |
| SdkSetup.ClassPathExtended | src/main/java/net/kindleit/gae/EngineGoalBase.java:273-277 | On success the class path is unchanged if it already contains the tools jar. Otherwise it becomes the old value, the path separator and the jar. |
| SdkSetup.OnlyTwoPropertiesChange | src/main/java/net/kindleit/gae/EngineGoalBase.java:253-279 | No property other than the root and the class path changes. A root that is already set is never overwritten, and the class path only grows at its end. |
| SdkSetup.Established | src/main/java/net/kindleit/gae/EngineGoalBase.java:253-279 | On success the root property is the resolved root, which is `sdkDir` when the property was unset. That root names a directory, and the class path contains the tools jar. |
| SdkSetup.Idempotent | src/main/java/net/kindleit/gae/EngineGoalBase.java:253-279 | Preparing again after a successful call changes nothing. |
| EngineGoal.LaunchOf | src/main/java/net/kindleit/gae/EngineGoalBase.java:177-194 | A preparation failure aborts the run. Otherwise AppCfg gets the built vector, the command and its arguments, and the password path is taken exactly when a password is injected. |
| EngineGoal.EngineGoalBase.constructor | src/main/java/net/kindleit/gae/EngineGoalBase.java:55-130 | The object holds the configuration Maven injects into its fields. |
| EngineGoal.EngineGoalBase.RunAppCfg | src/main/java/net/kindleit/gae/EngineGoalBase.java:177-194 | The system properties become what `Assure` gives, the outcome is `LaunchOf` for the configuration before the call, and the object is left as `AfterBuild` describes. |
| EngineGoal.EngineGoalBase.AssureSystemProperties | src/main/java/net/kindleit/gae/EngineGoalBase.java:253-279 | The in-place updates of the property table and the failure returned agree with `Assure`. |
| EngineGoal.EngineGoalBase.GetAppCfgArgs | src/main/java/net/kindleit/gae/EngineGoalBase.java:286-298 | Returns a fresh list holding `AppCfgArgs` of the configuration before the call, and leaves the object as `AfterBuild` describes. |
| EngineGoal.EngineGoalBase.GetCommonArgs | src/main/java/net/kindleit/gae/EngineGoalBase.java:300-307 | Returns a fresh list holding `CommonArgs`. |
| EngineGoal.EngineGoalBase.AddEmailOption | src/main/java/net/kindleit/gae/EngineGoalBase.java:309-320 | Appends the e-mail token chosen by precedence. `passIn` is set exactly when it was set before or the settings password case applies. |
| EngineGoal.EngineGoalBase.AddProxyOption | src/main/java/net/kindleit/gae/EngineGoalBase.java:322-332 | Appends the proxy token chosen by precedence and changes nothing else. |
| EngineGoal.EngineGoalBase.AddBooleanOption | src/main/java/net/kindleit/gae/EngineGoalBase.java:334-339 | Appends the bare key exactly when the flag is set. |
| EngineGoal.EngineGoalBase.AddStringOption | src/main/java/net/kindleit/gae/EngineGoalBase.java:341-346 | Appends key plus value exactly when the value is non-null and non-empty. |

## Left out

- `forkPasswordExpectThread` is not modelled. It creates a thread group, pipes
  and stream redirection, and types the password once AppCfg's output asks
  for it. The model stops at the decision to take this path and the password
  it would type (`Launch.PasswordExpect`). Threads and streams are outside
  the model, and `PasswordExpectOutputStream` is not part of this model.
- `AppCfg.main` is not modelled. It is Google's code, so a run is
  represented by the argument vector it would receive (`Launch.AppCfgMain`).
- The debug and info logging (`getLog()`) is not modelled. It has no
  effect on the result.
- `MojoExecutionException` messages are not modelled: neither their texts
  nor the `gaeProperties` lookups of their long messages. The failure is the
  `Failure` value only.
- The constructor's loading of `gae.properties` and the `RuntimeException`
  when it fails are not modelled. This is resource I/O, and the model's
  constructor takes the injected configuration instead.
- `new File(sdk).isDirectory()` is a parameter `isDirectory`, because it
  depends on the file system. A lemma that relates two calls, such as
  `Idempotent`, passes the same function to both. It therefore assumes the
  file system does not change between the calls.
- `File.pathSeparator` is a parameter `pathSeparator`, because it depends on
  the platform.
- The fields `appDir`, `wait`, `monitorPort` and `monitorKey` are not
  modelled. None of the modelled methods read them.
- Maven's `Settings.getServer` and `getActiveProxy` are not modelled as list
  searches. The servers are a map from id to entry, and the active proxy is
  an optional value.
- `RunAppCfg` takes `command` and the `commandArguments` elements as non-null
  strings. Java would put a `null` element into the list (lines 182-183), and
  the model cannot express that.
- Java's 32-bit `int` is not modelled for the proxy port. The port is only
  rendered in decimal, and the rendering is the same at any width.

## Findings

The field documentation promises two behaviours that the code does not
deliver. For `--passin`, the documented rule is `ForcesPassInIntended`, and
`IntendedAppCfgArgs` is the vector built under it. For the proxy, the
documented default is `ProxyOptionIntended`. The rest of the model follows
the code as written, since that is what the plugin does.

| source | as written | input that shows it | evidently intended | confidence | as-written member | corrected member |
|---|---|---|---|---|---|---|
| src/main/java/net/kindleit/gae/EngineGoalBase.java:94 | `addEmailOption` sets `passIn` only when the e-mail comes from the settings entry (lines 310-316). `runAppCfg` injects the settings password whenever the entry has one (lines 188-190). | An explicit `emailAccount`, a server id whose entry has password `pw`, and `passIn` false: `pw` is typed in, but there is no `--passin`. | The `serverId` documentation says a password in the settings sets `--passin` automatically, whatever the e-mail source. | medium, not executed | ArgumentBuilder.PassInGapAsWritten | ArgumentBuilder.IntendedInjectionImpliesPassIn |
| src/main/java/net/kindleit/gae/EngineGoalBase.java:126 | `addProxyOption` uses the active settings proxy only when `hasServerSettings()` holds (line 323). | No `serverId`, no `proxy`, and an active proxy in `settings.xml`: the vector has no `--proxy=` token. | The `proxy` documentation says the first active proxy in `settings.xml` is used by default. | medium, not executed | ArgumentBuilder.ProxyGapAsWritten | ArgumentBuilder.IntendedProxyDefault |
