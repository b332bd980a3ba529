/** EngineGoalBase as an object: the argument builders append to a list in
    place, addEmailOption may set the passIn field, and assureSystemProperties
    updates the JVM-wide system properties. */
module EngineGoal {
  import opened Wrappers
  import opened JavaText
  import opened MavenSettings
  import opened ArgumentBuilder
  import opened SdkSetup

  /** The java.util.List<String> the builders fill; only appending is used. */
  class ArgList {
    var elems: seq<string>

    constructor ()
      ensures elems == []
    {
      elems := [];
    }

    method Add(s: string)
      modifies this
      ensures elems == old(elems) + [s]
    {
      elems := elems + [s];
    }

    method AddAll(xs: seq<string>)
      modifies this
      ensures elems == old(elems) + xs
    {
      elems := elems + xs;
    }
  }

  /** The process-wide System properties. */
  class SystemProperties {
    var entries: map<string, string>

    constructor (initial: map<string, string>)
      ensures entries == initial
    {
      entries := initial;
    }

    function GetProperty(key: string): (r: Option<string>)
      reads this
      ensures r.Some? <==> key in entries
      ensures r.Some? ==> r.value == entries[key]
    {
      if key in entries then Some(entries[key]) else None
    }

    method SetProperty(key: string, value: string)
      modifies this
      ensures entries == old(entries)[key := value]
    {
      entries := entries[key := value];
    }
  }

  /** What runAppCfg ends in: an exception from assureSystemProperties, a direct
      AppCfg.main call, or the password-expect thread that types the settings
      password into AppCfg's standard input. */
  datatype Launch =
    | Aborted(failure: Failure)
    | AppCfgMain(argv: seq<string>)
    | PasswordExpect(argv: seq<string>, password: string)

  /** runAppCfg's outcome for configuration c (as it was before the call),
      given the failure assureSystemProperties reported. */
  function LaunchOf(c: Config, command: string, commandArguments: seq<string>,
                    failure: Option<Failure>): (l: Launch)
    ensures l.Aborted? <==> failure.Some?
    ensures l.Aborted? ==> l.failure == failure.value
    ensures l.PasswordExpect? <==> failure.None? && InjectedPassword(c).Some?
    ensures l.PasswordExpect? ==> l.password == InjectedPassword(c).value
    ensures !l.Aborted? ==>
              var n := |AppCfgArgs(c)|;
              |l.argv| == n + 1 + |commandArguments|
              && l.argv[..n] == AppCfgArgs(c)
              && l.argv[n] == command
              && l.argv[n + 1..] == commandArguments
  {
    var argv := AppCfgArgs(c) + [command] + commandArguments;
    if failure.Some? then Aborted(failure.value)
    else match InjectedPassword(c)
      case Some(password) => PasswordExpect(argv, password)
      case None => AppCfgMain(argv)
  }

  class EngineGoalBase {
    var settings: Settings
    var sdkDir: Option<string>
    var splitJars: bool
    var emailAccount: Option<string>
    var serverId: Option<string>
    var uploadServer: Option<string>
    var hostString: Option<string>
    var keepTempUploadDir: bool
    var passIn: bool
    var proxy: Option<string>

    /** The configured object, as Maven leaves it after injecting the parameters. */
    constructor (c: Config)
      ensures Config() == c
    {
      settings := c.settings;
      sdkDir := c.sdkDir;
      splitJars := c.splitJars;
      emailAccount := c.emailAccount;
      serverId := c.serverId;
      uploadServer := c.uploadServer;
      hostString := c.hostString;
      keepTempUploadDir := c.keepTempUploadDir;
      passIn := c.passIn;
      proxy := c.proxy;
    }

    function Config(): Config
      reads this
    {
      ArgumentBuilder.Config(settings, sdkDir, splitJars, emailAccount, serverId,
                             uploadServer, hostString, keepTempUploadDir, passIn, proxy)
    }

    method RunAppCfg(command: string, commandArguments: seq<string>, system: SystemProperties,
                     isDirectory: string -> bool, pathSeparator: string)
      returns (launch: Launch)
      modifies this`passIn, system
      ensures Config() == AfterBuild(old(Config()))
      ensures var assured := Assure(old(system.entries), sdkDir, isDirectory, pathSeparator);
              system.entries == assured.props
              && launch == LaunchOf(old(Config()), command, commandArguments, assured.failure)
    {
      ghost var c := Config();
      var args := new ArgList();
      var common := GetAppCfgArgs();
      args.AddAll(common.elems);
      args.Add(command);
      args.AddAll(commandArguments);
      assert args.elems == AppCfgArgs(c) + [command] + commandArguments;
      var failure := AssureSystemProperties(system, isDirectory, pathSeparator);
      if failure.Some? {
        return Aborted(failure.value);
      }
      if HasServerSettings(settings, serverId) && settings.servers[serverId.value].password.Some? {
        launch := PasswordExpect(args.elems, settings.servers[serverId.value].password.value);
      } else {
        launch := AppCfgMain(args.elems);
      }
    }

    method AssureSystemProperties(system: SystemProperties, isDirectory: string -> bool,
                                  pathSeparator: string)
      returns (failure: Option<Failure>)
      modifies system
      ensures Assure(old(system.entries), sdkDir, isDirectory, pathSeparator)
              == Assured(system.entries, failure)
    {
      var sdk := system.GetProperty(SdkRootKey);
      if sdk.None? {
        if sdkDir.None? {
          return Some(HomeUndefined);
        }
        system.SetProperty(SdkRootKey, sdkDir.value);
        sdk := sdkDir;
      }
      if !isDirectory(sdk.value) {
        return Some(HomeNotDirectory);
      }
      var classpath := system.GetProperty(ClassPathKey);
      if classpath.None? {
        return Some(ClassPathUnset);
      }
      var toolsJar := ToolsJar(sdkDir);
      if !Contains(classpath.value, toolsJar) {
        system.SetProperty(ClassPathKey, classpath.value + pathSeparator + toolsJar);
      }
      return None;
    }

    method GetAppCfgArgs() returns (args: ArgList)
      modifies this`passIn
      ensures fresh(args)
      ensures args.elems == AppCfgArgs(old(Config()))
      ensures Config() == AfterBuild(old(Config()))
    {
      AppCfgArgsInCallOrder(Config());
      args := GetCommonArgs();
      AddBooleanOption(args, Key(DisablePromptArg), !settings.interactiveMode);
      AddEmailOption(args);
      AddStringOption(args, Key(HostArg), hostString);
      AddProxyOption(args);
      AddBooleanOption(args, Key(PassInArg), passIn);
      AddBooleanOption(args, Key(JarSplittingArg), splitJars);
      AddBooleanOption(args, Key(RetainUploadDirArg), keepTempUploadDir);
    }

    method GetCommonArgs() returns (args: ArgList)
      ensures fresh(args)
      ensures args.elems == CommonArgs(Config())
    {
      args := new ArgList();
      args.Add(Key(SdkRootArg) + JavaString(sdkDir));
      AddStringOption(args, Key(ServerArg), uploadServer);
    }

    method AddEmailOption(args: ArgList)
      modifies this`passIn, args
      ensures args.elems == old(args.elems) + EmailOption(old(Config()))
      ensures passIn == (old(passIn) || ForcesPassIn(old(Config())))
    {
      if HasServerSettings(settings, serverId) && emailAccount.None? {
        var server := settings.servers[serverId.value];
        AddStringOption(args, Key(EmailArg), server.username);
        if server.password.Some? {
          passIn := true;
        }
      } else {
        AddStringOption(args, Key(EmailArg), emailAccount);
      }
    }

    method AddProxyOption(args: ArgList)
      modifies args
      ensures args.elems == old(args.elems) + ProxyOption(Config())
    {
      if HasServerSettings(settings, serverId) && proxy.None? {
        var active := settings.activeProxy;
        if active.Some? {
          AddStringOption(args, Key(ProxyArg), Some(HostPort(active.value)));
        }
      } else {
        AddStringOption(args, Key(ProxyArg), proxy);
      }
    }

    method AddBooleanOption(args: ArgList, key: string, flag: bool)
      modifies args
      ensures args.elems == old(args.elems) + BooleanOption(key, flag)
    {
      if flag {
        args.Add(key);
      }
    }

    method AddStringOption(args: ArgList, key: string, value: Option<string>)
      modifies args
      ensures args.elems == old(args.elems) + StringOption(key, value)
    {
      if value.Some? && |value.value| > 0 {
        args.Add(key + value.value);
      }
    }
  }
}
