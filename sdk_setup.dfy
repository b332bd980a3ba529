/** What assureSystemProperties does to the JVM's system properties before
    AppCfg runs, as a function of the properties before the call. */
module SdkSetup {
  import opened Wrappers
  import opened JavaText

  const SdkRootKey: string := "appengine.sdk.root"
  const ClassPathKey: string := "java.class.path"
  const ToolsJarPath: string := "/lib/appengine-tools-api.jar"

  /** Why the preparation stops. The first two are the plugin's
      MojoExecutionExceptions; the last is the NullPointerException that
      `classpath.contains` raises when java.class.path is unset. */
  datatype Failure = HomeUndefined | HomeNotDirectory | ClassPathUnset

  /** The properties after the call, and the failure, if any. */
  datatype Assured = Assured(props: map<string, string>, failure: Option<Failure>)

  /** The jar added to the class path. Built from the sdkDir field, not from the
      resolved property, so a null sdkDir gives "null/lib/...". */
  function ToolsJar(sdkDir: Option<string>): (r: string)
    ensures |r| >= |ToolsJarPath| && r[|r| - |ToolsJarPath|..] == ToolsJarPath
  {
    JavaString(sdkDir) + ToolsJarPath
  }

  /** The SDK root in force: the property if set, else the sdkDir field. */
  function ResolvedSdk(props: map<string, string>, sdkDir: Option<string>): (r: Option<string>)
    ensures SdkRootKey in props ==> r == Some(props[SdkRootKey])
    ensures SdkRootKey !in props ==> r == sdkDir
  {
    if SdkRootKey in props then Some(props[SdkRootKey]) else sdkDir
  }

  /** assureSystemProperties, step by step. isDirectory stands for
      `new File(path).isDirectory()` and pathSeparator for File.pathSeparator. */
  function Assure(props: map<string, string>, sdkDir: Option<string>,
                  isDirectory: string -> bool, pathSeparator: string): (r: Assured)
    ensures props.Keys <= r.props.Keys
  {
    match ResolvedSdk(props, sdkDir)
    case None => Assured(props, Some(HomeUndefined))
    case Some(sdk) =>
      var rooted := if SdkRootKey in props then props else props[SdkRootKey := sdk];
      if !isDirectory(sdk) then Assured(rooted, Some(HomeNotDirectory))
      else if ClassPathKey !in rooted then Assured(rooted, Some(ClassPathUnset))
      else
        var classpath := rooted[ClassPathKey];
        if Contains(classpath, ToolsJar(sdkDir)) then Assured(rooted, None)
        else Assured(rooted[ClassPathKey := classpath + pathSeparator + ToolsJar(sdkDir)], None)
  }

  lemma KeysDistinct()
    ensures SdkRootKey != ClassPathKey
  {
    assert SdkRootKey[0] != ClassPathKey[0];
  }

  /** With neither the property nor sdkDir, the call fails and touches nothing. */
  lemma UndefinedHome(props: map<string, string>, sdkDir: Option<string>,
                      isDirectory: string -> bool, pathSeparator: string)
    ensures var r := Assure(props, sdkDir, isDirectory, pathSeparator);
            r.failure == Some(HomeUndefined) <==> SdkRootKey !in props && sdkDir.None?
    ensures SdkRootKey !in props && sdkDir.None? ==> Assure(props, sdkDir, isDirectory, pathSeparator).props == props
  {
  }

  /** A resolved root that is not a directory is rejected; the root property
      has been set from sdkDir by then, and nothing else has changed. */
  lemma NotADirectory(props: map<string, string>, sdkDir: Option<string>,
                      isDirectory: string -> bool, pathSeparator: string)
    ensures var r := Assure(props, sdkDir, isDirectory, pathSeparator);
            var sdk := ResolvedSdk(props, sdkDir);
            r.failure == Some(HomeNotDirectory) <==> sdk.Some? && !isDirectory(sdk.value)
    ensures var r := Assure(props, sdkDir, isDirectory, pathSeparator);
            var sdk := ResolvedSdk(props, sdkDir);
            r.failure == Some(HomeNotDirectory) ==> r.props == props[SdkRootKey := sdk.value]
  {
  }

  /** Past the directory check, a missing java.class.path fails the call with
      the root property set. */
  lemma ClassPathMissing(props: map<string, string>, sdkDir: Option<string>,
                         isDirectory: string -> bool, pathSeparator: string)
    ensures var r := Assure(props, sdkDir, isDirectory, pathSeparator);
            var sdk := ResolvedSdk(props, sdkDir);
            r.failure == Some(ClassPathUnset)
            <==> sdk.Some? && isDirectory(sdk.value) && ClassPathKey !in props
    ensures var r := Assure(props, sdkDir, isDirectory, pathSeparator);
            r.failure == Some(ClassPathUnset) ==> r.props == props[SdkRootKey := ResolvedSdk(props, sdkDir).value]
  {
    KeysDistinct();
  }

  /** On success the class path is left alone when it already contains the
      tools jar, and has the separator and the jar appended otherwise. */
  lemma ClassPathExtended(props: map<string, string>, sdkDir: Option<string>,
                          isDirectory: string -> bool, pathSeparator: string)
    requires Assure(props, sdkDir, isDirectory, pathSeparator).failure.None?
    ensures var r := Assure(props, sdkDir, isDirectory, pathSeparator).props;
            var classpath := props[ClassPathKey];
            ClassPathKey in props
            && r[ClassPathKey] == if Contains(classpath, ToolsJar(sdkDir)) then classpath
                                  else classpath + pathSeparator + ToolsJar(sdkDir)
  {
    KeysDistinct();
  }

  /** Only the two properties the method names can change: the root is never
      overwritten once set, and the class path only grows at its end. */
  lemma OnlyTwoPropertiesChange(props: map<string, string>, sdkDir: Option<string>,
                                isDirectory: string -> bool, pathSeparator: string)
    ensures var r := Assure(props, sdkDir, isDirectory, pathSeparator);
            forall k :: k != SdkRootKey && k != ClassPathKey ==>
              (k in r.props <==> k in props) && (k in props ==> r.props[k] == props[k])
    ensures var r := Assure(props, sdkDir, isDirectory, pathSeparator);
            SdkRootKey in props ==> SdkRootKey in r.props && r.props[SdkRootKey] == props[SdkRootKey]
    ensures var r := Assure(props, sdkDir, isDirectory, pathSeparator);
            ClassPathKey in props ==> ClassPathKey in r.props && props[ClassPathKey] <= r.props[ClassPathKey]
  {
    KeysDistinct();
  }

  /** On success the root property is the resolved root (sdkDir when it was
      unset), it names a directory, and the class path contains the tools jar. */
  lemma Established(props: map<string, string>, sdkDir: Option<string>,
                    isDirectory: string -> bool, pathSeparator: string)
    requires Assure(props, sdkDir, isDirectory, pathSeparator).failure.None?
    ensures var r := Assure(props, sdkDir, isDirectory, pathSeparator).props;
            SdkRootKey in r && r[SdkRootKey] == ResolvedSdk(props, sdkDir).value
            && isDirectory(r[SdkRootKey])
            && ClassPathKey in r && Contains(r[ClassPathKey], ToolsJar(sdkDir))
  {
    KeysDistinct();
    var sdk := ResolvedSdk(props, sdkDir).value;
    var classpath := props[SdkRootKey := sdk][ClassPathKey];
    ContainsSuffix(classpath + pathSeparator, ToolsJar(sdkDir));
  }

  /** Preparing twice is the same as preparing once. Both calls see the same
      isDirectory, that is, the file system does not change in between. */
  lemma Idempotent(props: map<string, string>, sdkDir: Option<string>,
                   isDirectory: string -> bool, pathSeparator: string)
    requires Assure(props, sdkDir, isDirectory, pathSeparator).failure.None?
    ensures var r := Assure(props, sdkDir, isDirectory, pathSeparator);
            Assure(r.props, sdkDir, isDirectory, pathSeparator) == r
  {
    var r := Assure(props, sdkDir, isDirectory, pathSeparator);
    Established(props, sdkDir, isDirectory, pathSeparator);
    assert r.props[SdkRootKey := r.props[SdkRootKey]] == r.props;
  }
}
