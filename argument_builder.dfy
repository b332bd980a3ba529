/** The AppCfg argument vector that EngineGoalBase assembles from the plugin's
    configuration, as a function of that configuration. */
module ArgumentBuilder {
  import opened Wrappers
  import opened JavaText
  import opened MavenSettings

  /** The EngineGoalBase fields the argument builders read. */
  datatype Config = Config(
    settings: Settings,
    sdkDir: Option<string>,
    splitJars: bool,
    emailAccount: Option<string>,
    serverId: Option<string>,
    uploadServer: Option<string>,
    hostString: Option<string>,
    keepTempUploadDir: bool,
    passIn: bool,
    proxy: Option<string>)

  /** The options AppCfg is given, one constructor per add*Option call site. */
  datatype ArgKind =
    | SdkRootArg | ServerArg | DisablePromptArg | EmailArg | HostArg
    | ProxyArg | PassInArg | JarSplittingArg | RetainUploadDirArg

  /** The literal each option's token starts with. */
  function Key(k: ArgKind): string {
    match k
    case SdkRootArg => "--sdk_root="
    case ServerArg => "--server="
    case DisablePromptArg => "--disable_prompt"
    case EmailArg => "--email="
    case HostArg => "--host="
    case ProxyArg => "--proxy="
    case PassInArg => "--passin"
    case JarSplittingArg => "--enable_jar_splitting"
    case RetainUploadDirArg => "--retain_upload_dir"
  }

  /** Position of an option in the order getAppCfgArgs emits them: its index
      in Order. Kept as a match so that it evaluates without a search;
      OrderRanks proves the two agree. */
  function Rank(k: ArgKind): nat {
    match k
    case SdkRootArg => 0
    case ServerArg => 1
    case DisablePromptArg => 2
    case EmailArg => 3
    case HostArg => 4
    case ProxyArg => 5
    case PassInArg => 6
    case JarSplittingArg => 7
    case RetainUploadDirArg => 8
  }

  /** The options in the order getAppCfgArgs emits them. */
  const Order: seq<ArgKind> := [SdkRootArg, ServerArg, DisablePromptArg, EmailArg, HostArg,
                                ProxyArg, PassInArg, JarSplittingArg, RetainUploadDirArg]

  predicate HasKey(token: string, k: ArgKind) {
    Key(k) <= token
  }

  /** The token starts with the key of some option. */
  ghost predicate Tagged(token: string) {
    exists k :: HasKey(token, k)
  }

  /** addStringOption: one token `key + value` when the value is non-null and
      non-empty, nothing otherwise. */
  function StringOption(key: string, value: Option<string>): (r: seq<string>)
    ensures |r| <= 1
    ensures r != [] <==> NonEmpty(value)
    ensures r != [] ==> r[0] == key + value.value
  {
    if NonEmpty(value) then [key + value.value] else []
  }

  /** addBooleanOption: the bare key when the flag is set, nothing otherwise. */
  function BooleanOption(key: string, flag: bool): (r: seq<string>)
    ensures |r| <= 1
    ensures r != [] <==> flag
    ensures r != [] ==> r[0] == key
  {
    if flag then [key] else []
  }

  /** hasServerSettings: a server id is configured and settings.xml has an
      entry for it. */
  function HasServerSettings(settings: Settings, serverId: Option<string>): (b: bool)
    ensures b <==> serverId.Some? && serverId.value in settings.servers
  {
    serverId.Some? && settings.GetServer(serverId.value).Some?
  }

  function ServerEntry(c: Config): Server
    requires HasServerSettings(c.settings, c.serverId)
  {
    c.settings.servers[c.serverId.value]
  }

  /** The case in which addEmailOption sets passIn: the email comes from the
      settings entry and that entry has a password. */
  predicate ForcesPassIn(c: Config)
    ensures ForcesPassIn(c) ==> HasServerSettings(c.settings, c.serverId) && c.emailAccount.None?
  {
    HasServerSettings(c.settings, c.serverId) && c.emailAccount.None?
    && ServerEntry(c).password.Some?
  }

  /** `host + ":" + port` of a settings proxy. */
  function HostPort(p: Proxy): (r: string)
    ensures |r| > 0
  {
    JavaString(p.host) + ":" + IntToString(p.port)
  }

  /** addEmailOption's contribution to the vector. */
  function EmailOption(c: Config): (r: seq<string>)
    ensures |r| <= 1
  {
    if HasServerSettings(c.settings, c.serverId) && c.emailAccount.None? then
      StringOption(Key(EmailArg), ServerEntry(c).username)
    else
      StringOption(Key(EmailArg), c.emailAccount)
  }

  /** addProxyOption's contribution to the vector. */
  function ProxyOption(c: Config): (r: seq<string>)
    ensures |r| <= 1
  {
    if HasServerSettings(c.settings, c.serverId) && c.proxy.None? then
      match c.settings.activeProxy
      case Some(p) => StringOption(Key(ProxyArg), Some(HostPort(p)))
      case None => []
    else
      StringOption(Key(ProxyArg), c.proxy)
  }

  /** What option k contributes. PassInArg sees passIn as addEmailOption left it. */
  function OptionToken(c: Config, k: ArgKind): seq<string> {
    match k
    case SdkRootArg => [Key(SdkRootArg) + JavaString(c.sdkDir)]
    case ServerArg => StringOption(Key(ServerArg), c.uploadServer)
    case DisablePromptArg => BooleanOption(Key(DisablePromptArg), !c.settings.interactiveMode)
    case EmailArg => EmailOption(c)
    case HostArg => StringOption(Key(HostArg), c.hostString)
    case ProxyArg => ProxyOption(c)
    case PassInArg => BooleanOption(Key(PassInArg), c.passIn || ForcesPassIn(c))
    case JarSplittingArg => BooleanOption(Key(JarSplittingArg), c.splitJars)
    case RetainUploadDirArg => BooleanOption(Key(RetainUploadDirArg), c.keepTempUploadDir)
  }

  /** getCommonArgs. */
  function CommonArgs(c: Config): (r: seq<string>)
    ensures 1 <= |r| <= 2
    ensures r[0] == Key(SdkRootArg) + JavaString(c.sdkDir)
    ensures |r| == 2 <==> NonEmpty(c.uploadServer)
    ensures |r| == 2 ==> r[1] == Key(ServerArg) + c.uploadServer.value
  {
    OptionToken(c, SdkRootArg) + OptionToken(c, ServerArg)
  }

  /** getAppCfgArgs: every option's contribution, in the order the source
      appends them (AppCfgArgsInCallOrder spells the appends out). */
  function AppCfgArgs(c: Config): (r: seq<string>)
    ensures |r| >= 1 && r[0] == Key(SdkRootArg) + JavaString(c.sdkDir)
  {
    Concat(Parts(c), 0)
  }

  /** The configuration as getAppCfgArgs leaves it: only passIn may change. */
  function AfterBuild(c: Config): (d: Config)
    ensures d.passIn <==> c.passIn || ForcesPassIn(c)
    ensures d.(passIn := c.passIn) == c
  {
    c.(passIn := c.passIn || ForcesPassIn(c))
  }

  /** runAppCfg's choice: the settings password to type in for AppCfg, if the
      password-expect path is taken. */
  function InjectedPassword(c: Config): (r: Option<string>)
    ensures r.Some? <==> HasServerSettings(c.settings, c.serverId) && ServerEntry(c).password.Some?
    ensures r.Some? ==> r == ServerEntry(c).password
  {
    if HasServerSettings(c.settings, c.serverId) && ServerEntry(c).password.Some? then
      ServerEntry(c).password
    else
      None
  }

  // ---------------------------------------------------------------------------
  // Observing the vector

  /** The tokens of args that start with key, in order. */
  function WithKey(args: seq<string>, key: string): (r: seq<string>)
    ensures |r| <= |args|
    ensures forall t :: t in r <==> t in args && key <= t
  {
    if args == [] then []
    else (if key <= args[0] then [args[0]] else []) + WithKey(args[1..], key)
  }

  lemma {:induction false} WithKeyAppend(a: seq<string>, b: seq<string>, key: string)
    ensures WithKey(a + b, key) == WithKey(a, key) + WithKey(b, key)
    decreases |a|
  {
    if a == [] {
      assert a + b == b;
    } else {
      assert (a + b)[1..] == a[1..] + b;
      WithKeyAppend(a[1..], b, key);
    }
  }

  /** A vector split into one part per option of Order: part i holds at most
      one token, and that token carries the key of Order[i]. */
  predicate WellFormedParts(parts: seq<seq<string>>) {
    |parts| == |Order| && Singletons(parts)
    && forall i :: 0 <= i < |parts| && parts[i] != [] ==> HasKey(parts[i][0], Order[i])
  }

  /** Every part holds at most one token. */
  predicate Singletons(parts: seq<seq<string>>) {
    forall i :: 0 <= i < |parts| ==> |parts[i]| <= 1
  }

  /** The parts from position n on, concatenated. */
  function Concat(parts: seq<seq<string>>, n: nat): seq<string>
    requires n <= |parts|
    decreases |parts| - n
  {
    if n == |parts| then [] else parts[n] + Concat(parts, n + 1)
  }

  /** What each option contributes, in Order. */
  function Parts(c: Config): (parts: seq<seq<string>>)
    ensures |parts| == |Order|
    ensures forall i :: 0 <= i < |Order| ==> parts[i] == OptionToken(c, Order[i])
  {
    seq(|Order|, i requires 0 <= i < |Order| => OptionToken(c, Order[i]))
  }

  // ---------------------------------------------------------------------------
  // Every token is tagged by exactly one key

  /** No key is a prefix of a different key: any two differ in their third or
      fourth character. */
  lemma KeysDiffer(a: ArgKind, b: ArgKind)
    requires a != b
    ensures |Key(a)| >= 4 && |Key(b)| >= 4
    ensures Key(a)[2] != Key(b)[2] || Key(a)[3] != Key(b)[3]
  {
  }

  lemma SingleKey(token: string, a: ArgKind, b: ArgKind)
    requires HasKey(token, a) && HasKey(token, b)
    ensures a == b
  {
    assert token[..|Key(a)|] == Key(a) && token[..|Key(b)|] == Key(b);
    assert |Key(a)| >= 4 && |Key(b)| >= 4;
    assert token[2] == Key(a)[2] && token[3] == Key(a)[3];
    assert token[2] == Key(b)[2] && token[3] == Key(b)[3];
    if a != b {
      KeysDiffer(a, b);
    }
  }

  /** Each option contributes at most one token, and it carries that option's key. */
  lemma OptionTokenShape(c: Config, k: ArgKind)
    ensures |OptionToken(c, k)| <= 1
    ensures OptionToken(c, k) != [] ==> HasKey(OptionToken(c, k)[0], k)
  {
    var key := Key(k);
    match k
    case SdkRootArg =>
      assert (key + JavaString(c.sdkDir))[..|key|] == key;
    case ServerArg =>
      if NonEmpty(c.uploadServer) { assert (key + c.uploadServer.value)[..|key|] == key; }
    case EmailArg =>
      var v := if HasServerSettings(c.settings, c.serverId) && c.emailAccount.None?
               then ServerEntry(c).username else c.emailAccount;
      if NonEmpty(v) { assert (key + v.value)[..|key|] == key; }
    case HostArg =>
      if NonEmpty(c.hostString) { assert (key + c.hostString.value)[..|key|] == key; }
    case ProxyArg =>
      if HasServerSettings(c.settings, c.serverId) && c.proxy.None? {
        if c.settings.activeProxy.Some? {
          assert (key + HostPort(c.settings.activeProxy.value))[..|key|] == key;
        }
      } else if NonEmpty(c.proxy) {
        assert (key + c.proxy.value)[..|key|] == key;
      }
    case DisablePromptArg =>
    case PassInArg =>
    case JarSplittingArg =>
    case RetainUploadDirArg =>
  }

  /** Order lists every option once, at the position its rank gives. */
  lemma OrderRanks()
    ensures |Order| == 9
    ensures forall n :: 0 <= n < |Order| ==> Rank(Order[n]) == n
    ensures forall k :: Rank(k) < |Order| && Order[Rank(k)] == k
  {
  }

  /** Filtering option n's part by a key keeps it exactly when it is that option's key. */
  lemma PartWithKey(part: seq<string>, n: nat, o: ArgKind)
    requires n < |Order| && |part| <= 1 && (part != [] ==> HasKey(part[0], Order[n]))
    ensures WithKey(part, Key(o)) == if n == Rank(o) then part else []
  {
    OrderRanks();
    if part != [] {
      assert part == [part[0]];
      assert part[1..] == [];
      if Key(o) <= part[0] {
        SingleKey(part[0], Order[n], o);
      }
    }
  }

  /** One step of ConcatWithKey: filtering option n's part followed by the rest. */
  lemma ConcatWithKeyStep(head: seq<string>, rest: seq<string>, n: nat, o: ArgKind)
    requires n < |Order| && |head| <= 1 && (head != [] ==> HasKey(head[0], Order[n]))
    ensures WithKey(head + rest, Key(o)) == (if n == Rank(o) then head else []) + WithKey(rest, Key(o))
  {
    WithKeyAppend(head, rest, Key(o));
    PartWithKey(head, n, o);
  }

  /** From part n on, the tokens with an option's key are that option's part
      if it lies in that range, and none otherwise. */
  lemma {:induction false} ConcatWithKey(parts: seq<seq<string>>, n: nat, o: ArgKind)
    requires WellFormedParts(parts) && n <= |parts|
    ensures WithKey(Concat(parts, n), Key(o)) == if n <= Rank(o) then parts[Rank(o)] else []
    decreases |parts| - n
  {
    assert Rank(o) < |Order|;
    if n < |parts| {
      var head, rest := parts[n], Concat(parts, n + 1);
      assert Concat(parts, n) == head + rest;
      assert |head| <= 1 && (head != [] ==> HasKey(head[0], Order[n]));
      ConcatWithKey(parts, n + 1, o);
      ConcatWithKeyStep(head, rest, n, o);
      if n == Rank(o) {
        assert head + [] == head;
      }
    }
  }

  /** Token i from part n on sits in some part m >= n: it is that part's one
      token. */
  lemma {:induction false} ConcatLocate(parts: seq<seq<string>>, n: nat, i: nat)
    returns (m: nat)
    requires Singletons(parts) && n <= |parts| && i < |Concat(parts, n)|
    ensures n <= m < |parts| && parts[m] == [Concat(parts, n)[i]]
    decreases |parts| - n
  {
    var head, rest := parts[n], Concat(parts, n + 1);
    assert Concat(parts, n) == head + rest;
    if i < |head| {
      m := n;
      assert head == [head[0]];
    } else {
      assert Concat(parts, n)[i] == rest[i - |head|];
      m := ConcatLocate(parts, n + 1, i - |head|);
    }
  }

  /** Tokens i < j from part n on lie in parts m1 < m2. */
  lemma {:induction false} ConcatLocatePair(parts: seq<seq<string>>, n: nat, i: nat, j: nat)
    returns (m1: nat, m2: nat)
    requires Singletons(parts) && n <= |parts| && i < j < |Concat(parts, n)|
    ensures n <= m1 < m2 < |parts|
    ensures parts[m1] == [Concat(parts, n)[i]] && parts[m2] == [Concat(parts, n)[j]]
    decreases |parts| - n
  {
    var head, rest := parts[n], Concat(parts, n + 1);
    assert Concat(parts, n) == head + rest;
    assert Concat(parts, n)[j] == rest[j - |head|];
    if i < |head| {
      m1 := n;
      assert head == [head[0]];
      m2 := ConcatLocate(parts, n + 1, j - |head|);
    } else {
      assert Concat(parts, n)[i] == rest[i - |head|];
      m1, m2 := ConcatLocatePair(parts, n + 1, i - |head|, j - |head|);
    }
  }

  /** Every token carries the key of the part it lies in, and of no other option. */
  lemma TokenKind(parts: seq<seq<string>>, i: nat, a: ArgKind)
    requires WellFormedParts(parts) && i < |Concat(parts, 0)|
    ensures Tagged(Concat(parts, 0)[i])
    ensures HasKey(Concat(parts, 0)[i], a) ==> Order[Rank(a)] == a && parts[Rank(a)] == [Concat(parts, 0)[i]]
  {
    OrderRanks();
    var m := ConcatLocate(parts, 0, i);
    assert HasKey(Concat(parts, 0)[i], Order[m]);
    if HasKey(Concat(parts, 0)[i], a) {
      SingleKey(Concat(parts, 0)[i], a, Order[m]);
    }
  }

  /** Keys of later tokens rank strictly higher. */
  lemma TokenPairOrder(parts: seq<seq<string>>, i: nat, j: nat, a: ArgKind, b: ArgKind)
    requires WellFormedParts(parts) && i < j < |Concat(parts, 0)|
    requires HasKey(Concat(parts, 0)[i], a) && HasKey(Concat(parts, 0)[j], b)
    ensures Rank(a) < Rank(b)
  {
    OrderRanks();
    var m1, m2 := ConcatLocatePair(parts, 0, i, j);
    SingleKey(Concat(parts, 0)[i], a, Order[m1]);
    SingleKey(Concat(parts, 0)[j], b, Order[m2]);
  }

  /** The option parts are well formed. */
  lemma PartsWellFormed(c: Config)
    ensures WellFormedParts(Parts(c))
    ensures forall k :: Parts(c)[Rank(k)] == OptionToken(c, k)
  {
    OrderRanks();
    forall k ensures |OptionToken(c, k)| <= 1 && (OptionToken(c, k) != [] ==> HasKey(OptionToken(c, k)[0], k)) {
      OptionTokenShape(c, k);
    }
  }

  /** Nine parts concatenated from the first, written out. */
  lemma ConcatNine(parts: seq<seq<string>>)
    requires |parts| == 9
    ensures Concat(parts, 0)
            == parts[0] + parts[1] + parts[2] + parts[3] + parts[4] + parts[5] + parts[6] + parts[7] + parts[8]
  {
    var p := parts;
    assert Concat(p, 0) == p[0] + Concat(p, 1);
    assert Concat(p, 0) == p[0] + p[1] + Concat(p, 2);
    assert Concat(p, 0) == p[0] + p[1] + p[2] + Concat(p, 3);
    assert Concat(p, 0) == p[0] + p[1] + p[2] + p[3] + Concat(p, 4);
    assert Concat(p, 0) == p[0] + p[1] + p[2] + p[3] + p[4] + Concat(p, 5);
    assert Concat(p, 0) == p[0] + p[1] + p[2] + p[3] + p[4] + p[5] + Concat(p, 6);
    assert Concat(p, 0) == p[0] + p[1] + p[2] + p[3] + p[4] + p[5] + p[6] + Concat(p, 7);
    assert Concat(p, 0) == p[0] + p[1] + p[2] + p[3] + p[4] + p[5] + p[6] + p[7] + Concat(p, 8);
    assert Concat(p, 8) == p[8] + Concat(p, 9) == p[8];
  }

  /** The vector is getCommonArgs followed by one append per add*Option call,
      in the order getAppCfgArgs makes them. */
  lemma AppCfgArgsInCallOrder(c: Config)
    ensures AppCfgArgs(c)
            == CommonArgs(c)
               + BooleanOption(Key(DisablePromptArg), !c.settings.interactiveMode)
               + EmailOption(c)
               + StringOption(Key(HostArg), c.hostString)
               + ProxyOption(c)
               + BooleanOption(Key(PassInArg), c.passIn || ForcesPassIn(c))
               + BooleanOption(Key(JarSplittingArg), c.splitJars)
               + BooleanOption(Key(RetainUploadDirArg), c.keepTempUploadDir)
  {
    EarlyPartsInCallOrder(c);
    LatePartsInCallOrder(c);
    ConcatNine(Parts(c));
  }

  /** Part by part, what each call of getAppCfgArgs contributes: the first
      five parts. */
  lemma EarlyPartsInCallOrder(c: Config)
    ensures Parts(c)[0] + Parts(c)[1] == CommonArgs(c)
    ensures Parts(c)[2] == BooleanOption(Key(DisablePromptArg), !c.settings.interactiveMode)
    ensures Parts(c)[3] == EmailOption(c)
    ensures Parts(c)[4] == StringOption(Key(HostArg), c.hostString)
  {
  }

  /** The last four parts. */
  lemma LatePartsInCallOrder(c: Config)
    ensures Parts(c)[5] == ProxyOption(c)
    ensures Parts(c)[6] == BooleanOption(Key(PassInArg), c.passIn || ForcesPassIn(c))
    ensures Parts(c)[7] == BooleanOption(Key(JarSplittingArg), c.splitJars)
    ensures Parts(c)[8] == BooleanOption(Key(RetainUploadDirArg), c.keepTempUploadDir)
  {
  }

  // ---------------------------------------------------------------------------
  // Properties of the argument vector getAppCfgArgs builds

  /** The tokens carrying an option's key are exactly what that option
      contributes, so no option appears more than once. */
  lemma TokensOfOption(c: Config, k: ArgKind)
    ensures WithKey(AppCfgArgs(c), Key(k)) == OptionToken(c, k)
    ensures |WithKey(AppCfgArgs(c), Key(k))| <= 1
  {
    PartsWellFormed(c);
    ConcatWithKey(Parts(c), 0, k);
    OptionTokenShape(c, k);
  }

  /** Every token carries exactly one option's key, and the options follow the
      fixed order sdk_root, server, disable_prompt, email, host, proxy, passin,
      enable_jar_splitting, retain_upload_dir. */
  lemma TokenOrder(c: Config)
    ensures forall i :: 0 <= i < |AppCfgArgs(c)| ==> Tagged(AppCfgArgs(c)[i])
    ensures forall i, a, b :: 0 <= i < |AppCfgArgs(c)| && HasKey(AppCfgArgs(c)[i], a) && HasKey(AppCfgArgs(c)[i], b)
              ==> a == b
    ensures forall i, j, a, b ::
              0 <= i < j < |AppCfgArgs(c)| && HasKey(AppCfgArgs(c)[i], a) && HasKey(AppCfgArgs(c)[j], b)
              ==> Rank(a) < Rank(b)
  {
    var args, parts := AppCfgArgs(c), Parts(c);
    PartsWellFormed(c);
    forall i | 0 <= i < |args| ensures Tagged(args[i]) {
      TokenKind(parts, i, SdkRootArg);
    }
    forall i, a, b | 0 <= i < |args| && HasKey(args[i], a) && HasKey(args[i], b)
      ensures a == b
    {
      SingleKey(args[i], a, b);
    }
    forall i, j, a, b | 0 <= i < j < |args| && HasKey(args[i], a) && HasKey(args[j], b)
      ensures Rank(a) < Rank(b)
    {
      TokenPairOrder(parts, i, j, a, b);
    }
  }

  /** The vector starts with the sdk root; the upload server is the second token
      when it is non-null and non-empty, and appears nowhere otherwise. */
  lemma LeadingTokens(c: Config)
    ensures AppCfgArgs(c)[0] == Key(SdkRootArg) + JavaString(c.sdkDir)
    ensures (|AppCfgArgs(c)| >= 2 && HasKey(AppCfgArgs(c)[1], ServerArg)) <==> NonEmpty(c.uploadServer)
    ensures NonEmpty(c.uploadServer) ==> AppCfgArgs(c)[1] == Key(ServerArg) + c.uploadServer.value
    ensures !NonEmpty(c.uploadServer) ==> WithKey(AppCfgArgs(c), Key(ServerArg)) == []
  {
    var args := AppCfgArgs(c);
    AppCfgArgsInCallOrder(c);
    TokensOfOption(c, ServerArg);
    if |args| >= 2 && HasKey(args[1], ServerArg) {
      assert args[1] in WithKey(args, Key(ServerArg));
    }
    if NonEmpty(c.uploadServer) {
      assert (Key(ServerArg) + c.uploadServer.value)[..|Key(ServerArg)|] == Key(ServerArg);
    }
  }

  /** An option that adds its bare key when a flag is set appears in the
      vector exactly when the flag is set. */
  lemma FlagPresence(c: Config, k: ArgKind, flag: bool)
    requires OptionToken(c, k) == BooleanOption(Key(k), flag)
    ensures Key(k) in AppCfgArgs(c) <==> flag
  {
    TokensOfOption(c, k);
    assert Key(k) <= Key(k);
  }

  /** --disable_prompt is present exactly when Maven runs non-interactively. */
  lemma DisablePromptFlag(c: Config)
    ensures Key(DisablePromptArg) in AppCfgArgs(c) <==> !c.settings.interactiveMode
  {
    FlagPresence(c, DisablePromptArg, !c.settings.interactiveMode);
  }

  /** The remaining presence flags follow their fields; --passin also follows a
      settings password that supplies the email. */
  lemma BooleanFlags(c: Config)
    ensures Key(PassInArg) in AppCfgArgs(c) <==> c.passIn || ForcesPassIn(c)
    ensures Key(JarSplittingArg) in AppCfgArgs(c) <==> c.splitJars
    ensures Key(RetainUploadDirArg) in AppCfgArgs(c) <==> c.keepTempUploadDir
  {
    FlagPresence(c, PassInArg, c.passIn || ForcesPassIn(c));
    FlagPresence(c, JarSplittingArg, c.splitJars);
    FlagPresence(c, RetainUploadDirArg, c.keepTempUploadDir);
  }

  /** Where the --email= token comes from: the settings username when a server
      entry is used and no explicit email is configured, the explicit email
      otherwise; empty or missing values give no token. */
  lemma EmailPrecedence(c: Config)
    ensures |WithKey(AppCfgArgs(c), Key(EmailArg))| <= 1
    ensures HasServerSettings(c.settings, c.serverId) && c.emailAccount.None? ==>
              WithKey(AppCfgArgs(c), Key(EmailArg))
              == if NonEmpty(ServerEntry(c).username)
                 then [Key(EmailArg) + ServerEntry(c).username.value] else []
    ensures c.emailAccount.Some? || !HasServerSettings(c.settings, c.serverId) ==>
              WithKey(AppCfgArgs(c), Key(EmailArg))
              == if NonEmpty(c.emailAccount) then [Key(EmailArg) + c.emailAccount.value] else []
  {
    TokensOfOption(c, EmailArg);
  }

  /** Where the --proxy= token comes from: an explicit proxy wins; otherwise,
      with a server entry in use, the active settings proxy as host:port. */
  lemma ProxyPrecedence(c: Config)
    ensures |WithKey(AppCfgArgs(c), Key(ProxyArg))| <= 1
    ensures c.proxy.Some? ==>
              WithKey(AppCfgArgs(c), Key(ProxyArg))
              == if NonEmpty(c.proxy) then [Key(ProxyArg) + c.proxy.value] else []
    ensures HasServerSettings(c.settings, c.serverId) && c.proxy.None? && c.settings.activeProxy.Some? ==>
              WithKey(AppCfgArgs(c), Key(ProxyArg))
              == [Key(ProxyArg) + HostPort(c.settings.activeProxy.value)]
    ensures c.proxy.None? && !(HasServerSettings(c.settings, c.serverId) && c.settings.activeProxy.Some?) ==>
              WithKey(AppCfgArgs(c), Key(ProxyArg)) == []
  {
    TokensOfOption(c, ProxyArg);
  }

  /** A settings password that supplies the email forces --passin and leaves
      passIn set, after which building again gives the same vector and state. */
  lemma RebuildIsStable(c: Config)
    ensures ForcesPassIn(c) ==> Key(PassInArg) in AppCfgArgs(c) && AfterBuild(c).passIn
    ensures AppCfgArgs(AfterBuild(c)) == AppCfgArgs(c)
    ensures AfterBuild(AfterBuild(c)) == AfterBuild(c)
  {
    BooleanFlags(c);
    var d := AfterBuild(c);
    assert ForcesPassIn(d) == ForcesPassIn(c);
    forall i | 0 <= i < |Order| ensures Parts(d)[i] == Parts(c)[i] {
      assert OptionToken(d, Order[i]) == OptionToken(c, Order[i]);
    }
    assert Parts(d) == Parts(c);
  }

  /** When runAppCfg types in the settings password and the email also came from
      the settings, AppCfg was told to read the password from stdin. */
  lemma InjectionImpliesPassIn(c: Config)
    ensures InjectedPassword(c).Some? && c.emailAccount.None? ==> Key(PassInArg) in AppCfgArgs(c)
  {
    BooleanFlags(c);
  }

  // ---------------------------------------------------------------------------
  // The documented --passin promise

  /** A configuration with an explicit e-mail and a settings entry that holds
      a password. */
  function GapWitness(): (c: Config)
    ensures c.emailAccount.Some? && HasServerSettings(c.settings, c.serverId) && !c.passIn
  {
    var entry := Server(Some("user"), Some("pw"));
    var settings := Settings(false, map["s" := entry], None);
    Config(settings, Some("/sdk"), false, Some("me@x"), Some("s"), None, None, false, false, None)
  }

  /** As written, an explicit e-mail with passIn unset means no --passin, even
      when runAppCfg types the settings password in. */
  lemma PassInGapAsWritten(c: Config)
    ensures c.emailAccount.Some? && !c.passIn && InjectedPassword(c).Some? ==> Key(PassInArg) !in AppCfgArgs(c)
  {
    BooleanFlags(c);
  }

  /** GapWitness is such a configuration: the password "pw" is typed in and the
      vector has no --passin. */
  lemma PassInGapWitness()
    ensures InjectedPassword(GapWitness()) == Some("pw")
    ensures Key(PassInArg) !in AppCfgArgs(GapWitness())
  {
    BooleanFlags(GapWitness());
  }

  /** The documented rule: a password in the settings entry sets --passin,
      whichever way the e-mail was configured. */
  predicate ForcesPassInIntended(c: Config) {
    HasServerSettings(c.settings, c.serverId) && ServerEntry(c).password.Some?
  }

  /** The vector when addEmailOption sets passIn under the documented rule. */
  function IntendedAppCfgArgs(c: Config): seq<string> {
    AppCfgArgs(c.(passIn := c.passIn || ForcesPassInIntended(c)))
  }

  /** Under the documented rule every injected password comes with --passin,
      and nothing changes for runs that inject no password. */
  lemma IntendedInjectionImpliesPassIn(c: Config)
    ensures InjectedPassword(c).Some? ==> Key(PassInArg) in IntendedAppCfgArgs(c)
    ensures InjectedPassword(c).None? ==> IntendedAppCfgArgs(c) == AppCfgArgs(c)
  {
    var d := c.(passIn := c.passIn || ForcesPassInIntended(c));
    assert InjectedPassword(d) == InjectedPassword(c);
    BooleanFlags(d);
    if InjectedPassword(c).None? {
      assert d == c;
    }
  }

  // ---------------------------------------------------------------------------
  // The documented proxy default

  /** As written, without a usable server entry and without a configured
      proxy, the active settings proxy is ignored: the vector has no --proxy=. */
  lemma ProxyGapAsWritten(c: Config)
    ensures !HasServerSettings(c.settings, c.serverId) && c.proxy.None? ==>
              WithKey(AppCfgArgs(c), Key(ProxyArg)) == []
  {
    TokensOfOption(c, ProxyArg);
  }

  /** The documented default: with no proxy configured, the active settings
      proxy is used, whether or not a server entry is in use. */
  function ProxyOptionIntended(c: Config): (r: seq<string>)
    ensures |r| <= 1
  {
    if c.proxy.None? then
      match c.settings.activeProxy
      case Some(p) => StringOption(Key(ProxyArg), Some(HostPort(p)))
      case None => []
    else
      StringOption(Key(ProxyArg), c.proxy)
  }

  /** Under the documented default every active settings proxy reaches AppCfg
      when no proxy is configured, and wherever the code consults the settings
      proxy or the configured one the two agree. */
  lemma IntendedProxyDefault(c: Config)
    ensures c.proxy.None? && c.settings.activeProxy.Some? ==>
              ProxyOptionIntended(c) == [Key(ProxyArg) + HostPort(c.settings.activeProxy.value)]
    ensures c.proxy.None? && c.settings.activeProxy.None? ==> ProxyOptionIntended(c) == []
    ensures HasServerSettings(c.settings, c.serverId) || c.proxy.Some? ==> ProxyOptionIntended(c) == ProxyOption(c)
  {
  }
}
