/** The options a signing pod is started with: environment, post-start commands, and what the script restores. */
module CommandOptions {
  import opened Wrappers
  import opened Strings
  import opened ApiTypes
  import opened Naming
  import opened Shell

  datatype CommandOpt = CommandOpt(
    rootKey: Option<TrustKey>,
    targetKey: Option<TrustKey>,
    registryLoginSecret: string,
    registryLoginCertSecret: string,
    imagePvc: string)
  {
    function Key(r: Role): Option<TrustKey> { if r.Root? then rootKey else targetKey }
  }

  /** One key's environment entry. */
  function KeyEnv(key: Option<TrustKey>, r: Role): map<string, string> {
    if key.Some? && key.value.passPhrase != "" then map[RoleEnv(r) := key.value.passPhrase] else map[]
  }

  /** The environment `Start` gives the container. */
  function Environment(opt: CommandOpt): map<string, string> {
    KeyEnv(opt.rootKey, Root) + KeyEnv(opt.targetKey, Target)
  }

  predicate HasPass(key: Option<TrustKey>) { key.Some? && key.value.passPhrase != "" }

  /** An environment entry of a pod with these options. */
  predicate IsEntry(opt: CommandOpt, name: string, value: string) {
    || (name == "DOCKER_CONTENT_TRUST_ROOT_PASSPHRASE" && HasPass(opt.rootKey) && value == opt.rootKey.value.passPhrase)
    || (name == "DOCKER_CONTENT_TRUST_REPOSITORY_PASSPHRASE" && HasPass(opt.targetKey) && value == opt.targetKey.value.passPhrase)
  }

  /** There are no variables but docker's two, each exactly if its key has a passphrase, with that passphrase. */
  lemma EnvironmentIs(opt: CommandOpt, name: string, value: string)
    ensures name in Environment(opt) && Environment(opt)[name] == value <==> IsEntry(opt, name, value)
  {
    RoleEnvsDiffer();
  }

  /** The keys `Start` restores: those with both an ID and a text. */
  function Restorable(key: Option<TrustKey>): seq<TrustKey> {
    if key.Some? && key.value.id != "" && key.value.key != "" then [key.value] else []
  }

  function RestoredKeys(opt: CommandOpt): seq<TrustKey> {
    Restorable(opt.rootKey) + Restorable(opt.targetKey)
  }

  function StoreCommands(keys: seq<TrustKey>): seq<string> {
    seq(|keys|, i requires 0 <= i < |keys| => StoreFileShellCommand(keys[i].id, keys[i].key))
  }

  /** The commands `Start` hands to WithLifeCycle. */
  function LifeCycleCommands(opt: CommandOpt): seq<string> {
    StoreCommands(RestoredKeys(opt)) + if opt.registryLoginSecret != "" then [LoginCommand] else []
  }

  function Script(opt: CommandOpt): string { PostStartScript(LifeCycleCommands(opt)) }

  /** What a key with an ID and a text adds to the script; any other adds nothing. */
  function RestoreText(key: Option<TrustKey>): string {
    if key.None? || key.value.id == "" || key.value.key == "" then ""
    else "; echo \"" + key.value.key + "\" > " + KeyPath(key.value.id)
  }

  /** The commands of a list, each behind a semicolon. */
  function Behind(cmds: seq<string>): string { if cmds == [] then "" else "; " + cmds[0] + Behind(cmds[1..]) }

  lemma {:induction false} JoinBehind(first: string, cmds: seq<string>)
    ensures Join([first] + cmds, "; ") == first + Behind(cmds)
    decreases |cmds|
  {
    assert ([first] + cmds)[1..] == cmds;
    if cmds != [] {
      JoinBehind(cmds[0], cmds[1..]);
      assert [cmds[0]] + cmds[1..] == cmds;
      assert first + "; " + (cmds[0] + Behind(cmds[1..])) == first + ("; " + cmds[0] + Behind(cmds[1..]));
    }
  }

  lemma {:induction false} BehindAppend(a: seq<string>, b: seq<string>)
    ensures Behind(a + b) == Behind(a) + Behind(b)
  {
    if a == [] {
      assert a + b == b;
    } else {
      assert (a + b)[1..] == a[1..] + b;
      BehindAppend(a[1..], b);
    }
  }

  lemma BehindOne(cmd: string)
    ensures Behind([cmd]) == "; " + cmd
  {
    assert [cmd][1..] == [];
  }

  lemma RestoredBehind(key: Option<TrustKey>)
    ensures Behind(StoreCommands(Restorable(key))) == RestoreText(key)
  {
    hide KeyPath;
    if Restorable(key) != [] {
      var k := key.value;
      BehindOne(StoreFileShellCommand(k.id, k.key));
      StoreText(k.id, k.key);
      assert StoreCommands([k]) == [StoreFileShellCommand(k.id, k.key)];
    } else {
      assert StoreCommands([]) == [];
    }
  }

  /** The post-start script, letter by letter. */
  lemma ScriptText(opt: CommandOpt)
    ensures Script(opt) ==
            "update-ca-certificates; mkdir -p " + "/root/.docker/trust/private"
            + RestoreText(opt.rootKey) + RestoreText(opt.targetKey) + LoginBehind(opt.registryLoginSecret)
  {
    hide LifeCycleCommands, RestoreText, CaCommand, MkdirCommand, LoginBehind;
    HeadText();
    BehindAll(opt);
    ScriptBehind(opt);
    Regrouped(CaCommand + "; " + MkdirCommand, RestoreText(opt.rootKey), RestoreText(opt.targetKey),
              LoginBehind(opt.registryLoginSecret));
  }

  lemma BehindAll(opt: CommandOpt)
    ensures Behind(LifeCycleCommands(opt))
         == RestoreText(opt.rootKey) + RestoreText(opt.targetKey) + LoginBehind(opt.registryLoginSecret)
  {
    hide StoreFileShellCommand, RestoreText, LoginCommand, StoreCommands, Restorable, LoginBehind;
    var root, target := StoreCommands(Restorable(opt.rootKey)), StoreCommands(Restorable(opt.targetKey));
    var login := if opt.registryLoginSecret != "" then [LoginCommand] else [];
    LoginBehindIs(opt.registryLoginSecret);
    StoreCommandsAppend(Restorable(opt.rootKey), Restorable(opt.targetKey));
    RestoredBehind(opt.rootKey);
    RestoredBehind(opt.targetKey);
    BehindAppend(root + target, login);
    BehindAppend(root, target);
  }

  /** The login secret's file becomes docker's configuration. */
  function LoginBehind(secret: string): string {
    if secret == "" then "" else "; cp " + "/home/dockremap/.dockerconfigjson" + " " + "/root/.docker/config.json"
  }

  lemma LoginBehindIs(secret: string)
    ensures Behind(if secret != "" then [LoginCommand] else []) == LoginBehind(secret)
  {
    LoginText();
    hide LoginCommand;
    BehindOne(LoginCommand);
    assert "; " + "cp " == "; cp ";
    SemiFirst("/home/dockremap/.dockerconfigjson", "/root/.docker/config.json");
  }

  lemma SemiFirst(from: string, to: string)
    ensures "; " + ("cp " + from + " " + to) == "; cp " + from + " " + to
  {
    assert "; " + "cp " == "; cp ";
  }

  lemma ScriptBehind(opt: CommandOpt)
    ensures Script(opt) == CaCommand + "; " + MkdirCommand + Behind(LifeCycleCommands(opt))
  {
    hide CaCommand, MkdirCommand, LifeCycleCommands;
    JoinBehind(CaCommand + "; " + MkdirCommand, LifeCycleCommands(opt));
    assert CaCommand + "; " + MkdirCommand + "" == CaCommand + "; " + MkdirCommand;
  }

  lemma Regrouped(a: string, b: string, c: string, d: string)
    ensures a + (b + c + d) == a + b + c + d
  {
  }

  lemma StoreCommandsAppend(a: seq<TrustKey>, b: seq<TrustKey>)
    ensures StoreCommands(a + b) == StoreCommands(a) + StoreCommands(b)
  {
    hide StoreFileShellCommand;
  }

  /** Key files as the script should leave them: each key's text and a newline, the last write to a path winning. */
  function KeyFiles(keys: seq<TrustKey>): map<string, string> {
    if keys == [] then map[]
    else
      var last := keys[|keys| - 1];
      KeyFiles(keys[..|keys| - 1])[KeyPath(last.id) := last.key + "\n"]
  }

  /** A key the shell reproduces exactly. */
  predicate ShellSafe(k: TrustKey) { SafeName(k.id) && Quotable(k.key) && !EchoOption(k.key) }

  predicate AllSafe(keys: seq<TrustKey>) { forall i :: 0 <= i < |keys| ==> ShellSafe(keys[i]) }

  function StoreAll(keys: seq<TrustKey>): seq<Simple> {
    seq(|keys|, i requires 0 <= i < |keys| => StoreCommand(keys[i].id, keys[i].key))
  }

  /** The reader recovers exactly the command list from the script. */
  lemma ScriptCommands(opt: CommandOpt)
    requires AllSafe(RestoredKeys(opt))
    ensures Parse(Script(opt)) == Some([Ca, Mkdir] + StoreAll(RestoredKeys(opt)) +
                                       if opt.registryLoginSecret != "" then [Login] else [])
  {
    hide StoreCommand, PostStartScript, ReadsAs, Parse;
    var keys := RestoredKeys(opt);
    var login := if opt.registryLoginSecret != "" then [Login] else [];
    var cs := StoreAll(keys) + login;
    LoginReads();
    forall i | 0 <= i < |cs| ensures ReadsAs(LifeCycleCommands(opt)[i], cs[i]) {
      if i < |keys| {
        assert ShellSafe(keys[i]);
        StoreReads(keys[i].id, keys[i].key);
      }
    }
    ScriptRoundTrip(LifeCycleCommands(opt), cs);
    assert [Ca, Mkdir] + cs == [Ca, Mkdir] + StoreAll(keys) + login;
  }

  lemma {:induction false} RunStores(files: map<string, string>, keys: seq<TrustKey>)
    requires AllSafe(keys)
    ensures RunAll(files, StoreAll(keys)) == Some(files + KeyFiles(keys))
    decreases |keys|
  {
    if keys == [] {
      assert files + map[] == files;
    } else {
      RunStores(files, keys[..|keys| - 1]);
      RunOneMore(files, keys, files + KeyFiles(keys[..|keys| - 1]));
      KeyFilesLast(files, keys);
    }
  }

  lemma KeyFilesLast(files: map<string, string>, keys: seq<TrustKey>)
    requires keys != []
    ensures var init, last := keys[..|keys| - 1], keys[|keys| - 1];
            (files + KeyFiles(init))[KeyPath(last.id) := last.key + "\n"] == files + KeyFiles(keys)
  {
  }

  lemma RunOneMore(files: map<string, string>, keys: seq<TrustKey>, before: map<string, string>)
    requires keys != [] && ShellSafe(keys[|keys| - 1])
    requires RunAll(files, StoreAll(keys[..|keys| - 1])) == Some(before)
    ensures var last := keys[|keys| - 1];
            RunAll(files, StoreAll(keys)) == Some(before[KeyPath(last.id) := last.key + "\n"])
  {
    var last := keys[|keys| - 1];
    StoreAllLast(keys);
    RunAppend(files, StoreAll(keys[..|keys| - 1]), [StoreCommand(last.id, last.key)]);
    RunStore(before, last);
  }

  lemma StoreAllLast(keys: seq<TrustKey>)
    requires keys != []
    ensures var last := keys[|keys| - 1];
            StoreAll(keys) == StoreAll(keys[..|keys| - 1]) + [StoreCommand(last.id, last.key)]
  {
    hide StoreCommand;
  }

  lemma RunStore(files: map<string, string>, k: TrustKey)
    requires ShellSafe(k)
    ensures RunAll(files, [StoreCommand(k.id, k.key)]) == Some(files[KeyPath(k.id) := k.key + "\n"])
  {
    var c := StoreCommand(k.id, k.key);
    assert [c][1..] == [];
    assert c != Ca && c != Mkdir;
    assert RunAll(files, [c]) == RunAll(files[KeyPath(k.id) := k.key + "\n"], []);
  }

  /** Running the post-start script leaves every key file it was made for, and the login file if there is one. */
  lemma ScriptRestoresKeys(opt: CommandOpt, files: map<string, string>)
    requires AllSafe(RestoredKeys(opt))
    requires opt.registryLoginSecret != "" ==> Login.words[1] in files
    ensures var stored := files + KeyFiles(RestoredKeys(opt));
            RunScript(files, Script(opt)) ==
            Some(if opt.registryLoginSecret == "" then stored else stored[Login.words[2] := stored[Login.words[1]]])
  {
    var keys := RestoredKeys(opt);
    var login := if opt.registryLoginSecret != "" then [Login] else [];
    ScriptCommands(opt);
    RunAppend(files, [Ca, Mkdir] + StoreAll(keys), login);
    RunAppend(files, [Ca, Mkdir], StoreAll(keys));
    RunHeads(files);
    RunStores(files, keys);
    RunLogin(files + KeyFiles(keys));
  }

  lemma RunHeads(files: map<string, string>)
    ensures RunAll(files, [Ca, Mkdir]) == Some(files)
  {
    assert [Ca, Mkdir][1..] == [Mkdir];
    assert [Mkdir][1..] == [];
    assert RunAll(files, [Mkdir]) == RunAll(files, []);
  }

  lemma RunLogin(files: map<string, string>)
    ensures RunAll(files, []) == Some(files)
    ensures Login.words[1] in files ==> RunAll(files, [Login]) == Some(files[Login.words[2] := files[Login.words[1]]])
  {
    assert [Login][1..] == [];
    if Login.words[1] in files {
      assert RunAll(files, [Login]) == RunAll(files[Login.words[2] := files[Login.words[1]]], []);
    }
  }

  /** A key whose path no later key overwrites is found there, with its newline. */
  lemma {:induction false} KeyFileOf(keys: seq<TrustKey>, i: nat)
    requires i < |keys|
    requires forall j :: i < j < |keys| ==> KeyPath(keys[j].id) != KeyPath(keys[i].id)
    ensures KeyPath(keys[i].id) in KeyFiles(keys) && KeyFiles(keys)[KeyPath(keys[i].id)] == keys[i].key + "\n"
    decreases |keys|
  {
    hide KeyPath;
    if i < |keys| - 1 {
      KeyFileOf(keys[..|keys| - 1], i);
    }
  }

  /** Every key file of a pod comes from one of the keys it was started with. */
  lemma {:induction false} KeyFileFrom(keys: seq<TrustKey>, path: string)
    requires path in KeyFiles(keys)
    ensures exists k :: k in keys && KeyPath(k.id) == path && KeyFiles(keys)[path] == k.key + "\n"
    decreases |keys|
  {
    var last := keys[|keys| - 1];
    if KeyPath(last.id) == path {
      assert last in keys;
    } else {
      var init := keys[..|keys| - 1];
      KeyFileFrom(init, path);
      var k :| k in init && KeyPath(k.id) == path && KeyFiles(init)[path] == k.key + "\n";
      assert k in keys;
    }
  }
}
