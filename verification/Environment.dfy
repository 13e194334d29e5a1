/** The container environment of `buildEnv` in `internal/docker/minecraft.go`, and the part of `specFor` in
    `internal/api/servers.go` that feeds it. */
module Environment {
  import opened Text
  import opened Models
  import opened Registries
  import opened Lifecycle

  /** The part of a container spec that ends up in the environment. */
  datatype Settings = Settings(
    kind: string, version: string, memory: string,
    modrinthModpack: string, curseForgeSlug: string, curseForgeKey: string,
    extraEnv: map<string, string>)

  function Plain(s: Settings): map<string, string> {
    map["EULA" := "TRUE", "TYPE" := s.kind, "VERSION" := s.version, "MEMORY" := s.memory, "ENABLE_RCON" := "false"]
  }

  /** A modpack overrides TYPE and pins its own version. */
  function Computed(s: Settings): map<string, string> {
    if s.modrinthModpack != "" then
      Plain(s)["TYPE" := "MODRINTH"]["MODRINTH_MODPACK" := s.modrinthModpack] - {"VERSION"}
    else if s.curseForgeSlug != "" then
      Plain(s)["TYPE" := "AUTO_CURSEFORGE"]["CF_SLUG" := s.curseForgeSlug]["CF_API_KEY" := s.curseForgeKey] - {"VERSION"}
    else Plain(s)
  }

  /** What the container is meant to see: the extra variables win, and empty values are dropped. */
  function Effective(s: Settings): map<string, string> {
    NonEmpty(Computed(s) + s.extraEnv)
  }

  function NonEmpty(env: map<string, string>): map<string, string> {
    map k | k in env && env[k] != "" :: env[k]
  }

  /** An order in which Go might visit the keys of a map. */
  ghost predicate IsOrder(order: seq<string>, keys: set<string>) {
    && (forall k :: k in order <==> k in keys)
    && (forall i, j | 0 <= i < j < |order| :: order[i] != order[j])
  }

  function Entry(k: string, v: string): string {
    k + ['='] + v
  }

  /** The entries of `env` in the given order, without empty values. */
  function Entries(env: map<string, string>, order: seq<string>): seq<string>
    requires forall k | k in order :: k in env
  {
    if order == [] then []
    else
      var n := |order| - 1;
      Entries(env, order[..n]) + if env[order[n]] == "" then [] else [Entry(order[n], env[order[n]])]
  }

  function Visited(extra: map<string, string>, keys: seq<string>): map<string, string> {
    map k | k in extra && k in keys :: extra[k]
  }

  lemma VisitNext(base: map<string, string>, extra: map<string, string>, keys: seq<string>, k: string)
    requires k in extra
    ensures base + Visited(extra, keys + [k]) == (base + Visited(extra, keys))[k := extra[k]]
  {
    assert Visited(extra, keys + [k]) == Visited(extra, keys)[k := extra[k]];
  }

  /** `for k, v := range extra { env[k] = v }`, visiting the keys in any order. */
  method Merge(base: map<string, string>, extra: map<string, string>, order: seq<string>)
    returns (env: map<string, string>)
    requires IsOrder(order, extra.Keys)
    ensures env == base + extra
  {
    env := base;
    for i := 0 to |order|
      invariant env == base + Visited(extra, order[..i])
    {
      assert order[i] in extra.Keys;
      VisitNext(base, extra, order[..i], order[i]);
      assert order[..i + 1] == order[..i] + [order[i]];
      env := env[order[i] := extra[order[i]]];
    }
    assert order[..|order|] == order;
    assert Visited(extra, order) == extra;
  }

  /** The environment of a container, for any order in which the two maps are visited. */
  method BuildEnv(s: Settings, extraOrder: seq<string>, order: seq<string>) returns (out: seq<string>)
    requires IsOrder(extraOrder, s.extraEnv.Keys)
    requires IsOrder(order, (Computed(s) + s.extraEnv).Keys)
    ensures out == Entries(Computed(s) + s.extraEnv, order)
  {
    var env := map["EULA" := "TRUE", "TYPE" := s.kind, "VERSION" := s.version, "MEMORY" := s.memory,
                   "ENABLE_RCON" := "false"];
    if s.modrinthModpack != "" {
      env := env["TYPE" := "MODRINTH"];
      env := env["MODRINTH_MODPACK" := s.modrinthModpack];
      env := env - {"VERSION"};
    } else if s.curseForgeSlug != "" {
      env := env["TYPE" := "AUTO_CURSEFORGE"];
      env := env["CF_SLUG" := s.curseForgeSlug];
      env := env["CF_API_KEY" := s.curseForgeKey];
      env := env - {"VERSION"};
    }
    env := Merge(env, s.extraEnv, extraOrder);
    out := [];
    for i := 0 to |order|
      invariant out == Entries(env, order[..i])
    {
      var k := order[i];
      assert order[..i + 1][..i] == order[..i];
      if env[k] != "" {
        out := out + [k + ['='] + env[k]];
      }
    }
    assert order[..|order|] == order;
  }

  // --- reading the environment back ---

  /** `strings.Cut` at the first '=', for every entry; a later entry for the same key wins. */
  function ReadBack(entries: seq<string>): map<string, string> {
    if entries == [] then map[]
    else
      var n := |entries| - 1;
      var e := entries[n];
      var i := IndexOf(e, '=');
      if i == |e| then ReadBack(entries[..n]) else ReadBack(entries[..n])[e[..i] := e[i + 1..]]
  }

  function Listed(env: map<string, string>, order: seq<string>): map<string, string>
    requires forall k | k in order :: k in env
  {
    map k | k in order && env[k] != "" :: env[k]
  }

  lemma ReadBackNext(entries: seq<string>, k: string, v: string)
    requires '=' !in k
    ensures ReadBack(entries + [Entry(k, v)]) == ReadBack(entries)[k := v]
  {
    CutAtFirst(k, '=', v);
    assert (entries + [Entry(k, v)])[..|entries|] == entries;
  }

  lemma ListNext(env: map<string, string>, keys: seq<string>, k: string)
    requires k in env && forall j | j in keys :: j in env
    ensures Listed(env, keys + [k]) == if env[k] == "" then Listed(env, keys) else Listed(env, keys)[k := env[k]]
  {
  }

  lemma {:induction false} EntriesReadBack(env: map<string, string>, order: seq<string>)
    requires forall k | k in order :: k in env && (env[k] != "" ==> '=' !in k)
    ensures ReadBack(Entries(env, order)) == Listed(env, order)
    decreases |order|
  {
    if order != [] {
      var n := |order| - 1;
      var k := order[n];
      EntriesReadBack(env, order[..n]);
      assert order == order[..n] + [k];
      ListNext(env, order[..n], k);
      if env[k] == "" {
        assert Entries(env, order) == Entries(env, order[..n]);
      } else {
        ReadBackNext(Entries(env, order[..n]), k, env[k]);
      }
    }
  }

  lemma {:induction false} ReadBackKeysAreCut(entries: seq<string>)
    ensures forall k | k in ReadBack(entries) :: '=' !in k
  {
    if entries != [] {
      ReadBackKeysAreCut(entries[..|entries| - 1]);
    }
  }

  lemma ListedNext(env: map<string, string>, keys: seq<string>, k: string)
    requires k in env && k !in keys && forall j | j in keys :: j in env
    ensures |Listed(env, keys + [k])| == |Listed(env, keys)| + if env[k] == "" then 0 else 1
  {
    ListNext(env, keys, k);
  }

  lemma {:induction false} EntriesCount(env: map<string, string>, order: seq<string>)
    requires forall k | k in order :: k in env
    requires forall i, j | 0 <= i < j < |order| :: order[i] != order[j]
    ensures |Entries(env, order)| == |Listed(env, order)|
    decreases |order|
  {
    if order != [] {
      var n := |order| - 1;
      EntriesCount(env, order[..n]);
      assert order == order[..n] + [order[n]];
      ListedNext(env, order[..n], order[n]);
    }
  }

  /** Whatever the visiting order, there is one entry per effective variable, and cutting each entry at its first '='
      gives exactly the effective variables back if and only if none of their names contains an '='. */
  lemma EnvironmentReadsBack(s: Settings, order: seq<string>)
    requires IsOrder(order, (Computed(s) + s.extraEnv).Keys)
    ensures var entries := Entries(Computed(s) + s.extraEnv, order);
            && |entries| == |Effective(s)|
            && (ReadBack(entries) == Effective(s) <==> forall k | k in Effective(s) :: '=' !in k)
  {
    var env := Computed(s) + s.extraEnv;
    assert Listed(env, order) == Effective(s);
    EntriesCount(env, order);
    ReadBackKeysAreCut(Entries(env, order));
    if forall k | k in Effective(s) :: '=' !in k {
      forall k | k in order && env[k] != "" ensures '=' !in k {
        assert k in Effective(s);
      }
      EntriesReadBack(env, order);
    }
  }

  // --- the environment of a record ---

  /** The settings `specFor` takes from a record: the name becomes the MOTD, the provider picks the modpack field. */
  function SettingsFor(srv: Server, curseForgeKey: string): Settings {
    Settings(srv.kind, srv.version, srv.memory,
             if srv.provider == MODPACK_MODRINTH then srv.modpackID else "",
             if srv.provider == MODPACK_CURSEFORGE then srv.modpackID else "",
             if srv.provider == MODPACK_CURSEFORGE then curseForgeKey else "",
             map["MOTD" := srv.name])
  }

  predicate Shows(env: map<string, string>, k: string, v: string) {
    k in env && env[k] == v
  }

  /** What a player-visible environment shows for given settings with nothing but a name as extra. */
  lemma PlainEnvironment(s: Settings, name: string)
    requires s.extraEnv == map["MOTD" := name] && name != "" && s.kind != "" && s.version != ""
    requires s.modrinthModpack == "" && s.curseForgeSlug == ""
    ensures var env := Effective(s);
            Shows(env, "EULA", "TRUE") && Shows(env, "MOTD", name) && Shows(env, "TYPE", s.kind)
            && Shows(env, "VERSION", s.version)
  {
  }

  lemma ModrinthEnvironment(s: Settings, name: string)
    requires s.extraEnv == map["MOTD" := name] && name != "" && s.modrinthModpack != ""
    ensures var env := Effective(s);
            Shows(env, "EULA", "TRUE") && Shows(env, "MOTD", name) && Shows(env, "TYPE", "MODRINTH")
            && Shows(env, "MODRINTH_MODPACK", s.modrinthModpack) && "VERSION" !in env
  {
  }

  lemma CurseForgeEnvironment(s: Settings, name: string)
    requires s.extraEnv == map["MOTD" := name] && name != ""
    requires s.modrinthModpack == "" && s.curseForgeSlug != "" && s.curseForgeKey != ""
    ensures var env := Effective(s);
            Shows(env, "EULA", "TRUE") && Shows(env, "MOTD", name) && Shows(env, "TYPE", "AUTO_CURSEFORGE")
            && Shows(env, "CF_SLUG", s.curseForgeSlug) && Shows(env, "CF_API_KEY", s.curseForgeKey)
            && "VERSION" !in env
  {
  }

  /** The extra variables win over the computed ones, an empty one takes its variable away, and the others stay. */
  lemma ExtraWins(s: Settings, k: string)
    ensures k in s.extraEnv ==> (k in Effective(s) <==> s.extraEnv[k] != "")
    ensures k in s.extraEnv && k in Effective(s) ==> Effective(s)[k] == s.extraEnv[k]
    ensures k !in s.extraEnv ==> (k in Effective(s) <==> k in Computed(s) && Computed(s)[k] != "")
    ensures k !in s.extraEnv && k in Effective(s) ==> Effective(s)[k] == Computed(s)[k]
  {
  }

  /** The computed variables that every container has, before empty ones are dropped. */
  lemma ComputedCommon(s: Settings)
    ensures Shows(Computed(s), "EULA", "TRUE") && Shows(Computed(s), "ENABLE_RCON", "false")
    ensures Shows(Computed(s), "MEMORY", s.memory)
    ensures Computed(s).Keys
            <= {"EULA", "TYPE", "VERSION", "MEMORY", "ENABLE_RCON", "MODRINTH_MODPACK", "CF_SLUG", "CF_API_KEY"}
  {
  }

  /** Those that come with a modpack. */
  lemma ComputedPacks(s: Settings)
    ensures var env := Computed(s);
            && ("MODRINTH_MODPACK" in env && env["MODRINTH_MODPACK"] != "" <==> s.modrinthModpack != "")
            && ("CF_SLUG" in env && env["CF_SLUG"] != "" <==> s.modrinthModpack == "" && s.curseForgeSlug != "")
            && ("CF_API_KEY" in env && env["CF_API_KEY"] != ""
                <==> s.modrinthModpack == "" && s.curseForgeSlug != "" && s.curseForgeKey != "")
  {
  }

  /** What is the same for all: the accepted licence, the heap if one is set, no remote console, the name; and no variable
      that nobody asked for. */
  lemma CommonEnvironment(s: Settings, name: string)
    requires s.extraEnv == map["MOTD" := name] && name != ""
    ensures var env := Effective(s);
            && Shows(env, "EULA", "TRUE") && Shows(env, "ENABLE_RCON", "false") && Shows(env, "MOTD", name)
            && ("MEMORY" in env <==> s.memory != "") && ("MEMORY" in env ==> env["MEMORY"] == s.memory)
            && ("MODRINTH_MODPACK" in env <==> s.modrinthModpack != "")
            && ("CF_SLUG" in env <==> s.modrinthModpack == "" && s.curseForgeSlug != "")
            && ("CF_API_KEY" in env <==> s.modrinthModpack == "" && s.curseForgeSlug != "" && s.curseForgeKey != "")
            && env.Keys <= {"EULA", "TYPE", "VERSION", "MEMORY", "ENABLE_RCON", "MODRINTH_MODPACK", "CF_SLUG", "CF_API_KEY",
                            "MOTD"}
  {
    ComputedCommon(s);
    ComputedPacks(s);
    forall k: string ensures k in Effective(s) <==> (k == "MOTD" || (k in Computed(s) && Computed(s)[k] != ""))
    {
      ExtraWins(s, k);
    }
  }

  const KNOWN_KEYS := {"EULA", "TYPE", "VERSION", "MEMORY", "ENABLE_RCON", "MODRINTH_MODPACK", "CF_SLUG", "CF_API_KEY"}

  lemma KnownKeysAreClean(s: Settings, name: string)
    requires s.extraEnv == map["MOTD" := name]
    ensures forall k | k in Effective(s) :: '=' !in k
  {
    assert Computed(s).Keys <= KNOWN_KEYS;
    assert forall k | k in KNOWN_KEYS :: '=' !in k;
  }

  /** What admission promises about a request. */
  lemma AdmittedFields(cfg: Config, reg: Registry, actor: string, v: Input, busy: set<int>)
    requires Admit(cfg, reg, actor, v, busy).Ok?
    ensures v.name != "" && v.kind != "" && v.version != "" && v.provider in MODPACK_PROVIDERS
    ensures v.provider != MODPACK_NONE ==> v.modpackID != ""
    ensures v.provider == MODPACK_CURSEFORGE ==> cfg.curseForgeKey != ""
  {
  }

  /** The variables of a record without a modpack. */
  lemma PlainRecord(srv: Server, key: string)
    requires srv.provider == MODPACK_NONE && srv.name != "" && srv.kind != "" && srv.version != ""
    ensures var env := Effective(SettingsFor(srv, key));
            Shows(env, "EULA", "TRUE") && Shows(env, "MOTD", srv.name) && Shows(env, "TYPE", srv.kind)
            && Shows(env, "VERSION", srv.version)
  {
    PlainEnvironment(SettingsFor(srv, key), srv.name);
  }

  lemma ModrinthRecord(srv: Server, key: string)
    requires srv.provider == MODPACK_MODRINTH && srv.name != "" && srv.modpackID != ""
    ensures var env := Effective(SettingsFor(srv, key));
            Shows(env, "EULA", "TRUE") && Shows(env, "MOTD", srv.name) && Shows(env, "TYPE", "MODRINTH")
            && Shows(env, "MODRINTH_MODPACK", srv.modpackID) && "VERSION" !in env
  {
    ModrinthEnvironment(SettingsFor(srv, key), srv.name);
  }

  lemma CurseForgeRecord(srv: Server, key: string)
    requires srv.provider == MODPACK_CURSEFORGE && srv.name != "" && srv.modpackID != "" && key != ""
    ensures var env := Effective(SettingsFor(srv, key));
            Shows(env, "EULA", "TRUE") && Shows(env, "MOTD", srv.name) && Shows(env, "TYPE", "AUTO_CURSEFORGE")
            && Shows(env, "CF_SLUG", srv.modpackID) && Shows(env, "CF_API_KEY", key) && "VERSION" !in env
  {
    CurseForgeEnvironment(SettingsFor(srv, key), srv.name);
  }

  /** What the environment of a record shows, in one piece. */
  ghost predicate ShowsRecord(env: map<string, string>, srv: Server, key: string) {
    && ("VERSION" in env <==> srv.provider == MODPACK_NONE)
    && (srv.provider == MODPACK_NONE ==> Shows(env, "TYPE", srv.kind) && Shows(env, "VERSION", srv.version))
    && (srv.provider == MODPACK_MODRINTH ==>
          Shows(env, "TYPE", "MODRINTH") && Shows(env, "MODRINTH_MODPACK", srv.modpackID))
    && (srv.provider == MODPACK_CURSEFORGE ==>
          Shows(env, "TYPE", "AUTO_CURSEFORGE") && Shows(env, "CF_SLUG", srv.modpackID) && Shows(env, "CF_API_KEY", key))
    && Shows(env, "EULA", "TRUE") && Shows(env, "MOTD", srv.name) && Shows(env, "ENABLE_RCON", "false")
    && ("MEMORY" in env <==> srv.memory != "") && (srv.memory != "" ==> Shows(env, "MEMORY", srv.memory))
    && ("MODRINTH_MODPACK" in env <==> srv.provider == MODPACK_MODRINTH)
    && ("CF_SLUG" in env <==> srv.provider == MODPACK_CURSEFORGE)
    && ("CF_API_KEY" in env <==> srv.provider == MODPACK_CURSEFORGE)
    && env.Keys <= {"EULA", "TYPE", "VERSION", "MEMORY", "ENABLE_RCON", "MODRINTH_MODPACK", "CF_SLUG", "CF_API_KEY", "MOTD"}
  }

  lemma RecordEnvironment(srv: Server, key: string)
    requires srv.provider in MODPACK_PROVIDERS && srv.name != "" && srv.kind != "" && srv.version != ""
    requires srv.provider != MODPACK_NONE ==> srv.modpackID != ""
    requires srv.provider == MODPACK_CURSEFORGE ==> key != ""
    ensures ShowsRecord(Effective(SettingsFor(srv, key)), srv, key)
  {
    CommonEnvironment(SettingsFor(srv, key), srv.name);
    if srv.provider == MODPACK_NONE {
      PlainRecord(srv, key);
    } else if srv.provider == MODPACK_MODRINTH {
      ModrinthRecord(srv, key);
    } else {
      CurseForgeRecord(srv, key);
    }
  }

  /** The environment of every admitted request's record: VERSION is there exactly when no modpack pins it, TYPE names the
      provider or else the loader, the modpack and its key are passed on, and every entry can be read back. */
  lemma AdmittedEnvironment(cfg: Config, reg: Registry, actor: string, v: Input, busy: set<int>, id: string)
    requires Admit(cfg, reg, actor, v, busy).Ok?
    ensures var row := RowFor(cfg, v, id, actor, Admit(cfg, reg, actor, v, busy).value);
            var env := Effective(SettingsFor(row, cfg.curseForgeKey));
            && (forall k | k in env :: '=' !in k)
            && ShowsRecord(env, row, cfg.curseForgeKey)
            && row.name == v.name && row.kind == v.kind && row.version == v.version
            && row.provider == v.provider && row.modpackID == v.modpackID
  {
    AdmittedFields(cfg, reg, actor, v, busy);
    var row := RowFor(cfg, v, id, actor, Admit(cfg, reg, actor, v, busy).value);
    KnownKeysAreClean(SettingsFor(row, cfg.curseForgeKey), row.name);
    RecordEnvironment(row, cfg.curseForgeKey);
  }
}
