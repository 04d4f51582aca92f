/** Export and import of the MCP server registry in backend/api/mcp.py. */
module McpConfig {
  import opened Common

  datatype Server = Server(
    id: string, name: string, enabled: bool, command: string, args: seq<string>, env: map<string, string>,
    url: string, headers: map<string, string>, timeout: int, connectTimeout: int, includeTools: seq<string>,
    enableResources: bool, enablePrompts: bool, transport: Option<string>, description: string,
    excludeTools: seq<string>)

  /** One value under "mcpServers": the keys that are present. */
  datatype Entry = Entry(
    command: Option<string>, args: Option<seq<string>>, env: Option<map<string, string>>,
    url: Option<string>, headers: Option<map<string, string>>,
    toolTimeout: Option<int>, timeout: Option<int>, connectTimeout: Option<int>, snakeConnectTimeout: Option<int>,
    enabledTools: Option<seq<string>>, includeTools: Option<seq<string>>,
    enableResources: Option<bool>, enablePrompts: Option<bool>)

  /** A value that is not a JSON object is `None`. */
  type Document = Dict<string, Option<Entry>>

  const NO_KEYS := Entry(None, None, None, None, None, None, None, None, None, None, None, None, None)

  function Default<T>(o: Option<T>, d: T): T {
    if o.Some? then o.value else d
  }

  function First<T>(o: Option<T>, p: Option<T>, d: T): T {
    Default(o, Default(p, d))
  }

  /** `s.id or s.name` */
  function Key(s: Server): string {
    if s.id != "" then s.id else s.name
  }

  /** `s.name or s.id or "unknown"` */
  function ExportName(s: Server): string {
    if s.name != "" then s.name else if s.id != "" then s.id else "unknown"
  }

  // ---------- export ----------

  function When<T>(c: bool, v: T): Option<T> {
    if c then Some(v) else None
  }

  function EntryOf(s: Server): Entry {
    NO_KEYS.(command := When(s.command != "", s.command),
            args := When(s.args != [], s.args),
            env := When(s.env != map[], s.env),
            url := When(s.url != "", s.url),
            headers := When(s.headers != map[], s.headers),
            toolTimeout := When(s.timeout != 30, s.timeout),
            enabledTools := When(s.includeTools != [] && s.includeTools != ["*"], s.includeTools))
  }

  function ExportFrom(out: Document, servers: seq<Server>): Document
    decreases |servers|
  {
    if servers == [] then out else ExportFrom(Put(out, ExportName(servers[0]), Some(EntryOf(servers[0]))), servers[1..])
  }

  method ToClaudeDesktopFormat(servers: seq<Server>) returns (result: Document)
    ensures result == ExportFrom([], servers)
  {
    result := [];
    for i := 0 to |servers|
      invariant ExportFrom(result, servers[i..]) == ExportFrom([], servers)
    {
      assert servers[i..][1..] == servers[i + 1..];
      result := Put(result, ExportName(servers[i]), Some(EntryOf(servers[i])));
    }
  }

  ghost predicate Writes<T>(given: Option<T>, value: T, silent: bool) {
    given == if silent then None else Some(value)
  }

  /** What an export writes of a server: each field unless it is empty or has its default, and no other. */
  lemma {:induction false} ExportedFields(s: Server)
    ensures var e := EntryOf(s);
            && Writes(e.command, s.command, s.command == "") && Writes(e.args, s.args, s.args == [])
            && Writes(e.env, s.env, s.env == map[]) && Writes(e.url, s.url, s.url == "")
            && Writes(e.headers, s.headers, s.headers == map[]) && Writes(e.toolTimeout, s.timeout, s.timeout == 30)
            && Writes(e.enabledTools, s.includeTools, s.includeTools == [] || s.includeTools == ["*"])
    ensures var e := EntryOf(s);
            && e.timeout == e.connectTimeout == e.snakeConnectTimeout == None && e.includeTools == None
            && e.enableResources == e.enablePrompts == None
  {
  }

  /** Of servers with one export name the last one is written. */
  lemma {:induction false} LastOfNameIsWritten(out: Document, servers: seq<Server>, k: nat)
    requires k < |servers| && forall j :: k < j < |servers| ==> ExportName(servers[j]) != ExportName(servers[k])
    ensures Get(ExportFrom(out, servers), ExportName(servers[k])) == Some(Some(EntryOf(servers[k])))
    decreases |servers|
  {
    var out1 := Put(out, ExportName(servers[0]), Some(EntryOf(servers[0])));
    if k == 0 {
      GetPut(out, ExportName(servers[0]), Some(EntryOf(servers[0])), ExportName(servers[0]));
      OtherNameStays(out1, servers[1..], ExportName(servers[0]));
    } else {
      LastOfNameIsWritten(out1, servers[1..], k - 1);
    }
  }

  lemma {:induction false} OtherNameStays(out: Document, servers: seq<Server>, name: string)
    requires forall j :: 0 <= j < |servers| ==> ExportName(servers[j]) != name
    ensures Get(ExportFrom(out, servers), name) == Get(out, name)
    decreases |servers|
  {
    if servers != [] {
      GetPut(out, ExportName(servers[0]), Some(EntryOf(servers[0])), name);
      OtherNameStays(Put(out, ExportName(servers[0]), Some(EntryOf(servers[0]))), servers[1..], name);
    }
  }

  // ---------- import ----------

  function EnabledMap(existing: seq<Server>): map<string, bool> {
    if existing == [] then map[]
    else
      var last := existing[|existing| - 1];
      var m := EnabledMap(existing[..|existing| - 1]);
      if last.id != "" || last.name != "" then m[Key(last) := last.enabled] else m
  }

  function ServerOf(name: string, cfg: Entry, enabled: map<string, bool>): Server {
    Server(name, name, if name in enabled then enabled[name] else true,
           Default(cfg.command, ""), Default(cfg.args, []), Default(cfg.env, map[]),
           Default(cfg.url, ""), Default(cfg.headers, map[]),
           First(cfg.toolTimeout, cfg.timeout, 30), First(cfg.connectTimeout, cfg.snakeConnectTimeout, 10),
           First(cfg.enabledTools, cfg.includeTools, ["*"]),
           Default(cfg.enableResources, false), Default(cfg.enablePrompts, false), None, "", [])
  }

  function Parse(doc: Document, enabled: map<string, bool>): seq<Server> {
    if doc == [] then []
    else (if doc[0].1.Some? then [ServerOf(doc[0].0, doc[0].1.value, enabled)] else []) + Parse(doc[1..], enabled)
  }

  /** The ranges `McpServerConfig` accepts; outside them its construction raises. */
  predicate Accepted(s: Server) {
    5 <= s.timeout <= 300 && 5 <= s.connectTimeout <= 60
  }

  function WhenAccepted(servers: seq<Server>): Option<seq<Server>> {
    if forall i :: 0 <= i < |servers| ==> Accepted(servers[i]) then Some(servers) else None
  }

  /** `existing_enabled_map`: a later server of the same key replaces an earlier one. */
  method EnabledByKey(existing: seq<Server>) returns (enabled: map<string, bool>)
    ensures enabled == EnabledMap(existing)
  {
    enabled := map[];
    for i := 0 to |existing|
      invariant enabled == EnabledMap(existing[..i])
    {
      assert existing[..i + 1][..i] == existing[..i];
      if existing[i].id != "" || existing[i].name != "" {
        enabled := enabled[Key(existing[i]) := existing[i].enabled];
      }
    }
    assert existing[..|existing|] == existing;
  }

  lemma {:induction false} ParseStep(doc: Document, i: nat, enabled: map<string, bool>, parsed: seq<Server>)
    requires i < |doc| && parsed + Parse(doc[i..], enabled) == Parse(doc, enabled)
    ensures if doc[i].1.None? then parsed + Parse(doc[i + 1..], enabled) == Parse(doc, enabled)
            else var s := ServerOf(doc[i].0, doc[i].1.value, enabled);
                 && parsed + [s] + Parse(doc[i + 1..], enabled) == Parse(doc, enabled)
                 && |parsed| < |Parse(doc, enabled)| && Parse(doc, enabled)[|parsed|] == s
  {
    assert doc[i..][1..] == doc[i + 1..];
  }

  /** `None` where an entry is rejected. */
  method ParseClaudeDesktopFormat(doc: Document, existing: seq<Server>) returns (servers: Option<seq<Server>>)
    ensures servers == WhenAccepted(Parse(doc, EnabledMap(existing)))
  {
    var enabled := EnabledByKey(existing);
    var parsed: seq<Server> := [];
    for i := 0 to |doc|
      invariant parsed + Parse(doc[i..], enabled) == Parse(doc, enabled)
      invariant forall j :: 0 <= j < |parsed| ==> Accepted(parsed[j])
    {
      ParseStep(doc, i, enabled, parsed);
      if doc[i].1.Some? {
        var server := ServerOf(doc[i].0, doc[i].1.value, enabled);
        if !Accepted(server) {
          return None;
        }
        parsed := parsed + [server];
      }
    }
    assert parsed == Parse(doc, enabled);
    return Some(parsed);
  }

  /** An imported server is enabled unless the registry's last server of that key is disabled. */
  lemma {:induction false} ImportedEnabledIff(existing: seq<Server>, name: string, cfg: Entry)
    ensures var s := ServerOf(name, cfg, EnabledMap(existing));
            && s.id == s.name == name
            && (!s.enabled <==> exists k :: 0 <= k < |existing| && LastOfKey(existing, k, name) && !existing[k].enabled)
    decreases |existing|
  {
    if existing != [] {
      var n := |existing| - 1;
      ImportedEnabledIff(existing[..n], name, cfg);
      forall k | 0 <= k < n
        ensures LastOfKey(existing, k, name) <==> LastOfKey(existing[..n], k, name) && Key(existing[n]) != name
      {
        LastOfKeyInit(existing, k, name);
      }
      if Key(existing[n]) == name && name != "" {
        assert LastOfKey(existing, n, name);
      } else if exists k :: 0 <= k < n && LastOfKey(existing[..n], k, name) && !existing[..n][k].enabled {
        var k :| 0 <= k < n && LastOfKey(existing[..n], k, name) && !existing[..n][k].enabled;
        assert LastOfKey(existing, k, name) && existing[k] == existing[..n][k];
      }
    }
  }

  /** existing[k] is the last server with that key, and has one. */
  ghost predicate LastOfKey(existing: seq<Server>, k: nat, name: string)
    requires k < |existing|
  {
    name != "" && Key(existing[k]) == name && forall j :: k < j < |existing| ==> Key(existing[j]) != name
  }

  lemma {:induction false} LastOfKeyInit(existing: seq<Server>, k: nat, name: string)
    requires k + 1 < |existing|
    ensures LastOfKey(existing, k, name)
            <==> LastOfKey(existing[..|existing| - 1], k, name) && Key(existing[|existing| - 1]) != name
  {
    var init := existing[..|existing| - 1];
    assert forall j :: 0 <= j < |init| ==> init[j] == existing[j];
  }

  ghost predicate Reads<T>(value: T, given: Option<T>, default: T) {
    if given.Some? then value == given.value else value == default
  }

  /** What an import reads from an entry: each field is the value given, the newer name of two winning, or
      else the default. */
  lemma {:induction false} ImportedFields(name: string, cfg: Entry, enabled: map<string, bool>)
    ensures var s := ServerOf(name, cfg, enabled);
            && Reads(s.command, cfg.command, "") && Reads(s.args, cfg.args, []) && Reads(s.env, cfg.env, map[])
            && Reads(s.url, cfg.url, "") && Reads(s.headers, cfg.headers, map[])
            && Reads(s.enableResources, cfg.enableResources, false) && Reads(s.enablePrompts, cfg.enablePrompts, false)
            && (if cfg.toolTimeout.Some? then s.timeout == cfg.toolTimeout.value else Reads(s.timeout, cfg.timeout, 30))
    ensures var s := ServerOf(name, cfg, enabled);
            && (if cfg.connectTimeout.Some? then s.connectTimeout == cfg.connectTimeout.value
                else Reads(s.connectTimeout, cfg.snakeConnectTimeout, 10))
            && (if cfg.enabledTools.Some? then s.includeTools == cfg.enabledTools.value
                else Reads(s.includeTools, cfg.includeTools, ["*"]))
  {
  }

  /** Under which name a server is exported, and by which key the registry knows it. */
  lemma {:induction false} NamesUsed(s: Server)
    ensures s.name != "" ==> ExportName(s) == s.name
    ensures s.name == "" && s.id != "" ==> ExportName(s) == s.id
    ensures s.name == "" && s.id == "" ==> ExportName(s) == "unknown"
    ensures s.id != "" ==> Key(s) == s.id
    ensures s.id == "" ==> Key(s) == s.name
  {
  }

  ghost predicate OutOfRange(s: Server) {
    s.timeout < 5 || s.timeout > 300 || s.connectTimeout < 5 || s.connectTimeout > 60
  }

  // ---------- export, then import ----------

  /** The fields the exchange format is meant to carry. */
  ghost predicate SameServer(s: Server, t: Server) {
    && s.id == t.id && s.name == t.name && s.enabled == t.enabled && s.command == t.command && s.args == t.args
    && s.env == t.env && s.url == t.url && s.headers == t.headers && s.timeout == t.timeout
    && s.includeTools == t.includeTools
  }

  ghost predicate SameServers(a: seq<Server>, b: seq<Server>) {
    |a| == |b| && forall i :: 0 <= i < |a| ==> SameServer(a[i], b[i])
  }

  ghost predicate Exchangeable(servers: seq<Server>) {
    && (forall i :: 0 <= i < |servers| ==>
          servers[i].id == servers[i].name && servers[i].name != "" && servers[i].includeTools != [])
    && (forall i, j :: 0 <= i < j < |servers| ==> servers[i].name != servers[j].name)
  }

  function Exported(servers: seq<Server>): Document {
    seq(|servers|, i requires 0 <= i < |servers| => (ExportName(servers[i]), Some(EntryOf(servers[i]))))
  }

  /** No two servers share an export name, and none is taken in `out`. */
  ghost predicate FreshNames(out: Document, servers: seq<Server>) {
    && (forall i :: 0 <= i < |servers| ==> !HasKey(out, ExportName(servers[i])))
    && (forall i, j :: 0 <= i < j < |servers| ==> ExportName(servers[i]) != ExportName(servers[j]))
  }

  lemma {:induction false} PutLength<V>(d: Dict<string, V>, k: string, v: V)
    ensures |Put(d, k, v)| == |d| + if HasKey(d, k) then 0 else 1
    decreases |d|
  {
    if d != [] && d[0].0 != k {
      PutLength(d[1..], k, v);
      if HasKey(d, k) {
        var i :| 0 <= i < |d| && d[i].0 == k;
        assert d[1..][i - 1].0 == k;
      }
      if HasKey(d[1..], k) {
        var i :| 0 <= i < |d[1..]| && d[1..][i].0 == k;
        assert d[i + 1].0 == k;
      }
    } else if d != [] {
      assert d[0].0 == k;
    }
  }

  lemma {:induction false} PutHas<V>(d: Dict<string, V>, k: string, v: V, x: string)
    ensures HasKey(Put(d, k, v), x) <==> HasKey(d, x) || x == k
    decreases |d|
  {
    if d == [] {
      assert Put(d, k, v)[0].0 == k;
    } else {
      var r := Put(d, k, v);
      if d[0].0 != k { PutHas(d[1..], k, v, x); }
      assert forall i :: 0 < i < |d| ==> d[1..][i - 1] == d[i];
      assert r[1..] == if d[0].0 == k then d[1..] else Put(d[1..], k, v);
      assert forall i :: 0 < i < |r| ==> r[1..][i - 1] == r[i];
      assert HasKey(d, x) <==> d[0].0 == x || HasKey(d[1..], x) by { HasKeyCons(d, x); }
      assert HasKey(r, x) <==> r[0].0 == x || HasKey(r[1..], x) by { HasKeyCons(r, x); }
    }
  }

  lemma {:induction false} HasKeyCons<V>(d: Dict<string, V>, x: string)
    requires d != []
    ensures HasKey(d, x) <==> d[0].0 == x || HasKey(d[1..], x)
  {
    if HasKey(d, x) {
      var i :| 0 <= i < |d| && d[i].0 == x;
      if i > 0 { assert d[1..][i - 1].0 == x; }
    }
    if HasKey(d[1..], x) {
      var i :| 0 <= i < |d[1..]| && d[1..][i].0 == x;
      assert d[i + 1].0 == x;
    }
  }

  /** Exporting loses an entry exactly when names collide; otherwise it lists the servers in order. */
  lemma {:induction false} ExportLength(out: Document, servers: seq<Server>)
    ensures |ExportFrom(out, servers)| <= |out| + |servers|
    ensures |ExportFrom(out, servers)| == |out| + |servers| <==> FreshNames(out, servers)
    ensures FreshNames(out, servers) ==> ExportFrom(out, servers) == out + Exported(servers)
    decreases |servers|
  {
    if servers == [] {
      assert out + Exported(servers) == out;
    } else {
      var name := ExportName(servers[0]);
      var out1 := Put(out, name, Some(EntryOf(servers[0])));
      PutLength(out, name, Some(EntryOf(servers[0])));
      ExportLength(out1, servers[1..]);
      FreshNamesCons(out, servers);
      if FreshNames(out, servers) {
        PutNew(out, name, Some(EntryOf(servers[0])));
        assert out1 + Exported(servers[1..]) == out + Exported(servers);
      }
    }
  }

  lemma {:induction false} FreshNamesCons(out: Document, servers: seq<Server>)
    requires servers != []
    ensures FreshNames(out, servers)
            <==> !HasKey(out, ExportName(servers[0]))
                 && FreshNames(Put(out, ExportName(servers[0]), Some(EntryOf(servers[0]))), servers[1..])
  {
    var name, rest := ExportName(servers[0]), servers[1..];
    var out1 := Put(out, name, Some(EntryOf(servers[0])));
    forall x ensures HasKey(out1, x) <==> HasKey(out, x) || x == name
    { PutHas(out, name, Some(EntryOf(servers[0])), x); }
    assert forall i :: 0 <= i < |rest| ==> rest[i] == servers[i + 1];
    assert forall i :: 0 < i < |servers| ==> servers[i] == rest[i - 1];
  }

  lemma {:induction false} ParseLength(doc: Document, enabled: map<string, bool>)
    requires forall i :: 0 <= i < |doc| ==> doc[i].1.Some?
    ensures |Parse(doc, enabled)| == |doc|
    ensures forall i :: 0 <= i < |doc| ==> Parse(doc, enabled)[i] == ServerOf(doc[i].0, doc[i].1.value, enabled)
    decreases |doc|
  {
    if doc != [] {
      ParseLength(doc[1..], enabled);
      assert forall i :: 0 < i < |doc| ==>
        Parse(doc, enabled)[i] == Parse(doc[1..], enabled)[i - 1] && doc[i] == doc[1..][i - 1];
    }
  }

  lemma {:induction false} ExportAllPresent(out: Document, servers: seq<Server>)
    requires forall i :: 0 <= i < |out| ==> out[i].1.Some?
    ensures forall i :: 0 <= i < |ExportFrom(out, servers)| ==> ExportFrom(out, servers)[i].1.Some?
    decreases |servers|
  {
    if servers != [] {
      PutAllPresent(out, ExportName(servers[0]), EntryOf(servers[0]));
      ExportAllPresent(Put(out, ExportName(servers[0]), Some(EntryOf(servers[0]))), servers[1..]);
    }
  }

  lemma {:induction false} PutAllPresent(d: Document, k: string, v: Entry)
    requires forall i :: 0 <= i < |d| ==> d[i].1.Some?
    ensures forall i :: 0 <= i < |Put(d, k, Some(v))| ==> Put(d, k, Some(v))[i].1.Some?
    decreases |d|
  {
    if d != [] { PutAllPresent(d[1..], k, v); }
  }

  lemma {:induction false} EnabledMapAt(servers: seq<Server>, i: nat)
    requires i < |servers| && Exchangeable(servers)
    ensures servers[i].name in EnabledMap(servers) && EnabledMap(servers)[servers[i].name] == servers[i].enabled
    decreases |servers|
  {
    var n := |servers| - 1;
    if i < n {
      assert servers[..n][i] == servers[i] && servers[i].name != servers[n].name;
      EnabledMapAt(servers[..n], i);
    }
  }

  /** What one server becomes on the way out and in. */
  lemma {:induction false} ServerRoundTrip(s: Server, enabled: map<string, bool>)
    ensures var t := ServerOf(ExportName(s), EntryOf(s), enabled);
            && t.command == s.command && t.args == s.args && t.env == s.env && t.url == s.url && t.headers == s.headers
            && t.timeout == s.timeout && t.includeTools == (if s.includeTools == [] then ["*"] else s.includeTools)
            && t.id == t.name == ExportName(s)
            && t.connectTimeout == 10 && !t.enableResources && !t.enablePrompts
            && t.transport == None && t.description == "" && t.excludeTools == []
  {
  }

  /** Exporting a registry and importing the document beside it gives the same servers in the same
      order if and only if ids equal names, names are distinct and not empty, and no tool list is
      empty. */
  lemma {:induction false} RoundTripIff(servers: seq<Server>)
    ensures SameServers(Parse(ExportFrom([], servers), EnabledMap(servers)), servers) <==> Exchangeable(servers)
  {
    if Exchangeable(servers) { ExchangeableReturns(servers); }
    if SameServers(Parse(ExportFrom([], servers), EnabledMap(servers)), servers) { OnlyExchangeableReturns(servers); }
  }

  lemma {:induction false} ExportedReturns(servers: seq<Server>, i: nat)
    requires FreshNames([], servers) && i < |servers|
    ensures var enabled := EnabledMap(servers); var back := Parse(ExportFrom([], servers), enabled);
            |back| == |servers| && back[i] == ServerOf(ExportName(servers[i]), EntryOf(servers[i]), enabled)
  {
    var doc := ExportFrom([], servers);
    ExportLength([], servers);
    ExportAllPresent([], servers);
    ParseLength(doc, EnabledMap(servers));
    assert [] + Exported(servers) == Exported(servers);
    assert doc[i] == (ExportName(servers[i]), Some(EntryOf(servers[i])));
  }

  lemma {:induction false} ExchangeableReturns(servers: seq<Server>)
    requires Exchangeable(servers)
    ensures SameServers(Parse(ExportFrom([], servers), EnabledMap(servers)), servers)
  {
    var enabled := EnabledMap(servers);
    ExportLength([], servers);
    ExportAllPresent([], servers);
    ParseLength(ExportFrom([], servers), enabled);
    assert FreshNames([], servers);
    forall i | 0 <= i < |servers| ensures SameServer(Parse(ExportFrom([], servers), enabled)[i], servers[i]) {
      EnabledMapAt(servers, i);
      ServerRoundTrip(servers[i], enabled);
      ExportedReturns(servers, i);
    }
  }

  lemma {:induction false} OnlyExchangeableReturns(servers: seq<Server>)
    requires SameServers(Parse(ExportFrom([], servers), EnabledMap(servers)), servers)
    ensures Exchangeable(servers)
  {
    var enabled := EnabledMap(servers);
    ExportLength([], servers);
    ExportAllPresent([], servers);
    ParseLength(ExportFrom([], servers), enabled);
    assert FreshNames([], servers);
    forall i | 0 <= i < |servers|
      ensures servers[i].id == servers[i].name == ExportName(servers[i]) != "" && servers[i].includeTools != []
    {
      ExportedReturns(servers, i);
      ServerRoundTrip(servers[i], enabled);
      assert SameServer(Parse(ExportFrom([], servers), enabled)[i], servers[i]);
    }
  }

  /** The fields the export drops have the values an import gives them. */
  predicate DroppedFieldsDefault(s: Server) {
    && s.connectTimeout == 10 && !s.enableResources && !s.enablePrompts
    && s.transport == None && s.description == "" && s.excludeTools == []
  }

  /** Exporting a registry and importing the document beside it gives the very same registry if and
      only if, besides, the fields the export drops have the values the import gives them. */
  lemma {:induction false} WholeRoundTripIff(servers: seq<Server>)
    ensures Parse(ExportFrom([], servers), EnabledMap(servers)) == servers
            <==> Exchangeable(servers) && forall i :: 0 <= i < |servers| ==> DroppedFieldsDefault(servers[i])
  {
    var back := Parse(ExportFrom([], servers), EnabledMap(servers));
    RoundTripIff(servers);
    if back == servers { assert SameServers(back, servers); }
    if Exchangeable(servers) {
      assert FreshNames([], servers);
      forall i | 0 <= i < |servers|
        ensures |back| == |servers| && (back[i] == servers[i] <==> DroppedFieldsDefault(servers[i]))
      {
        ReturnsWholeIff(servers, i);
      }
    }
  }

  lemma {:induction false} ReturnsWholeIff(servers: seq<Server>, i: nat)
    requires Exchangeable(servers) && i < |servers|
    ensures var back := Parse(ExportFrom([], servers), EnabledMap(servers));
            |back| == |servers| && (back[i] == servers[i] <==> DroppedFieldsDefault(servers[i]))
  {
    assert FreshNames([], servers);
    ExportedReturns(servers, i);
    EnabledMapAt(servers, i);
    ServerRoundTrip(servers[i], EnabledMap(servers));
  }

  /** What a registry exports is never rejected when it is read back. */
  lemma {:induction false} ExportIsAccepted(servers: seq<Server>, existing: seq<Server>)
    requires forall i :: 0 <= i < |servers| ==> Accepted(servers[i])
    ensures var back := Parse(ExportFrom([], servers), EnabledMap(existing)); WhenAccepted(back) == Some(back)
  {
    ExportedFits([], servers);
    FittingIsAccepted(ExportFrom([], servers), EnabledMap(existing));
  }

  /** The timeouts of every entry are in range. */
  ghost predicate Fitting(doc: Document) {
    forall i :: 0 <= i < |doc| && doc[i].1.Some? ==>
      && 5 <= First(doc[i].1.value.toolTimeout, doc[i].1.value.timeout, 30) <= 300
      && 5 <= First(doc[i].1.value.connectTimeout, doc[i].1.value.snakeConnectTimeout, 10) <= 60
  }

  lemma {:induction false} PutFits(d: Document, k: string, s: Server)
    requires Fitting(d) && Accepted(s)
    ensures Fitting(Put(d, k, Some(EntryOf(s))))
    decreases |d|
  {
    if d != [] {
      assert forall i :: 0 <= i < |d[1..]| ==> d[1..][i] == d[i + 1];
      PutFits(d[1..], k, s);
    }
  }

  lemma {:induction false} ExportedFits(out: Document, servers: seq<Server>)
    requires Fitting(out) && forall i :: 0 <= i < |servers| ==> Accepted(servers[i])
    ensures Fitting(ExportFrom(out, servers))
    decreases |servers|
  {
    if servers != [] {
      PutFits(out, ExportName(servers[0]), servers[0]);
      ExportedFits(Put(out, ExportName(servers[0]), Some(EntryOf(servers[0]))), servers[1..]);
    }
  }

  lemma {:induction false} FittingIsAccepted(doc: Document, enabled: map<string, bool>)
    requires Fitting(doc)
    ensures forall i :: 0 <= i < |Parse(doc, enabled)| ==> Accepted(Parse(doc, enabled)[i])
    decreases |doc|
  {
    if doc != [] {
      assert forall i :: 0 <= i < |doc[1..]| ==> doc[1..][i] == doc[i + 1];
      FittingIsAccepted(doc[1..], enabled);
      if doc[0].1.Some? { assert Accepted(ServerOf(doc[0].0, doc[0].1.value, enabled)); }
    }
  }

  // ---------- merging an import ----------

  function KeysOf(servers: seq<Server>): set<string> {
    set i | 0 <= i < |servers| :: Key(servers[i])
  }

  function NotIn(imported: seq<Server>, ids: set<string>): (r: seq<Server>)
    ensures forall s :: s in r <==> s in imported && s.id !in ids && s.name !in ids
  {
    if imported == [] then []
    else (if imported[0].id !in ids && imported[0].name !in ids then [imported[0]] else []) + NotIn(imported[1..], ids)
  }

  function MergeImport(existing: seq<Server>, imported: seq<Server>): seq<Server> {
    existing + NotIn(imported, KeysOf(existing))
  }

  method AppendNew(existing: seq<Server>, imported: seq<Server>) returns (servers: seq<Server>)
    ensures servers == MergeImport(existing, imported)
  {
    var existingIds := KeysOf(existing);
    servers := existing;
    for i := 0 to |imported|
      invariant servers + NotIn(imported[i..], existingIds) == existing + NotIn(imported, existingIds)
    {
      NotInStep(servers, imported, existingIds, i);
      if imported[i].id !in existingIds && imported[i].name !in existingIds {
        servers := servers + [imported[i]];
      }
    }
  }

  lemma {:induction false} NotInStep(servers: seq<Server>, imported: seq<Server>, ids: set<string>, i: nat)
    requires i < |imported|
    ensures servers + NotIn(imported[i..], ids)
         == (if imported[i].id !in ids && imported[i].name !in ids then servers + [imported[i]] else servers)
            + NotIn(imported[i + 1..], ids)
  {
    assert imported[i..][1..] == imported[i + 1..];
  }

  /** The two formats of an import.  A native server is `None` where building it from the raw object
      raises. */
  datatype Import = ClaudeDesktop(doc: Document) | Native(servers: seq<Option<Server>>)

  function Built(raws: seq<Option<Server>>): seq<Server>
    requires forall i :: 0 <= i < |raws| ==> raws[i].Some?
  {
    seq(|raws|, i requires 0 <= i < |raws| => raws[i].value)
  }

  /** The servers an import brings, `None` where reading it raises. */
  function Incoming(imp: Import, existing: seq<Server>): Option<seq<Server>> {
    match imp
    case ClaudeDesktop(doc) => WhenAccepted(Parse(doc, EnabledMap(existing)))
    case Native(raws) => if exists i :: 0 <= i < |raws| && raws[i].None? then None else Some(Built(raws))
  }

  /** The entries that are objects, in order. */
  function Objects(doc: Document): (r: seq<(string, Entry)>)
    ensures forall e :: e in r <==> (e.0, Some(e.1)) in doc
  {
    if doc == [] then []
    else (if doc[0].1.Some? then [(doc[0].0, doc[0].1.value)] else []) + Objects(doc[1..])
  }

  /** A Claude document brings one server for each of them, in their order. */
  lemma {:induction false} ServersOfObjects(doc: Document, enabled: map<string, bool>)
    ensures |Parse(doc, enabled)| == |Objects(doc)|
    ensures forall i :: 0 <= i < |Objects(doc)| ==>
              Parse(doc, enabled)[i] == ServerOf(Objects(doc)[i].0, Objects(doc)[i].1, enabled)
    decreases |doc|
  {
    if doc != [] { ServersOfObjects(doc[1..], enabled); }
  }

  /** An import of a Claude document raises exactly for an entry with a timeout out of range, and otherwise
      brings the servers of its objects. */
  lemma {:induction false} ClaudeIncomingIff(doc: Document, existing: seq<Server>, enabled: map<string, bool>)
    requires enabled == EnabledMap(existing)
    ensures Incoming(ClaudeDesktop(doc), existing) == None <==> exists i: nat :: RejectedAt(doc, enabled, i)
    ensures Incoming(ClaudeDesktop(doc), existing).Some? ==>
              Incoming(ClaudeDesktop(doc), existing).value == Parse(doc, enabled)
  {
    RejectedIff(doc, enabled);
  }

  /** A native import raises exactly for a server that is rejected, and otherwise brings every server in
      order. */
  lemma {:induction false} NativeIncomingIff(raws: seq<Option<Server>>, existing: seq<Server>)
    ensures Incoming(Native(raws), existing) == None <==> exists i :: 0 <= i < |raws| && raws[i] == None
    ensures Incoming(Native(raws), existing).Some? ==>
              var built := Incoming(Native(raws), existing).value;
              |built| == |raws| && forall i :: 0 <= i < |raws| ==> raws[i] == Some(built[i])
  {
  }

  ghost predicate RejectedAt(doc: Document, enabled: map<string, bool>, i: nat) {
    i < |doc| && doc[i].1.Some? && OutOfRange(ServerOf(doc[i].0, doc[i].1.value, enabled))
  }

  lemma {:induction false} RejectedCons(doc: Document, enabled: map<string, bool>)
    requires doc != []
    ensures (exists i: nat :: RejectedAt(doc, enabled, i))
            <==> RejectedAt(doc, enabled, 0) || exists i: nat :: RejectedAt(doc[1..], enabled, i)
  {
    if i: nat :| RejectedAt(doc, enabled, i) {
      if i > 0 { assert RejectedAt(doc[1..], enabled, i - 1); }
    }
    if i: nat :| RejectedAt(doc[1..], enabled, i) { assert RejectedAt(doc, enabled, i + 1); }
  }

  lemma {:induction false} AcceptedCons(s: Server, rest: seq<Server>)
    ensures WhenAccepted([s] + rest) == None <==> OutOfRange(s) || WhenAccepted(rest) == None
  {
    assert ([s] + rest)[0] == s && forall i :: 0 <= i < |rest| ==> ([s] + rest)[i + 1] == rest[i];
  }

  lemma {:induction false} RejectedIff(doc: Document, enabled: map<string, bool>)
    ensures WhenAccepted(Parse(doc, enabled)) == None <==> exists i: nat :: RejectedAt(doc, enabled, i)
    decreases |doc|
  {
    if doc != [] {
      var rest := Parse(doc[1..], enabled);
      RejectedIff(doc[1..], enabled);
      RejectedCons(doc, enabled);
      if doc[0].1.Some? {
        AcceptedCons(ServerOf(doc[0].0, doc[0].1.value, enabled), rest);
      } else {
        assert [] + rest == rest;
      }
    }
  }

  datatype Outcome = Imported | NoServers | Raised

  method BuildServers(raws: seq<Option<Server>>) returns (servers: Option<seq<Server>>)
    ensures servers == Incoming(Native(raws), [])
  {
    var built: seq<Server> := [];
    for i := 0 to |raws|
      invariant forall j :: 0 <= j < i ==> raws[j].Some?
      invariant built == Built(raws[..i])
    {
      if raws[i].None? {
        return None;
      }
      built := built + [raws[i].value];
      assert Built(raws[..i + 1]) == Built(raws[..i]) + [raws[i].value];
    }
    assert raws[..|raws|] == raws;
    return Some(built);
  }

  /** The registry after `import_config`; nothing changes when there is no server or one is rejected. */
  method ImportConfig(existing: seq<Server>, imp: Import, merge: bool) returns (outcome: Outcome, servers: seq<Server>)
    ensures outcome == match Incoming(imp, existing) {
                         case None => Raised
                         case Some(incoming) => if incoming == [] then NoServers else Imported
                       }
    ensures servers == if !outcome.Imported? then existing
                       else if merge then MergeImport(existing, Incoming(imp, existing).value)
                       else Incoming(imp, existing).value
  {
    var incoming: Option<seq<Server>>;
    match imp {
      case ClaudeDesktop(doc) => incoming := ParseClaudeDesktopFormat(doc, existing);
      case Native(raws) => incoming := BuildServers(raws);
    }
    if incoming.None? {
      return Raised, existing;
    }
    if incoming.value == [] {
      return NoServers, existing;
    }
    outcome := Imported;
    if merge {
      servers := AppendNew(existing, incoming.value);
    } else {
      servers := incoming.value;
    }
  }

  ghost predicate UniqueIds(servers: seq<Server>) {
    forall i, j :: 0 <= i < j < |servers| ==> Key(servers[i]) != Key(servers[j])
  }

  /** Servers as the parser makes them from a JSON object: named by their keys, no key twice. */
  ghost predicate Parsed(servers: seq<Server>) {
    && (forall i :: 0 <= i < |servers| ==> servers[i].id == servers[i].name)
    && (forall i, j :: 0 <= i < j < |servers| ==> servers[i].id != servers[j].id)
  }

  lemma {:induction false} ParseIsParsed(doc: Document, enabled: map<string, bool>)
    requires UniqueKeys(doc)
    ensures Parsed(Parse(doc, enabled))
    ensures forall s :: s in Parse(doc, enabled) ==> exists i :: 0 <= i < |doc| && doc[i].0 == s.id
    decreases |doc|
  {
    if doc != [] {
      ParseIsParsed(doc[1..], enabled);
      assert forall i :: 0 < i < |doc| ==> doc[1..][i - 1] == doc[i];
      forall s | s in Parse(doc[1..], enabled)
        ensures s.id != doc[0].0 && exists i :: 0 <= i < |doc| && doc[i].0 == s.id
      {
        var i :| 0 <= i < |doc[1..]| && doc[1..][i].0 == s.id;
        assert doc[i + 1].0 == s.id;
      }
      if doc[0].1.Some? { assert doc[0].0 == ServerOf(doc[0].0, doc[0].1.value, enabled).id; }
    }
  }

  lemma {:induction false} ParsedIsUnique(servers: seq<Server>, ids: set<string>)
    requires Parsed(servers)
    ensures UniqueIds(NotIn(servers, ids))
    decreases |servers|
  {
    if servers != [] {
      ParsedIsUnique(servers[1..], ids);
      var rest := NotIn(servers[1..], ids);
      forall i | 0 <= i < |rest| ensures Key(rest[i]) != Key(servers[0]) {
        assert rest[i] in rest;
        assert rest[i] in servers[1..];
      }
    }
  }

  lemma {:induction false} NotInNothing(imported: seq<Server>, ids: set<string>)
    requires forall s :: s in imported ==> s.id in ids || s.name in ids
    ensures NotIn(imported, ids) == []
    decreases |imported|
  {
    if imported != [] { NotInNothing(imported[1..], ids); }
  }

  /** A merge import of any servers keeps the old list in front, covers every server by its id or its
      name, changes nothing when repeated, and keeps ids unique if and only if the servers it adds
      have different ids. */
  lemma {:induction false} MergeKeeps(existing: seq<Server>, incoming: seq<Server>)
    ensures var merged := MergeImport(existing, incoming);
            && existing <= merged
            && (forall s :: s in incoming ==> s.id in KeysOf(merged) || s.name in KeysOf(merged))
            && MergeImport(merged, incoming) == merged
            && (UniqueIds(merged) <==> UniqueIds(existing) && UniqueIds(NotIn(incoming, KeysOf(existing))))
  {
    var added, merged := NotIn(incoming, KeysOf(existing)), MergeImport(existing, incoming);
    forall s | s in incoming ensures s.id in KeysOf(merged) || s.name in KeysOf(merged) {
      KeysOfAppend(existing, added);
      if s in added { KeyIsThere(added, s); }
    }
    NotInNothing(incoming, KeysOf(merged));
    AddedAreNew(incoming, KeysOf(existing));
    UniqueIdsAppend(existing, added);
  }

  lemma {:induction false} KeyIsThere(servers: seq<Server>, s: Server)
    requires s in servers
    ensures Key(s) in KeysOf(servers)
  {
    var k :| 0 <= k < |servers| && servers[k] == s;
  }

  lemma {:induction false} KeysOfAppend(a: seq<Server>, b: seq<Server>)
    ensures KeysOf(a + b) == KeysOf(a) + KeysOf(b)
  {
    forall k ensures k in KeysOf(a + b) <==> k in KeysOf(a) + KeysOf(b) {
      if k in KeysOf(a) { var i :| 0 <= i < |a| && Key(a[i]) == k; assert (a + b)[i] == a[i]; }
      if k in KeysOf(b) { var i :| 0 <= i < |b| && Key(b[i]) == k; assert (a + b)[|a| + i] == b[i]; }
    }
  }

  lemma {:induction false} AddedAreNew(incoming: seq<Server>, ids: set<string>)
    ensures forall i :: 0 <= i < |NotIn(incoming, ids)| ==> Key(NotIn(incoming, ids)[i]) !in ids
  {
    var added := NotIn(incoming, ids);
    forall i | 0 <= i < |added| ensures Key(added[i]) !in ids { assert added[i] in added; }
  }

  lemma {:induction false} UniqueIdsAppend(a: seq<Server>, b: seq<Server>)
    requires forall i :: 0 <= i < |b| ==> Key(b[i]) !in KeysOf(a)
    ensures UniqueIds(a + b) <==> UniqueIds(a) && UniqueIds(b)
  {
    forall i, j | 0 <= i < |a| && 0 <= j < |b| ensures Key(a[i]) != Key(b[j]) { assert Key(a[i]) in KeysOf(a); }
    if UniqueIds(a + b) {
      assert forall i :: 0 <= i < |a| ==> (a + b)[i] == a[i];
      assert forall i :: 0 <= i < |b| ==> (a + b)[|a| + i] == b[i];
    }
  }

  /** Importing a Claude document with merge keeps ids unique and names every server of the document. */
  lemma {:induction false} MergeImportKeeps(existing: seq<Server>, doc: Document)
    requires UniqueKeys(doc)
    ensures var incoming := Parse(doc, EnabledMap(existing)); var merged := MergeImport(existing, incoming);
            && existing <= merged
            && (UniqueIds(existing) <==> UniqueIds(merged))
            && (forall s :: s in incoming ==> s.id in KeysOf(merged))
            && MergeImport(merged, incoming) == merged
  {
    var incoming := Parse(doc, EnabledMap(existing));
    ParseIsParsed(doc, EnabledMap(existing));
    ParsedIsUnique(incoming, KeysOf(existing));
    MergeKeeps(existing, incoming);
    forall s | s in incoming ensures s.id == s.name { }
  }

  /** Two native servers of one id, both new, end up in the registry beside each other. */
  lemma {:induction false} NativeImportCanRepeat(existing: seq<Server>, s: Server)
    requires s.id !in KeysOf(existing) && s.name !in KeysOf(existing)
    ensures MergeImport(existing, [s, s]) == existing + [s, s]
    ensures !UniqueIds(MergeImport(existing, [s, s]))
  {
    assert [s, s][1..] == [s] && [s][1..] == [];
    assert NotIn([s], KeysOf(existing)) == [s];
    var merged := existing + [s, s];
    assert merged[|existing|] == merged[|existing| + 1];
  }
}
