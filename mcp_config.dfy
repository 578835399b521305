/*
 * The MCP server configuration (`config/mcp_config.py`): the validated
 * per-server record `MCPServerConfig`, and `MCPConfigManager`, which loads
 * the servers of a configuration document into its own dict and answers
 * lookups.  The reader is a parameter: the document it returns, or the text
 * of the `FileNotFoundError` / `JSONDecodeError` it raises.
 */
module McpConfig {
  import opened Base
  import opened Json

  /** `MCPServerConfig` after validation: the command is a string and the arguments a list. */
  datatype ServerConfig = ServerConfig(name: string, command: string, args: seq<Json>, env: Json, cwd: Json, description: Json)

  /** A Python exception: its class and its message. */
  datatype PyError = PyError(kind: string, message: string)

  /** `MCPServerConfig(...)` with its `__post_init__` check. */
  function NewServerConfig(name: string, command: Json, args: Json, env: Json, cwd: Json, description: Json)
    : (r: Result<ServerConfig, PyError>)
    ensures r.Ok? <==> command.JStr? && !AllSpace(command.s) && args.JArr?
    ensures r.Ok? ==> r.value.name == name && r.value.command == command.s && r.value.args == args.items
    ensures command.JStr? && AllSpace(command.s) ==>
      r == Err(PyError("ValueError", "서버 '" + name + "'의 command가 비어있습니다"))
    ensures command.JStr? && !AllSpace(command.s) && !args.JArr? ==>
      r == Err(PyError("ValueError", "서버 '" + name + "'의 args는 리스트여야 합니다"))
  {
    if !command.JStr? then Err(PyError("AttributeError", "'" + PyTypeName(command) + "' object has no attribute 'strip'"))
    else
      StripEmptyIffAllSpace(command.s);
      if Strip(command.s) == [] then Err(PyError("ValueError", "서버 '" + name + "'의 command가 비어있습니다"))
      else if !args.JArr? then Err(PyError("ValueError", "서버 '" + name + "'의 args는 리스트여야 합니다"))
      else Ok(ServerConfig(name, command.s, args.items, env, cwd, description))
  }

  /** `_create_server_config`: the fields of one server entry, with their defaults, validated. */
  function CreateServerConfig(name: string, config: Json): (r: Result<ServerConfig, PyError>)
    ensures !config.JObj? ==> r.Err? && r.error.kind == "AttributeError"
    ensures config.JObj? && Get(config.fields, "command").None? ==> r.Err? && r.error.kind == "ValueError"
    ensures r.Ok? ==> (r.value.name == name && config.JObj?
      && Get(config.fields, "command") == Some(JStr(r.value.command))
      && GetOr(config.fields, "args", JArr([])).JArr? && r.value.args == GetOr(config.fields, "args", JArr([])).items
      && r.value.env == GetOr(config.fields, "env", JObj([]))
      && r.value.cwd == GetOr(config.fields, "cwd", JNull) && r.value.description == GetOr(config.fields, "description", JNull))
  {
    if !config.JObj? then Err(PyError("AttributeError", "'" + PyTypeName(config) + "' object has no attribute 'get'"))
    else
      var f := config.fields;
      NewServerConfig(name, GetOr(f, "command", JStr("")), GetOr(f, "args", JArr([])), GetOr(f, "env", JObj([])),
                      GetOr(f, "cwd", JNull), GetOr(f, "description", JNull))
  }

  /**
   * The server map of a configuration document: its "servers" entry when it
   * has one, else the document itself.  Only `'servers' in config_data` and
   * `config_data['servers']` can raise here, before the dict is cleared: a
   * value that is not a container cannot be searched, and a list or string
   * that holds "servers" cannot be indexed by it.
   */
  function ServerMap(config: Json): (r: Result<Json, PyError>)
    ensures config.JObj? ==> r == Ok(if Get(config.fields, "servers").Some? then Get(config.fields, "servers").value else config)
    ensures r.Err? ==> r.error.kind == "TypeError"
    ensures r.Ok? && !config.JObj? ==> r == Ok(config)
  {
    match config
    case JObj(fields) =>
      Ok(if Get(fields, "servers").Some? then Get(fields, "servers").value else config)
    case JArr(items) =>
      if JStr("servers") in items then Err(PyError("TypeError", "list indices must be integers or slices, not str"))
      else Ok(config)
    case JStr(s) =>
      if Contains(s, "servers") then Err(PyError("TypeError", "string indices must be integers, not 'str'"))
      else Ok(config)
    case _ => Err(PyError("TypeError", "argument of type '" + PyTypeName(config) + "' is not iterable"))
  }

  /** `servers_data.items()`, which raises, after the dict was cleared, when the server map is not a dict. */
  function ServerItems(data: Json): (r: Result<seq<(string, Json)>, PyError>)
    ensures r.Ok? <==> data.JObj?
    ensures r.Ok? ==> r.value == data.fields
    ensures r.Err? ==> r.error.kind == "AttributeError"
  {
    if data.JObj? then Ok(data.fields)
    else Err(PyError("AttributeError", "'" + PyTypeName(data) + "' object has no attribute 'items'"))
  }

  /** The reader's exceptions that `load_servers` turns into a ValueError; any other one propagates. */
  predicate ReadFailureCaught(e: PyError) {
    e.kind == "FileNotFoundError" || e.kind == "JSONDecodeError"
  }

  // ---------------------------------------------------------------- the manager's dict

  /** A dict from server name to configuration, in insertion order. */
  type Entries = seq<(string, ServerConfig)>

  predicate DistinctNames(e: Entries) {
    forall a, b :: 0 <= a < b < |e| ==> e[a].0 != e[b].0
  }

  /** Every key is distinct and names its own configuration. */
  predicate WellFormed(e: Entries) {
    DistinctNames(e) && forall k :: 0 <= k < |e| ==> e[k].1.name == e[k].0
  }

  /** `d[name] = c`: replaces the value of an existing key in place, or appends the key. */
  function Put(e: Entries, name: string, c: ServerConfig): (r: Entries)
    ensures |r| == |e| || |r| == |e| + 1
  {
    if e == [] then [(name, c)]
    else if e[0].0 == name then [(name, c)] + e[1..]
    else [e[0]] + Put(e[1..], name, c)
  }

  /** Setting a key keeps every key in its place, and appends the key only when it is new. */
  lemma {:induction false} PutShape(e: Entries, name: string, c: ServerConfig)
    ensures forall k :: 0 <= k < |e| ==> Put(e, name, c)[k].0 == e[k].0
    ensures |Put(e, name, c)| == |e| + 1 <==> Lookup(e, name).None?
    ensures |Put(e, name, c)| == |e| + 1 ==> Put(e, name, c)[|e|] == (name, c)
    ensures forall k :: 0 <= k < |e| && e[k].0 != name ==> Put(e, name, c)[k] == e[k]
    ensures forall k :: 0 <= k < |e| ==> Put(e, name, c)[k] == e[k] || Put(e, name, c)[k] == (name, c)
  {
    if e != [] && e[0].0 != name {
      PutShape(e[1..], name, c);
      var r := Put(e, name, c);
      assert forall k :: 1 <= k < |r| ==> r[k] == Put(e[1..], name, c)[k - 1];
    } else if e != [] {
      assert Put(e, name, c) == [(name, c)] + e[1..];
    }
  }

  /** After `d[name] = c`, the key holds `c` and every other key its old value. */
  lemma {:induction false} PutLookup(e: Entries, name: string, c: ServerConfig, other: string)
    ensures Lookup(Put(e, name, c), other) == if other == name then Some(c) else Lookup(e, other)
  {
    if e != [] && e[0].0 != name {
      PutLookup(e[1..], name, c, other);
      assert Put(e, name, c) == [e[0]] + Put(e[1..], name, c);
      assert ([e[0]] + Put(e[1..], name, c))[1..] == Put(e[1..], name, c);
    }
  }

  /** Putting a configuration under its own name keeps the dict well formed. */
  lemma PutWellFormed(e: Entries, c: ServerConfig)
    requires WellFormed(e)
    ensures WellFormed(Put(e, c.name, c))
  {
    PutShape(e, c.name, c);
  }

  /** Where a load got to: the dict built so far, and the exception that stopped it, if any. */
  datatype Filled = Filled(entries: Entries, failure: Option<PyError>)

  /** Each entry of a server map with the outcome of `_create_server_config` on it. */
  function Created(items: seq<(string, Json)>): (r: seq<(string, Result<ServerConfig, PyError>)>)
    ensures |r| == |items| && forall k :: 0 <= k < |items| ==> r[k] == (items[k].0, CreateServerConfig(items[k].0, items[k].1))
  {
    seq(|items|, k requires 0 <= k < |items| => (items[k].0, CreateServerConfig(items[k].0, items[k].1)))
  }

  /** The loop of `load_servers` over the created entries, starting from the cleared dict. */
  function Fill(results: seq<(string, Result<ServerConfig, PyError>)>): Filled {
    if results == [] then Filled([], None)
    else
      var f := Fill(results[..|results| - 1]);
      if f.failure.Some? then f
      else
        var (name, created) := results[|results| - 1];
        match created
        case Err(e) => Filled(f.entries, Some(e))
        case Ok(c) => Filled(Put(f.entries, name, c), None)
  }

  /** Once an entry has failed, the rest of the entries change nothing. */
  lemma {:induction false} FailureSticks(results: seq<(string, Result<ServerConfig, PyError>)>, n: nat)
    requires n <= |results| && Fill(results[..n]).failure.Some?
    ensures Fill(results) == Fill(results[..n])
    decreases |results| - n
  {
    if n < |results| {
      assert results[..n + 1][..n] == results[..n];
      FailureSticks(results, n + 1);
    } else {
      assert results[..n] == results;
    }
  }

  /** One more created entry extends the dict. */
  lemma FillStep(results: seq<(string, Result<ServerConfig, PyError>)>, i: nat)
    requires i < |results| && Fill(results[..i]).failure.None? && results[i].1.Ok?
    ensures Fill(results[..i + 1]) == Filled(Put(Fill(results[..i]).entries, results[i].0, results[i].1.value), None)
  {
    assert results[..i + 1][..i] == results[..i];
  }

  /** An entry that fails ends the load with its error, keeping the dict built before it. */
  lemma FillStopsAt(results: seq<(string, Result<ServerConfig, PyError>)>, i: nat)
    requires i < |results| && Fill(results[..i]).failure.None? && results[i].1.Err?
    ensures Fill(results) == Filled(Fill(results[..i]).entries, Some(results[i].1.error))
  {
    assert results[..i + 1][..i] == results[..i];
    FailureSticks(results, i + 1);
  }

  /** The outcomes come from configurations built under their own names. */
  predicate NamedAsKeys(results: seq<(string, Result<ServerConfig, PyError>)>) {
    forall k :: 0 <= k < |results| && results[k].1.Ok? ==> results[k].1.value.name == results[k].0
  }

  lemma CreatedNamedAsKeys(items: seq<(string, Json)>)
    ensures NamedAsKeys(Created(items))
  {
  }

  /** Whatever stops it, a load leaves a well-formed dict. */
  lemma {:induction false} FillWellFormed(results: seq<(string, Result<ServerConfig, PyError>)>)
    requires NamedAsKeys(results)
    ensures WellFormed(Fill(results).entries)
  {
    if results != [] {
      var init := results[..|results| - 1];
      assert forall k :: 0 <= k < |init| ==> init[k] == results[k];
      FillWellFormed(init);
      var f := Fill(init);
      if f.failure.None? && results[|results| - 1].1.Ok? {
        PutWellFormed(f.entries, results[|results| - 1].1.value);
      }
    }
  }

  /** A load fails exactly when one of the entries is not a valid server configuration. */
  lemma {:induction false} FillFailsIffInvalid(results: seq<(string, Result<ServerConfig, PyError>)>)
    ensures Fill(results).failure.Some? <==> exists k :: 0 <= k < |results| && results[k].1.Err?
  {
    if results != [] {
      var init := results[..|results| - 1];
      FillFailsIffInvalid(init);
      assert forall k :: 0 <= k < |init| ==> init[k] == results[k];
    }
  }

  /** A successful load holds exactly the names of the document. */
  lemma {:induction false} FillNames(results: seq<(string, Result<ServerConfig, PyError>)>, name: string)
    requires Fill(results).failure.None?
    ensures Lookup(Fill(results).entries, name).Some? <==> exists k :: 0 <= k < |results| && results[k].0 == name
  {
    if results != [] {
      var init := results[..|results| - 1];
      FillNames(init, name);
      assert forall k :: 0 <= k < |init| ==> init[k] == results[k];
      var last := results[|results| - 1];
      PutLookup(Fill(init).entries, last.0, last.1.value, name);
    }
  }

  /** For a document whose keys are distinct, as in any Python dict, a successful load keeps their order too. */
  lemma {:induction false} FillKeepsOrder(results: seq<(string, Result<ServerConfig, PyError>)>)
    requires Fill(results).failure.None?
    requires forall a, b :: 0 <= a < b < |results| ==> results[a].0 != results[b].0
    ensures |Fill(results).entries| == |results|
    ensures forall k :: 0 <= k < |results| ==> Fill(results).entries[k].0 == results[k].0
  {
    if results != [] {
      var init := results[..|results| - 1];
      assert forall k :: 0 <= k < |init| ==> init[k] == results[k];
      FillKeepsOrder(init);
      var f := Fill(init);
      var name := results[|results| - 1].0;
      assert Lookup(f.entries, name).None?;
      PutShape(f.entries, name, results[|results| - 1].1.value);
    }
  }

  /** Whatever the load found under a name is the configuration created from an entry with that name. */
  lemma {:induction false} FillValues(results: seq<(string, Result<ServerConfig, PyError>)>, name: string)
    ensures var found := Lookup(Fill(results).entries, name);
      found.Some? ==> exists k :: 0 <= k < |results| && results[k].0 == name && results[k].1 == Ok(found.value)
  {
    if results != [] {
      var init := results[..|results| - 1];
      FillValues(init, name);
      assert forall k :: 0 <= k < |init| ==> init[k] == results[k];
      var f := Fill(init);
      var last := results[|results| - 1];
      if f.failure.None? && last.1.Ok? {
        PutLookup(f.entries, last.0, last.1.value, name);
        if name == last.0 {
          assert results[|results| - 1].0 == name && results[|results| - 1].1 == Ok(last.1.value);
        }
      }
    }
  }

  /** The loop of `load_servers` over a server map. */
  function FillFrom(items: seq<(string, Json)>): Filled {
    Fill(Created(items))
  }

  /** After a successful load, the manager knows exactly the servers of the document, each under its own name. */
  lemma LoadedServersMatchDocument(items: seq<(string, Json)>, name: string)
    requires FillFrom(items).failure.None?
    ensures var found := Lookup(FillFrom(items).entries, name);
      (found.Some? <==> exists k :: 0 <= k < |items| && items[k].0 == name) && (found.Some? ==> found.value.name == name)
    ensures var found := Lookup(FillFrom(items).entries, name);
      found.Some? ==> exists k :: 0 <= k < |items| && items[k].0 == name && CreateServerConfig(name, items[k].1) == Ok(found.value)
  {
    FillNames(Created(items), name);
    FillValues(Created(items), name);
    CreatedNamedAsKeys(items);
    FillWellFormed(Created(items));
    var found := Lookup(FillFrom(items).entries, name);
    if found.Some? {
      var k :| 0 <= k < |FillFrom(items).entries| && FillFrom(items).entries[k] == (name, found.value);
    }
  }

  /** The load fails exactly on a server entry that `_create_server_config` rejects. */
  lemma LoadFailsIffInvalidEntry(items: seq<(string, Json)>)
    ensures FillFrom(items).failure.Some? <==> exists k :: 0 <= k < |items| && CreateServerConfig(items[k].0, items[k].1).Err?
  {
    FillFailsIffInvalid(Created(items));
    var r := Created(items);
    assert forall k :: 0 <= k < |items| ==> r[k].1 == CreateServerConfig(items[k].0, items[k].1);
  }

  /** For distinct keys, a successful load lists the servers in the document's order. */
  lemma LoadKeepsOrder(items: seq<(string, Json)>)
    requires DistinctKeys(items) && FillFrom(items).failure.None?
    ensures |FillFrom(items).entries| == |items| && forall k :: 0 <= k < |items| ==> FillFrom(items).entries[k].0 == items[k].0
  {
    FillKeepsOrder(Created(items));
  }

  // ---------------------------------------------------------------- the manager

  /** `MCPConfigManager`: the servers loaded last. */
  class ConfigManager {
    var entries: Entries

    predicate Valid()
      reads this
    {
      WellFormed(entries)
    }

    /** A manager starts with no servers. */
    constructor()
      ensures entries == [] && Valid()
    {
      entries := [];
    }

    /**
     * `load_servers`, given what the reader returned for the path or the
     * exception it raised.  A missing file or malformed JSON becomes
     * "설정 파일 읽기 실패" and any other reader exception propagates, both
     * before anything changes, as does a document whose server map cannot be
     * looked up.  Otherwise the dict is cleared first: a server map that is
     * not a dict then raises and leaves it empty, and a dict refills it entry
     * by entry, an invalid entry stopping the loop and keeping the entries
     * before it.
     */
    method LoadServers(read: Result<Json, PyError>) returns (r: Result<Entries, PyError>)
      modifies this
      ensures read.Err? && ReadFailureCaught(read.error) ==>
        r == Err(PyError("ValueError", "설정 파일 읽기 실패: " + read.error.message)) && entries == old(entries)
      ensures read.Err? && !ReadFailureCaught(read.error) ==> r == Err(read.error) && entries == old(entries)
      ensures read.Ok? && ServerMap(read.value).Err? ==> r == Err(ServerMap(read.value).error) && entries == old(entries)
      ensures read.Ok? && ServerMap(read.value).Ok? && ServerItems(ServerMap(read.value).value).Err? ==>
        r == Err(ServerItems(ServerMap(read.value).value).error) && entries == []
      ensures read.Ok? && ServerMap(read.value).Ok? && ServerItems(ServerMap(read.value).value).Ok? ==>
        var f := FillFrom(ServerItems(ServerMap(read.value).value).value);
        entries == f.entries && Valid() && r == (if f.failure.Some? then Err(f.failure.value) else Ok(f.entries))
      ensures old(Valid()) ==> Valid()
    {
      if read.Err? {
        if ReadFailureCaught(read.error) {
          return Err(PyError("ValueError", "설정 파일 읽기 실패: " + read.error.message));
        }
        return Err(read.error);
      }
      var data := ServerMap(read.value);
      if data.Err? {
        return Err(data.error);
      }
      entries := [];
      var listed := ServerItems(data.value);
      if listed.Err? {
        return Err(listed.error);
      }
      var items := listed.value;
      ghost var results := Created(items);
      CreatedNamedAsKeys(items);
      FillWellFormed(results);
      var i := 0;
      while i < |items|
        invariant 0 <= i <= |items|
        invariant Fill(results[..i]) == Filled(entries, None)
      {
        var (name, config) := items[i];
        var c := CreateServerConfig(name, config);
        assert results[i] == (name, c);
        if c.Err? {
          FillStopsAt(results, i);
          return Err(c.error);
        }
        FillStep(results, i);
        entries := Put(entries, name, c.value);
        i := i + 1;
      }
      assert results[..i] == results;
      r := Ok(entries);
    }

    /** `get_server`: the configuration of a loaded server, `None` for an unknown name. */
    function GetServer(name: string): (r: Option<ServerConfig>)
      reads this
      ensures r.Some? <==> exists k :: 0 <= k < |entries| && entries[k].0 == name
      ensures Valid() && r.Some? ==> r.value.name == name
    {
      Lookup(entries, name)
    }

    /** `get_all_servers`: a copy of the dict, which answers every lookup as the manager does. */
    function GetAllServers(): (r: Entries)
      reads this
      ensures |r| == |entries| && forall name :: Lookup(r, name) == GetServer(name)
    {
      entries
    }

    /** `get_server_names`: the loaded names in insertion order, each once. */
    function GetServerNames(): (r: seq<string>)
      reads this
      ensures |r| == |entries| && forall k :: 0 <= k < |r| ==> GetServer(r[k]).Some?
      ensures Valid() ==> Distinct(r)
    {
      var e := entries;
      var names := seq(|e|, k requires 0 <= k < |e| => e[k].0);
      assert forall k :: 0 <= k < |names| ==> e[k].0 == names[k];
      names
    }
  }
}
