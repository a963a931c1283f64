/**
 * The configuration objects and the state they carry between cycles: each
 * server's fingerprints of the last text applied to its channel and its
 * category, updated by `updateChannel` and `updateCategory`, and the last
 * published presence value of the whole configuration.
 */
module Config {
  import opened Wrappers
  import opened Text
  import opened Templates
  import opened Discord
  import opened Edit

  /** A change fingerprint: the 64-bit value the fingerprint function returns. */
  type Hash = h: int | 0 <= h < 0x1_0000_0000_0000_0000

  /** The fingerprint function over rendered text (external; deterministic). */
  type Fingerprint = Bytes -> Hash

  /** The bound on a channel description, in bytes. */
  const MaxDescription: nat := 1024

  /** A call to `editChannel` as the surface updates make it. */
  datatype EditCall = EditCall(id: Bytes, name: Bytes, description: Bytes)

  // ------------------------------------------------------ channel surface

  /** The guards of `updateChannel`. */
  predicate ChannelEnabled(channelId: Bytes, nameTpl: Bytes, descTpl: Bytes, session: bool, tpl: Option<TemplateData>) {
    channelId != [] && session && tpl.Some? && (nameTpl != [] || descTpl != [])
  }

  /** The channel name: rendered if there is a template; a failed render keeps its warning text. */
  function ChannelName(nameTpl: Bytes, data: TemplateData, engine: Engine): (name: Bytes)
    ensures nameTpl == [] ==> name == []
    ensures nameTpl != [] ==> name == Render(nameTpl, data, engine).text
    ensures nameTpl != [] && Render(nameTpl, data, engine).failed ==> name != []
  {
    if nameTpl == [] then [] else Render(nameTpl, data, engine).text
  }

  /** The channel description: rendered and truncated; a failed render leaves it empty. */
  function ChannelDescription(descTpl: Bytes, data: TemplateData, engine: Engine): (desc: Bytes)
    ensures |desc| <= MaxDescription
    ensures descTpl == [] || Render(descTpl, data, engine).failed ==> desc == []
    ensures descTpl != [] && !Render(descTpl, data, engine).failed ==>
      desc == Truncate(engine(descTpl, data).text, MaxDescription)
  {
    if descTpl == [] then []
    else
      var rendered := Render(descTpl, data, engine);
      if rendered.failed then [] else Truncate(rendered.text, MaxDescription)
  }

  /** The `editChannel` call `updateChannel` makes, given the stored fingerprint `prev`: none if suppressed. */
  function ChannelCall(channelId: Bytes, nameTpl: Bytes, descTpl: Bytes, session: bool, tpl: Option<TemplateData>,
                       engine: Engine, hash: Fingerprint, prev: Hash): (call: Option<EditCall>)
    ensures !ChannelEnabled(channelId, nameTpl, descTpl, session, tpl) ==> call.None?
    ensures call.Some? ==> call.value.id == channelId && |call.value.description| <= MaxDescription
    ensures call.Some? ==> hash(call.value.name + call.value.description) != prev
    ensures ChannelEnabled(channelId, nameTpl, descTpl, session, tpl) ==>
      var name := ChannelName(nameTpl, tpl.value, engine);
      var desc := ChannelDescription(descTpl, tpl.value, engine);
      call.None? <==> hash(name + desc) == prev
    ensures ChannelEnabled(channelId, nameTpl, descTpl, session, tpl) && call.Some? ==>
      call.value == EditCall(channelId, ChannelName(nameTpl, tpl.value, engine), ChannelDescription(descTpl, tpl.value, engine))
  {
    if !ChannelEnabled(channelId, nameTpl, descTpl, session, tpl) then None
    else
      var name := ChannelName(nameTpl, tpl.value, engine);
      var desc := ChannelDescription(descTpl, tpl.value, engine);
      if hash(name + desc) == prev then None else Some(EditCall(channelId, name, desc))
  }

  // ----------------------------------------------------- category surface

  /** The guards of `updateCategory`. */
  predicate CategoryEnabled(categoryId: Bytes, nameTpl: Bytes, session: bool, tpl: Option<TemplateData>) {
    categoryId != [] && nameTpl != [] && session && tpl.Some?
  }

  /** The category name: rendered; a failed render leaves it empty. */
  function CategoryName(nameTpl: Bytes, data: TemplateData, engine: Engine): (name: Bytes)
    ensures Render(nameTpl, data, engine).failed ==> name == []
    ensures !Render(nameTpl, data, engine).failed ==> name == engine(nameTpl, data).text
  {
    var rendered := Render(nameTpl, data, engine);
    if rendered.failed then [] else rendered.text
  }

  /** The `editChannel` call `updateCategory` makes: the name only, with an empty description. */
  function CategoryCall(categoryId: Bytes, nameTpl: Bytes, session: bool, tpl: Option<TemplateData>,
                        engine: Engine, hash: Fingerprint, prev: Hash): (call: Option<EditCall>)
    ensures !CategoryEnabled(categoryId, nameTpl, session, tpl) ==> call.None?
    ensures call.Some? ==> call.value.id == categoryId && call.value.description == []
    ensures call.Some? ==> hash(call.value.name + call.value.description) != prev
    ensures CategoryEnabled(categoryId, nameTpl, session, tpl) ==>
      (call.None? <==> hash(CategoryName(nameTpl, tpl.value, engine)) == prev)
    ensures CategoryEnabled(categoryId, nameTpl, session, tpl) && call.Some? ==>
      call.value == EditCall(categoryId, CategoryName(nameTpl, tpl.value, engine), [])
  {
    if !CategoryEnabled(categoryId, nameTpl, session, tpl) then None
    else
      var name := CategoryName(nameTpl, tpl.value, engine);
      if hash(name) == prev then None
      else
        assert name + [] == name;
        Some(EditCall(categoryId, name, []))
  }

  // ------------------------------------------------ shared by both surfaces

  /** The error a surface update returns: that of its `editChannel` call, if it made one. */
  function CallOutcome(call: Option<EditCall>, env: EditEnv): (err: Option<Error>)
    ensures call.None? ==> err.None?
  {
    if call.None? then None else EditChannel(call.value.id, call.value.name, call.value.description, env).err
  }

  /** The stored fingerprint after a surface update: the new one only if the edit call returned nil. */
  function NextHash(prev: Hash, call: Option<EditCall>, err: Option<Error>, hash: Fingerprint): Hash {
    if call.Some? && err.None? then hash(call.value.name + call.value.description) else prev
  }

  /**
   * The fingerprint changes exactly when an edit was called and returned nil;
   * afterwards the same text is suppressed, while after a failure it is tried again.
   */
  lemma HashAdvancesIffEditSucceeded(prev: Hash, call: Option<EditCall>, env: EditEnv, hash: Fingerprint)
    requires call.Some? ==> hash(call.value.name + call.value.description) != prev
    ensures var next := NextHash(prev, call, CallOutcome(call, env), hash);
      && (next != prev <==> call.Some? && CallOutcome(call, env).None?)
      && (call.Some? && CallOutcome(call, env).None? ==> next == hash(call.value.name + call.value.description))
      && (call.Some? && CallOutcome(call, env).Some? ==> next == prev)
  {
  }

  /** Texts that are the same after truncation have the same fingerprint input, so they are "unchanged". */
  lemma TruncatedEqualIsUnchanged(channelId: Bytes, nameTpl: Bytes, descTpl: Bytes, session: bool, data1: TemplateData,
                                  data2: TemplateData, engine: Engine, hash: Fingerprint, prev: Hash)
    requires ChannelName(nameTpl, data1, engine) == ChannelName(nameTpl, data2, engine)
    requires descTpl != [] && engine(descTpl, data1).Output? && engine(descTpl, data2).Output?
    requires Truncate(engine(descTpl, data1).text, MaxDescription) == Truncate(engine(descTpl, data2).text, MaxDescription)
    ensures ChannelCall(channelId, nameTpl, descTpl, session, Some(data1), engine, hash, prev)
         == ChannelCall(channelId, nameTpl, descTpl, session, Some(data2), engine, hash, prev)
  {
  }

  /**
   * A failed category render edits nothing (the empty name makes `editChannel`
   * return nil without a request), yet the fingerprint of the empty name is
   * stored, so the category keeps its old name until its template renders again.
   */
  lemma CategoryRenderFailureStoresEmptyFingerprint(categoryId: Bytes, nameTpl: Bytes, tpl: Option<TemplateData>,
                                                    engine: Engine, hash: Fingerprint, prev: Hash, env: EditEnv)
    requires CategoryEnabled(categoryId, nameTpl, true, tpl)
    requires Render(nameTpl, tpl.value, engine).failed
    requires hash([]) != prev
    ensures var call := CategoryCall(categoryId, nameTpl, true, tpl, engine, hash, prev);
      && call == Some(EditCall(categoryId, [], []))
      && EditChannel(categoryId, [], [], env).request.None?
      && CallOutcome(call, env).None?
      && NextHash(prev, call, CallOutcome(call, env), hash) == hash([])
  {
  }

  /**
   * The fingerprint covers the name and the description concatenated, so a
   * boundary that moves between them (name "1" with description "23" after
   * name "12" with description "3") leaves the channel as it was.
   */
  lemma BoundaryShiftSuppressed(channelId: Bytes, nameTpl: Bytes, descTpl: Bytes, data: TemplateData,
                                engine: Engine, hash: Fingerprint, appliedName: Bytes, appliedDesc: Bytes)
    requires ChannelEnabled(channelId, nameTpl, descTpl, true, Some(data))
    requires ChannelName(nameTpl, data, engine) + ChannelDescription(descTpl, data, engine) == appliedName + appliedDesc
    ensures ChannelCall(channelId, nameTpl, descTpl, true, Some(data), engine, hash, hash(appliedName + appliedDesc)).None?
  {
  }

  // ---------------------------------------------------------------- classes

  /** `ServerConfig`: one configured server and its two fingerprints. */
  class ServerConfig {
    var prevChannelHash: Hash
    var prevCategoryHash: Hash

    const id: Bytes
    const host: Bytes
    const port: int
    const bufferSize: nat
    const timeout: int
    const channelId: Bytes
    const channelName: Bytes
    const channelDesc: Bytes
    const categoryId: Bytes
    const categoryName: Bytes

    constructor (id: Bytes, host: Bytes, port: int, bufferSize: nat, timeout: int, channelId: Bytes,
                 channelName: Bytes, channelDesc: Bytes, categoryId: Bytes, categoryName: Bytes)
      ensures this.id == id && this.host == host && this.port == port
      ensures this.bufferSize == bufferSize && this.timeout == timeout
      ensures this.channelId == channelId && this.channelName == channelName && this.channelDesc == channelDesc
      ensures this.categoryId == categoryId && this.categoryName == categoryName
      ensures prevChannelHash == 0 && prevCategoryHash == 0
    {
      this.id, this.host, this.port := id, host, port;
      this.bufferSize, this.timeout := bufferSize, timeout;
      this.channelId, this.channelName, this.channelDesc := channelId, channelName, channelDesc;
      this.categoryId, this.categoryName := categoryId, categoryName;
      prevChannelHash, prevCategoryHash := 0, 0;
    }

    /**
     * `updateChannel`: render, truncate, fingerprint, compare, edit, and store
     * the fingerprint only if the edit returned nil. Returns the error and,
     * for the record, the `editChannel` call it made.
     */
    method UpdateChannel(session: bool, tpl: Option<TemplateData>, engine: Engine, hash: Fingerprint, env: EditEnv)
      returns (err: Option<Error>, call: Option<EditCall>)
      modifies this`prevChannelHash
      ensures call == ChannelCall(channelId, channelName, channelDesc, session, tpl, engine, hash, old(prevChannelHash))
      ensures err == CallOutcome(call, env)
      ensures prevChannelHash == NextHash(old(prevChannelHash), call, err, hash)
      ensures prevChannelHash != old(prevChannelHash) <==> call.Some? && err.None?
    {
      if channelId == [] || !session || tpl.None? {
        return None, None;
      }
      if channelName == [] && channelDesc == [] {
        return None, None;
      }

      var name: Bytes, description: Bytes := [], [];
      if channelName != [] {
        var rendered := Render(channelName, tpl.value, engine);
        name := rendered.text;
      }
      if channelDesc != [] {
        var rendered := Render(channelDesc, tpl.value, engine);
        if !rendered.failed {
          description := rendered.text;
          if |description| > MaxDescription {
            description := description[..MaxDescription - 3] + Ellipsis();
          }
        }
      }

      var newHash := hash(name + description);
      if newHash == prevChannelHash {
        return None, None;
      }

      call := Some(EditCall(channelId, name, description));
      var result := EditChannel(channelId, name, description, env);
      if result.err.Some? {
        return result.err, call;
      }
      prevChannelHash := newHash;
      return None, call;
    }

    /** `updateCategory`: the same for the category, whose fingerprint covers the name only. */
    method UpdateCategory(session: bool, tpl: Option<TemplateData>, engine: Engine, hash: Fingerprint, env: EditEnv)
      returns (err: Option<Error>, call: Option<EditCall>)
      modifies this`prevCategoryHash
      ensures call == CategoryCall(categoryId, categoryName, session, tpl, engine, hash, old(prevCategoryHash))
      ensures err == CallOutcome(call, env)
      ensures prevCategoryHash == NextHash(old(prevCategoryHash), call, err, hash)
      ensures prevCategoryHash != old(prevCategoryHash) <==> call.Some? && err.None?
    {
      if categoryId == [] || categoryName == [] || !session || tpl.None? {
        return None, None;
      }

      var rendered := Render(categoryName, tpl.value, engine);
      var name := rendered.text;
      if rendered.failed {
        name := [];
      }

      var newHash := hash(name);
      if newHash == prevCategoryHash {
        return None, None;
      }

      call := Some(EditCall(categoryId, name, []));
      var result := EditChannel(categoryId, name, [], env);
      if result.err.Some? {
        return result.err, call;
      }
      assert name + [] == name;
      prevCategoryHash := newHash;
      return None, call;
    }
  }

  /** `Config`: the configured servers and the last presence value published. */
  class Config {
    const servers: seq<ServerConfig>
    var prevCumulativeOnline: int

    constructor (servers: seq<ServerConfig>)
      ensures this.servers == servers && prevCumulativeOnline == 0
    {
      this.servers := servers;
      prevCumulativeOnline := 0;
    }
  }

  /**
   * Two cycles with the same rendered text: after a successful edit the second
   * is suppressed; after a failed one it is attempted again.
   */
  method ChannelTwice(s: ServerConfig, session: bool, tpl: Option<TemplateData>, engine: Engine, hash: Fingerprint,
                      env1: EditEnv, env2: EditEnv)
    returns (call1: Option<EditCall>, err1: Option<Error>, call2: Option<EditCall>)
    modifies s`prevChannelHash
    ensures call1.Some? && err1.None? ==> call2.None?
    ensures call1.Some? && err1.Some? ==> call2 == call1
    ensures call1.None? ==> call2.None?
  {
    err1, call1 := s.UpdateChannel(session, tpl, engine, hash, env1);
    var err2;
    err2, call2 := s.UpdateChannel(session, tpl, engine, hash, env2);
  }
}
