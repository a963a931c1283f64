/**
 * `processChannelUpdate`: the work one queued task does, the channel update
 * and then the category update of one server, each error only logged.
 */
module Worker {
  import opened Wrappers
  import opened Templates
  import opened Discord
  import opened Edit
  import opened Config

  /** `ChannelUpdateTask`: the server to update and the data to render with. */
  datatype Task = Task(server: ServerConfig?, tpl: Option<TemplateData>)

  /** The two surfaces of a server. */
  datatype Surface = ChannelSurface | CategorySurface

  /** One surface update: the `editChannel` call it made and the error it logged. */
  datatype Attempt = Attempt(surface: Surface, call: Option<EditCall>, err: Option<Error>)

  /**
   * `processChannelUpdate(ds, task, timeout)`. `channelEnv` and `categoryEnv`
   * are what the shared context and the platform do during the two edits.
   */
  method ProcessChannelUpdate(session: bool, task: Task, engine: Engine, hash: Fingerprint,
                              channelEnv: EditEnv, categoryEnv: EditEnv)
    returns (attempts: seq<Attempt>)
    modifies task.server
    // the guard: nothing is attempted and nothing changes
    ensures !session || task.server == null || task.tpl.None? ==> attempts == []
    ensures !session || task.tpl.None? ==> task.server == null || unchanged(task.server)
    // otherwise the channel, then the category, whatever the channel's outcome
    ensures session && task.server != null && task.tpl.Some? ==>
      var s := task.server;
      var channelCall := ChannelCall(s.channelId, s.channelName, s.channelDesc, session, task.tpl, engine, hash,
                                     old(s.prevChannelHash));
      var categoryCall := CategoryCall(s.categoryId, s.categoryName, session, task.tpl, engine, hash,
                                       old(s.prevCategoryHash));
      && attempts == [Attempt(ChannelSurface, channelCall, CallOutcome(channelCall, channelEnv)),
                      Attempt(CategorySurface, categoryCall, CallOutcome(categoryCall, categoryEnv))]
      && s.prevChannelHash == NextHash(old(s.prevChannelHash), channelCall, attempts[0].err, hash)
      && s.prevCategoryHash == NextHash(old(s.prevCategoryHash), categoryCall, attempts[1].err, hash)
  {
    if !session || task.server == null || task.tpl.None? {
      return [];
    }
    var channelErr, channelCall := task.server.UpdateChannel(session, task.tpl, engine, hash, channelEnv);
    var categoryErr, categoryCall := task.server.UpdateCategory(session, task.tpl, engine, hash, categoryEnv);
    attempts := [Attempt(ChannelSurface, channelCall, channelErr), Attempt(CategorySurface, categoryCall, categoryErr)];
  }
}
