/**
 * The six commands of the `Youtube` cog as transitions of the session table.
 * Each function takes the table before the command and returns the table
 * after it, the command's outcome and the calls it made on the outside world
 * (replies, downloads, voice-client calls), in the order it made them.
 */
module Commands {
  import opened Wrappers
  import opened Session

  /**
   * The collaborators, left opaque: `fetch` stands for the yt-dlp download in
   * `fetch_video` (link to local file path), `connect` for
   * `user.voice.channel.connect()` (voice channel to a new voice client).
   */
  datatype Env = Env(fetch: Link -> Path, connect: ChannelId -> Conn)

  /** What a command reads from its invocation context. */
  datatype Context = Context(
    guild: GuildId,             // context.guild.id
    voice: Option<ChannelId>,   // context.author.voice: the author's voice channel, if any
    channel: ChannelId)         // context.channel: the text channel the command came from

  /** The replies the cog sends. */
  datatype Message =
    | QueueIsEmpty                  // "Queue is empty."
    | NotConnected                  // "You are not connected to a voice channel."
    | JoinedChannel(voiceChannel: ChannelId)  // the "Joined ..." embed
    | PlayingNow(link: Link)        // "Playing Now: <link>"
    | PlaybackStopped               // "Playback Stopped."
    | LeavingChannel(textChannel: ChannelId)  // "Leaving <channel>"

  /** A call on the outside world. */
  datatype Effect =
    | Reply(msg: Message)
    | Fetch(link: Link, path: Path)
    | Connect(voiceChannel: ChannelId, conn: Conn)
    | PlayOn(conn: Conn, path: Path)
    | StopOn(conn: Conn)
    | DisconnectOn(conn: Conn)

  /**
   * How a command ends. NoClient is the AttributeError raised by calling
   * play or stop on a None voice client; `lost` is the link that `play` had
   * already taken off the queue when that happened. Played records that
   * play was called on the client, not that the library accepted the call.
   */
  datatype Outcome =
    | Replied(msg: Message)
    | Queued(link: Link)
    | Joined(conn: Conn)
    | Played(link: Link, conn: Conn, path: Path)
    | Stopped(conn: Conn)
    | Left(conn: Conn)
    | NoClient(lost: Option<Link>)

  datatype Reaction = Reaction(table: Table, outcome: Outcome, effects: seq<Effect>)

  /** `ytjoin`: refuse when the author is not in voice, otherwise connect and overwrite g's client. */
  function YtJoin(env: Env, t: Table, ctx: Context): (r: Reaction)
    ensures ctx.voice.None? ==> r.table == t && r.outcome == Replied(NotConnected)
    ensures ctx.voice.Some? ==>
      var c := env.connect(ctx.voice.value);
      && ClientOf(r.table, ctx.guild) == Some(c)
      && r.outcome == Joined(c)
      && Connect(ctx.voice.value, c) in r.effects
    ensures r.table.queues == t.queues
    ensures forall h :: h != ctx.guild ==> SameGuild(t, r.table, h)
    // a previous client is overwritten, never disconnected
    ensures forall e <- r.effects :: !e.DisconnectOn?
  {
    match ctx.voice
    case None =>
      Reaction(t, Replied(NotConnected), [Reply(NotConnected)])
    case Some(ch) =>
      var c := env.connect(ch);
      Reaction(SetClient(t, ctx.guild, Some(c)), Joined(c), [Connect(ch, c), Reply(JoinedChannel(ch))])
  }

  /**
   * The step shared by `play` and `playnow`: read g's client (materialising
   * None) and, when it is None, run `ytjoin`.
   */
  function JoinIfAbsent(env: Env, t: Table, ctx: Context): (r: (Table, seq<Effect>))
    ensures r.0.queues == t.queues
    ensures ClientOf(t, ctx.guild).Some? ==> SameViews(t, r.0) && r.1 == []
    ensures ClientOf(t, ctx.guild).None? ==>
      ClientOf(r.0, ctx.guild) == (if ctx.voice.Some? then Some(env.connect(ctx.voice.value)) else None)
    ensures forall h :: h != ctx.guild ==> SameGuild(t, r.0, h)
    ensures (exists e <- r.1 :: e.Connect?) <==> ClientOf(t, ctx.guild).None? && ctx.voice.Some?
    ensures forall e <- r.1 :: !e.DisconnectOn? && !e.PlayOn?
  {
    var t1 := TouchClient(t, ctx.guild);
    if ClientOf(t1, ctx.guild).None? then
      var j := YtJoin(env, t1, ctx);
      assert ctx.voice.Some? ==> j.effects[0].Connect?;
      (j.table, j.effects)
    else
      (t1, [])
  }

  /**
   * `play`: reply when g's queue is empty; otherwise take the head link off
   * the queue, download it, join if g has no client, and play it on g's
   * client. The head is taken before the join is attempted, so a failed join
   * loses it.
   */
  function Play(env: Env, t: Table, ctx: Context): (r: Reaction)
    ensures QueueOf(t, ctx.guild) == [] ==>
      && SameViews(t, r.table) && r.table.clients == t.clients
      && r.outcome == Replied(QueueIsEmpty)
    ensures QueueOf(t, ctx.guild) != [] ==>
      var head := QueueOf(t, ctx.guild)[0];
      var client := ClientOf(t, ctx.guild);
      && QueueOf(r.table, ctx.guild) == QueueOf(t, ctx.guild)[1..]
      && r.effects != [] && r.effects[0] == Fetch(head, env.fetch(head))
      && (client.Some? ==> r.outcome == Played(head, client.value, env.fetch(head)))
      && (client.None? && ctx.voice.Some? ==>
            r.outcome == Played(head, env.connect(ctx.voice.value), env.fetch(head)))
      && (client.None? && ctx.voice.None? ==> r.outcome == NoClient(Some(head)))
      && ClientOf(r.table, ctx.guild) ==
           (if client.Some? || ctx.voice.None? then client else Some(env.connect(ctx.voice.value)))
    ensures r.outcome.NoClient? <==>
      QueueOf(t, ctx.guild) != [] && ClientOf(t, ctx.guild).None? && ctx.voice.None?
    ensures forall h :: h != ctx.guild ==> SameGuild(t, r.table, h)
  {
    var g := ctx.guild;
    var t0 := TouchQueue(t, g);
    var q := QueueOf(t0, g);
    if q == [] then
      Reaction(t0, Replied(QueueIsEmpty), [Reply(QueueIsEmpty)])
    else
      var link := q[0];
      var t1 := SetQueue(t0, g, q[1..]);
      var path := env.fetch(link);
      var (t2, joined) := JoinIfAbsent(env, t1, ctx);
      var effects := [Fetch(link, path)] + joined;
      match ClientOf(t2, g)
      case None => Reaction(t2, NoClient(Some(link)), effects)
      case Some(c) => Reaction(t2, Played(link, c, path), effects + [PlayOn(c, path)])
  }

  /**
   * `playnow`: reply, download the link, join if g has no client, and play
   * it on g's client. No queue is read or written.
   */
  function PlayNow(env: Env, t: Table, ctx: Context, link: Link): (r: Reaction)
    ensures r.table.queues == t.queues
    ensures r.effects != [] && r.effects[0] == Reply(PlayingNow(link))
    ensures ClientOf(t, ctx.guild).Some? ==>
      SameViews(t, r.table) && r.outcome == Played(link, ClientOf(t, ctx.guild).value, env.fetch(link))
    ensures ClientOf(t, ctx.guild).None? && ctx.voice.Some? ==>
      r.outcome == Played(link, env.connect(ctx.voice.value), env.fetch(link))
    ensures r.outcome.NoClient? <==> ClientOf(t, ctx.guild).None? && ctx.voice.None?
    ensures r.outcome.NoClient? ==> r.outcome.lost == None
    ensures ClientOf(r.table, ctx.guild) ==
      (if ClientOf(t, ctx.guild).Some? || ctx.voice.None? then ClientOf(t, ctx.guild)
       else Some(env.connect(ctx.voice.value)))
    // it joins exactly when g has no client and the author is in voice
    ensures (exists e <- r.effects :: e.Connect?) <==> ClientOf(t, ctx.guild).None? && ctx.voice.Some?
    ensures forall h :: h != ctx.guild ==> SameGuild(t, r.table, h)
  {
    var g := ctx.guild;
    var path := env.fetch(link);
    var (t1, joined) := JoinIfAbsent(env, t, ctx);
    var effects := [Reply(PlayingNow(link)), Fetch(link, path)] + joined;
    match ClientOf(t1, g)
    case None => Reaction(t1, NoClient(None), effects)
    case Some(c) => Reaction(t1, Played(link, c, path), effects + [PlayOn(c, path)])
  }

  /** `stop`: stop g's client and reply; with no client the call on None fails. */
  function Stop(t: Table, ctx: Context): (r: Reaction)
    ensures r.table.queues == t.queues && SameViews(t, r.table)
    ensures ClientOf(t, ctx.guild).None? ==> r.outcome == NoClient(None) && r.effects == []
    ensures ClientOf(t, ctx.guild).Some? ==>
      var c := ClientOf(t, ctx.guild).value;
      r.outcome == Stopped(c) && r.effects == [StopOn(c), Reply(PlaybackStopped)]
  {
    var t1 := TouchClient(t, ctx.guild);
    match ClientOf(t1, ctx.guild)
    case None => Reaction(t1, NoClient(None), [])
    case Some(c) => Reaction(t1, Stopped(c), [StopOn(c), Reply(PlaybackStopped)])
  }

  /** `queue`: put the link at the tail of g's queue. */
  function Queue(t: Table, ctx: Context, link: Link): (r: Reaction)
    ensures QueueOf(r.table, ctx.guild) == QueueOf(t, ctx.guild) + [link]
    ensures r.table.clients == t.clients
    ensures forall h :: h != ctx.guild ==> QueueOf(r.table, h) == QueueOf(t, h)
    ensures r.outcome == Queued(link) && r.effects == []
  {
    var t1 := TouchQueue(t, ctx.guild);
    Reaction(SetQueue(t1, ctx.guild, QueueOf(t1, ctx.guild) + [link]), Queued(link), [])
  }

  /**
   * `ytleave`: refuse when g has no client; otherwise reply and disconnect
   * it. The entry is not cleared, so g keeps the disconnected client.
   */
  function YtLeave(t: Table, ctx: Context): (r: Reaction)
    ensures r.table.queues == t.queues && SameViews(t, r.table)
    ensures ClientOf(t, ctx.guild).None? ==>
      r.outcome == Replied(NotConnected) && r.effects == [Reply(NotConnected)]
    ensures ClientOf(t, ctx.guild).Some? ==>
      var c := ClientOf(t, ctx.guild).value;
      && r.outcome == Left(c)
      && r.effects == [Reply(LeavingChannel(ctx.channel)), DisconnectOn(c)]
      && ClientOf(r.table, ctx.guild) == Some(c)
  {
    var t1 := TouchClient(t, ctx.guild);
    match ClientOf(t1, ctx.guild)
    case None => Reaction(t1, Replied(NotConnected), [Reply(NotConnected)])
    case Some(c) => Reaction(t1, Left(c), [Reply(LeavingChannel(ctx.channel)), DisconnectOn(c)])
  }
}
