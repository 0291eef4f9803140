/**
 * The `Youtube` cog itself: an object whose two dictionaries the commands
 * update in place. Every command method is proved to perform exactly the
 * transition its function in `Commands` describes.
 */
module Cog {
  import opened Wrappers
  import opened Session
  import opened Commands

  class Youtube {
    var serverToQueue: map<GuildId, seq<Link>>
    var serverToVoiceClient: map<GuildId, Option<Conn>>
    /** The calls the cog has made on the outside world, oldest first. */
    ghost var log: seq<Effect>
    const env: Env

    /** The session table as the two dictionaries hold it now. */
    function Snapshot(): Table
      reads this
    {
      Table(serverToQueue, serverToVoiceClient)
    }

    /** The command just run took the table from old(Snapshot()) and the log from logBefore as r says, and returned o. */
    ghost predicate Performed(logBefore: seq<Effect>, r: Reaction, o: Outcome)
      reads this
    {
      Snapshot() == r.table && log == logBefore + r.effects && o == r.outcome
    }

    constructor (env: Env)
      ensures Snapshot() == Empty() && log == []
      ensures this.env == env
    {
      this.env := env;
      serverToQueue := map[];
      serverToVoiceClient := map[];
      log := [];
    }

    /** `self.server_to_queue[g]`, materialising the default empty queue. */
    method GetQueue(g: GuildId) returns (q: seq<Link>)
      modifies this
      ensures Snapshot() == TouchQueue(old(Snapshot()), g) && log == old(log)
      ensures q == QueueOf(old(Snapshot()), g)
    {
      if g !in serverToQueue {
        serverToQueue := serverToQueue[g := []];
      }
      q := serverToQueue[g];
    }

    /** `self.server_to_voice_client[g]`, materialising the default None. */
    method GetClient(g: GuildId) returns (c: Option<Conn>)
      modifies this
      ensures Snapshot() == TouchClient(old(Snapshot()), g) && log == old(log)
      ensures c == ClientOf(old(Snapshot()), g)
    {
      if g !in serverToVoiceClient {
        serverToVoiceClient := serverToVoiceClient[g := None];
      }
      c := serverToVoiceClient[g];
    }

    /** `fetch_video(link)`: the download, recorded in the log. */
    method FetchVideo(link: Link) returns (path: Path)
      modifies this
      ensures Snapshot() == old(Snapshot()) && log == old(log) + [Fetch(link, env.fetch(link))]
      ensures path == env.fetch(link)
    {
      path := env.fetch(link);
      log := log + [Fetch(link, path)];
    }

    method YtJoin(ctx: Context) returns (o: Outcome)
      modifies this
      ensures Performed(old(log), Commands.YtJoin(env, old(Snapshot()), ctx), o)
    {
      if ctx.voice.None? {
        log := log + [Reply(NotConnected)];
        return Replied(NotConnected);
      }
      var ch := ctx.voice.value;
      var c := env.connect(ch);
      log := log + [Connect(ch, c)];
      serverToVoiceClient := serverToVoiceClient[ctx.guild := Some(c)];
      log := log + [Reply(JoinedChannel(ch))];
      o := Joined(c);
    }

    method Play(ctx: Context) returns (o: Outcome)
      modifies this
      ensures Performed(old(log), Commands.Play(env, old(Snapshot()), ctx), o)
    {
      var g := ctx.guild;
      var q := GetQueue(g);
      if q == [] {
        log := log + [Reply(QueueIsEmpty)];
        return Replied(QueueIsEmpty);
      }
      var link := q[0];
      serverToQueue := serverToQueue[g := q[1..]];
      var path := FetchVideo(link);
      var client := GetClient(g);
      if client.None? {
        var _ := YtJoin(ctx);
      }
      client := GetClient(g);
      if client.None? {
        return NoClient(Some(link));
      }
      log := log + [PlayOn(client.value, path)];
      o := Played(link, client.value, path);
    }

    method PlayNow(ctx: Context, link: Link) returns (o: Outcome)
      modifies this
      ensures Performed(old(log), Commands.PlayNow(env, old(Snapshot()), ctx, link), o)
    {
      var g := ctx.guild;
      log := log + [Reply(PlayingNow(link))];
      var path := FetchVideo(link);
      var client := GetClient(g);
      if client.None? {
        var _ := YtJoin(ctx);
      }
      client := GetClient(g);
      if client.None? {
        return NoClient(None);
      }
      log := log + [PlayOn(client.value, path)];
      o := Played(link, client.value, path);
    }

    method Stop(ctx: Context) returns (o: Outcome)
      modifies this
      ensures Performed(old(log), Commands.Stop(old(Snapshot()), ctx), o)
    {
      var client := GetClient(ctx.guild);
      if client.None? {
        return NoClient(None);
      }
      log := log + [StopOn(client.value), Reply(PlaybackStopped)];
      o := Stopped(client.value);
    }

    method Queue(ctx: Context, link: Link) returns (o: Outcome)
      modifies this
      ensures Performed(old(log), Commands.Queue(old(Snapshot()), ctx, link), o)
    {
      var q := GetQueue(ctx.guild);
      serverToQueue := serverToQueue[ctx.guild := q + [link]];
      o := Queued(link);
    }

    method YtLeave(ctx: Context) returns (o: Outcome)
      modifies this
      ensures Performed(old(log), Commands.YtLeave(old(Snapshot()), ctx), o)
    {
      var client := GetClient(ctx.guild);
      if client.None? {
        log := log + [Reply(NotConnected)];
        return Replied(NotConnected);
      }
      log := log + [Reply(LeavingChannel(ctx.channel)), DisconnectOn(client.value)];
      o := Left(client.value);
    }
  }
}
