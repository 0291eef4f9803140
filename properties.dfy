/**
 * Properties of runs of commands over the session table: queues are FIFO,
 * guilds are isolated from each other, and the ordering hazards of `play`
 * and `ytleave`.
 */
module Properties {
  import opened Wrappers
  import opened Session
  import Commands
  import opened Dispatch

  /** The links the `queue` commands of a run put on guild g's queue, in order. */
  function Enqueued(g: GuildId, reqs: seq<Request>): seq<Link>
    decreases |reqs|
  {
    if reqs == [] then []
    else
      var now := if reqs[0].ctx.guild == g && reqs[0].cmd.Queue? then [reqs[0].cmd.link] else [];
      now + Enqueued(g, reqs[1..])
  }

  /**
   * The link one request took off guild g's queue, read from its outcome: the
   * link a `play` for g reports as played, or as lost when it found no client.
   */
  function Taken(g: GuildId, req: Request, out: Commands.Outcome): seq<Link> {
    if req.ctx.guild == g && req.cmd.Play? then
      match out
      case Played(link, _, _) => [link]
      case NoClient(Some(link)) => [link]
      case _ => []
    else []
  }

  /** The links the `play` commands of a run took off guild g's queue, in order. */
  function Dequeued(g: GuildId, reqs: seq<Request>, outs: seq<Commands.Outcome>): seq<Link>
    requires |outs| == |reqs|
    decreases |reqs|
  {
    if reqs == [] then []
    else Taken(g, reqs[0], outs[0]) + Dequeued(g, reqs[1..], outs[1..])
  }

  /** One step keeps g's queue accounted for: what it takes plus what stays is what was there plus what it adds. */
  lemma StepAccounting(env: Commands.Env, t: Table, req: Request, g: GuildId)
    ensures var s := Step(env, t, req);
      var added := if req.ctx.guild == g && req.cmd.Queue? then [req.cmd.link] else [];
      Taken(g, req, s.outcome) + QueueOf(s.table, g) == QueueOf(t, g) + added
  {
    var s := Step(env, t, req);
    if req.ctx.guild == g {
      match req.cmd
      case Play =>
        var q := QueueOf(t, g);
        if q != [] {
          assert [q[0]] + q[1..] == q;
        }
      case PlayNow(_) =>
      case Stop =>
      case Queue(_) =>
      case YtJoin =>
      case YtLeave =>
    }
  }

  /**
   * Queue accounting over a run: the links taken off g's queue followed by
   * what remains on it are exactly the links it held at the start followed
   * by the links queued for g during the run.
   */
  lemma {:induction false} QueueAccounting(env: Commands.Env, t: Table, reqs: seq<Request>, g: GuildId)
    ensures var r := Run(env, t, reqs);
      Dequeued(g, reqs, r.1) + QueueOf(r.0, g) == QueueOf(t, g) + Enqueued(g, reqs)
    decreases |reqs|
  {
    if reqs != [] {
      var s := Step(env, t, reqs[0]);
      var rest := Run(env, s.table, reqs[1..]);
      var r := Run(env, t, reqs);
      var taken := Taken(g, reqs[0], s.outcome);
      var now := if reqs[0].ctx.guild == g && reqs[0].cmd.Queue? then [reqs[0].cmd.link] else [];
      assert r.0 == rest.0 && r.1 == [s.outcome] + rest.1;
      assert Dequeued(g, reqs, r.1) == taken + Dequeued(g, reqs[1..], rest.1) by {
        assert r.1[0] == s.outcome && r.1[1..] == rest.1;
      }
      assert Enqueued(g, reqs) == now + Enqueued(g, reqs[1..]);
      StepAccounting(env, t, reqs[0], g);
      assert taken + QueueOf(s.table, g) == QueueOf(t, g) + now;
      QueueAccounting(env, s.table, reqs[1..], g);
      assert Dequeued(g, reqs[1..], rest.1) + QueueOf(rest.0, g) == QueueOf(s.table, g) + Enqueued(g, reqs[1..]);
      AppendAssoc(taken, Dequeued(g, reqs[1..], rest.1), QueueOf(rest.0, g),
                  QueueOf(s.table, g), Enqueued(g, reqs[1..]), QueueOf(t, g), now);
    }
  }

  /** Rebracketing step of the accounting: from a + (b + c) with b + c == d + e and a + d == f + n. */
  lemma AppendAssoc<T>(a: seq<T>, b: seq<T>, c: seq<T>, d: seq<T>, e: seq<T>, f: seq<T>, n: seq<T>)
    requires b + c == d + e && a + d == f + n
    ensures (a + b) + c == f + (n + e)
  {
    assert (a + b) + c == a + (d + e);
    assert a + (d + e) == (f + n) + e;
  }

  /**
   * FIFO order: starting from a fresh cog, the links the `play` commands of
   * any run take for guild g are a prefix of the links queued for g, in the
   * same order; the k-th play takes the k-th queued link.
   */
  lemma FifoOrder(env: Commands.Env, reqs: seq<Request>, g: GuildId)
    ensures var r := Run(env, Empty(), reqs);
      Dequeued(g, reqs, r.1) <= Enqueued(g, reqs)
  {
    var r := Run(env, Empty(), reqs);
    QueueAccounting(env, Empty(), reqs, g);
    var d := Dequeued(g, reqs, r.1);
    assert d == (d + QueueOf(r.0, g))[..|d|];
  }

  /** Isolation: a run of commands for other guilds leaves guild g's queue and client as they were. */
  lemma {:induction false} OtherGuildsUntouched(env: Commands.Env, t: Table, reqs: seq<Request>, g: GuildId)
    requires forall req <- reqs :: req.ctx.guild != g
    ensures SameGuild(t, Run(env, t, reqs).0, g)
    decreases |reqs|
  {
    if reqs != [] {
      var s := Step(env, t, reqs[0]);
      assert reqs[0] in reqs;
      assert SameGuild(t, s.table, g);
      assert forall req <- reqs[1..] :: req in reqs;
      OtherGuildsUntouched(env, s.table, reqs[1..], g);
    }
  }

  /**
   * The link is taken before the join: a `play` by an author who is not in
   * voice, for a guild with one queued link and no client, loses that link,
   * and the next `play` finds the queue empty.
   */
  lemma LinkLostWhenJoinFails(env: Commands.Env, link: Link, g: GuildId, text: ChannelId)
    ensures var ctx := Commands.Context(g, None, text);
      var t := SetQueue(Empty(), g, [link]);
      var r := Run(env, t, [Request(ctx, Play), Request(ctx, Play)]);
      && r.1 == [Commands.NoClient(Some(link)), Commands.Replied(Commands.QueueIsEmpty)]
      && QueueOf(r.0, g) == []
  {
    var ctx := Commands.Context(g, None, text);
    var t := SetQueue(Empty(), g, [link]);
    var s1 := Step(env, t, Request(ctx, Play));
    assert QueueOf(s1.table, g) == [];
    var s2 := Step(env, s1.table, Request(ctx, Play));
    assert Run(env, s1.table, [Request(ctx, Play)]).1 == [s2.outcome];
  }

  /**
   * `ytleave` does not clear the entry: after it, `playnow` does not join
   * again but calls play on the client that was just disconnected (the
   * library's refusal of that call is not modelled).
   */
  lemma StaleClientAfterLeave(env: Commands.Env, t: Table, ctx: Commands.Context, link: Link)
    requires ClientOf(t, ctx.guild).Some?
    ensures var c := ClientOf(t, ctx.guild).value;
      var left := Commands.YtLeave(t, ctx);
      var now := Commands.PlayNow(env, left.table, ctx, link);
      && Commands.DisconnectOn(c) in left.effects
      && now.outcome == Commands.Played(link, c, env.fetch(link))
      && (forall e <- now.effects :: !e.Connect?)
  {
  }
}
