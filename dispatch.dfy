/**
 * The command dispatcher: each request names the guild context and one of
 * the cog's six commands, and a run applies requests one after another to
 * the same session table, as the cog processes them.
 */
module Dispatch {
  import opened Session
  import Commands

  datatype Command =
    | Play
    | PlayNow(link: Link)
    | Stop
    | Queue(link: Link)
    | YtJoin
    | YtLeave

  datatype Request = Request(ctx: Commands.Context, cmd: Command)

  /** One command applied to the table; guilds other than the request's own never change. */
  function Step(env: Commands.Env, t: Table, req: Request): (r: Commands.Reaction)
    ensures forall h :: h != req.ctx.guild ==> SameGuild(t, r.table, h)
  {
    match req.cmd
    case Play => Commands.Play(env, t, req.ctx)
    case PlayNow(link) => Commands.PlayNow(env, t, req.ctx, link)
    case Stop => Commands.Stop(t, req.ctx)
    case Queue(link) => Commands.Queue(t, req.ctx, link)
    case YtJoin => Commands.YtJoin(env, t, req.ctx)
    case YtLeave => Commands.YtLeave(t, req.ctx)
  }

  /** The final table and each request's outcome, in order. */
  function Run(env: Commands.Env, t: Table, reqs: seq<Request>): (r: (Table, seq<Commands.Outcome>))
    ensures |r.1| == |reqs|
    decreases |reqs|
  {
    if reqs == [] then (t, [])
    else
      var s := Step(env, t, reqs[0]);
      var rest := Run(env, s.table, reqs[1..]);
      (rest.0, [s.outcome] + rest.1)
  }
}
