/**
 * The per-guild session table of the `Youtube` cog: two dictionaries keyed by
 * guild id, one holding each guild's FIFO queue of links, the other each
 * guild's voice client (or None). Both are `defaultdict`s, so a guild never
 * seen before reads as an empty queue and no client, and reading it through
 * the subscript materialises that default entry.
 */
module Session {
  import opened Wrappers

  type GuildId = int
  type ChannelId = int
  type Link = string
  type Path = string

  /** An opaque handle to a discord voice client. */
  datatype Conn = Conn(handle: nat)

  /** The raw contents of `server_to_queue` and `server_to_voice_client`. */
  datatype Table = Table(queues: map<GuildId, seq<Link>>, clients: map<GuildId, Option<Conn>>)

  /** The table of a freshly constructed cog: both dictionaries empty. */
  function Empty(): Table {
    Table(map[], map[])
  }

  /** Guild g's queue as a read sees it: the stored queue or the default empty one. */
  function QueueOf(t: Table, g: GuildId): seq<Link> {
    if g in t.queues then t.queues[g] else []
  }

  /** Guild g's voice client as a read sees it: the stored one or the default None. */
  function ClientOf(t: Table, g: GuildId): Option<Conn> {
    if g in t.clients then t.clients[g] else None
  }

  /** Guild g reads the same in both tables. */
  ghost predicate SameGuild(t: Table, u: Table, g: GuildId) {
    QueueOf(t, g) == QueueOf(u, g) && ClientOf(t, g) == ClientOf(u, g)
  }

  /** Every guild reads the same in both tables (the raw maps may differ in default entries). */
  ghost predicate SameViews(t: Table, u: Table) {
    forall g :: SameGuild(t, u, g)
  }

  /** `self.server_to_queue[g]`: a subscript that materialises the default empty queue. */
  function TouchQueue(t: Table, g: GuildId): (r: Table)
    ensures r.queues.Keys == t.queues.Keys + {g} && r.clients == t.clients
    ensures g !in t.queues ==> r.queues[g] == []
    ensures forall h :: h != g && h in t.queues ==> r.queues[h] == t.queues[h]
    ensures SameViews(t, r)
  {
    if g in t.queues then t else t.(queues := t.queues[g := []])
  }

  /** `self.server_to_voice_client[g]`: a subscript that materialises the default None. */
  function TouchClient(t: Table, g: GuildId): (r: Table)
    ensures r.clients.Keys == t.clients.Keys + {g} && r.queues == t.queues
    ensures g !in t.clients ==> r.clients[g] == None
    ensures forall h :: h != g && h in t.clients ==> r.clients[h] == t.clients[h]
    ensures SameViews(t, r)
  {
    if g in t.clients then t else t.(clients := t.clients[g := None])
  }

  /** Guild g's queue replaced by q; every other guild and every client untouched. */
  function SetQueue(t: Table, g: GuildId, q: seq<Link>): (r: Table)
    ensures QueueOf(r, g) == q && r.clients == t.clients
    ensures forall h :: h != g ==> SameGuild(t, r, h)
  {
    t.(queues := t.queues[g := q])
  }

  /** `self.server_to_voice_client[g] = c`; every other guild and every queue untouched. */
  function SetClient(t: Table, g: GuildId, c: Option<Conn>): (r: Table)
    ensures ClientOf(r, g) == c && r.queues == t.queues
    ensures forall h :: h != g ==> SameGuild(t, r, h)
  {
    t.(clients := t.clients[g := c])
  }
}
