# Per-guild playback table of the `Youtube` cog

This project models the session state of the `Youtube` cog of a Discord
YouTube playback bot, and the decisions each of its commands makes against
that state. The cog keeps two dictionaries keyed by guild id:

- `server_to_queue`: each guild's FIFO queue of links;
- `server_to_voice_client`: each guild's voice client, or None.

Both are `defaultdict`s. A guild never seen before reads as an empty queue
and no client, and a subscript read stores that default entry. The model
keeps this: `Session.TouchQueue` and `Session.TouchClient` add the default
key. "Unchanged" is therefore stated on what every guild reads
(`QueueOf`, `ClientOf`, `SameViews`), because on refusal paths the raw maps
can gain a default entry.

The commands are `queue`, `play`, `playnow`, `stop`, `ytjoin` and
`ytleave`. Each is a function in module `Commands`. It maps the table before
the command to a `Reaction`, which holds three things: the table after the
command, the command's `Outcome`, and the calls it made on the outside world
(replies, downloads, connects, and play/stop/disconnect on a voice client),
in order. Class `Cog.Youtube` holds the two dictionaries as `map` fields that
its methods update in place. Each method is proved to perform exactly the
transition of its `Commands` function. A ghost `log` records the calls to
the outside world. Module `Dispatch` applies a sequence of requests. Module
`Properties` proves three things about such runs: FIFO order, isolation
between guilds, and the two ordering hazards of the code as written.

The collaborators are inputs, in `Commands.Env`:

- `fetch(link) -> path` stands for `fetch_video`;
- `connect(channel) -> Conn` stands for `user.voice.channel.connect()`.

The author's voice channel and the text channel come from the invocation
`Context`. Calling `play` or `stop` on a None client raises AttributeError in
the source. That crash is the outcome `NoClient(lost)`, where `lost` is the
link `play` had already taken off the queue.

Behaviour of the code worth knowing:

- `ytjoin` overwrites an existing client without disconnecting it.
- `ytleave` disconnects but leaves the client in the dictionary.
- A later `play`/`playnow` therefore calls play on the disconnected client
  without joining again (`Properties.StaleClientAfterLeave`).
- `stop` only stops the client. It does not clear the queue. There is no loop,
  skip, reconnection or elapsed-time tracking in this code.
- `queue` never starts playback.
- `ytleave` answers a missing client with the same text as `ytjoin` uses for
  an author outside voice: "You are not connected to a voice channel." Both
  are `Commands.NotConnected`.

## Model

| member | source | states |
|---|---|---|
| Session.TouchQueue | cogs/youtube.py:23 | reading an unseen guild's queue stores and returns the default empty queue; no guild's queue or client reads differently afterwards |
| Session.TouchClient | cogs/youtube.py:24 | reading an unseen guild's voice client stores and returns the default None; no guild's queue or client reads differently afterwards |
| Commands.Queue | cogs/youtube.py:120-127 | `queue` appends the link at the tail of the guild's queue; other guilds' queues and the whole client map are unchanged; nothing is replied |
| Commands.Play | cogs/youtube.py:57-74 | on an empty queue: replies "Queue is empty." and every guild reads as before. Otherwise: exactly the head link leaves the queue and is downloaded first. It is played on the existing client, or on the new connection when the author is in voice. Of the modelled outcomes, it ends in a NoClient failure with the link lost exactly when there is no client and the author is not in voice. The guild's client afterwards is the old one, else the new connection, else None. Other guilds are unchanged |
| Commands.JoinIfAbsent | cogs/youtube.py:70-73 | reads the guild's client and runs `ytjoin` only when it is None. Queues are never touched. A connect happens iff there was no client and the author is in voice. No disconnect or play happens |
| Commands.PlayNow | cogs/youtube.py:80-99 | `playnow` never reads or changes any queue. It replies "Playing Now" before anything else. It joins iff the guild has no client and the author is in voice. It plays the downloaded link on the resulting client, and fails with NoClient (losing no queued link) iff no client results. The guild's client afterwards is the old one, else the new connection, else None |
| Commands.Stop | cogs/youtube.py:105-114 | `stop` leaves every queue and client as it was. With a client it stops that client and replies "Playback Stopped."; with none it fails with NoClient and makes no call |
| Commands.YtJoin | cogs/youtube.py:133-152 | author not in voice: the table is left exactly as it was and "not connected" is replied. In voice: the guild's client becomes the new connection, overwriting any previous one, which is never disconnected. Queues and other guilds are unchanged |
| Commands.YtLeave | cogs/youtube.py:158-169 | no client: replies "not connected" and every guild reads as before. With a client: replies "Leaving", then disconnects it. The dictionary entry is not cleared and queues are untouched |
| Dispatch.Step | cogs/youtube.py:57-169 | whichever command runs, every guild other than the request's own reads exactly as before |
| Cog.Youtube.constructor | cogs/youtube.py:21-24 | a new cog starts with both dictionaries empty and nothing logged |
| Cog.Youtube.GetQueue | cogs/youtube.py:23 | the subscript read of `server_to_queue` returns the guild's queue (empty if unseen) and materialises the default entry |
| Cog.Youtube.GetClient | cogs/youtube.py:24 | the subscript read of `server_to_voice_client` returns the guild's client (None if unseen) and materialises the default entry |
| Cog.Youtube.FetchVideo | cogs/youtube.py:29-51 | the download returns the collaborator's path for the link, records the download, and leaves the table unchanged |
| Cog.Youtube.Queue | cogs/youtube.py:120-127 | the in-place `put` leaves the dictionaries, outcome and log exactly as `Commands.Queue` describes |
| Cog.Youtube.Play | cogs/youtube.py:57-74 | the in-place `play` (pop, download, join, play) leaves the dictionaries, outcome and log exactly as `Commands.Play` describes |
| Cog.Youtube.PlayNow | cogs/youtube.py:80-99 | the in-place `playnow` leaves the dictionaries, outcome and log exactly as `Commands.PlayNow` describes |
| Cog.Youtube.Stop | cogs/youtube.py:105-114 | the in-place `stop` leaves the dictionaries, outcome and log exactly as `Commands.Stop` describes |
| Cog.Youtube.YtJoin | cogs/youtube.py:133-152 | the in-place `ytjoin` leaves the dictionaries, outcome and log exactly as `Commands.YtJoin` describes |
| Cog.Youtube.YtLeave | cogs/youtube.py:158-169 | the in-place `ytleave` leaves the dictionaries, outcome and log exactly as `Commands.YtLeave` describes |
| Properties.StepAccounting | cogs/youtube.py:68 | for one command: the link it takes off the guild's queue, followed by the queue after it, equals the queue before it followed by the link it queues |
| Properties.QueueAccounting | cogs/youtube.py:127 | over any run of commands: the links `play` took off a guild's queue, followed by what remains, equal the initial queue followed by every link `queue` added for that guild |
| Properties.FifoOrder | cogs/youtube.py:64-74 | from a fresh cog, the links the `play` commands of a run take for a guild are a prefix of the links queued for it, in order: the k-th play takes the k-th queued link |
| Properties.OtherGuildsUntouched | cogs/youtube.py:23-24 | a run of commands for other guilds leaves a guild's queue and voice client as they were |
| Properties.LinkLostWhenJoinFails | cogs/youtube.py:68-74 | the head is popped before the join: with one queued link, no client and the author outside voice, `play` fails with that link lost and the next `play` finds the queue empty |
| Properties.StaleClientAfterLeave | cogs/youtube.py:93-99 | after `ytleave` disconnects the guild's client, `playnow` does not join again and calls play on that disconnected client |

## Left out

- The yt-dlp subprocess is opaque: `Env.fetch`. Its exit code and logging are not modelled. Neither is the choice of the first entry of the download directory as the file (cogs/youtube.py:35-51). A failed or stale download therefore still yields `fetch(link)`.
- `playnow` deletes every file in the download directory first (cogs/youtube.py:86-89). This is filesystem I/O and is not modelled.
- FFmpeg audio construction and the `volume=0.1` filter of `playnow` are left out. A play is recorded only as `PlayOn(client, path)`.
- The Discord replies are recorded as `Message` values, not rendered. The join embed's latency (a float) and its colour are not modelled.
- Commands.Play: `Played` records only that play was called on the client. The discord library refuses a play on a client that is disconnected or already playing, by raising. That refusal is not modelled. In the program, a popped link is then lost as well, so a second `play` while a track is still playing loses the next link.
- Commands.PlayNow: `Played` likewise records only the call. A play refused by the library on a busy or disconnected client is not modelled.
- `connect` is a pure function of the voice channel. Failures of the discord library are not modelled: connect raising, or connect raising when the bot is already connected in that guild.
- async/await, the command decorators and the cog registration in `setup` (cogs/youtube.py:172-173) are framework plumbing. Commands are modelled as running one after another.
- `server_to_play_status`, `voice_client` and `text_input_channel` (cogs/youtube.py:25-27) are never read by any command and are not modelled.
