/**
 * The per-player entry of the Rust server (apps/server/src/player.rs): the
 * player record, its channel, its connection status and its latency window.
 */
module RustPlayer {
  import opened RustWire

  /** `ConnectionStatus`; only the variant this code uses is modelled. */
  datatype ConnectionStatus = Connected

  /** The number of latency samples an entry keeps. */
  const LatencyWindow: nat := 5

  datatype PlayerEntry = PlayerEntry(player: Player, channel: ChannelId, status: ConnectionStatus, latencies: seq<u32>)

  /** `PlayerEntry::new`: the given player and channel, connected, with five zero latencies. */
  function NewEntry(player: Player, channel: ChannelId): (e: PlayerEntry)
    ensures e.player == player && e.channel == channel
    ensures e.status == Connected
    ensures |e.latencies| == LatencyWindow && forall i :: 0 <= i < |e.latencies| ==> e.latencies[i] == 0
  {
    PlayerEntry(player, channel, Connected, seq(LatencyWindow, _ => 0))
  }

  /** `did_buzz` */
  function DidBuzz(e: PlayerEntry): bool
  {
    e.player.buzzed
  }

  /** A new entry has not buzzed unless its player record says so. */
  lemma NewEntryBuzz(player: Player, channel: ChannelId)
    ensures DidBuzz(NewEntry(player, channel)) == player.buzzed
  {
  }

  /** `update`: an unchanged copy of the message goes to the entry's channel, and nothing else is sent. */
  method Update(e: PlayerEntry, msg: WsMsg, channels: Channels)
    modifies channels
    ensures channels.log == old(channels.log) + [(e.channel, msg)]
  {
    channels.Send(e.channel, msg);
  }
}
