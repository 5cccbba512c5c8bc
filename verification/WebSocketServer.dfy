/** The socket server as it is written, proved equal step by step to `Sockets`. */
module WebSocketServers {
  import opened FlatSets
  import RateLimiter
  import opened Sockets

  class WebSocketServer {
    /** The library's sockets with the data attached to them. */
    var sockets: map<Handle, Socket>
    var connectionData: map<Id, Conn>
    var reconnections: map<string, Recon>
    var receiveQueue: seq<Event>

    constructor ()
      ensures State() == START
    {
      sockets, connectionData, reconnections, receiveQueue := map[], map[], map[], [];
    }

    function State(): Server
      reads this
    {
      Server(sockets, connectionData, reconnections, receiveQueue)
    }

    method OnClose(h: Handle)
      requires h in sockets
      modifies this
      ensures State() == Sockets.OnClose(old(State()), h)
    {
      var data := sockets[h];
      sockets := sockets[h := data.(open := false)];
      if data.id in connectionData {
        if data.token == connectionData[data.id].token && connectionData[data.id].ws == Live(h) {
          connectionData := connectionData[data.id := connectionData[data.id].(ws := NoSocket)];
        }
      }
      receiveQueue := receiveQueue + [Closed(data.id, data.game)];
    }

    /** `ws->end`. */
    method End(h: Handle)
      modifies this
      ensures State() == Sockets.End(old(State()), h)
    {
      if h in sockets && sockets[h].open {
        OnClose(h);
      }
    }

    method SendClose(p: Id)
      modifies this
      ensures State() == Sockets.SendClose(old(State()), p)
    {
      if p in connectionData {
        if connectionData[p].ws.Live? {
          End(connectionData[p].ws.h);
          connectionData := connectionData[p := connectionData[p].(ws := NoSocket)];
        }
      }
    }

    method OnOpen(d: Hello)
      modifies this
      ensures State() == Sockets.OnOpen(old(State()), d)
    {
      hide Sockets.SendClose, Sockets.OnClose, Sockets.End, Key;
      var id, token := d.id, d.token;
      sockets := sockets[d.h := Socket(id, d.game, token, true, RateLimiter.Meter(0, 0))];
      var k := Key(d.game, token);
      if token != "" && k in reconnections {
        var known := reconnections[k];
        if known.stamp < d.now - MAX_RECONNECTION_TIME {
          reconnections := reconnections - {k};
          End(d.h);
          return;
        }
        if known.peer !in connectionData {
          reconnections := reconnections - {k};
          End(d.h);
          return;
        }
        if connectionData[known.peer].game != d.game {
          End(d.h);
          return;
        }
        SendClose(known.peer);
        id := known.peer;
        reconnections := reconnections - {k};
      }
      if d.platform != "anon" {
        token := d.platform + ":" + d.platformId;
      } else if token == "" {
        token := d.uuid;
      }
      sockets := sockets[d.h := Socket(id, d.game, token, true, RateLimiter.Meter(0, 0))];
      var newKey := Key(d.game, token);
      if newKey !in reconnections {
        reconnections := reconnections[newKey := Recon(id, d.now)];
      }
      connectionData := connectionData[id := Conn(id, d.game, token, Live(d.h))];
      receiveQueue := receiveQueue + [Opened(id, d.game)];
    }

    method OnMessage(h: Handle, text: string, now: int, max: nat, room: bool)
      requires h in sockets
      modifies this
      ensures State() == Sockets.OnMessage(old(State()), h, text, now, max, room)
    {
      hide Sockets.SendClose;
      var data := sockets[h];
      if now - data.meter.since < RateLimiter.WINDOW {
        sockets := sockets[h := data.(meter := data.meter.(count := data.meter.count + 1))];
      } else {
        sockets := sockets[h := data.(meter := RateLimiter.Meter(1, now))];
      }
      if sockets[h].meter.count > max {
        SendClose(data.id);
        return;
      }
      if room {
        receiveQueue := receiveQueue + [Message(data.id, data.game, text)];
      } else {
        SendClose(data.id);
      }
    }

    method ClearUsers(ids: seq<Id>)
      modifies this
      ensures State() == Sockets.ClearUsers(old(State()), ids)
    {
      hide Sockets.SendClose;
      for i := 0 to |ids|
        invariant State() == Sockets.ClearUsers(old(State()), ids[..i])
      {
        assert ids[..i + 1][..i] == ids[..i];
        SendClose(ids[i]);
        if ids[i] !in connectionData { continue; }
        var connection := connectionData[ids[i]];
        reconnections := reconnections - {KeyOf(connection)};
        connectionData := connectionData - {ids[i]};
      }
      assert ids[..|ids|] == ids;
    }
  }
}
