// The client end of a stream socket. A connection is an append-only byte log
// that the network may cut after any byte, and a byte string the peer will
// deliver before the receiving direction ends.
module Tcp {
  import opened Bytes

  // What the network grants one connection: how many more bytes it will carry,
  // and which bytes it will deliver.
  datatype Link = Link(budget: nat, incoming: seq<byte>)

  const NO_LINK: Link := Link(0, [])

  // wires holds the bytes written to every connection ever opened, oldest first.
  datatype Conn = Conn(connected: bool, link: Link, wires: seq<seq<byte>>)

  ghost predicate ValidConn(c: Conn) {
    c.connected ==> c.wires != []
  }

  function Connect(c: Conn, offer: Option<Link>): (r: Conn) {
    if c.connected || offer.None? then c
    else Conn(true, offer.value, c.wires + [[]])
  }

  function Close(c: Conn): Conn {
    c.(connected := false, link := NO_LINK)
  }

  function Written(c: Conn, data: seq<byte>): Conn
    requires ValidConn(c) && c.connected && |data| <= c.link.budget
  {
    var last := |c.wires| - 1;
    c.(link := c.link.(budget := c.link.budget - |data|), wires := c.wires[last := c.wires[last] + data])
  }

  // All of data reaches the wire, or the longest prefix the network carries
  // does and the connection is closed.
  function Sent(c: Conn, data: seq<byte>): Conn
    requires ValidConn(c)
  {
    if !c.connected then c
    else if |data| <= c.link.budget then Written(c, data)
    else Close(Written(c, data[..c.link.budget]))
  }

  predicate Carries(c: Conn, data: seq<byte>) {
    c.connected && |data| <= c.link.budget
  }

  predicate Delivers(c: Conn, size: nat) {
    c.connected && size <= |c.link.incoming|
  }

  function Drained(c: Conn, size: nat): Conn {
    if !c.connected then c
    else if size <= |c.link.incoming| then c.(link := c.link.(incoming := c.link.incoming[size..]))
    else Close(c)
  }

  lemma SentKeepsValid(c: Conn, data: seq<byte>)
    requires ValidConn(c)
    ensures ValidConn(Sent(c, data))
  {
  }

  // Two sends, the second only if the first went through, are one send of the
  // concatenation: the wire cannot tell where sendAll calls begin and end.
  lemma SentConcat(c: Conn, a: seq<byte>, b: seq<byte>)
    requires ValidConn(c)
    ensures Carries(c, a + b) <==> Carries(c, a) && Carries(Sent(c, a), b)
    ensures Sent(c, a + b) == if Carries(c, a) then Sent(Sent(c, a), b) else Sent(c, a)
  {
    if c.connected {
      var k := c.link.budget;
      var w := c.wires[|c.wires| - 1];
      if |a| <= k {
        assert ValidConn(Sent(c, a));
        if |a| + |b| <= k {
          assert w + (a + b) == (w + a) + b;
        } else {
          assert (a + b)[..k] == a + b[..k - |a|];
          assert w + (a + b)[..k] == (w + a) + b[..k - |a|];
        }
      } else {
        assert (a + b)[..k] == a[..k];
      }
    }
  }

  // Two receives, the second only if the first was served, are one receive of
  // both sizes; one that is not served closes the connection.
  lemma DrainedConcat(c: Conn, a: nat, b: nat)
    ensures Delivers(c, a + b) <==> Delivers(c, a) && Delivers(Drained(c, a), b)
    ensures Drained(c, a + b) == if Delivers(c, a) then Drained(Drained(c, a), b) else Drained(c, a)
    ensures Drained(c, a).connected <==> Delivers(c, a)
    ensures Drained(c, a).wires == c.wires
  {
    if Delivers(c, a) {
      var rest := c.link.incoming[a..];
      if b <= |rest| { assert rest[b..] == c.link.incoming[a + b..]; }
    }
  }

  class TcpClient {
    var connected: bool
    var budget: nat
    var incoming: seq<byte>
    var wires: seq<seq<byte>>

    ghost predicate Valid()
      reads this
    {
      ValidConn(View())
    }

    ghost function View(): Conn
      reads this
    {
      Conn(connected, Link(budget, incoming), wires)
    }

    constructor ()
      ensures Valid() && View() == Conn(false, NO_LINK, [])
    {
      connected, budget, incoming, wires := false, 0, [], [];
    }

    // socket + connect; offer is what the network answers.
    method ConnectToServer(offer: Option<Link>) returns (ok: bool)
      requires Valid()
      modifies this
      ensures Valid() && View() == Connect(old(View()), offer) && ok == connected
    {
      if connected {
        return true;
      }
      if offer.None? {
        return false;
      }
      budget, incoming := offer.value.budget, offer.value.incoming;
      wires := wires + [[]];
      connected := true;
      return true;
    }

    method CloseConnection()
      modifies this
      ensures Valid() && View() == Close(old(View()))
    {
      connected, budget, incoming := false, 0, [];
    }

    // One send(2): any non-empty prefix the network still carries, or failure.
    method Send(data: seq<byte>) returns (n: int)
      requires Valid() && connected && data != []
      modifies this
      ensures Valid() && n <= |data| && n <= old(budget)
      ensures n <= 0 <==> old(budget) == 0
      ensures View() == if n <= 0 then old(View()) else Written(old(View()), data[..n])
    {
      if budget == 0 {
        n := -1;
      } else {
        n :| 1 <= n <= |data| && n <= budget;
        wires := wires[|wires| - 1 := wires[|wires| - 1] + data[..n]];
        budget := budget - n;
      }
    }

    method SendAll(data: seq<byte>) returns (ok: bool)
      requires Valid()
      modifies this
      ensures Valid() && View() == Sent(old(View()), data) && ok == Carries(old(View()), data)
    {
      if !connected {
        return false;
      }
      ghost var c := View();
      var sentBytes := 0;
      assert data[..0] == [] && wires[|wires| - 1] + [] == wires[|wires| - 1];
      while sentBytes < |data|
        invariant Valid() && connected && 0 <= sentBytes <= |data| && sentBytes <= c.link.budget
        invariant View() == Written(c, data[..sentBytes])
        decreases |data| - sentBytes
      {
        ghost var w := c.wires[|c.wires| - 1];
        var n := Send(data[sentBytes..]);
        if n <= 0 {
          CloseConnection();
          return false;
        }
        assert w + data[..sentBytes] + data[sentBytes..][..n] == w + data[..sentBytes + n];
        sentBytes := sentBytes + n;
      }
      assert data[..sentBytes] == data;
      return true;
    }

    // One recv(2): any non-empty prefix of what will still arrive, or failure.
    method Recv(size: nat) returns (n: int, chunk: seq<byte>)
      requires Valid() && connected && size > 0
      modifies this
      ensures Valid() && n <= size && n <= |old(incoming)|
      ensures n <= 0 <==> old(incoming) == []
      ensures chunk == if n <= 0 then [] else old(incoming)[..n]
      ensures View() == if n <= 0 then old(View()) else Drained(old(View()), n)
    {
      if incoming == [] {
        n, chunk := 0, [];
      } else {
        n :| 1 <= n <= size && n <= |incoming|;
        chunk := incoming[..n];
        incoming := incoming[n..];
      }
    }

    method RecvAll(size: nat) returns (data: Option<seq<byte>>)
      requires Valid()
      modifies this
      ensures Valid() && View() == Drained(old(View()), size)
      ensures data == if Delivers(old(View()), size) then Some(old(incoming)[..size]) else None
    {
      if !connected {
        return None;
      }
      var buffer: seq<byte> := [];
      while |buffer| < size
        invariant Valid() && connected && |buffer| <= size && |buffer| <= |old(incoming)|
        invariant buffer == old(incoming)[..|buffer|]
        invariant View() == Drained(old(View()), |buffer|)
        decreases size - |buffer|
      {
        var n, chunk := Recv(size - |buffer|);
        if n <= 0 {
          CloseConnection();
          return None;
        }
        buffer := buffer + chunk;
      }
      return Some(buffer);
    }
  }
}
