// agent-channel.ts: the connections between one launched child and its parent, as lossy queues.

module Channel {
  import opened Options

  /** What travels parent to child: the handshake's answers and feature messages. */
  datatype Downward<D> = Welcome | Refusal | Carry(msg: D)

  /**
   * One connection: the hello that opened it and the messages still in flight each way. Once broken
   * it delivers a prefix of what was in flight and nothing sent later.
   */
  datatype Conn<H, U, D> = Conn(hello: H, up: seq<U>, down: seq<Downward<D>>, broken: bool)

  /** The child's side: no connection, one that awaits its welcome, or an established one. */
  datatype Phase = Offline | Greeting(c: nat) | Online(c: nat)

  /** Connections are numbered in the order the child opens them, and the parent handles hellos in that order. */
  datatype Link<H, U, D> = Link(conns: seq<Conn<H, U, D>>, child: Phase, live: Option<nat>, greeted: nat)

  predicate LinkOk<H, U, D>(l: Link<H, U, D>) {
    && l.greeted < |l.conns|
    && (!l.child.Offline? ==> l.child.c == |l.conns| - 1)
    && (l.child.Online? ==> l.child.c <= l.greeted)
    && (l.live.Some? ==> l.live.value <= l.greeted)
    && (forall c | l.greeted < c < |l.conns| :: l.conns[c].down == [])
  }

  /** The channel right after the first handshake. */
  function Established<H, U, D>(hello: H): (l: Link<H, U, D>)
    ensures LinkOk(l)
  {
    Link([Conn(hello, [], [], false)], Online(0), Some(0), 0)
  }

  function Dial<H, U, D>(l: Link<H, U, D>, hello: H): Link<H, U, D> {
    l.(conns := l.conns + [Conn(hello, [], [], false)], child := Greeting(|l.conns|))
  }

  function Prefix<T>(s: seq<T>, n: nat): (r: seq<T>)
    ensures r <= s
  {
    if n <= |s| then s[..n] else s
  }

  function Break<H, U, D>(l: Link<H, U, D>, c: nat, up: nat, down: nat): Link<H, U, D>
    requires c < |l.conns|
  {
    var conn := l.conns[c];
    l.(conns := l.conns[c := conn.(up := Prefix(conn.up, up), down := Prefix(conn.down, down), broken := true)])
  }

  function SendUp<H, U, D>(l: Link<H, U, D>, c: nat, m: U): Link<H, U, D>
    requires c < |l.conns|
  {
    if l.conns[c].broken then l else l.(conns := l.conns[c := l.conns[c].(up := l.conns[c].up + [m])])
  }

  function SendDown<H, U, D>(l: Link<H, U, D>, c: nat, m: Downward<D>): Link<H, U, D>
    requires c < |l.conns|
  {
    if l.conns[c].broken then l else l.(conns := l.conns[c := l.conns[c].(down := l.conns[c].down + [m])])
  }

  function DropUp<H, U, D>(l: Link<H, U, D>, c: nat): Link<H, U, D>
    requires c < |l.conns| && l.conns[c].up != []
  {
    l.(conns := l.conns[c := l.conns[c].(up := l.conns[c].up[1..])])
  }

  function DropDown<H, U, D>(l: Link<H, U, D>, c: nat): Link<H, U, D>
    requires c < |l.conns| && l.conns[c].down != []
  {
    l.(conns := l.conns[c := l.conns[c].(down := l.conns[c].down[1..])])
  }

  /** The parent handles the hello of connection `c`: welcomed when no connection is live, refused otherwise. */
  function Greet<H, U, D>(l: Link<H, U, D>, c: nat): Link<H, U, D>
    requires l.greeted < c < |l.conns|
  {
    if l.live.None? then SendDown(l.(live := Some(c), greeted := c), c, Welcome)
    else SendDown(l.(greeted := c), c, Refusal)
  }
}
