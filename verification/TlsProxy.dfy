/** doorway/tls_proxy.go: what becomes of each connection the merged listener delivers. */
module TlsProxies {
  import opened Basics
  import opened Tunnel

  /** The protocol name of section 3 of RFC 8737. */
  const ACME_ALPN_PROTO := "acme-tls/1"

  datatype Hello = Hello(serverName: string, protoCount: nat, firstProto: string)

  /** `hello` stands for reading the hello off a connection; None when it does not speak TLS. */
  datatype Config = Config(
    forward: Option<map<string, string>>,
    privateMode: bool,
    public: set<string>,
    hello: TagConn -> Option<Hello>)

  datatype Fate = Closed | Forwarded(addr: string) | Passed

  function TrimDot(name: string): string {
    if name != "" && name[|name| - 1] == '.' then name[..|name| - 1] else name
  }

  predicate IsALPN(h: Hello) {
    h.serverName != "" && h.protoCount == 1 && h.firstProto == ACME_ALPN_PROTO
  }

  function FateOf(cfg: Config, conn: TagConn): Fate {
    match cfg.hello(conn)
    case None => Closed
    case Some(h) =>
      var name := TrimDot(h.serverName);
      if cfg.privateMode && conn.tag == TAG_FABRICS && name !in cfg.public && !IsALPN(h) then Closed
      else if cfg.forward.Some? && name in cfg.forward.value then Forwarded(cfg.forward.value[name])
      else Passed
  }

  /** The fate of every connection among the deliveries, in order. */
  function Fates(cfg: Config, ds: seq<Delivery>): seq<(TagConn, Fate)> {
    if ds == [] then []
    else
      var d := ds[|ds| - 1];
      Fates(cfg, ds[..|ds| - 1]) + if d.Handed? then [(d.conn, FateOf(cfg, d.conn))] else []
  }

  lemma {:induction false} FatesConcat(cfg: Config, a: seq<Delivery>, b: seq<Delivery>)
    ensures Fates(cfg, a + b) == Fates(cfg, a) + Fates(cfg, b)
  {
    if b == [] {
      assert a + b == a;
    } else {
      assert (a + b)[..|a + b| - 1] == a + b[..|b| - 1];
      FatesConcat(cfg, a, b[..|b| - 1]);
    }
  }

  lemma FatesSnoc(cfg: Config, ds: seq<Delivery>, d: Delivery)
    ensures Fates(cfg, ds + [d]) == Fates(cfg, ds) + if d.Handed? then [(d.conn, FateOf(cfg, d.conn))] else []
    ensures (ds + [d])[..|ds|] == ds
  {
  }

  /** One final dot is dropped from a name, and nothing else. */
  lemma TrimDotDropsOneDot(name: string)
    ensures TrimDot(name + ".") == name
    ensures name == "" || name[|name| - 1] != '.' ==> TrimDot(name) == name
  {
    assert (name + ".")[..|name|] == name;
  }

  /**
   A fabrics connection gets through a private drive exactly if it speaks TLS, and its name is public
   or it is a named challenge that offers the one protocol of section 3 of RFC 8737.
   */
  lemma PrivateModeFilter(cfg: Config, conn: TagConn)
    requires cfg.privateMode && conn.tag == "fabrics"
    ensures FateOf(cfg, conn) != Closed <==>
              exists h :: cfg.hello(conn) == Some(h) &&
                (TrimDot(h.serverName) in cfg.public ||
                 (h.serverName != "" && h.protoCount == 1 && h.firstProto == "acme-tls/1"))
  {
    if cfg.hello(conn).Some? {
      var h := cfg.hello(conn).value;
      assert cfg.hello(conn) == Some(h);
    }
  }

  /** Nothing else is filtered: any other connection that speaks TLS gets through. */
  lemma NoOtherFilter(cfg: Config, conn: TagConn)
    requires !cfg.privateMode || conn.tag != "fabrics"
    ensures FateOf(cfg, conn) != Closed <==> cfg.hello(conn).Some?
  {
  }

  /** What gets through is handed to a forwarder exactly if its name is listed, and then to that address. */
  lemma ForwardedExactlyIfListed(cfg: Config, conn: TagConn, h: Hello)
    requires cfg.hello(conn) == Some(h) && FateOf(cfg, conn) != Closed
    ensures cfg.forward.Some? && TrimDot(h.serverName) in cfg.forward.value ==>
              FateOf(cfg, conn) == Forwarded(cfg.forward.value[TrimDot(h.serverName)])
    ensures FateOf(cfg, conn) == Passed <==> cfg.forward == None || TrimDot(h.serverName) !in cfg.forward.value
  {
  }

  datatype Answer = Conn(conn: TagConn) | Failed(d: Delivery) | Blocked

  class TlsProxy {
    const cfg: Config
    var arrivals: seq<Delivery>             // what acceptTag will return, call by call
    var fates: seq<(TagConn, Fate)>         // what was done so far

    constructor (cfg: Config, arrivals: seq<Delivery>)
      ensures this.cfg == cfg && this.arrivals == arrivals && fates == []
    {
      this.cfg, this.arrivals, fates := cfg, arrivals, [];
    }

    /** Reads the hello off a connection and decides what becomes of it. */
    method Judge(conn: TagConn) returns (fate: Fate)
      ensures fate == FateOf(cfg, conn)
    {
      match cfg.hello(conn) {
        case None =>
          return Closed;
        case Some(h) =>
          var name := TrimDot(h.serverName);
          if cfg.privateMode && conn.tag == TAG_FABRICS {
            if name in cfg.public {
            } else if !IsALPN(h) {
              return Closed;
            }
          }
          if cfg.forward.Some? && name in cfg.forward.value {
            return Forwarded(cfg.forward.value[name]);
          }
          return Passed;
      }
    }

    /** Takes the next delivery; a connection is closed, handed off to a forwarder, or passed. */
    method TakeOne() returns (d: Delivery, passed: bool)
      requires arrivals != []
      modifies this
      ensures old(arrivals) == [d] + arrivals
      ensures fates == old(fates) + if d.Handed? then [(d.conn, FateOf(cfg, d.conn))] else []
      ensures passed <==> d.Handed? && FateOf(cfg, d.conn) == Passed
    {
      d, arrivals := arrivals[0], arrivals[1..];
      passed := false;
      if d.Handed? {
        var fate := Judge(d.conn);
        fates := fates + [(d.conn, fate)];
        passed := fate == Passed;
      }
    }

    /** Takes deliveries until there is something to return; `used` are those it took. */
    method Accept() returns (a: Answer, ghost used: seq<Delivery>)
      modifies this
      ensures old(arrivals) == used + arrivals
      ensures fates == old(fates) + Fates(cfg, used)
      ensures AnswersFor(cfg, used, a) && (a.Blocked? ==> arrivals == [])
    {
      ghost var all, before := arrivals, fates;
      used := [];
      while arrivals != []
        invariant all == used + arrivals
        invariant fates == before + Fates(cfg, used)
        invariant NothingReturned(cfg, used)
        decreases |arrivals|
      {
        var d, passed := TakeOne();
        FatesSnoc(cfg, used, d);
        OneMoreDelivery(cfg, used, d);
        used := used + [d];
        if !d.Handed? {
          return Failed(d), used;
        }
        if passed {
          return Conn(d.conn), used;
        }
      }
      return Blocked, used;
    }
  }

  /** An answer that fits the deliveries a call used up: the last one ended it, none before would have. */
  ghost predicate AnswersFor(cfg: Config, used: seq<Delivery>, a: Answer) {
    match a
    case Conn(c) => EndsWith(cfg, used, Handed(c)) && FateOf(cfg, c) == Passed
    case Failed(d) => EndsWith(cfg, used, d) && !d.Handed?
    case Blocked => NothingReturned(cfg, used)
  }

  ghost predicate EndsWith(cfg: Config, used: seq<Delivery>, d: Delivery) {
    used != [] && used[|used| - 1] == d && NothingReturned(cfg, used[..|used| - 1])
  }

  /** No earlier delivery would have ended the call. */
  ghost predicate NothingReturned(cfg: Config, ds: seq<Delivery>) {
    forall d :: d in ds ==> d.Handed? && FateOf(cfg, d.conn) != Passed
  }

  lemma OneMoreDelivery(cfg: Config, ds: seq<Delivery>, d: Delivery)
    requires NothingReturned(cfg, ds)
    ensures EndsWith(cfg, ds + [d], d)
    ensures d.Handed? && FateOf(cfg, d.conn) != Passed ==> NothingReturned(cfg, ds + [d])
  {
    assert (ds + [d])[..|ds|] == ds;
  }

  // ---- The proxy on top of the tunnel --------------------------------------------------------

  lemma {:induction false} FatesAreOfDeliveries(cfg: Config, ds: seq<Delivery>, k: nat)
    requires k < |Fates(cfg, ds)|
    ensures Handed(Fates(cfg, ds)[k].0) in ds && Fates(cfg, ds)[k].1 == FateOf(cfg, Fates(cfg, ds)[k].0)
  {
    if k < |Fates(cfg, ds[..|ds| - 1])| {
      FatesAreOfDeliveries(cfg, ds[..|ds| - 1], k);
    }
  }

  /** The ids judged with a given tag are the ids delivered with it: nobody is skipped or judged twice. */
  function JudgedIds(fates: seq<(TagConn, Fate)>, tag: string): seq<nat> {
    if fates == [] then []
    else
      var f := fates[|fates| - 1];
      JudgedIds(fates[..|fates| - 1], tag) + if f.0.tag == tag then [f.0.id] else []
  }

  lemma {:induction false} EveryDeliveryIsJudgedOnce(cfg: Config, ds: seq<Delivery>, tag: string)
    ensures JudgedIds(Fates(cfg, ds), tag) == Delivered(ds, tag)
  {
    if ds != [] {
      var d := ds[|ds| - 1];
      EveryDeliveryIsJudgedOnce(cfg, ds[..|ds| - 1], tag);
      if d.Handed? {
        assert Fates(cfg, ds)[..|Fates(cfg, ds)| - 1] == Fates(cfg, ds[..|ds| - 1]);
      } else {
        assert Fates(cfg, ds) == Fates(cfg, ds[..|ds| - 1]);
      }
    }
  }

  lemma {:induction false} DeliveredIds(ds: seq<Delivery>, c: TagConn)
    requires Handed(c) in ds
    ensures c.id in Delivered(ds, c.tag)
  {
    if ds[|ds| - 1] != Handed(c) {
      DeliveredIds(ds[..|ds| - 1], c);
    }
  }

  lemma {:induction false} DeliveredConcat(a: seq<Delivery>, b: seq<Delivery>, tag: string)
    ensures Delivered(a + b, tag) == Delivered(a, tag) + Delivered(b, tag)
  {
    if b == [] {
      assert a + b == a;
    } else {
      assert (a + b)[..|a + b| - 1] == a + b[..|b| - 1];
      DeliveredConcat(a, b[..|b| - 1], tag);
    }
  }

  lemma PrefixOfPrefix<T>(a: seq<T>, b: seq<T>, all: seq<T>)
    requires a + b <= all && NoRepeats(a + b)
    ensures a <= all && NoRepeats(a)
  {
    forall i, j | 0 <= i < j < |a| ensures a[i] != a[j] {
      assert (a + b)[i] == a[i] && (a + b)[j] == a[j];
    }
    assert all[..|a + b|][..|a|] == a;
  }

  /** The connections of a source that were judged after `n` deliveries: once each, in its own order. */
  ghost predicate JudgedFaithfully(fates: seq<(TagConn, Fate)>, s: State, src: Source) {
    var judged := JudgedIds(fates, Tag(src));
    judged <= SideOf(s, src).accepted && NoRepeats(judged)
  }

  lemma {:induction false} EverySourceIsJudgedFaithfully(cfg: Config, ss: seq<State>, es: seq<Step>, i: nat, n: nat,
                                                         src: Source)
    requires Run(ss, es) && i < |ss| && n <= |ss[i].out|
    ensures JudgedFaithfully(Fates(cfg, ss[i].out[..n]), ss[i], src)
    ensures n == |ss[i].out| ==>
              |SideOf(ss[i], src).accepted| <= |JudgedIds(Fates(cfg, ss[i].out[..n]), Tag(src))| + 1
  {
    var out, tag := ss[i].out, Tag(src);
    MergeIsFaithful(ss, es, i, src);
    EveryDeliveryIsJudgedOnce(cfg, out[..n], tag);
    DeliveredConcat(out[..n], out[n..], tag);
    assert out[..n] + out[n..] == out;
    PrefixOfPrefix(Delivered(out[..n], tag), Delivered(out[n..], tag), SideOf(ss[i], src).accepted);
    if n == |out| {
      assert out[..n] == out;
    }
  }

  /** Public, a named challenge, or accepted by the local listener. */
  ghost predicate KeptPrivate(cfg: Config, conn: TagConn, s: State) {
    || (conn.tag == "TCP" && conn.id in s.tcp.accepted)
    || (exists h :: cfg.hello(conn) == Some(h) &&
          (TrimDot(h.serverName) in cfg.public ||
           (h.serverName != "" && h.protoCount == 1 && h.firstProto == "acme-tls/1")))
  }

  lemma {:induction false} LetThroughIsKeptPrivate(cfg: Config, ss: seq<State>, es: seq<Step>, i: nat, n: nat, k: nat)
    requires Run(ss, es) && i < |ss| && n <= |ss[i].out| && cfg.privateMode
    requires k < |Fates(cfg, ss[i].out[..n])| && Fates(cfg, ss[i].out[..n])[k].1 != Closed
    ensures KeptPrivate(cfg, Fates(cfg, ss[i].out[..n])[k].0, ss[i])
  {
    var out := ss[i].out;
    var c := Fates(cfg, out[..n])[k].0;
    FatesAreOfDeliveries(cfg, out[..n], k);
    RunInv(ss, es, i);
    assert Handed(c) in out;
    if c.tag == TAG_FABRICS {
      PrivateModeFilter(cfg, c);
    } else {
      DeliveredIds(out, c);
      MergeIsFaithful(ss, es, i, Tcp);
    }
  }

  // ---- The server on top of the proxy ------------------------------------------------------------------

  /** The connections that were passed on, in order. */
  function PassedOn(fates: seq<(TagConn, Fate)>): seq<TagConn> {
    if fates == [] then []
    else
      var f := fates[|fates| - 1];
      PassedOn(fates[..|fates| - 1]) + if f.1 == Passed then [f.0] else []
  }

  lemma {:induction false} PassedOnConcat(a: seq<(TagConn, Fate)>, b: seq<(TagConn, Fate)>)
    ensures PassedOn(a + b) == PassedOn(a) + PassedOn(b)
  {
    if b == [] {
      assert a + b == a;
    } else {
      assert (a + b)[..|a + b| - 1] == a + b[..|b| - 1];
      PassedOnConcat(a, b[..|b| - 1]);
    }
  }

  lemma {:induction false} NothingReturnedNothingPassed(cfg: Config, ds: seq<Delivery>)
    requires NothingReturned(cfg, ds)
    ensures PassedOn(Fates(cfg, ds)) == []
  {
    if ds != [] {
      var init, d := ds[..|ds| - 1], ds[|ds| - 1];
      NothingReturnedNothingPassed(cfg, init);
      assert d in ds;
      PassedOnConcat(Fates(cfg, init), [(d.conn, FateOf(cfg, d.conn))]);
    }
  }

  /** What one call of `Accept` passes on: the connection it returns, if any. */
  lemma {:induction false} AcceptPassesOne(cfg: Config, used: seq<Delivery>, d: Delivery)
    requires EndsWith(cfg, used, d)
    ensures PassedOn(Fates(cfg, used)) == if d.Handed? && FateOf(cfg, d.conn) == Passed then [d.conn] else []
  {
    var init := used[..|used| - 1];
    NothingReturnedNothingPassed(cfg, init);
    if d.Handed? {
      var one := [(d.conn, FateOf(cfg, d.conn))];
      PassedOnConcat(Fates(cfg, init), one);
      assert one[..0] == [];
    } else {
      assert Fates(cfg, used) == Fates(cfg, init);
    }
  }

  /** One call, the deliveries it used up, and what it passed on. */
  method AcceptOne(p: TlsProxy) returns (a: Answer, passed: seq<TagConn>, ghost used: seq<Delivery>)
    modifies p
    ensures old(p.arrivals) == used + p.arrivals
    ensures p.fates == old(p.fates) + Fates(p.cfg, used)
    ensures passed == PassedOn(Fates(p.cfg, used))
    ensures a.Blocked? ==> p.arrivals == []
    ensures !a.Blocked? ==> used != [] && used[|used| - 1].Handed? == a.Conn?
  {
    a, used := p.Accept();
    passed := if a.Conn? then [a.conn] else [];
    match a {
      case Blocked => NothingReturnedNothingPassed(p.cfg, used);
      case Conn(c) => AcceptPassesOne(p.cfg, used, Handed(c));
      case Failed(d) => AcceptPassesOne(p.cfg, used, d);
    }
  }

  /** Serves connections until the proxy reports an error, or has none left. */
  method Serve(p: TlsProxy) returns (served: seq<TagConn>, ghost used: seq<Delivery>)
    modifies p
    ensures old(p.arrivals) == used + p.arrivals
    ensures p.fates == old(p.fates) + Fates(p.cfg, used)
    ensures served == PassedOn(Fates(p.cfg, used))
    ensures p.arrivals != [] ==> used != [] && !used[|used| - 1].Handed?
  {
    served, used := [], [];
    while true
      invariant old(p.arrivals) == used + p.arrivals
      invariant p.fates == old(p.fates) + Fates(p.cfg, used)
      invariant served == PassedOn(Fates(p.cfg, used))
      decreases |p.arrivals|
    {
      var a, passed;
      ghost var more;
      a, passed, more := AcceptOne(p);
      FatesConcat(p.cfg, used, more);
      PassedOnConcat(Fates(p.cfg, used), Fates(p.cfg, more));
      served, used := served + passed, used + more;
      if !a.Conn? {
        return;
      }
    }
  }

  /**
   The proxy served over any run of the tunnel below it: every connection of a source is judged at
   most once and in the order that source accepted it, what is served is exactly what was passed on,
   and on a private drive nothing is served but what is public, a challenge, or came in locally.
   */
  method ServeTunnel(cfg: Config, ghost ss: seq<State>, ghost es: seq<Step>, ghost i: nat, out: seq<Delivery>)
    returns (served: seq<TagConn>, p: TlsProxy)
    requires Run(ss, es) && i < |ss| && out == ss[i].out
    ensures fresh(p) && p.cfg == cfg && served == PassedOn(p.fates)
    ensures forall src: Source :: JudgedFaithfully(p.fates, ss[i], src)
    ensures cfg.privateMode ==> forall f :: f in p.fates && f.1 != Closed ==> KeptPrivate(cfg, f.0, ss[i])
  {
    p := new TlsProxy(cfg, out);
    ghost var used;
    served, used := Serve(p);
    ghost var n := |used|;
    assert used == ss[i].out[..n] && p.fates == Fates(cfg, used);
    forall src: Source ensures JudgedFaithfully(p.fates, ss[i], src) {
      EverySourceIsJudgedFaithfully(cfg, ss, es, i, n, src);
    }
    forall f | f in p.fates && f.1 != Closed && cfg.privateMode ensures KeptPrivate(cfg, f.0, ss[i]) {
      var k :| 0 <= k < |p.fates| && p.fates[k] == f;
      LetThroughIsKeptPrivate(cfg, ss, es, i, n, k);
    }
  }
}
