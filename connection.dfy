/**
 * One slot of the pool: the reconnecting factory `_Connection`
 * (txmongo/__init__.py, lines 26-247) with its fields updated in place.
 * Protocol instances and waiters are opaque identities; the calls the slot
 * makes on a protocol are appended to a log.
 */
module Connections {
  import opened Common
  import opened Hosts
  import opened Handshake
  import opened Failover

  type ProtoId = nat
  type WaiterId = nat

  /** The parsed connection URI: the node list and the two options read here. */
  datatype Uri = Uri(nodelist: seq<Address>, options: Options)

  /** A call the slot makes on a protocol instance. */
  datatype ProtoCall =
    | Fail(proto: ProtoId, reason: Reason)
    | SetMaxBsonSize(proto: ProtoId, size: int)
    | ConnectionLost(proto: ProtoId, reason: Reason)

  /** How a queued waiter fires: with the factory itself, or with an error. */
  datatype Firing = Callback(waiter: WaiterId) | Errback(waiter: WaiterId, reason: Option<Reason>)

  /** The deferred `notifyReady` returns. */
  datatype Deferred = Succeeded(proto: ProtoId) | Pending(waiter: WaiterId)

  /** What `retryNextHost` does with the connector. */
  datatype Action =
    | Immediate(addr: Address)   // connector.connect()
    | Delayed(addr: Address)     // self.retry(connector), after the back-off delay
    | Abandoned                  // continueTrying is off: nothing is scheduled
    | NoConnector                // ValueError: there is no connector to retry

  /** The waiters `0, 1, ..., n - 1`, in the order they were queued. */
  function Issued(n: nat): (r: seq<WaiterId>)
    ensures |r| == n && forall i :: 0 <= i < n ==> r[i] == i
  {
    seq(n, i => i)
  }

  /** The waiter of each firing, in firing order. */
  function FiredIds(fired: seq<Firing>): (r: seq<WaiterId>)
    ensures |r| == |fired| && forall i :: 0 <= i < |fired| ==> r[i] == fired[i].waiter
  {
    seq(|fired|, i requires 0 <= i < |fired| => fired[i].waiter)
  }

  /** `setInstance`'s loop: every queued waiter fires once, in queue order. */
  function Drain(waiters: seq<WaiterId>, instance: Option<ProtoId>, reason: Option<Reason>): (r: seq<Firing>)
    ensures FiredIds(r) == waiters
    ensures forall i :: 0 <= i < |r| ==> r[i].Callback? == instance.Some?
    ensures forall i :: 0 <= i < |r| ==> r[i].Errback? ==> r[i].reason == reason
  {
    var r := seq(|waiters|, i requires 0 <= i < |waiters| =>
      if instance.Some? then Callback(waiters[i]) else Errback(waiters[i], reason));
    assert FiredIds(r) == waiters;
    r
  }

  lemma FiredIdsAppend(a: seq<Firing>, b: seq<Firing>)
    ensures FiredIds(a + b) == FiredIds(a) + FiredIds(b)
  {
    assert forall i :: 0 <= i < |a + b| ==> FiredIds(a + b)[i] == (FiredIds(a) + FiredIds(b))[i];
  }

  /** The calls one handshake reply makes on `proto` before any readiness change. */
  function RecordedCalls(h: Outcome, proto: ProtoId): seq<ProtoCall> {
    (if h.maxBsonSize.Some? then [SetMaxBsonSize(proto, h.maxBsonSize.value)] else []) +
    (if h.verdict.Rejected? then [Fail(proto, h.verdict.reason)] else [])
  }

  class Connection {
    const uri: Uri
    /** `__use_discovered`: whether discovered hosts join the failover list. */
    const useDiscovered: bool

    var index: int
    var discovered: seq<Address>
    /** `__notify_ready`: the queued waiters, oldest first. */
    var waiters: seq<WaiterId>
    /** Every waiter fired so far, in firing order. */
    var fired: seq<Firing>
    /** The identity the next queued waiter receives. */
    var nextWaiter: nat
    var instance: Option<ProtoId>
    var connected: bool
    var reconnected: bool
    var continueTrying: bool
    /** The address the connector is currently aimed at, if there is a connector. */
    var connector: Option<Address>
    /** Every call made on a protocol instance, in order. */
    var calls: seq<ProtoCall>

    /**
     * Every waiter ever queued has either fired, once, or is still queued,
     * and the two together are in queue order; no waiter stays queued while
     * an instance is set.
     */
    ghost predicate Valid()
      reads this
    {
      |uri.nodelist| >= 1 &&
      index >= -1 &&
      FiredIds(fired) + waiters == Issued(nextWaiter) &&
      (instance.Some? ==> waiters == [])
    }

    /** The failover list: the URI's nodes, then the discovered ones if enabled. */
    function AllNodes(): (r: seq<Address>)
      reads this
      ensures |r| >= |uri.nodelist|
    {
      uri.nodelist + if useDiscovered then discovered else []
    }

    constructor (uri: Uri, useDiscovered: bool)
      requires |uri.nodelist| >= 1
      ensures Valid()
      ensures this.uri == uri && this.useDiscovered == useDiscovered
      ensures index == -1 && discovered == [] && waiters == [] && fired == [] && nextWaiter == 0
      ensures instance == None && !connected && !reconnected && continueTrying
      ensures connector == None && calls == []
    {
      this.uri := uri;
      this.useDiscovered := useDiscovered;
      index := -1;
      discovered := [];
      waiters := [];
      fired := [];
      nextWaiter := 0;
      instance := None;
      connected := false;
      reconnected := false;
      continueTrying := true;
      connector := None;
      calls := [];
    }

    /**
     * `notifyReady`: an already-fired deferred when an instance is set;
     * otherwise a new waiter appended at the end of the queue.
     */
    method NotifyReady() returns (d: Deferred)
      requires Valid()
      modifies this`waiters, this`nextWaiter
      ensures Valid()
      ensures old(instance).Some? ==> d == Succeeded(old(instance).value) && unchanged(this)
      ensures old(instance).None? ==>
                && d == Pending(old(nextWaiter))
                && waiters == old(waiters) + [d.waiter]
                && d.waiter !in FiredIds(fired)
                && nextWaiter == old(nextWaiter) + 1
    {
      if instance.Some? {
        return Succeeded(instance.value);
      }
      d := Pending(nextWaiter);
      ghost var issued := FiredIds(fired) + waiters;
      assert forall i :: 0 <= i < |FiredIds(fired)| ==> FiredIds(fired)[i] == issued[i] == i;
      waiters := waiters + [nextWaiter];
      nextWaiter := nextWaiter + 1;
      assert Issued(nextWaiter) == Issued(nextWaiter - 1) + [nextWaiter - 1];
    }

    /** The effect of `setInstance(newInstance, reason)` on the slot. */
    twostate predicate InstanceSet(newInstance: Option<ProtoId>, reason: Option<Reason>)
      reads this
    {
      && calls == old(calls) +
           (if old(instance).Some? && old(instance) != newInstance
            then [ConnectionLost(old(instance).value, Reconnection)] else [])
      && instance == newInstance
      && connected == (newInstance.Some? || old(connected))
      && waiters == [] && fired == old(fired) + Drain(old(waiters), newInstance, reason)
    }

    /**
     * `setInstance`: a previous, different instance is told the connection
     * was lost; the queue is swapped for an empty one and every waiter that
     * was in it fires, in order, with the factory or with `reason`.
     */
    method SetInstance(newInstance: Option<ProtoId>, reason: Option<Reason>)
      requires Valid()
      modifies this`calls, this`connected, this`instance, this`waiters, this`fired
      ensures Valid()
      ensures InstanceSet(newInstance, reason)
    {
      if instance.Some? && instance != newInstance {
        calls := calls + [ConnectionLost(instance.value, Reconnection)];
      }
      if newInstance.Some? {
        connected := true;
      }
      instance := newInstance;
      var deferreds := waiters;
      waiters := [];
      var firings: seq<Firing> := [];
      var i := 0;
      while i < |deferreds|
        invariant 0 <= i <= |deferreds|
        invariant firings == Drain(deferreds[..i], newInstance, reason)
      {
        var df := deferreds[i];
        if newInstance.Some? {
          firings := firings + [Callback(df)];
        } else {
          firings := firings + [Errback(df, reason)];
        }
        assert deferreds[..i + 1] == deferreds[..i] + [df];
        i := i + 1;
      }
      assert deferreds[..i] == deferreds;
      fired := fired + firings;
      FiredIdsAppend(old(fired), firings);
    }

    /**
     * `onReconnect`, up to its first suspension: the reconnected flag is
     * cleared (the cached databases then re-authenticate, which is not
     * part of this model).
     */
    method OnReconnect()
      requires Valid()
      modifies this`reconnected
      ensures Valid()
      ensures !reconnected
    {
      reconnected := false;
    }

    /** `proto.fail(reason)`, as one of the handshake checks calls it. */
    method FailProtocol(proto: ProtoId, reason: Reason)
      requires Valid()
      modifies this`calls
      ensures Valid()
      ensures calls == old(calls) + [Fail(proto, reason)]
    {
      calls := calls + [Fail(proto, reason)];
    }

    /** A truthy `maxBsonObjectSize` is recorded on `proto`. */
    method RecordBsonSize(config: Config, proto: ProtoId)
      requires Valid()
      modifies this`calls
      ensures Valid()
      ensures calls == old(calls) +
                if TruthyInt(config.maxBsonObjectSize)
                then [SetMaxBsonSize(proto, config.maxBsonObjectSize.value)] else []
    {
      if TruthyInt(config.maxBsonObjectSize) {
        calls := calls + [SetMaxBsonSize(proto, config.maxBsonObjectSize.value)];
      }
    }

    /**
     * A non-empty host list, once normalised, replaces the discovered
     * hosts; `raised` is the `ValueError` of a non-numeric port, which
     * leaves the discovered hosts as they were.
     */
    method RecordHosts(hosts: seq<string>) returns (raised: bool)
      requires Valid() && |hosts| > 0
      modifies this`discovered
      ensures Valid()
      ensures raised <==> NormaliseAll(hosts).Err?
      ensures discovered == if raised then old(discovered) else NormaliseAll(hosts).value
    {
      var hostaddrs := NormaliseHosts(hosts);
      if hostaddrs.Err? {
        return true;
      }
      discovered := hostaddrs.value;
      return false;
    }

    /** Readiness after an accepted reply: `setInstance(proto)`, then `onReconnect`. */
    method MarkReady(proto: ProtoId)
      requires Valid()
      modifies this`calls, this`connected, this`instance, this`waiters, this`fired, this`reconnected
      ensures Valid()
      ensures InstanceSet(Some(proto), None) && !reconnected
    {
      SetInstance(Some(proto), None);
      if reconnected {
        OnReconnect();
      }
    }

    /**
     * What outcome `h` of a handshake does to the slot: the calls on `proto`
     * and the discovered hosts it prescribes and, when it is accepted,
     * `setInstance(proto)` followed by `onReconnect`.
     */
    twostate predicate Applied(h: Outcome, proto: ProtoId)
      reads this
    {
      var accepted := h.verdict == Accepted;
      && discovered == (if h.discovered.Some? then h.discovered.value else old(discovered))
      && calls == old(calls) + RecordedCalls(h, proto) +
           (if accepted && old(instance).Some? && old(instance) != Some(proto)
            then [ConnectionLost(old(instance).value, Reconnection)] else [])
      && instance == (if accepted then Some(proto) else old(instance))
      && connected == (accepted || old(connected))
      && waiters == (if accepted then [] else old(waiters))
      && fired == old(fired) + (if accepted then Drain(old(waiters), Some(proto), None) else [])
      && reconnected == (!accepted && old(reconnected))
    }

    /**
     * The two recording steps of `_configureCallback`, as `Inspect` prescribes
     * them; `raised` is the `ValueError` of a non-numeric port.
     */
    method RecordReply(config: Config, proto: ProtoId) returns (raised: bool)
      requires Valid()
      modifies this`calls, this`discovered
      ensures Valid()
      ensures raised <==> Inspect(config, uri.options).verdict.BadPort?
      ensures var h := Inspect(config, uri.options);
              && calls == old(calls) + (if h.maxBsonSize.Some? then [SetMaxBsonSize(proto, h.maxBsonSize.value)] else [])
              && discovered == (if h.discovered.Some? then h.discovered.value else old(discovered))
    {
      raised := false;
      ghost var h := Inspect(config, uri.options);
      RecordBsonSize(config, proto);
      if HasHosts(config) {
        raised := RecordHosts(config.hosts.value);
        assert raised ==> h.verdict == BadPort(NormaliseAll(config.hosts.value).error);
        assert !raised ==> h.discovered == Some(discovered);
      } else {
        assert h.discovered == None && !h.verdict.BadPort?;
      }
    }

    /**
     * `_configureCallback` past its first three checks: record the size and
     * the hosts, then accept the protocol or fail it as not master.
     */
    method ConfigureChecked(config: Config, proto: ProtoId) returns (raised: bool)
      requires Valid()
      modifies this`calls, this`discovered, this`connected, this`instance, this`waiters,
               this`fired, this`reconnected
      ensures Valid()
      ensures raised <==> Inspect(config, uri.options).verdict.BadPort?
      ensures Applied(Inspect(config, uri.options), proto)
    {
      ghost var h := Inspect(config, uri.options);
      raised := RecordReply(config, proto);
      if raised {
        return;
      }
      if !uri.options.slaveOk && !TruthyBool(config.isMaster) {
        FailProtocol(proto, NotMaster);
        assert h.verdict == Rejected(NotMaster);
        return;
      }
      assert h.verdict == Accepted;
      MarkReady(proto);
    }

    /**
     * `_configureCallback`: the checks of `Evaluate`, in order, with their
     * effects; `raised` reports the `ValueError` of a non-numeric port.
     */
    method ConfigureCallback(reply: Reply, proto: ProtoId) returns (raised: bool)
      requires Valid()
      modifies this`calls, this`discovered, this`connected, this`instance, this`waiters,
               this`fired, this`reconnected
      ensures Valid()
      ensures raised <==> Evaluate(reply, uri.options).verdict.BadPort?
      ensures Applied(Evaluate(reply, uri.options), proto)
    {
      raised := false;
      if |reply.documents| != 1 {
        FailProtocol(proto, InvalidLength);
        return;
      }
      var config := reply.documents[0];
      if !TruthyInt(config.ok) {
        FailProtocol(proto, CommandFailure(config));
        return;
      }
      if SetNameMismatch(uri.options.setName, config.setName) {
        FailProtocol(proto, SetMismatch);
        return;
      }
      raised := ConfigureChecked(config, proto);
    }

    /**
     * `configure`: with no protocol nothing happens; otherwise the
     * `ismaster` query is sent and `reply`, its answer, is handled by
     * `_configureCallback`.
     */
    method Configure(proto: Option<ProtoId>, reply: Reply) returns (raised: bool)
      requires Valid()
      modifies this`calls, this`discovered, this`connected, this`instance, this`waiters,
               this`fired, this`reconnected
      ensures Valid()
      ensures proto.None? ==> !raised && unchanged(this)
      ensures proto.Some? ==>
                && (raised <==> Evaluate(reply, uri.options).verdict.BadPort?)
                && Applied(Evaluate(reply, uri.options), proto.value)
    {
      raised := false;
      if proto.Some? {
        raised := ConfigureCallback(reply, proto.value);
      }
    }

    /**
     * `buildProtocol`, once the new protocol's connection is ready: with
     * `slaveok` the slot is ready at once (and `onReconnect` runs if it had
     * reconnected); otherwise the `ismaster` query must be sent, and
     * `sendQuery` says so.
     */
    method ConnectionReady(proto: ProtoId) returns (sendQuery: bool)
      requires Valid()
      modifies this`calls, this`connected, this`instance, this`waiters, this`fired, this`reconnected
      ensures Valid()
      ensures sendQuery == !uri.options.slaveOk
      ensures uri.options.slaveOk ==> InstanceSet(Some(proto), None) && !reconnected
      ensures !uri.options.slaveOk ==> unchanged(this)
    {
      if uri.options.slaveOk {
        MarkReady(proto);
        return false;
      }
      return true;
    }

    /**
     * The effect of a retry that goes ahead: the cursor advances over the
     * failover list, the connector is aimed at the node it lands on, and
     * the slot is marked as reconnected.
     */
    twostate predicate Retried(a: Action)
      reads this
    {
      && old(index) >= -1 && |uri.nodelist| >= 1 && reconnected
      && var nodes := AllNodes();
         var step := Advance(old(index), |nodes|);
         && index == step.index
         && index == (if step.delayed then 0 else old(index) + 1)
         && connector == Some(nodes[index])
         && a == (if step.delayed then Delayed(nodes[index]) else Immediate(nodes[index]))
    }

    /**
     * `retryNextHost`: nothing when retrying was stopped, `ValueError` when
     * there is no connector, otherwise one step of the failover cursor.
     */
    method RetryNextHost() returns (a: Action)
      requires Valid()
      modifies this`index, this`connector, this`reconnected
      ensures Valid()
      ensures !continueTrying ==> a == Abandoned && unchanged(this)
      ensures continueTrying && old(connector).None? ==> a == NoConnector && unchanged(this)
      ensures continueTrying && old(connector).Some? ==> Retried(a) && 0 <= index < |AllNodes()|
    {
      if !continueTrying {
        return Abandoned;
      }
      if connector.None? {
        return NoConnector;
      }
      var delay := false;
      index := index + 1;
      var allNodes := AllNodes();
      if index >= |allNodes| {
        index := 0;
        delay := true;
      }
      connector := Some(allNodes[index]);
      reconnected := true;
      if delay {
        a := Delayed(allNodes[index]);
      } else {
        a := Immediate(allNodes[index]);
      }
    }

    /**
     * `clientConnectionFailed` and `clientConnectionLost`: the slot is no
     * longer connected and, unless retrying was stopped, the connector
     * passed in is retried on the next node. The instance is left as it is.
     */
    method ConnectionDropped(target: Address) returns (a: Action)
      requires Valid()
      modifies this`connected, this`index, this`connector, this`reconnected
      ensures Valid()
      ensures !connected
      ensures !continueTrying ==>
                a == Abandoned && index == old(index) && connector == old(connector) &&
                reconnected == old(reconnected)
      ensures continueTrying ==> Retried(a) && 0 <= index < |AllNodes()|
    {
      connected := false;
      if continueTrying {
        connector := Some(target);
        a := RetryNextHost();
      } else {
        a := Abandoned;
      }
    }

    /** `stopTrying`: no further retry is scheduled. */
    method StopTrying()
      requires Valid()
      modifies this`continueTrying
      ensures Valid()
      ensures !continueTrying
    {
      continueTrying := false;
    }
  }
}
