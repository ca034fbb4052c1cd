/**
 * Normalisation of the `hosts` strings of an `ismaster` reply into
 * (host, port) addresses (txmongo/__init__.py, lines 135-145).
 */
module Hosts {
  import opened Common
  import opened Decimal

  /** A node address: the pair `(host, port)` of the source. */
  datatype Address = Address(host: string, port: int)

  const DefaultPort: int := 27017

  /** Index of the first occurrence of `c` in `s`. */
  function FirstIndexOf(s: string, c: char): (i: nat)
    requires c in s
    ensures i < |s| && s[i] == c && c !in s[..i]
  {
    if s[0] == c then 0 else 1 + FirstIndexOf(s[1..], c)
  }

  /**
   * One host string: without a colon it takes the default port; otherwise it
   * is split at the first colon only and the remainder must parse as an
   * integer, else `int()` raises and the offending string is reported.
   */
  function NormaliseHost(s: string): (r: Result<Address, string>)
    ensures ':' !in s ==> r == Ok(Address(s, DefaultPort))
    ensures r.Ok? ==> ':' !in r.value.host && r.value.host <= s
    ensures r.Err? ==> r.error == s && ':' in s
  {
    if ':' !in s then
      Ok(Address(s, DefaultPort))
    else
      var i := FirstIndexOf(s, ':');
      match ParseInt(s[i + 1..])
      case Some(port) => Ok(Address(s[..i], port))
      case None => Err(s)
  }

  /** The text `host:port` for an address. */
  function Render(a: Address): string {
    a.host + ":" + FormatInt(a.port)
  }

  /** A prefix without `c` shifts the first occurrence of `c` by its length. */
  lemma {:induction false} FirstIndexAfter(a: string, b: string, c: char)
    requires c !in a && c in b
    ensures FirstIndexOf(a + b, c) == |a| + FirstIndexOf(b, c)
  {
    if a == [] {
      assert a + b == b;
    } else {
      assert a[0] in a;
      assert (a + b)[0] == a[0] && (a + b)[1..] == a[1..] + b;
      FirstIndexAfter(a[1..], b, c);
    }
  }

  /**
   * Any string `host + ":" + rest` whose host part has no colon is split
   * right after `host`, whatever `rest` holds (further colons included).
   */
  lemma SplitAtFirstColon(host: string, rest: string)
    requires ':' !in host
    ensures NormaliseHost(host + ":" + rest) ==
      match ParseInt(rest)
      case Some(port) => Ok(Address(host, port))
      case None => Err(host + ":" + rest)
  {
    var s := host + ":" + rest;
    assert s == host + (":" + rest);
    FirstIndexAfter(host, ":" + rest, ':');
    assert s[..|host|] == host && s[|host| + 1..] == rest;
  }

  /** Normalising the rendering of an address gives the address back. */
  lemma NormaliseRender(a: Address)
    requires ':' !in a.host
    ensures NormaliseHost(Render(a)) == Ok(a)
  {
    SplitAtFirstColon(a.host, FormatInt(a.port));
    ParseFormat(a.port);
  }

  /**
   * Every host string of a list, in order; the first one that does not
   * normalise stops the whole list (the loop raises).
   */
  function NormaliseAll(hosts: seq<string>): (r: Result<seq<Address>, string>)
    ensures r.Ok? <==> forall k :: 0 <= k < |hosts| ==> NormaliseHost(hosts[k]).Ok?
    ensures r.Ok? ==>
              |r.value| == |hosts| &&
              forall k :: 0 <= k < |hosts| ==> NormaliseHost(hosts[k]) == Ok(r.value[k])
    ensures r.Err? ==> r.error in hosts && ':' in r.error
  {
    TryMapErrorFrom(hosts, NormaliseHost);
    TryMap(hosts, NormaliseHost)
  }

  /**
   * The appending loop that builds the discovered-host list: on success
   * every host in order, on failure the first host string that does not
   * normalise.
   */
  method NormaliseHosts(hosts: seq<string>) returns (r: Result<seq<Address>, string>)
    ensures r == NormaliseAll(hosts)
    ensures r.Ok? ==>
              |r.value| == |hosts| &&
              forall k :: 0 <= k < |hosts| ==> NormaliseHost(hosts[k]) == Ok(r.value[k])
    ensures r.Err? ==> r.error in hosts
  {
    var hostaddrs: seq<Address> := [];
    var i := 0;
    while i < |hosts|
      invariant 0 <= i <= |hosts| && |hostaddrs| == i
      invariant forall k :: 0 <= k < i ==> NormaliseHost(hosts[k]) == Ok(hostaddrs[k])
    {
      var host := NormaliseHost(hosts[i]);
      if host.Err? {
        TryMapFirstFailure(hosts, NormaliseHost, i);
        return Err(host.error);
      }
      hostaddrs := hostaddrs + [host.value];
      i := i + 1;
    }
    r := Ok(hostaddrs);
    var all := NormaliseAll(hosts);
    assert all.Ok? && |all.value| == |hostaddrs|;
    assert forall k :: 0 <= k < |hosts| ==> all.value[k] == hostaddrs[k];
    assert all.value == hostaddrs;
  }
}
