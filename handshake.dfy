/**
 * The checks `_Connection._configureCallback` applies, in order, to the
 * reply of the `ismaster` command (txmongo/__init__.py, lines 99-158),
 * stated as a function of the reply and the connection options.
 */
module Handshake {
  import opened Common
  import opened Hosts

  /**
   * The decoded reply document. `None` is a key the document lacks;
   * `hosts` is `None` also when the value is not a list. The numeric
   * `ok` flag is modelled by an integer, and only its truth value is read.
   */
  datatype Config = Config(
    ok: Option<int>,
    code: Option<int>,
    err: Option<string>,
    setName: Option<string>,
    maxBsonObjectSize: Option<int>,
    hosts: Option<seq<string>>,
    isMaster: Option<bool>)

  /** The reply to the query: the list of documents it carries. */
  datatype Reply = Reply(documents: seq<Config>)

  /** The URI options the check reads: `slaveok` and `setname`. */
  datatype Options = Options(slaveOk: bool, setName: Option<string>)

  /** The errors handed to `proto.fail` or to `connectionLost`. */
  datatype Reason =
    | OperationFailure(message: string, code: Option<int>)
    | ConfigurationError(message: string)
    | AutoReconnect(message: string)
    | Reconnection

  const InvalidLength := OperationFailure("Invalid document length.", None)
  const SetMismatch := ConfigurationError("Mongo instance does not match requested replicaSet.")
  const NotMaster := AutoReconnect("not master")

  /** `Rejected`: `proto.fail(reason)`; `BadPort`: `int()` raised on that host string. */
  datatype Verdict = Rejected(reason: Reason) | BadPort(host: string) | Accepted

  /**
   * What one reply does: the verdict, the size stored in
   * `proto.max_bson_size` (if any) and the list that replaces the
   * discovered hosts (if any).
   */
  datatype Outcome = Outcome(verdict: Verdict, maxBsonSize: Option<int>, discovered: Option<seq<Address>>)

  predicate TruthyInt(v: Option<int>) {
    v.Some? && v.value != 0
  }

  predicate TruthyString(v: Option<string>) {
    v.Some? && v.value != ""
  }

  predicate TruthyBool(v: Option<bool>) {
    v.Some? && v.value
  }

  /** A configured set name that is non-empty and differs from the reply's. */
  predicate SetNameMismatch(expected: Option<string>, actual: Option<string>) {
    TruthyString(expected) && expected != actual
  }

  /** The message and code of a reply whose `ok` is false. */
  function CommandFailure(config: Config): Reason {
    OperationFailure(config.err.GetOr("Unknown error"), config.code)
  }

  /** The reply passes the three checks that come before any state is recorded. */
  predicate PassesEarlyChecks(reply: Reply, opts: Options) {
    |reply.documents| == 1 &&
    TruthyInt(reply.documents[0].ok) &&
    !SetNameMismatch(opts.setName, reply.documents[0].setName)
  }

  /** The `hosts` value the source normalises: a non-empty list. */
  predicate HasHosts(config: Config) {
    config.hosts.Some? && |config.hosts.value| > 0
  }

  /**
   * The outcome of a configuration document that passed the first three
   * checks: the size and the hosts are recorded, then the primary check.
   */
  function Inspect(config: Config, opts: Options): (r: Outcome)
    ensures r.maxBsonSize.Some? <==> TruthyInt(config.maxBsonObjectSize)
    ensures r.maxBsonSize.Some? ==> r.maxBsonSize == config.maxBsonObjectSize
    ensures r.verdict.BadPort? <==> HasHosts(config) && NormaliseAll(config.hosts.value).Err?
    ensures r.verdict.BadPort? ==> r.verdict.host in config.hosts.value && r.discovered.None?
    ensures r.discovered.Some? ==> HasHosts(config) && |r.discovered.value| == |config.hosts.value|
    ensures r.verdict == Accepted <==> !r.verdict.BadPort? && (opts.slaveOk || TruthyBool(config.isMaster))
    ensures r.verdict.Rejected? ==> r.verdict.reason == NotMaster
  {
    var size := if TruthyInt(config.maxBsonObjectSize) then config.maxBsonObjectSize else None;
    var hosts := if HasHosts(config) then NormaliseAll(config.hosts.value) else Ok([]);
    if hosts.Err? then
      Outcome(BadPort(hosts.error), size, None)
    else
      var discovered := if HasHosts(config) then Some(hosts.value) else None;
      if !opts.slaveOk && !TruthyBool(config.isMaster) then
        Outcome(Rejected(NotMaster), size, discovered)
      else
        Outcome(Accepted, size, discovered)
  }

  /** The outcome of one reply, check by check in the source's order. */
  function Evaluate(reply: Reply, opts: Options): (r: Outcome)
    ensures !PassesEarlyChecks(reply, opts) ==>
              r.verdict.Rejected? && r.verdict.reason != NotMaster &&
              r.maxBsonSize.None? && r.discovered.None?
    ensures PassesEarlyChecks(reply, opts) ==> !(r.verdict.Rejected? && r.verdict.reason != NotMaster)
  {
    if |reply.documents| != 1 then
      Outcome(Rejected(InvalidLength), None, None)
    else
      var config := reply.documents[0];
      if !TruthyInt(config.ok) then
        Outcome(Rejected(CommandFailure(config)), None, None)
      else if SetNameMismatch(opts.setName, config.setName) then
        Outcome(Rejected(SetMismatch), None, None)
      else
        Inspect(config, opts)
  }

  /**
   * The checks are made in a fixed order and the first failure wins; once
   * past the first three, the size and the hosts are recorded whatever
   * follows; a reply is accepted exactly when every check passes.
   */
  lemma CheckOrder(reply: Reply, opts: Options)
    ensures |reply.documents| != 1 ==> Evaluate(reply, opts) == Outcome(Rejected(InvalidLength), None, None)
    ensures |reply.documents| == 1 && !TruthyInt(reply.documents[0].ok) ==>
              Evaluate(reply, opts) == Outcome(Rejected(CommandFailure(reply.documents[0])), None, None)
    ensures |reply.documents| == 1 && TruthyInt(reply.documents[0].ok) &&
            SetNameMismatch(opts.setName, reply.documents[0].setName) ==>
              Evaluate(reply, opts) == Outcome(Rejected(SetMismatch), None, None)
    ensures PassesEarlyChecks(reply, opts) ==>
              Evaluate(reply, opts).maxBsonSize == (if TruthyInt(reply.documents[0].maxBsonObjectSize)
                                then reply.documents[0].maxBsonObjectSize else None)
    ensures PassesEarlyChecks(reply, opts) && HasHosts(reply.documents[0]) ==>
              match NormaliseAll(reply.documents[0].hosts.value)
              case Ok(addrs) => Evaluate(reply, opts).discovered == Some(addrs) && !Evaluate(reply, opts).verdict.BadPort?
              case Err(host) => Evaluate(reply, opts).discovered == None && Evaluate(reply, opts).verdict == BadPort(host)
    ensures PassesEarlyChecks(reply, opts) && !HasHosts(reply.documents[0]) ==> Evaluate(reply, opts).discovered == None
    ensures Evaluate(reply, opts).verdict == Accepted <==>
              && PassesEarlyChecks(reply, opts)
              && (HasHosts(reply.documents[0]) ==> NormaliseAll(reply.documents[0].hosts.value).Ok?)
              && (opts.slaveOk || TruthyBool(reply.documents[0].isMaster))
    ensures Evaluate(reply, opts).verdict == Rejected(NotMaster) <==>
              && PassesEarlyChecks(reply, opts)
              && (HasHosts(reply.documents[0]) ==> NormaliseAll(reply.documents[0].hosts.value).Ok?)
              && !opts.slaveOk && !TruthyBool(reply.documents[0].isMaster)
  {
  }

  /**
   * An accepted reply came from a primary (unless secondaries are allowed)
   * and, when a set name is configured, from a member of that set.
   */
  lemma AcceptedOnlyFromExpectedPrimary(reply: Reply, opts: Options)
    requires Evaluate(reply, opts).verdict == Accepted
    ensures |reply.documents| == 1 && TruthyInt(reply.documents[0].ok)
    ensures opts.slaveOk || TruthyBool(reply.documents[0].isMaster)
    ensures TruthyString(opts.setName) ==> reply.documents[0].setName == opts.setName
  {
  }

  /** A reply rejected as not-master has still recorded the size and the hosts. */
  lemma NotMasterStillRecords(reply: Reply, opts: Options)
    requires Evaluate(reply, opts).verdict == Rejected(NotMaster)
    ensures var config := reply.documents[0];
      && (TruthyInt(config.maxBsonObjectSize) ==> Evaluate(reply, opts).maxBsonSize == config.maxBsonObjectSize)
      && (HasHosts(config) ==> Evaluate(reply, opts).discovered == Some(NormaliseAll(config.hosts.value).value))
  {
  }

  /** A reply rejected by one of the first three checks records nothing. */
  lemma EarlyRejectionRecordsNothing(reply: Reply, opts: Options)
    requires !PassesEarlyChecks(reply, opts)
    ensures Evaluate(reply, opts).verdict.Rejected?
    ensures Evaluate(reply, opts).maxBsonSize == None && Evaluate(reply, opts).discovered == None
  {
  }
}
