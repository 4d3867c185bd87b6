/**
 * Any sequence of setter calls on one APIcaller object, each one that
 * throws being caught by its caller: what the fields hold afterwards.
 */
module Configuration {
  import opened Php
  import opened Caller

  datatype Op =
    | SetDefault(param: string, value: Value)
    | ClearDefaults
    | SetMethod(m: string)
    | SetUrl(url: string)
    | SetFormat(format: string)

  function Apply(s: State, op: Op, validUrl: string -> bool): State
  {
    match op
    case SetDefault(k, v) => SetDefaultSpec(s, k, v)
    case ClearDefaults => ClearDefaultsSpec(s)
    case SetMethod(m) => SetMethodSpec(s, m).state
    case SetUrl(u) => SetUrlSpec(s, u, validUrl).state
    case SetFormat(f) => SetFormatSpec(s, f).state
  }

  function Run(s: State, ops: seq<Op>, validUrl: string -> bool): State
    decreases |ops|
  {
    if ops == [] then s else Run(Apply(s, ops[0], validUrl), ops[1..], validUrl)
  }

  /**
   * The default for `param` after `ops`, read backwards: the value of the
   * last `SetDefault` of that name, unless a `ClearDefaults` came after it;
   * `before` when neither occurs.
   */
  function LatestDefault(ops: seq<Op>, param: string, before: Option<Value>): Option<Value>
    decreases |ops|
  {
    if ops == [] then before
    else
      var last := ops[|ops| - 1];
      if last.ClearDefaults? then None
      else if last.SetDefault? && last.param == param then Some(last.value)
      else LatestDefault(ops[..|ops| - 1], param, before)
  }

  lemma ApplyKeepsWellformed(s: State, op: Op, validUrl: string -> bool)
    requires Wellformed(s, validUrl)
    ensures Wellformed(Apply(s, op, validUrl), validUrl)
  {
  }

  lemma {:induction false} RunKeepsWellformed(s: State, ops: seq<Op>, validUrl: string -> bool)
    requires Wellformed(s, validUrl)
    ensures Wellformed(Run(s, ops, validUrl), validUrl)
    decreases |ops|
  {
    if ops != [] {
      ApplyKeepsWellformed(s, ops[0], validUrl);
      RunKeepsWellformed(Apply(s, ops[0], validUrl), ops[1..], validUrl);
    }
  }

  /**
   * Whatever setters are called, the method is one of GET, POST, PUT and
   * DELETE, the format one of none, json and xml, and the URL is empty or
   * one the URL filter accepted.
   */
  lemma ReachableStatesAreWellformed(ops: seq<Op>, validUrl: string -> bool)
    ensures Wellformed(Run(Initial, ops, validUrl), validUrl)
  {
    RunKeepsWellformed(Initial, ops, validUrl);
  }

  /** No setter touches the record of the last call. */
  lemma {:induction false} RunKeepsLastCall(s: State, ops: seq<Op>, validUrl: string -> bool)
    ensures Run(s, ops, validUrl).lastCall == s.lastCall
    decreases |ops|
  {
    if ops != [] {
      RunKeepsLastCall(Apply(s, ops[0], validUrl), ops[1..], validUrl);
    }
  }

  lemma {:induction false} RunSnoc(s: State, ops: seq<Op>, op: Op, validUrl: string -> bool)
    ensures Run(s, ops + [op], validUrl) == Apply(Run(s, ops, validUrl), op, validUrl)
    decreases |ops|
  {
    if ops == [] {
      assert ops + [op] == [op];
    } else {
      assert (ops + [op])[1..] == ops[1..] + [op];
      RunSnoc(Apply(s, ops[0], validUrl), ops[1..], op, validUrl);
    }
  }

  /** The default a call merges in for `param` is the one `LatestDefault` reads off the setter calls. */
  lemma {:induction false} DefaultAfterRun(s: State, ops: seq<Op>, param: string, validUrl: string -> bool)
    ensures Get(Run(s, ops, validUrl).defaultParams, param) == LatestDefault(ops, param, Get(s.defaultParams, param))
    decreases |ops|
  {
    if ops != [] {
      var prefix, last := ops[..|ops| - 1], ops[|ops| - 1];
      assert ops == prefix + [last];
      RunSnoc(s, prefix, last, validUrl);
      DefaultAfterRun(s, prefix, param, validUrl);
    }
  }
}
