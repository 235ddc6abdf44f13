/**
 What came back from an attempt, and which attempts are followed by another.

 Whether a write may go out again is decided by the look of the error; whether it had reached the server is a fact of
 the world, kept apart here as `delivered`.
 */
module Resending {
  import opened Options

  const LAST_ATTEMPT: nat := 2

  datatype Verb = Get | Write

  /** Where in the life of a connection a net.OpError arose. */
  datatype NetOp = Dial | Read | Send | OtherOp

  const EVERY_OP: set<NetOp> := {Dial, Read, Send, OtherOp}

  datatype Link = OpError(op: NetOp) | OtherError

  /** An error's message, and the error with all that it wraps, outermost first. */
  datatype NetErr = NetErr(text: string, chain: seq<Link>)

  /** A response.  `expires` is Expires less Date; `drained`: the body could be read to the end to be thrown away;
      `readable`: it could be read to be used. */
  datatype Http = Http(code: int, drained: bool, readable: bool, remain: Option<int>, reset: Option<int>,
                       expires: Option<real>, maxAge: Option<real>, etag: Option<int>, pages: Option<int>,
                       content: int, size: nat)

  datatype Outcome = NetError(err: NetErr, delivered: bool) | Status(http: Http)

  lemma EveryOp(op: NetOp)
    ensures op in EVERY_OP
  {
    match op
    case Dial =>
    case Read =>
    case Send =>
    case OtherOp =>
  }

  const REFUSED := "connection refused"
  const NO_HOST := "no such host"

  predicate Contains(text: string, part: string) {
    part <= text || (text != [] && Contains(text[1..], part))
  }

  ghost predicate StandsAt(text: string, part: string, i: nat) {
    i + |part| <= |text| && text[i..i + |part|] == part
  }

  lemma {:induction false} ContainsAt(text: string, part: string, i: nat)
    requires StandsAt(text, part, i)
    ensures Contains(text, part)
  {
    if i > 0 {
      assert text[1..][i - 1..i - 1 + |part|] == text[i..i + |part|];
      ContainsAt(text[1..], part, i - 1);
    }
  }

  lemma {:induction false} WhereContained(text: string, part: string) returns (i: nat)
    requires Contains(text, part)
    ensures StandsAt(text, part, i)
  {
    if part <= text {
      i := 0;
    } else {
      i := WhereContained(text[1..], part);
      assert text[1..][i..i + |part|] == text[i + 1..i + 1 + |part|];
      i := i + 1;
    }
  }

  /** The part stands somewhere in the text. */
  lemma ContainsIs(text: string, part: string)
    ensures Contains(text, part) <==> exists i :: StandsAt(text, part, i)
  {
    if Contains(text, part) {
      var i := WhereContained(text, part);
    }
    forall i | StandsAt(text, part, i)
      ensures Contains(text, part)
    {
      ContainsAt(text, part, i);
    }
  }

  /** The outermost OpError of the chain. */
  function FirstOp(chain: seq<Link>): Option<NetOp> {
    if chain == [] then None
    else if chain[0].OpError? then Some(chain[0].op)
    else FirstOp(chain[1..])
  }

  /** There is an OpError somewhere in the chain. */
  ghost predicate HasOp(chain: seq<Link>) {
    exists i :: 0 <= i < |chain| && chain[i].OpError?
  }

  lemma {:induction false} FirstOpIs(chain: seq<Link>)
    ensures FirstOp(chain).Some? <==> HasOp(chain)
    ensures forall i :: 0 <= i < |chain| && chain[i].OpError? && (forall k :: 0 <= k < i ==> !chain[k].OpError?) ==>
      FirstOp(chain) == Some(chain[i].op)
  {
    if chain != [] {
      FirstOpIs(chain[1..]);
      assert forall i :: 1 <= i < |chain| ==> chain[i] == chain[1..][i - 1];
    }
  }

  /** The message says that no connection was made. */
  predicate SaysUnsent(err: NetErr) {
    Contains(err.text, REFUSED) || Contains(err.text, NO_HOST)
  }

  /** The error counts as one that never reached the server, if OpErrors of `admits` do. */
  predicate Classed(admits: set<NetOp>, err: NetErr) {
    (FirstOp(err.chain).Some? && FirstOp(err.chain).value in admits) || SaysUnsent(err)
  }

  predicate ServerBusy(code: int) {
    code == 500 || code == 502 || code == 503 || code == 504
  }

  /** May this outcome be followed by another attempt? */
  predicate MayResend(admits: set<NetOp>, verb: Verb, attempt: nat, o: Outcome) {
    match o
    case NetError(err, _) => attempt < LAST_ATTEMPT && (verb == Get || Classed(admits, err))
    case Status(http) =>
      && http.drained
      && (if http.code == 429 then attempt < 1
          else http.code != 420 && verb == Get && attempt < LAST_ATTEMPT && ServerBusy(http.code))
  }

  /** The attempts that a call makes from `attempt` on, when `net` is what the network has in store for them. */
  function Sent(admits: set<NetOp>, verb: Verb, attempt: nat, net: seq<Outcome>): seq<Outcome>
    decreases |net|
  {
    if net == [] then []
    else if MayResend(admits, verb, attempt, net[0]) then [net[0]] + Sent(admits, verb, attempt + 1, net[1..])
    else [net[0]]
  }

  /** Enough outcomes for every attempt there can be. */
  predicate Enough(attempt: nat, net: seq<Outcome>) {
    attempt <= LAST_ATTEMPT && attempt + |net| > LAST_ATTEMPT
  }

  /** At most three attempts; and each is followed by another exactly when its outcome may be. */
  lemma {:induction false} SentIs(admits: set<NetOp>, verb: Verb, attempt: nat, net: seq<Outcome>, i: nat)
    requires Enough(attempt, net) && i < |Sent(admits, verb, attempt, net)|
    ensures var os := Sent(admits, verb, attempt, net);
      && os <= net && attempt + |os| <= LAST_ATTEMPT + 1
      && (i + 1 < |os| <==> MayResend(admits, verb, attempt + i, os[i]))
    decreases |net|
  {
    hide Classed;
    if MayResend(admits, verb, attempt, net[0]) {
      SentIs(admits, verb, attempt + 1, net[1..], if i == 0 then 0 else i - 1);
    }
  }

  /** A write goes out again if and only if a 429 turned its first attempt away, or the error is classed as one that
      never reached the server and an attempt is left. */
  lemma WriteSentAgain(net: seq<Outcome>, i: nat)
    requires Enough(0, net) && i < |Sent(EVERY_OP, Write, 0, net)|
    ensures var os := Sent(EVERY_OP, Write, 0, net);
      i + 1 < |os| <==>
        || (i == 0 && os[i].Status? && os[i].http.code == 429 && os[i].http.drained)
        || (i < 2 && os[i].NetError? && (HasOp(os[i].err.chain) || SaysUnsent(os[i].err)))
  {
    hide SaysUnsent, Sent, FirstOp;
    SentIs(EVERY_OP, Write, 0, net, i);
    if Sent(EVERY_OP, Write, 0, net)[i].NetError? {
      FirstOpIs(Sent(EVERY_OP, Write, 0, net)[i].err.chain);
    }
    forall op: NetOp
      ensures op in EVERY_OP
    {
      EveryOp(op);
    }
  }

  /** A read goes out again if and only if a 429 turned its first attempt away, or the network failed it, or the server
      was busy, and an attempt is left. */
  lemma ReadSentAgain(net: seq<Outcome>, i: nat)
    requires Enough(0, net) && i < |Sent(EVERY_OP, Get, 0, net)|
    ensures var os := Sent(EVERY_OP, Get, 0, net);
      i + 1 < |os| <==>
        || (i == 0 && os[i].Status? && os[i].http.code == 429 && os[i].http.drained)
        || (i < 2 && os[i].NetError?)
        || (i < 2 && os[i].Status? && os[i].http.code in {500, 502, 503, 504} && os[i].http.drained)
  {
    hide Sent;
    SentIs(EVERY_OP, Get, 0, net, i);
  }

  /** The attempt had its effect at the server.  A 429 had none. */
  predicate Delivered(o: Outcome) {
    match o
    case NetError(_, delivered) => delivered
    case Status(http) => http.code != 429
  }

  /** A failed dial never reached the server, and a message that says so is true. */
  ghost predicate Truthful(net: seq<Outcome>) {
    forall i :: 0 <= i < |net| && net[i].NetError? ==>
      FirstOp(net[i].err.chain) == Some(Dial) || SaysUnsent(net[i].err) ==> !net[i].delivered
  }

  /** The OpErrors that the network comes up with are of `ops`. */
  ghost predicate Only(ops: set<NetOp>, net: seq<Outcome>) {
    forall i :: 0 <= i < |net| && net[i].NetError? && FirstOp(net[i].err.chain).Some? ==>
      FirstOp(net[i].err.chain).value in ops
  }

  /** Some attempt of the write had its effect, and another was made after it. */
  ghost predicate DeliveredAgain(admits: set<NetOp>, net: seq<Outcome>) {
    var os := Sent(admits, Write, 0, net);
    exists i :: 0 <= i < |os| - 1 && Delivered(os[i])
  }

  function Answer(code: int): Outcome {
    Status(Http(code, true, true, None, None, None, None, None, None, 0, 0))
  }

  /** A connection that breaks after the request has been sent. */
  function Broken(op: NetOp): Outcome {
    NetError(NetErr("", [OtherError, OpError(op)]), true)
  }

  lemma BrokenSentAgain(admits: set<NetOp>, op: NetOp)
    requires op in admits
    ensures var net := [Broken(op), Answer(201), Answer(201)];
      && Sent(admits, Write, 0, net) == [Broken(op), Answer(201)]
      && (op != Dial ==> Truthful(net)) && Only({op}, net) && DeliveredAgain(admits, net)
  {
    var net := [Broken(op), Answer(201), Answer(201)];
    NoText();
    var chain := [OtherError, OpError(op)];
    assert chain[1..] == [OpError(op)];
    assert FirstOp(chain) == Some(op);
    assert net[1..] == [Answer(201), Answer(201)];
    assert Sent(admits, Write, 1, net[1..]) == [Answer(201)];
    var os := Sent(admits, Write, 0, net);
    assert os == [Broken(op), Answer(201)];
    assert Delivered(os[0]);
  }

  lemma NoText()
    ensures !Contains("", REFUSED) && !Contains("", NO_HOST)
  {
  }

  /** A write that was carried out, and whose answer was lost to a reset connection, goes out again and is carried out
      again. */
  lemma CarriedOutTwice()
    ensures var net := [Broken(Read), Answer(201), Answer(201)]; var os := Sent(EVERY_OP, Write, 0, net);
      Truthful(net) && |os| == 2 && Delivered(os[0]) && Delivered(os[1])
  {
    BrokenSentAgain(EVERY_OP, Read);
  }

  lemma UndeliveredBefore(admits: set<NetOp>, ops: set<NetOp>, net: seq<Outcome>, i: nat)
    requires admits * ops <= {Dial} && Truthful(net) && Only(ops, net) && Enough(0, net)
    requires i + 1 < |Sent(admits, Write, 0, net)|
    ensures !Delivered(Sent(admits, Write, 0, net)[i])
  {
    hide SaysUnsent, Sent, FirstOp;
    SentIs(admits, Write, 0, net, i);
    var o := net[i];
    assert o == Sent(admits, Write, 0, net)[i];
    if o.NetError? && !SaysUnsent(o.err) {
      assert FirstOp(o.err.chain).value in admits * ops;
    }
  }

  /** Over all that a network with OpErrors of `ops` can come up with, no write that was carried out is sent again, if
      and only if the OpErrors admitted as unsent are among those of dialling.  The code admits every OpError. */
  lemma NeverAgainExact(admits: set<NetOp>, ops: set<NetOp>)
    ensures (forall net :: Enough(0, net) && Truthful(net) && Only(ops, net) ==> !DeliveredAgain(admits, net))
       <==> admits * ops <= {Dial}
  {
    hide Truthful, Only, Enough, Sent, Delivered;
    if admits * ops <= {Dial} {
      forall net | Enough(0, net) && Truthful(net) && Only(ops, net)
        ensures !DeliveredAgain(admits, net)
      {
        forall i | 0 <= i < |Sent(admits, Write, 0, net)| - 1
          ensures !Delivered(Sent(admits, Write, 0, net)[i])
        {
          UndeliveredBefore(admits, ops, net, i);
        }
      }
    } else {
      var op :| op in admits * ops && op != Dial;
      var net := [Broken(op), Answer(201), Answer(201)];
      BrokenSentAgain(admits, op);
      OnlyMore(op, ops, net);
      assert Enough(0, net) by { ThreeEnough(net); }
    }
  }

  lemma ThreeEnough(net: seq<Outcome>)
    requires |net| == 3
    ensures Enough(0, net)
  {
  }

  lemma OnlyMore(op: NetOp, ops: set<NetOp>, net: seq<Outcome>)
    requires Only({op}, net) && op in ops
    ensures Only(ops, net)
  {
  }

  /** errors.As: is there an OpError in the chain from `from` on? */
  method As(chain: seq<Link>, from: nat) returns (found: bool)
    requires from <= |chain|
    ensures found <==> FirstOp(chain[from..]).Some?
  {
    var i := from;
    while i < |chain|
      invariant from <= i <= |chain|
      invariant FirstOp(chain[from..]).Some? <==> FirstOp(chain[i..]).Some?
    {
      assert chain[i..][1..] == chain[i + 1..];
      if chain[i].OpError? {
        return true;
      }
      i := i + 1;
    }
    found := false;
  }

  /** Asks for an OpError at the error, and then again at each error that it wraps. */
  method ErrorAsNet(err: NetErr) returns (found: bool)
    ensures found <==> FirstOp(err.chain).Some?
  {
    var i := 0;
    assert err.chain[0..] == err.chain;
    while i < |err.chain|
      invariant 0 <= i <= |err.chain|
      invariant FirstOp(err.chain).Some? <==> FirstOp(err.chain[i..]).Some?
    {
      var here := As(err.chain, i);
      if here {
        return true;
      }
      assert err.chain[i..][1..] == err.chain[i + 1..];
      i := i + 1;
    }
    found := false;
  }

  method SafeToRetry(verb: Verb, err: NetErr) returns (safe: bool)
    ensures safe <==> verb == Get || Classed(EVERY_OP, err)
  {
    hide Contains, FirstOp;
    if verb == Get {
      return true;
    }
    var net := ErrorAsNet(err);
    if net {
      EveryOp(FirstOp(err.chain).value);
      return true;
    }
    safe := Contains(err.text, REFUSED) || Contains(err.text, NO_HOST);
  }
}
