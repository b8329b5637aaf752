/** The pairing agent (hardwaremgr/src/BT/BluetoothAgent.cpp): pending confirmation requests, the
 * references the agent holds on them, and its replies. */
module BluetoothAgents {
  import opened Wrappers
  import opened BluezPath

  /** METHOD_RETURN (`ok`) or an error, to request number `request`; `address` is what it was about. */
  datatype Reply = Reply(request: nat, ok: bool, address: string)

  datatype Agent = Agent(
    pending: map<string, nat>,  // pendingConfirmations_: address -> request message
    refs: multiset<nat>,        // references to request messages held by the agent
    replies: seq<Reply>,
    requests: nat,              // requests received; they are numbered in order
    wellFormed: nat, accepted: nat, rejected: nat, overwritten: nat, released: nat)

  function Fresh(): Agent {
    Agent(map[], multiset{}, [], 0, 0, 0, 0, 0, 0)
  }

  /** The address of a RequestConfirmation call; None stands for arguments that do not parse. */
  function AddressOf(path: Option<string>): string {
    if path.Some? then LastAddress(path.value) else ""
  }

  /** handleRequestConfirmation. */
  function OnRequest(a: Agent, path: Option<string>): Agent
  {
    var r := a.requests;
    var address := AddressOf(path);
    var b := a.(requests := r + 1);
    if address == "" then b.(replies := a.replies + [Reply(r, false, "")])
    else
      var again := address in a.pending;
      b.(pending := a.pending[address := r], wellFormed := a.wellFormed + 1,
         refs := (if again then a.refs - multiset{a.pending[address]} else a.refs) + multiset{r},
         overwritten := a.overwritten + if again then 1 else 0)
  }

  /** confirmRequest. */
  function OnConfirm(a: Agent, address: string, confirmed: bool): Agent
  {
    if address !in a.pending then a
    else
      var r := a.pending[address];
      a.(pending := a.pending - {address}, refs := a.refs - multiset{r},
         replies := a.replies + [Reply(r, confirmed, address)],
         accepted := a.accepted + if confirmed then 1 else 0,
         rejected := a.rejected + if confirmed then 0 else 1)
  }

  /** handleRelease and the destructor drop every pending request without a reply to it. */
  function OnRelease(a: Agent): Agent {
    a.(pending := map[], refs := a.refs - Held(a.pending), released := a.released + |a.pending|)
  }

  /** The requests of a map, as references. */
  function Held(pending: map<string, nat>): multiset<nat> {
    multiset(pending.Values)
  }

  // ---------------------------------------------------------------- the ledger

  datatype Action = Request(path: Option<string>) | Confirm(address: string, confirmed: bool) | Release

  function Apply(a: Agent, act: Action): Agent
  {
    match act
    case Request(path) => OnRequest(a, path)
    case Confirm(address, confirmed) => OnConfirm(a, address, confirmed)
    case Release => OnRelease(a)
  }

  function Run(actions: seq<Action>): Agent
    decreases |actions|
  {
    if actions == [] then Fresh() else Apply(Run(actions[..|actions| - 1]), actions[|actions| - 1])
  }

  ghost predicate Waits(a: Agent, r: nat) {
    exists address :: address in a.pending && a.pending[address] == r
  }

  ghost predicate Inv(a: Agent)
  {
    && a.wellFormed == a.accepted + a.rejected + a.overwritten + a.released + |a.pending|
    && (forall x | x in a.pending :: x != "" && a.pending[x] < a.requests)
    && (forall x, y | x in a.pending && y in a.pending && x != y :: a.pending[x] != a.pending[y])
    && (forall r: nat :: a.refs[r] == if Waits(a, r) then 1 else 0)
    && (forall i | 0 <= i < |a.replies| :: a.replies[i].request < a.requests && !Waits(a, a.replies[i].request))
    && (forall i, j | 0 <= i < j < |a.replies| :: a.replies[i].request != a.replies[j].request)
  }

  lemma WaitsAfterRequest(a: Agent, path: Option<string>, r: nat)
    requires Inv(a) && AddressOf(path) != ""
    ensures var x := AddressOf(path);
            Waits(OnRequest(a, path), r) <==> r == a.requests || (Waits(a, r) && !(x in a.pending && a.pending[x] == r))
  {
    var b := OnRequest(a, path);
    var x := AddressOf(path);
    assert b.pending[x] == a.requests;
    if Waits(a, r) {
      var y :| y in a.pending && a.pending[y] == r;
      assert y != x ==> y in b.pending && b.pending[y] == r;
    }
  }

  lemma MalformedKeeps(a: Agent, path: Option<string>)
    requires Inv(a) && AddressOf(path) == ""
    ensures Inv(OnRequest(a, path))
  {
    var b := OnRequest(a, path);
    assert b.pending == a.pending;
    assert forall r :: Waits(b, r) <==> Waits(a, r);
  }

  lemma NewRequestKeeps(a: Agent, path: Option<string>)
    requires Inv(a) && AddressOf(path) != ""
    ensures Inv(OnRequest(a, path))
  {
    var b := OnRequest(a, path);
    var x := AddressOf(path);
    forall r
      ensures Waits(b, r) <==> r == a.requests || (Waits(a, r) && !(x in a.pending && a.pending[x] == r))
    {
      WaitsAfterRequest(a, path, r);
    }
    assert !Waits(a, a.requests);
    assert x in a.pending ==> Waits(a, a.pending[x]);
    assert b.replies == a.replies && b.pending == a.pending[x := a.requests];
  }

  lemma RequestKeeps(a: Agent, path: Option<string>)
    requires Inv(a)
    ensures Inv(OnRequest(a, path))
  {
    if AddressOf(path) == "" {
      MalformedKeeps(a, path);
    } else {
      NewRequestKeeps(a, path);
    }
  }

  lemma ConfirmKeeps(a: Agent, address: string, confirmed: bool)
    requires Inv(a)
    ensures Inv(OnConfirm(a, address, confirmed))
  {
    if address in a.pending {
      var b := OnConfirm(a, address, confirmed);
      var r0 := a.pending[address];
      assert Waits(a, r0);
      forall r
        ensures Waits(b, r) <==> Waits(a, r) && r != r0
      {
        if Waits(a, r) {
          var x :| x in a.pending && a.pending[x] == r;
          assert x != address ==> x in b.pending && b.pending[x] == r;
        }
      }
    }
  }

  lemma ReleaseKeeps(a: Agent)
    requires Inv(a)
    ensures Inv(OnRelease(a))
  {
    var b := OnRelease(a);
    forall r: nat
      ensures b.refs[r] == 0
    {
      assert Waits(a, r) <==> r in a.pending.Values;
    }
    assert forall r :: !Waits(b, r);
  }

  lemma StepKeepsInv(a: Agent, act: Action)
    requires Inv(a)
    ensures Inv(Apply(a, act))
  {
    match act {
      case Request(path) => RequestKeeps(a, path);
      case Confirm(address, confirmed) => ConfirmKeeps(a, address, confirmed);
      case Release => ReleaseKeeps(a);
    }
  }

  lemma {:induction false} RunKeepsInv(actions: seq<Action>)
    ensures Inv(Run(actions))
    decreases |actions|
  {
    if actions == [] {
    } else {
      RunKeepsInv(actions[..|actions| - 1]);
      StepKeepsInv(Run(actions[..|actions| - 1]), actions[|actions| - 1]);
    }
  }

  /** Replies of one kind: METHOD_RETURN or error, to a request about a device or to a malformed one. */
  function Tally(replies: seq<Reply>, ok: bool, named: bool): nat
  {
    if replies == [] then 0
    else
      var last := replies[|replies| - 1];
      Tally(replies[..|replies| - 1], ok, named) + One(last.ok == ok && (last.address != "") == named)
  }

  lemma TallyNext(replies: seq<Reply>, x: Reply, ok: bool, named: bool)
    ensures Tally(replies + [x], ok, named) == Tally(replies, ok, named) + One(x.ok == ok && (x.address != "") == named)
  {
    assert (replies + [x])[..|replies + [x]| - 1] == replies;
  }

  /** The counters count the replies. */
  ghost predicate Tallied(a: Agent)
  {
    && a.accepted == Tally(a.replies, true, true) && a.rejected == Tally(a.replies, false, true)
    && a.requests == a.wellFormed + Tally(a.replies, false, false) && Tally(a.replies, true, false) == 0
  }

  lemma ReplyTallied(a: Agent, b: Agent, x: Reply)
    requires Tallied(a) && b.replies == a.replies + [x] && (x.ok ==> x.address != "")
    requires b.accepted == a.accepted + One(x.ok) && b.rejected == a.rejected + One(!x.ok && x.address != "")
    requires b.requests - b.wellFormed == a.requests - a.wellFormed + One(x.address == "")
    ensures Tallied(b)
  {
    TallyNext(a.replies, x, true, true);
    TallyNext(a.replies, x, true, false);
    TallyNext(a.replies, x, false, true);
    TallyNext(a.replies, x, false, false);
  }

  lemma StepTallied(a: Agent, act: Action)
    requires Tallied(a) && Inv(a)
    ensures Tallied(Apply(a, act))
  {
    match act {
      case Request(path) =>
        if AddressOf(path) == "" {
          ReplyTallied(a, Apply(a, act), Reply(a.requests, false, ""));
        }
      case Confirm(address, confirmed) =>
        if address in a.pending {
          ReplyTallied(a, Apply(a, act), Reply(a.pending[address], confirmed, address));
        }
      case Release =>
    }
  }

  lemma {:induction false} RunTallied(actions: seq<Action>)
    ensures Tallied(Run(actions))
    decreases |actions|
  {
    if actions == [] {
    } else {
      RunTallied(actions[..|actions| - 1]);
      RunKeepsInv(actions[..|actions| - 1]);
      StepTallied(Run(actions[..|actions| - 1]), actions[|actions| - 1]);
    }
  }

  /** The ledger: every request is malformed or well-formed, and those are accepted, rejected,
      overwritten, released or pending, where accepted and rejected are the replies that were sent; no
      request gets two replies, and none is answered while it is pending; the agent holds exactly one
      reference to a pending request and none to any other. */
  lemma Ledger(actions: seq<Action>)
    ensures var a := Run(actions);
            && a.requests == a.wellFormed + Tally(a.replies, false, false)
            && a.wellFormed == a.accepted + a.rejected + a.overwritten + a.released + |a.pending|
            && a.accepted == Tally(a.replies, true, true) && a.rejected == Tally(a.replies, false, true)
            && (forall i, j | 0 <= i < j < |a.replies| :: a.replies[i].request != a.replies[j].request)
            && (forall i | 0 <= i < |a.replies| :: !Waits(a, a.replies[i].request))
            && (forall r: nat :: a.refs[r] == if Waits(a, r) then 1 else 0)
  {
    RunKeepsInv(actions);
    RunTallied(actions);
  }

  // ---------------------------------------------------------------- the object

  function Targets(pending: map<string, nat>, addresses: set<string>): set<nat>
    requires addresses <= pending.Keys
  {
    set x | x in addresses :: pending[x]
  }

  /** One reference per pending request, and no request pending twice. */
  ghost predicate OneEach(pending: map<string, nat>, refs: multiset<nat>)
  {
    && refs == multiset(Targets(pending, pending.Keys))
    && forall y, z | y in pending && z in pending && y != z :: pending[y] != pending[z]
  }

  lemma InvHoldsOneEach(a: Agent)
    requires Inv(a)
    ensures OneEach(a.pending, a.refs)
  {
    forall r: nat
      ensures a.refs[r] == multiset(Targets(a.pending, a.pending.Keys))[r]
    {
      assert Waits(a, r) <==> r in Targets(a.pending, a.pending.Keys);
    }
  }

  lemma ReleaseEmpties(a: Agent)
    requires OneEach(a.pending, a.refs)
    ensures OnRelease(a).refs == multiset{}
  {
    assert Targets(a.pending, a.pending.Keys) == a.pending.Values;
  }

  lemma TargetsDrop(pending: map<string, nat>, addresses: set<string>, x: string)
    requires x in addresses && addresses <= pending.Keys
    requires forall y, z | y in pending && z in pending && y != z :: pending[y] != pending[z]
    ensures multiset(Targets(pending, addresses - {x})) == multiset(Targets(pending, addresses)) - multiset{pending[x]}
  {
    assert Targets(pending, addresses - {x}) == Targets(pending, addresses) - {pending[x]};
  }

  lemma OneMore(actions: seq<Action>, act: Action)
    ensures Run(actions + [act]) == Apply(Run(actions), act)
  {
    assert (actions + [act])[..|actions + [act]| - 1] == actions;
  }

  lemma RunHoldsOneEach(actions: seq<Action>)
    ensures OneEach(Run(actions).pending, Run(actions).refs)
  {
    RunKeepsInv(actions);
    InvHoldsOneEach(Run(actions));
  }

  lemma ReleaseAfter(actions: seq<Action>)
    ensures var b := Run(actions + [Release]);
            b.pending == map[] && b.refs == multiset{} && b.replies == Run(actions).replies
  {
    OneMore(actions, Release);
    RunHoldsOneEach(actions);
    ReleaseEmpties(Run(actions));
  }

  /** The object is the specification's agent after the calls made so far; the ledger holds of it. */
  class BluetoothAgent {
    var pendingConfirmations: map<string, nat>
    var refs: multiset<nat>
    var replies: seq<Reply>
    ghost var calls: seq<Action>

    ghost predicate Is(a: Agent)
      reads this
    {
      a.pending == pendingConfirmations && a.refs == refs && a.replies == replies
    }

    ghost predicate Valid()
      reads this
    {
      Is(Run(calls))
    }

    constructor ()
      ensures Valid() && calls == []
    {
      pendingConfirmations := map[];
      refs := multiset{};
      replies := [];
      calls := [];
    }

    /** A RequestConfirmation call arrives as message `request`. */
    method HandleRequestConfirmation(request: nat, path: Option<string>)
      requires Valid() && request == Run(calls).requests
      modifies this
      ensures Valid() && calls == old(calls) + [Request(path)]
      ensures var address := AddressOf(path);
              if address == "" then
                && replies == old(replies) + [Reply(request, false, "")]
                && pendingConfirmations == old(pendingConfirmations)
              else
                replies == old(replies) && pendingConfirmations == old(pendingConfirmations)[address := request]
    {
      OneMore(calls, Request(path));
      calls := calls + [Request(path)];
      if path.None? {
        replies := replies + [Reply(request, false, "")];
        return;
      }
      var deviceAddress := ExtractAddress(path.value);
      if deviceAddress == "" {
        replies := replies + [Reply(request, false, "")];
        return;
      }
      if deviceAddress in pendingConfirmations {
        refs := refs - multiset{pendingConfirmations[deviceAddress]};
      }
      pendingConfirmations := pendingConfirmations[deviceAddress := request];
      refs := refs + multiset{request};
    }

    method ConfirmRequest(deviceAddress: string, confirmed: bool)
      requires Valid()
      modifies this
      ensures Valid() && calls == old(calls) + [Confirm(deviceAddress, confirmed)]
      ensures deviceAddress in old(pendingConfirmations) ==>
        && pendingConfirmations == old(pendingConfirmations) - {deviceAddress}
        && replies == old(replies) + [Reply(old(pendingConfirmations)[deviceAddress], confirmed, deviceAddress)]
      ensures deviceAddress !in old(pendingConfirmations) ==>
        replies == old(replies) && pendingConfirmations == old(pendingConfirmations)
    {
      OneMore(calls, Confirm(deviceAddress, confirmed));
      calls := calls + [Confirm(deviceAddress, confirmed)];
      if deviceAddress !in pendingConfirmations {
        return;
      }
      var request := pendingConfirmations[deviceAddress];
      pendingConfirmations := pendingConfirmations - {deviceAddress};
      replies := replies + [Reply(request, confirmed, deviceAddress)];
      refs := refs - multiset{request};
    }

    /** The loop of handleRelease and of the destructor: one unref per pending request. */
    method UnrefAll()
      requires Valid()
      modifies this`refs
      ensures refs == multiset{}
    {
      RunHoldsOneEach(calls);
      var todo := pendingConfirmations.Keys;
      while todo != {}
        invariant todo <= pendingConfirmations.Keys && refs == multiset(Targets(pendingConfirmations, todo))
        decreases |todo|
      {
        var address := Pick(todo);
        TargetsDrop(pendingConfirmations, todo, address);
        todo := todo - {address};
        refs := refs - multiset{pendingConfirmations[address]};
      }
    }

    method ReleaseAll()
      requires Valid()
      modifies this
      ensures Valid() && calls == old(calls) + [Release]
      ensures refs == multiset{} && pendingConfirmations == map[]
    {
      ReleaseAfter(calls);
      UnrefAll();
      pendingConfirmations := map[];
      calls := calls + [Release];
    }
  }
}
