/** Gateway enrollment: any number of calls step one durable identity through its phases, each port call able to fail
    before or after it takes effect, in any interleaving. */
module Enrollment {
  import opened Wrappers

  const MAX_REVISION: nat := 9_007_199_254_740_991

  datatype Target = Target(origin: string, tenant: string, project: string, gateway: string)

  type Key = string

  datatype Phase = KeyGenerated | ClaimPending(idempotencyKey: string) | Claimed(idempotencyKey: string, revision: nat)

  datatype Identity = Identity(target: Target, key: Key, phase: Phase)

  datatype Claim = Claim(target: Target, key: Key, idempotencyKey: string)

  datatype Receipt = Receipt(gateway: string, revision: nat)

  datatype Ending = AlreadyClaimed(identity: Identity) | NewlyClaimed(identity: Identity) | Failed(error: EnrollError)

  datatype EnrollError = IdentityFailure | IdentityConflict | CloudFailure | InvalidCloudReceipt | InvalidStoredIdentity

  /** The name-based UUID derived from a target and a public key. */
  type StableKey = (Target, Key) -> string

  /** `validated_idempotency_key`: the stable key, unless the stored phase carries another. */
  predicate KeyValid(stable: StableKey, identity: Identity) {
    identity.phase.KeyGenerated? || identity.phase.idempotencyKey == stable(identity.target, identity.key)
  }

  predicate ReceiptValid(identity: Identity, receipt: Receipt) {
    receipt.gateway == identity.target.gateway && 1 <= receipt.revision <= MAX_REVISION
  }

  // ---------------------------------------------------------------- the machine

  /** Where a call stands between two port calls. */
  datatype Local =
    | Fresh(target: Target)
    | NeedsKey(target: Target)
    | Holding(identity: Identity)
    | Pending(identity: Identity)
    | Receipted(identity: Identity, revision: nat)
    | Done(result: Ending)

  /** The durable store, the calls in flight, every key ever generated, and every claim that ever left. */
  datatype Machine = Machine(store: Option<Identity>, calls: map<nat, Local>, keys: set<Key>, claims: seq<Claim>)

  datatype Reply = NotSent | NoAnswer | Answer(receipt: Receipt)

  datatype Act =
    | Begin(call: nat, target: Target)
    | Load(call: nat, fault: Fault)
    | Generate(call: nat, key: Key, fault: Fault)
    | MarkPending(call: nat, fault: Fault)
    | SendClaim(call: nat, reply: Reply)
    | MarkClaimed(call: nat, fault: Fault)

  predicate Matches(store: Option<Identity>, target: Target, key: Key) {
    store.Some? && store.value.target == target && store.value.key == key
  }

  /** `persist_key_generated`: installs the first identity, and accepts the one already there. */
  function Persisted(store: Option<Identity>, target: Target, key: Key): (Option<Identity>, bool) {
    if store.None? then (Some(Identity(target, key, KeyGenerated)), true) else (store, Matches(store, target, key))
  }

  /** `mark_claim_pending` */
  function MadePending(store: Option<Identity>, target: Target, key: Key, idempotencyKey: string)
    : (Option<Identity>, bool)
  {
    if !Matches(store, target, key) then (store, false)
    else if store.value.phase.KeyGenerated? then (Some(store.value.(phase := ClaimPending(idempotencyKey))), true)
    else (store, store.value.phase.idempotencyKey == idempotencyKey)
  }

  /** `mark_claimed` */
  function MadeClaimed(store: Option<Identity>, target: Target, key: Key, idempotencyKey: string,
                       revision: nat): (Option<Identity>, bool) {
    if !Matches(store, target, key) then (store, false)
    else
      match store.value.phase
      case KeyGenerated => (store, false)
      case ClaimPending(k) =>
        if k == idempotencyKey then (Some(store.value.(phase := Claimed(idempotencyKey, revision))), true)
          else (store, false)
      case Claimed(k, r) => (store, k == idempotencyKey && r == revision)
  }

  function AfterLoad(stable: StableKey, store: Option<Identity>, target: Target): Local {
    if store.None? then NeedsKey(target)
    else if store.value.target != target then Done(Failed(IdentityConflict))
    else if !KeyValid(stable, store.value) then Done(Failed(InvalidStoredIdentity))
    else
      match store.value.phase
      case Claimed(_, _) => Done(AlreadyClaimed(store.value))
      case KeyGenerated => Holding(store.value)
      case ClaimPending(_) => Pending(store.value)
  }

  /** One atomic action of one call. An action its call is not ready for does nothing. Generated keys are fresh: a key
      seen before stands for a generator that failed. */
  function Do(stable: StableKey, m: Machine, act: Act): Machine {
    var c := act.call;
    if act.Begin? then if c in m.calls then m else m.(calls := m.calls[c := Fresh(act.target)])
    else if c !in m.calls then m
    else
      match (act, m.calls[c])
      case (Load(_, fault), Fresh(target)) =>
        m.(calls := m.calls[c := if fault.Clean? then AfterLoad(stable, m.store, target)
          else Done(Failed(IdentityFailure))])
      case (Generate(_, key, fault), NeedsKey(target)) =>
        if key in m.keys then m.(calls := m.calls[c := Done(Failed(IdentityFailure))])
        else
          var (store, ok) := Persisted(m.store, target, key);
          m.(store := if fault.NoEffect? then m.store else store, keys := m.keys + {key},
             calls := m.calls[c := if fault.Clean? && ok then Holding(Identity(target, key, KeyGenerated))
                                   else Done(Failed(IdentityFailure))])
      case (MarkPending(_, fault), Holding(identity)) =>
        var k := stable(identity.target, identity.key);
        var (store, ok) := MadePending(m.store, identity.target, identity.key, k);
        m.(store := if fault.NoEffect? then m.store else store,
           calls := m.calls[c := if fault.Clean? && ok then Pending(identity.(phase := ClaimPending(k)))
                                 else Done(Failed(IdentityFailure))])
      case (SendClaim(_, reply), Pending(identity)) =>
        var claim := Claim(identity.target, identity.key, stable(identity.target, identity.key));
        m.(claims := if reply.NotSent? then m.claims else m.claims + [claim],
           calls := m.calls[c :=
             if !reply.Answer? then Done(Failed(CloudFailure))
             else if !ReceiptValid(identity, reply.receipt) then Done(Failed(InvalidCloudReceipt))
             else Receipted(identity, reply.receipt.revision)])
      case (MarkClaimed(_, fault), Receipted(identity, revision)) =>
        var k := stable(identity.target, identity.key);
        var (store, ok) := MadeClaimed(m.store, identity.target, identity.key, k, revision);
        m.(store := if fault.NoEffect? then m.store else store,
           calls := m.calls[c := if fault.Clean? && ok then Done(NewlyClaimed(identity.(phase := Claimed(k, revision))))
                                 else Done(Failed(IdentityFailure))])
      case _ => m
  }

  function Run(stable: StableKey, m: Machine, acts: seq<Act>): Machine {
    if acts == [] then m else Do(stable, Run(stable, m, acts[..|acts| - 1]), acts[|acts| - 1])
  }

  // ---------------------------------------------------------------- what every step keeps

  function Rank(phase: Phase): nat {
    match phase
    case KeyGenerated => 0
    case ClaimPending(_) => 1
    case Claimed(_, _) => 2
  }

  /** Once there, the identity keeps its target and key, its phase only advances, and a claimed one is final. */
  predicate Forward(a: Option<Identity>, b: Option<Identity>) {
    a.Some? ==>
      && b.Some? && b.value.target == a.value.target && b.value.key == a.value.key
      && Rank(a.value.phase) <= Rank(b.value.phase)
      && (a.value.phase.Claimed? ==> b == a)
  }

  predicate StoreOk(stable: StableKey, store: Option<Identity>) {
    store.Some? ==>
      KeyValid(stable, store.value) && (store.value.phase.Claimed? ==> 1 <= store.value.phase.revision <= MAX_REVISION)
  }

  /** The pending phase, or a later one, is durable for this very identity. */
  predicate Durable(store: Option<Identity>, target: Target, key: Key) {
    Matches(store, target, key) && !store.value.phase.KeyGenerated?
  }

  predicate LocalOk(stable: StableKey, store: Option<Identity>, l: Local) {
    match l
    case Holding(i) => Matches(store, i.target, i.key)
    case Pending(i) => Durable(store, i.target, i.key) && i.phase == ClaimPending(stable(i.target, i.key))
    case Receipted(i, revision) => Durable(store, i.target, i.key) && 1 <= revision <= MAX_REVISION
    case _ => true
  }

  predicate ClaimOk(stable: StableKey, store: Option<Identity>, claim: Claim) {
    Durable(store, claim.target, claim.key) && claim.idempotencyKey == stable(claim.target, claim.key)
  }

  predicate Safe(stable: StableKey, m: Machine) {
    && StoreOk(stable, m.store) && (m.store.Some? ==> m.store.value.key in m.keys)
    && (forall c :: c in m.calls ==> LocalOk(stable, m.store, m.calls[c]))
    && (forall i :: 0 <= i < |m.claims| ==> ClaimOk(stable, m.store, m.claims[i]))
  }

  lemma ForwardKeeps(stable: StableKey, a: Option<Identity>, b: Option<Identity>)
    requires Forward(a, b)
    ensures forall l :: LocalOk(stable, a, l) ==> LocalOk(stable, b, l)
    ensures forall claim :: ClaimOk(stable, a, claim) ==> ClaimOk(stable, b, claim)
  {}

  lemma StepForward(stable: StableKey, m: Machine, act: Act)
    requires Safe(stable, m)
    ensures var n := Do(stable, m, act);
      Forward(m.store, n.store) && StoreOk(stable, n.store) && (n.store.Some? ==> n.store.value.key in n.keys)
  {}

  /** The acting call, and the claim it may have sent. */
  lemma StepLocal(stable: StableKey, m: Machine, act: Act)
    requires Safe(stable, m)
    ensures var n := Do(stable, m, act);
      && (act.call in n.calls ==> LocalOk(stable, n.store, n.calls[act.call]))
      && (forall c :: c in n.calls && c != act.call ==> c in m.calls && n.calls[c] == m.calls[c])
      && (n.claims == m.claims
          || (act.SendClaim? && exists claim :: n.claims == m.claims + [claim] && ClaimOk(stable, m.store, claim)))
  {
    var n := Do(stable, m, act);
    if act.SendClaim? && act.call in m.calls && m.calls[act.call].Pending? {
      var i := m.calls[act.call].identity;
      assert LocalOk(stable, m.store, m.calls[act.call]);
      assert ClaimOk(stable, m.store, Claim(i.target, i.key, stable(i.target, i.key)));
    }
  }

  lemma StepSafe(stable: StableKey, m: Machine, act: Act)
    requires Safe(stable, m)
    ensures Safe(stable, Do(stable, m, act))
  {
    hide Do, LocalOk, ClaimOk, StoreOk, Forward;
    var n := Do(stable, m, act);
    StepForward(stable, m, act);
    ForwardKeeps(stable, m.store, n.store);
    StepLocal(stable, m, act);
  }

  const EMPTY: Machine := Machine(None, map[], {}, [])

  lemma {:induction false} RunSafe(stable: StableKey, acts: seq<Act>)
    ensures Safe(stable, Run(stable, EMPTY, acts))
  {
    hide Do;
    if acts != [] {
      RunSafe(stable, acts[..|acts| - 1]);
      StepSafe(stable, Run(stable, EMPTY, acts[..|acts| - 1]), acts[|acts| - 1]);
    }
  }

  /** In every run, under every failure: all claims ever sent are one and the same request, for the stored identity. */
  lemma AllClaimsAreOne(stable: StableKey, acts: seq<Act>, i: nat, j: nat)
    requires i < |Run(stable, EMPTY, acts).claims| && j < |Run(stable, EMPTY, acts).claims|
    ensures var m := Run(stable, EMPTY, acts);
      && m.claims[i] == m.claims[j]
      && Matches(m.store, m.claims[i].target, m.claims[i].key)
      && m.claims[i].idempotencyKey == stable(m.store.value.target, m.store.value.key)
  {
    hide Run;
    RunSafe(stable, acts);
    var m := Run(stable, EMPTY, acts);
    assert ClaimOk(stable, m.store, m.claims[i]) && ClaimOk(stable, m.store, m.claims[j]);
  }

  /** A claim leaves only when the pending phase of its identity is already durable; and every step moves forward. */
  lemma ClaimsAfterDurablePending(stable: StableKey, acts: seq<Act>, act: Act)
    ensures var m := Run(stable, EMPTY, acts);
            var n := Do(stable, m, act);
      && Forward(m.store, n.store)
      && (n.claims != m.claims ==>
            |n.claims| == |m.claims| + 1 && n.store == m.store
            && (var claim := n.claims[|m.claims|];
                ClaimOk(stable, m.store, claim) && m.store.value.phase.idempotencyKey == claim.idempotencyKey))
  {
    hide Run;
    RunSafe(stable, acts);
    StepForward(stable, Run(stable, EMPTY, acts), act);
    StepLocal(stable, Run(stable, EMPTY, acts), act);
  }

  /** Some claim was answered with a receipt for this gateway and this revision. */
  ghost predicate AnsweredWith(acts: seq<Act>, gateway: string, revision: nat) {
    exists i :: 0 <= i < |acts| && acts[i].SendClaim? && acts[i].reply == Answer(Receipt(gateway, revision))
  }

  /** An identity is recorded as claimed only from a receipt that names its own gateway. */
  ghost predicate FromReceipt(acts: seq<Act>, i: Identity) {
    i.phase.Claimed? ==> AnsweredWith(acts, i.target.gateway, i.phase.revision)
  }

  ghost predicate LocalFromReceipt(acts: seq<Act>, l: Local) {
    match l
    case Receipted(i, revision) => AnsweredWith(acts, i.target.gateway, revision)
    case Done(NewlyClaimed(i)) => i.phase.Claimed? && FromReceipt(acts, i)
    case Done(AlreadyClaimed(i)) => i.phase.Claimed? && FromReceipt(acts, i)
    case _ => true
  }

  ghost predicate AllFromReceipts(acts: seq<Act>, m: Machine) {
    && (m.store.Some? ==> FromReceipt(acts, m.store.value))
    && forall c :: c in m.calls ==> LocalFromReceipt(acts, m.calls[c])
  }

  lemma AnswersStay(acts: seq<Act>, act: Act, gateway: string, revision: nat)
    requires AnsweredWith(acts, gateway, revision)
    ensures AnsweredWith(acts + [act], gateway, revision)
  {
    var i :| 0 <= i < |acts| && acts[i].SendClaim? && acts[i].reply == Answer(Receipt(gateway, revision));
    assert (acts + [act])[i] == acts[i];
  }

  lemma LocalStays(acts: seq<Act>, act: Act, l: Local)
    requires LocalFromReceipt(acts, l)
    ensures LocalFromReceipt(acts + [act], l)
  {
    hide AnsweredWith;
    match l
    case Receipted(i, revision) => AnswersStay(acts, act, i.target.gateway, revision);
    case Done(NewlyClaimed(i)) => AnswersStay(acts, act, i.target.gateway, i.phase.revision);
    case Done(AlreadyClaimed(i)) => AnswersStay(acts, act, i.target.gateway, i.phase.revision);
    case _ =>
  }

  lemma IdentityStays(acts: seq<Act>, act: Act, store: Option<Identity>)
    requires store.Some? ==> FromReceipt(acts, store.value)
    ensures store.Some? ==> FromReceipt(acts + [act], store.value)
  {
    hide AnsweredWith;
    if store.Some? && store.value.phase.Claimed? {
      AnswersStay(acts, act, store.value.target.gateway, store.value.phase.revision);
    }
  }

  /** What one action adds: the store, and the acting call. */
  lemma StepFromReceipt(stable: StableKey, acts: seq<Act>, m: Machine, act: Act)
    requires AllFromReceipts(acts, m)
    ensures var n := Do(stable, m, act);
      && (n.store.Some? ==> FromReceipt(acts + [act], n.store.value))
      && (act.call in n.calls ==> LocalFromReceipt(acts + [act], n.calls[act.call]))
  {
    hide AnsweredWith;
    IdentityStays(acts, act, m.store);
    if act.call in m.calls { LocalStays(acts, act, m.calls[act.call]); }
    if act.SendClaim? && act.reply.Answer? { JustAnswered(acts, act); }
  }

  lemma JustAnswered(acts: seq<Act>, act: Act)
    requires act.SendClaim? && act.reply.Answer?
    ensures AnsweredWith(acts + [act], act.reply.receipt.gateway, act.reply.receipt.revision)
  {
    assert (acts + [act])[|acts|] == act;
  }

  /** In every run, a claimed identity, in the store or returned by a call, was recorded from a receipt that names its
      own gateway and its revision. */
  lemma {:induction false} ClaimedFromOwnReceipt(stable: StableKey, acts: seq<Act>)
    ensures AllFromReceipts(acts, Run(stable, EMPTY, acts))
  {
    hide Do, FromReceipt, LocalFromReceipt;
    if acts != [] {
      var n := |acts| - 1;
      var before := acts[..n];
      ClaimedFromOwnReceipt(stable, before);
      var m := Run(stable, EMPTY, before);
      StepFromReceipt(stable, before, m, acts[n]);
      assert before + [acts[n]] == acts;
      var next := Do(stable, m, acts[n]);
      forall c | c in next.calls ensures LocalFromReceipt(acts, next.calls[c]) {
        if c != acts[n].call {
          OthersUntouched(stable, m, acts[n], c);
          LocalStays(before, acts[n], m.calls[c]);
        }
      }
    }
  }

  lemma OthersUntouched(stable: StableKey, m: Machine, act: Act, c: nat)
    requires c != act.call && c in Do(stable, m, act).calls
    ensures c in m.calls && Do(stable, m, act).calls[c] == m.calls[c]
  {}

  // ---------------------------------------------------------------- after the identity is claimed

  /** A call that can still send a claim although the identity is claimed: it looked at the store too early. A call that
      found no identity then is not one of them, since the key it generates will not be the stored one. */
  predicate Late(l: Local) { l.Holding? || l.Pending? }

  predicate NoneLate(m: Machine) { forall c :: c in m.calls ==> !Late(m.calls[c]) }

  lemma QuietStep(stable: StableKey, m: Machine, act: Act)
    requires Safe(stable, m) && m.store.Some? && m.store.value.phase.Claimed? && NoneLate(m)
    ensures var n := Do(stable, m, act); n.store == m.store && NoneLate(n) && n.claims == m.claims
  {
    StepForward(stable, m, act);
    var n := Do(stable, m, act);
    forall c | c in n.calls ensures !Late(n.calls[c]) {
      if c in m.calls { assert !Late(m.calls[c]); }
    }
  }

  lemma {:induction false} QuietRun(stable: StableKey, m: Machine, acts: seq<Act>)
    requires Safe(stable, m) && m.store.Some? && m.store.value.phase.Claimed? && NoneLate(m)
    ensures var n := Run(stable, m, acts); n.store == m.store && NoneLate(n) && n.claims == m.claims && Safe(stable, n)
  {
    hide Do, Safe, Late;
    if acts != [] {
      var last := |acts| - 1;
      QuietRun(stable, m, acts[..last]);
      QuietStep(stable, Run(stable, m, acts[..last]), acts[last]);
      StepSafe(stable, Run(stable, m, acts[..last]), acts[last]);
    }
  }

  /** What a late call would still do. */
  function Encore(m: Machine, c: nat): seq<Act>
    requires c in m.calls
  {
    match m.calls[c]
    case Holding(_) => [MarkPending(c, Clean), SendClaim(c, NoAnswer)]
    case _ => [SendClaim(c, NoAnswer)]
  }

  lemma RunNone(stable: StableKey, m: Machine)
    ensures Run(stable, m, []) == m
  {}

  lemma RunSnoc(stable: StableKey, m: Machine, acts: seq<Act>, act: Act)
    ensures Run(stable, m, acts + [act]) == Do(stable, Run(stable, m, acts), act)
  {
    assert (acts + [act])[..|acts|] == acts;
  }

  lemma RunOne(stable: StableKey, m: Machine, a: Act)
    ensures Run(stable, m, [a]) == Do(stable, m, a)
  {
    RunSnoc(stable, m, [], a);
    assert [] + [a] == [a];
  }

  lemma RunTwo(stable: StableKey, m: Machine, a: Act, b: Act)
    ensures Run(stable, m, [a, b]) == Do(stable, Do(stable, m, a), b)
  {
    hide Do;
    RunOne(stable, m, a);
    RunSnoc(stable, m, [a], b);
    assert [a] + [b] == [a, b];
  }

  lemma LatePending(stable: StableKey, m: Machine, c: nat)
    requires m.store.Some? && m.store.value.phase.Claimed? && KeyValid(stable, m.store.value)
    requires c in m.calls && m.calls[c].Holding?
      && Matches(m.store, m.calls[c].identity.target, m.calls[c].identity.key)
    ensures var n := Do(stable, m, MarkPending(c, Clean));
      n.store == m.store && n.claims == m.claims && c in n.calls && n.calls[c].Pending?
  {}

  lemma LateSend(stable: StableKey, m: Machine, c: nat)
    requires c in m.calls && m.calls[c].Pending?
    ensures |Do(stable, m, SendClaim(c, NoAnswer)).claims| == |m.claims| + 1
  {}

  lemma EncoreSends(stable: StableKey, m: Machine, c: nat)
    requires Safe(stable, m) && m.store.Some? && m.store.value.phase.Claimed?
    requires c in m.calls && Late(m.calls[c])
    ensures |Run(stable, m, Encore(m, c)).claims| > |m.claims|
  {
    hide Do, Run;
    assert LocalOk(stable, m.store, m.calls[c]);
    match m.calls[c]
    case Holding(_) =>
      LatePending(stable, m, c);
      LateSend(stable, Do(stable, m, MarkPending(c, Clean)), c);
      RunTwo(stable, m, MarkPending(c, Clean), SendClaim(c, NoAnswer));
    case Pending(_) =>
      LateSend(stable, m, c);
      RunOne(stable, m, SendClaim(c, NoAnswer));
  }

  predicate AllDone(m: Machine) { forall c :: c in m.calls ==> m.calls[c].Done? }

  /** The identity is claimed and no call is in flight. */
  predicate ClaimedAndQuiet(stable: StableKey, m: Machine) {
    Safe(stable, m) && m.store.Some? && m.store.value.phase.Claimed? && AllDone(m)
  }

  /** Once the identity is claimed and no call is in flight, nothing that is called from then on sends a claim. */
  lemma NoClaimAfterClaimed(stable: StableKey, m: Machine, acts: seq<Act>)
    requires ClaimedAndQuiet(stable, m)
    ensures Run(stable, m, acts).claims == m.claims && Run(stable, m, acts).store == m.store
  {
    hide Run, Do, Safe;
    QuietRun(stable, m, acts);
  }

  /** Once the identity is claimed, some continuation sends another claim if and only if a call that read the store
      before that is still short of its claim. New calls, and calls that read afterwards, never send one. */
  lemma ClaimAfterClaimedIff(stable: StableKey, m: Machine)
    requires Safe(stable, m) && m.store.Some? && m.store.value.phase.Claimed?
    ensures (exists acts :: Run(stable, m, acts).claims != m.claims) <==> !NoneLate(m)
  {
    hide Run, Do, Safe, Late;
    if NoneLate(m) {
      forall acts ensures Run(stable, m, acts).claims == m.claims { QuietRun(stable, m, acts); }
    } else {
      var c :| c in m.calls && Late(m.calls[c]);
      EncoreSends(stable, m, c);
      assert Run(stable, m, Encore(m, c)).claims != m.claims;
    }
  }

  /** Claims do repeat between overlapping calls. A run gets one call about to record its receipt and another still
      short of its claim; then the first completes, and the second sends the claim again. */
  lemma OverlappingCallsClaimTwice(stable: StableKey, target: Target, key: Key)
    ensures var pending := Identity(target, key, ClaimPending(stable(target, key)));
            var request := Claim(target, key, stable(target, key));
            var m := Machine(Some(pending), map[0 := Receipted(pending, 1), 1 := Pending(pending)], {key}, [request]);
      && (exists acts :: Run(stable, EMPTY, acts) == m)
      && Run(stable, m, [MarkClaimed(0, Clean)]).store == Some(pending.(phase := Claimed(stable(target, key), 1)))
      && Run(stable, m, [MarkClaimed(0, Clean), SendClaim(1, NoAnswer)]).claims == [request, request]
  {
    hide Run;
    var pending := Identity(target, key, ClaimPending(stable(target, key)));
    var m := Machine(Some(pending), map[0 := Receipted(pending, 1), 1 := Pending(pending)], {key},
                     [Claim(target, key, stable(target, key))]);
    var acts := Overlap(stable, target, key);
    assert Run(stable, EMPTY, acts) == m;
    RunOne(stable, m, MarkClaimed(0, Clean));
    RunTwo(stable, m, MarkClaimed(0, Clean), SendClaim(1, NoAnswer));
  }

  lemma Overlap(stable: StableKey, target: Target, key: Key) returns (acts: seq<Act>)
    ensures var pending := Identity(target, key, ClaimPending(stable(target, key)));
      Run(stable, EMPTY, acts) == Machine(Some(pending), map[0 := Receipted(pending, 1), 1 := Pending(pending)], {key},
                                          [Claim(target, key, stable(target, key))])
  {
    hide Run;
    var pending := Identity(target, key, ClaimPending(stable(target, key)));
    var prefix := BothBegun(stable, target, key);
    var m := Run(stable, EMPTY, prefix);
    acts := prefix + [Load(1, Clean)] + [SendClaim(0, Answer(Receipt(target.gateway, 1)))];
    RunSnoc(stable, EMPTY, prefix, Load(1, Clean));
    RunSnoc(stable, EMPTY, prefix + [Load(1, Clean)], SendClaim(0, Answer(Receipt(target.gateway, 1))));
    assert Do(stable, m, Load(1, Clean)) == Machine(Some(pending), map[0 := Pending(pending), 1 := Pending(pending)],
                                                    {key}, []);
  }

  lemma FirstLooked(stable: StableKey, target: Target) returns (acts: seq<Act>)
    ensures Run(stable, EMPTY, acts) == Machine(None, map[0 := NeedsKey(target), 1 := Fresh(target)], {}, [])
  {
    hide Run;
    var begun := Machine(None, map[0 := Fresh(target), 1 := Fresh(target)], {}, []);
    RunTwo(stable, EMPTY, Begin(0, target), Begin(1, target));
    var a := [Begin(0, target), Begin(1, target)];
    assert Run(stable, EMPTY, a) == begun;
    RunSnoc(stable, EMPTY, a, Load(0, Clean));
    acts := a + [Load(0, Clean)];
    assert Do(stable, begun, Load(0, Clean)).calls == map[0 := NeedsKey(target), 1 := Fresh(target)];
  }

  lemma FirstGenerated(stable: StableKey, target: Target, key: Key) returns (acts: seq<Act>)
    ensures var held := Identity(target, key, KeyGenerated);
      Run(stable, EMPTY, acts) == Machine(Some(held), map[0 := Holding(held), 1 := Fresh(target)], {key}, [])
  {
    hide Run;
    var looked := FirstLooked(stable, target);
    RunSnoc(stable, EMPTY, looked, Generate(0, key, Clean));
    acts := looked + [Generate(0, key, Clean)];
    var held := Identity(target, key, KeyGenerated);
    assert Run(stable, EMPTY, acts).calls == map[0 := Holding(held), 1 := Fresh(target)];
  }

  lemma BothBegun(stable: StableKey, target: Target, key: Key) returns (acts: seq<Act>)
    ensures var pending := Identity(target, key, ClaimPending(stable(target, key)));
      Run(stable, EMPTY, acts) == Machine(Some(pending), map[0 := Pending(pending), 1 := Fresh(target)], {key}, [])
  {
    hide Run;
    var generated := FirstGenerated(stable, target, key);
    RunSnoc(stable, EMPTY, generated, MarkPending(0, Clean));
    acts := generated + [MarkPending(0, Clean)];
    var pending := Identity(target, key, ClaimPending(stable(target, key)));
    assert Run(stable, EMPTY, acts).calls == map[0 := Pending(pending), 1 := Fresh(target)];
  }

  // ---------------------------------------------------------------- the use case

  /** The ports as the use case sees them, shared with every other call in flight. */
  class Enroller {
    const stable: StableKey
    var store: Option<Identity>
    var calls: map<nat, Local>
    var keys: set<Key>
    var claims: seq<Claim>

    ghost function View(): Machine
      reads this
    {
      Machine(store, calls, keys, claims)
    }

    constructor (stable: StableKey)
      ensures this.stable == stable && View() == EMPTY
    {
      this.stable, store, calls, keys, claims := stable, None, map[], {}, [];
    }

    method Perform(act: Act)
      modifies this
      ensures View() == Do(stable, old(View()), act)
    {
      var next := Do(stable, Machine(store, calls, keys, claims), act);
      store, calls, keys, claims := next.store, next.calls, next.keys, next.claims;
    }

    /** Other calls make progress between any two of ours. */
    method Others(mine: nat) returns (ghost acts: seq<Act>)
      modifies this
      ensures View() == Run(stable, old(View()), acts) && forall i :: 0 <= i < |acts| ==> acts[i].call != mine
      ensures mine in old(calls) ==> mine in calls && calls[mine] == old(calls[mine])
    {
      hide Do, Run;
      RunNone(stable, View());
      acts := [];
      var more: int := *;
      while more > 0
        invariant View() == Run(stable, old(View()), acts) && forall i :: 0 <= i < |acts| ==> acts[i].call != mine
        invariant mine in old(calls) ==> mine in calls && calls[mine] == old(calls[mine])
      {
        var act: Act := *;
        if act.call != mine {
          RunSnoc(stable, old(View()), acts, act);
          OthersKeepMine(stable, View(), act, mine);
          Perform(act);
          acts := acts + [act];
        }
        more := more - 1;
      }
    }

    /** One port call of ours, after whatever the others did. */
    method Port(act: Act, ghost before: seq<Act>, ghost start: Machine) returns (ghost after: seq<Act>)
      requires View() == Run(stable, start, before) && act.call in calls
      modifies this
      ensures View() == Run(stable, start, after) && act.call in calls
      ensures Ours(after, act.call) == Ours(before, act.call) + [act]
      ensures exists m: Machine ::
        act.call in m.calls && m.calls[act.call] == old(calls[act.call]) && View() == Do(stable, m, act)
    {
      hide Do;
      var others := Others(act.call);
      RunConcat(stable, start, before, others);
      OursConcat(before, others, act.call);
      RunSnoc(stable, start, before + others, act);
      after := before + others + [act];
      assert after[..|after| - 1] == before + others;
      StaysInFlight(stable, View(), act, act.call);
      Perform(act);
    }

    method LoadStatus(c: nat, target: Target, ghost before: seq<Act>, ghost start: Machine)
      returns (r: Option<Option<Identity>>, ghost after: seq<Act>)
      requires View() == Run(stable, start, before) && c in calls && calls[c] == Fresh(target)
      modifies this
      ensures View() == Run(stable, start, after) && c in calls && OneMore(Ours(before, c), Ours(after, c))
        && Last(Ours(after, c)).Load?
      ensures calls[c] == if r.Some? then AfterLoad(stable, r.value, target) else Done(Failed(IdentityFailure))
    {
      var fault: Fault := *;
      after := Port(Load(c, fault), before, start);
      r := if fault.Clean? then Some(store) else None;
    }

    method PersistKeyGenerated(c: nat, target: Target, key: Key, ghost before: seq<Act>, ghost start: Machine)
      returns (ok: bool, ghost after: seq<Act>)
      requires View() == Run(stable, start, before) && c in calls && calls[c] == NeedsKey(target)
      modifies this
      ensures View() == Run(stable, start, after) && c in calls && OneMore(Ours(before, c), Ours(after, c))
        && Last(Ours(after, c)).Generate?
      ensures calls[c] == if ok then Holding(Identity(target, key, KeyGenerated)) else Done(Failed(IdentityFailure))
    {
      var fault: Fault := *;
      after := Port(Generate(c, key, fault), before, start);
      ok := calls[c].Holding?;
    }

    method MarkClaimPending(c: nat, identity: Identity, ghost before: seq<Act>, ghost start: Machine)
      returns (ok: bool, ghost after: seq<Act>)
      requires View() == Run(stable, start, before) && c in calls && calls[c] == Holding(identity)
      modifies this
      ensures View() == Run(stable, start, after) && c in calls && OneMore(Ours(before, c), Ours(after, c))
        && Last(Ours(after, c)).MarkPending?
      ensures calls[c] == if ok then Pending(identity.(phase := ClaimPending(stable(identity.target, identity.key))))
                          else Done(Failed(IdentityFailure))
    {
      var fault: Fault := *;
      after := Port(MarkPending(c, fault), before, start);
      ok := calls[c].Pending?;
    }

    method CloudClaim(c: nat, identity: Identity, ghost before: seq<Act>, ghost start: Machine)
      returns (r: Option<Receipt>, ghost after: seq<Act>)
      requires View() == Run(stable, start, before) && c in calls && calls[c] == Pending(identity)
      modifies this
      ensures View() == Run(stable, start, after) && c in calls && OneMore(Ours(before, c), Ours(after, c))
        && Last(Ours(after, c)).SendClaim?
      ensures calls[c] ==
        if r.None? then Done(Failed(CloudFailure))
        else if ReceiptValid(identity, r.value) then Receipted(identity, r.value.revision)
        else Done(Failed(InvalidCloudReceipt))
    {
      var reply: Reply := *;
      after := Port(SendClaim(c, reply), before, start);
      r := if reply.Answer? then Some(reply.receipt) else None;
    }

    method RecordClaimed(c: nat, identity: Identity, revision: nat, ghost before: seq<Act>, ghost start: Machine)
      returns (ok: bool, ghost after: seq<Act>)
      requires View() == Run(stable, start, before) && c in calls && calls[c] == Receipted(identity, revision)
      modifies this
      ensures View() == Run(stable, start, after) && c in calls && OneMore(Ours(before, c), Ours(after, c))
        && Last(Ours(after, c)).MarkClaimed?
      ensures var claimed := Claimed(stable(identity.target, identity.key), revision);
        calls[c] == Done(if ok then NewlyClaimed(identity.(phase := claimed)) else Failed(IdentityFailure))
    {
      var fault: Fault := *;
      after := Port(MarkClaimed(c, fault), before, start);
      ok := calls[c].result.NewlyClaimed?;
    }

    /** The last two port calls: the claim, and the record of its receipt. */
    method ClaimAndRecord(c: nat, pending: Identity, ghost before: seq<Act>, ghost start: Machine)
        returns (r: Ending, ghost acts: seq<Act>)
      requires View() == Run(stable, start, before) && c in calls && calls[c] == Pending(pending)
        && NoClaim(Ours(before, c))
      modifies this
      ensures View() == Run(stable, start, acts) && c in calls && calls[c] == Done(r)
      ensures !r.AlreadyClaimed? && AtMostOneClaim(Ours(acts, c))
    {
      hide Run, Do, Ours;
      var receipt;
      receipt, acts := CloudClaim(c, pending, before, start);
      if receipt.None? { return Failed(CloudFailure), acts; }
      if !ReceiptValid(pending, receipt.value) { return Failed(InvalidCloudReceipt), acts; }
      var recorded;
      recorded, acts := RecordClaimed(c, pending, receipt.value.revision, acts, start);
      if !recorded { return Failed(IdentityFailure), acts; }
      return NewlyClaimed(pending.(phase := Claimed(stable(pending.target, pending.key), receipt.value.revision))),
        acts;
    }

    /** The steps of one call, between and beside any others. */
    method Steps(c: nat, target: Target) returns (r: Ending, ghost acts: seq<Act>)
      requires c !in calls
      modifies this
      ensures View() == Run(stable, old(View()), acts) && c in calls && calls[c] == Done(r)
      ensures r.AlreadyClaimed? ==> |Ours(acts, c)| == 2
      ensures AtMostOneClaim(Ours(acts, c))
    {
      hide Run, Do, Ours, Safe;
      ghost var start := View();
      Perform(Begin(c, target));
      acts := [Begin(c, target)];
      BeginsFresh(stable, start, c, target);
      var status;
      status, acts := LoadStatus(c, target, acts, start);
      if status.None? { return Failed(IdentityFailure), acts; }
      var identity: Identity;
      if status.value.None? {
        var key: Key := *;
        var persisted;
        persisted, acts := PersistKeyGenerated(c, target, key, acts, start);
        if !persisted { return Failed(IdentityFailure), acts; }
        identity := Identity(target, key, KeyGenerated);
      } else {
        identity := status.value.value;
        if identity.target != target { return Failed(IdentityConflict), acts; }
      }
      if !KeyValid(stable, identity) { return Failed(InvalidStoredIdentity), acts; }
      if identity.phase.Claimed? { return AlreadyClaimed(identity), acts; }
      var pending := identity;
      if identity.phase.KeyGenerated? {
        var marked;
        marked, acts := MarkClaimPending(c, identity, acts, start);
        if !marked { return Failed(IdentityFailure), acts; }
        pending := identity.(phase := ClaimPending(stable(identity.target, identity.key)));
      }
      r, acts := ClaimAndRecord(c, pending, acts, start);
    }

    /** One enrollment call, between and beside any others. What it did is a run of the machine in which this call ends
        with the result returned, so everything proved of runs holds of it; it sends at most one claim, and none at all
        if the identity was claimed and no other call in flight when it began. */
    method Enroll(c: nat, target: Target) returns (r: Ending, ghost acts: seq<Act>)
      requires c !in calls
      modifies this
      ensures View() == Run(stable, old(View()), acts) && c in calls && calls[c] == Done(r)
      ensures r.AlreadyClaimed? ==> |Ours(acts, c)| == 2
      ensures AtMostOneClaim(Ours(acts, c))
      ensures ClaimedAndQuiet(stable, old(View())) ==> claims == old(claims) && store == old(store)
    {
      hide Run, Do, Ours, Safe;
      r, acts := Steps(c, target);
      if ClaimedAndQuiet(stable, old(View())) {
        NoClaimAfterClaimed(stable, old(View()), acts);
      }
    }
  }

  predicate OneMore(a: seq<Act>, b: seq<Act>) { |b| == |a| + 1 && a <= b }

  function Last(acts: seq<Act>): Act
    requires acts != []
  {
    acts[|acts| - 1]
  }

  predicate NoClaim(acts: seq<Act>) { forall i :: 0 <= i < |acts| ==> !acts[i].SendClaim? }

  predicate AtMostOneClaim(acts: seq<Act>) {
    forall i, j :: 0 <= i < j < |acts| ==> !(acts[i].SendClaim? && acts[j].SendClaim?)
  }

  lemma BeginsFresh(stable: StableKey, m: Machine, c: nat, target: Target)
    requires c !in m.calls
    ensures var n := Do(stable, m, Begin(c, target));
      c in n.calls && n.calls[c] == Fresh(target) && Run(stable, m, [Begin(c, target)]) == n
    ensures Ours([Begin(c, target)], c) == [Begin(c, target)]
  {
    RunOne(stable, m, Begin(c, target));
    assert [Begin(c, target)][..0] == [];
  }

  lemma OthersKeepMine(stable: StableKey, m: Machine, act: Act, mine: nat)
    requires act.call != mine
    ensures mine in m.calls ==> mine in Do(stable, m, act).calls && Do(stable, m, act).calls[mine] == m.calls[mine]
  {}

  lemma StaysInFlight(stable: StableKey, m: Machine, act: Act, c: nat)
    requires c in m.calls
    ensures c in Do(stable, m, act).calls
  {}

  function Ours(acts: seq<Act>, c: nat): seq<Act> {
    if acts == [] then []
    else Ours(acts[..|acts| - 1], c) + if acts[|acts| - 1].call == c then [acts[|acts| - 1]] else []
  }

  lemma {:induction false} OursConcat(a: seq<Act>, b: seq<Act>, c: nat)
    requires forall i :: 0 <= i < |b| ==> b[i].call != c
    ensures Ours(a + b, c) == Ours(a, c)
  {
    if b == [] { assert a + b == a; }
    else {
      OursConcat(a, b[..|b| - 1], c);
      assert (a + b)[..|a + b| - 1] == a + b[..|b| - 1];
    }
  }

  lemma {:induction false} RunConcat(stable: StableKey, m: Machine, a: seq<Act>, b: seq<Act>)
    ensures Run(stable, m, a + b) == Run(stable, Run(stable, m, a), b)
  {
    if b == [] { assert a + b == a; }
    else {
      RunConcat(stable, m, a, b[..|b| - 1]);
      assert (a + b)[..|a + b| - 1] == a + b[..|b| - 1];
    }
  }
}
