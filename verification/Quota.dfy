/** Quota sessions (policy/quota/quota.go). A Session serializes its backend calls with a token and gives up its
    mutex during each call, so a call begins and ends in two steps; between them any other session may act and
    the network may deliver, repeat or lose what was sent. The backend is any one that keeps its contract. */
module Quota {
  import opened Wrappers

  type Handle = int
  datatype UnitName = UnitName(code: int)
  type Reason = int

  datatype Status = Reserved | Committed | Released | Pending

  datatype Settlement = Settlement(handle: Handle, id: string, actual: map<UnitName, nat>, complete: bool)

  datatype Proof = Proof(handle: Handle, id: string, notExecuted: bool, reason: Reason)

  datatype Call = Retain(kept: Settlement) | Commit(settlement: Settlement) | Free(proof: Proof)

  datatype Error = Conflict | IncompatibleUnits | Canceled | BackendError(code: nat)

  /** `log` is every backend call of the session, with whether it was acknowledged; `busy` says that the last of
      them is still in flight, its token held. */
  datatype Session = Session(
    handle: Handle, estimated: set<UnitName>, status: Status, settlement: Option<Settlement>, release: Option<Proof>,
    log: seq<Sent>, busy: bool)

  datatype Sent = Sent(call: Call, acked: bool)

  datatype Reply = Refused(error: Error) | AlreadyDone | Calling(call: Call)

  function Admit(handle: Handle, estimated: set<UnitName>): Session {
    Session(handle, estimated, Reserved, None, None, [], false)
  }

  // ---------------------------------------------------------------------------------------------
  // Settle and Release up to the backend call, and what follows its answer

  function BeginSettle(s: Session, id: string, actual: map<UnitName, nat>, complete: bool): (Session, Reply) {
    var next := Settlement(s.handle, id, actual, complete);
    if id == "" || s.release.Some? then (s, Refused(Conflict))
    else if !(actual.Keys <= s.estimated) then (s, Refused(IncompatibleUnits))
    else if s.settlement.Some? && Contradicts(s.settlement.value, id, actual, complete) then (s, Refused(Conflict))
    else if s.settlement.Some? && s.status == Committed then (s, AlreadyDone)
    else
      var call := if complete then Commit(next) else Retain(next);
      (s.(settlement := Some(next), status := Pending, log := s.log + [Sent(call, false)], busy := true), Calling(call))
  }

  predicate Contradicts(previous: Settlement, id: string, actual: map<UnitName, nat>, complete: bool) {
    previous.id != id || (previous.complete && (!complete || previous.actual != actual))
  }

  function BeginRelease(s: Session, proof: Proof): (Session, Reply) {
    if proof.handle != s.handle || proof.id == "" || !proof.notExecuted then (s, Refused(Conflict))
    else if s.settlement.Some? && s.settlement.value.complete then (s, Refused(Conflict))
    else if s.release.Some? && s.release.value != proof then (s, Refused(Conflict))
    else if s.status == Released then (s, AlreadyDone)
    else
      (s.(release := Some(proof), status := Pending, log := s.log + [Sent(Free(proof), false)], busy := true),
       Calling(Free(proof)))
  }

  /** The call in flight returned; without an acknowledgement the session stays Pending. */
  function EndCall(s: Session, acked: bool): Session {
    if !s.busy || s.log == [] then s
    else
      var call := s.log[|s.log| - 1].call;
      s.(busy := false, log := s.log[|s.log| - 1 := Sent(call, acked)],
         status := if !acked || call.Retain? then Pending else if call.Commit? then Committed else Released)
  }

  method UnitsAreDeclared(actual: map<UnitName, nat>, estimated: set<UnitName>) returns (declared: bool)
    ensures declared <==> actual.Keys <= estimated
  {
    var units := actual.Keys;
    while units != {}
      invariant units <= actual.Keys && actual.Keys - units <= estimated
      decreases |units|
    {
      var unit :| unit in units;
      if unit !in estimated { return false; }
      units := units - {unit};
    }
    return true;
  }

  /** What a Settle asks for contradicts what was settled before: another ID, or a complete settlement changed. */
  predicate SettleConflicts(s: Session, id: string, actual: map<UnitName, nat>, complete: bool) {
    || id == "" || s.release.Some?
    || (s.settlement.Some? && s.settlement.value.id != id)
    || (s.settlement.Some? && s.settlement.value.complete && !(complete && s.settlement.value.actual == actual))
  }

  predicate Declared(s: Session, actual: map<UnitName, nat>) {
    forall unit :: unit in actual ==> unit in s.estimated
  }

  /** Settle, exactly: what is refused and how, and otherwise which values reach the backend and are remembered. */
  lemma SettleExact(s: Session, id: string, actual: map<UnitName, nat>, complete: bool)
    ensures var (s', reply) := BeginSettle(s, id, actual, complete);
      var asked := Settlement(s.handle, id, actual, complete);
      && (reply.Refused? <==> SettleConflicts(s, id, actual, complete) || !Declared(s, actual))
      && (reply == Refused(Conflict) || reply == Refused(IncompatibleUnits) || !reply.Refused?)
      && (reply == Refused(IncompatibleUnits) <==> !Declared(s, actual) && id != "" && s.release.None?)
      && (reply.AlreadyDone? <==> !reply.Refused? && s.settlement.Some? && s.status == Committed)
      && (reply.Calling? ==> reply.call == if complete then Commit(asked) else Retain(asked))
      && (if reply.Calling? then
            s' == s.(settlement := Some(asked), status := Pending, log := s.log + [Sent(reply.call, false)],
                     busy := true)
          else s' == s)
  {
  }

  /** Release, exactly. */
  lemma ReleaseExact(s: Session, proof: Proof)
    ensures var (s', reply) := BeginRelease(s, proof);
      && (reply == Refused(Conflict) <==>
            || proof.handle != s.handle || proof.id == "" || !proof.notExecuted
            || (s.settlement.Some? && s.settlement.value.complete)
            || (s.release.Some? && s.release.value != proof))
      && (reply.Refused? ==> reply.error == Conflict)
      && (reply.AlreadyDone? <==> !reply.Refused? && s.status == Released)
      && (reply.Calling? ==> reply.call == Free(proof))
      && (if reply.Calling? then
            s' == s.(release := Some(proof), status := Pending, log := s.log + [Sent(Free(proof), false)], busy := true)
          else s' == s)
  {
  }

  /** The end of a call, exactly: only an acknowledged Commit or Release settles the session. */
  lemma EndExact(s: Session, call: Call, acked: bool)
    requires s.busy && s.log != [] && s.log[|s.log| - 1].call == call
    ensures var s' := EndCall(s, acked);
      && !s'.busy && |s'.log| == |s.log| && s'.log[|s.log| - 1] == Sent(call, acked)
      && s'.log[..|s.log| - 1] == s.log[..|s.log| - 1]
      && s'.settlement == s.settlement && s'.release == s.release
      && (s'.status == Committed <==> acked && call.Commit?)
      && (s'.status == Released <==> acked && call.Free?)
      && (s'.status == Pending <==> !acked || call.Retain?)
  {
  }

  /** Session as the source has it. `waiting` is what acquire reported, `answer` what the backend reported. */
  class SessionObject {
    const handle: Handle
    const estimated: set<UnitName>
    var status: Status
    var settlement: Option<Settlement>
    var release: Option<Proof>
    ghost var log: seq<Sent>

    ghost function View(): Session
      reads this
    {
      Session(handle, estimated, status, settlement, release, log, false)
    }

    constructor (handle: Handle, estimated: set<UnitName>)
      ensures View() == Admit(handle, estimated)
    {
      this.handle, this.estimated := handle, estimated;
      status, settlement, release, log := Reserved, None, None, [];
    }

    method Settle(waiting: Option<Error>, id: string, actual: map<UnitName, nat>, complete: bool, answer: Option<Error>)
      returns (err: Option<Error>)
      modifies this
      ensures waiting.Some? ==> View() == old(View()) && err == waiting
      ensures waiting.None? ==>
        var (s, reply) := BeginSettle(old(View()), id, actual, complete);
        && View() == EndCall(s, answer.None?)
        && err == (if reply.Calling? then answer else if reply.AlreadyDone? then None else Some(reply.error))
    {
      if waiting.Some? { return waiting; }
      if id == "" || release.Some? { return Some(Conflict); }
      var declared := UnitsAreDeclared(actual, estimated);
      if !declared { return Some(IncompatibleUnits); }
      var next := Settlement(handle, id, actual, complete);
      if settlement.Some? {
        var previous := settlement.value;
        if previous.id != id || (previous.complete && (!complete || previous.actual != actual)) {
          return Some(Conflict);
        }
        if status == Committed { return None; }
      }
      settlement := Some(next);
      status := Pending;
      log := log + [Sent(if complete then Commit(next) else Retain(next), answer.None?)];
      if complete && answer.None? { status := Committed; }
      return answer;
    }

    method Release(waiting: Option<Error>, proof: Proof, answer: Option<Error>) returns (err: Option<Error>)
      modifies this
      ensures waiting.Some? ==> View() == old(View()) && err == waiting
      ensures waiting.None? ==>
        var (s, reply) := BeginRelease(old(View()), proof);
        && View() == EndCall(s, answer.None?)
        && err == (if reply.Calling? then answer else if reply.AlreadyDone? then None else Some(reply.error))
    {
      if waiting.Some? { return waiting; }
      if proof.handle != handle || proof.id == "" || !proof.notExecuted { return Some(Conflict); }
      if settlement.Some? && settlement.value.complete { return Some(Conflict); }
      if release.Some? && release.value != proof { return Some(Conflict); }
      if status == Released { return None; }
      release := Some(proof);
      status := Pending;
      log := log + [Sent(Free(proof), answer.None?)];
      if answer.None? { status := Released; }
      return answer;
    }
  }

  // ---------------------------------------------------------------------------------------------
  // One session's calls

  /** The final call the session has bound itself to. */
  function Intent(s: Session): Option<Call> {
    if s.release.Some? then Some(Free(s.release.value))
    else if s.settlement.Some? && s.settlement.value.complete then Some(Commit(s.settlement.value))
    else None
  }

  predicate Final(call: Call) {
    !call.Retain?
  }

  predicate Settled(s: Session) {
    s.status == Committed || s.status == Released
  }

  /** Retain calls first, then only the intended final call; nothing follows its acknowledgement. */
  ghost predicate LogFollowsIntent(s: Session) {
    && (forall i :: 0 <= i < |s.log| && Final(s.log[i].call) ==> Some(s.log[i].call) == Intent(s))
    && (forall i, j :: 0 <= i < j < |s.log| && Final(s.log[i].call) ==> Final(s.log[j].call))
    && (forall i :: 0 <= i < |s.log| && Final(s.log[i].call) && s.log[i].acked ==> i == |s.log| - 1 && Settled(s))
  }

  ghost predicate StatusFollowsLog(s: Session) {
    && (s.busy ==> s.log != [] && s.status == Pending)
    && (Settled(s) ==> s.log != [] && s.log[|s.log| - 1].acked && Intent(s) == Some(s.log[|s.log| - 1].call))
    && (s.status == Committed ==> Intent(s).Some? && Intent(s).value.Commit?)
    && (s.status == Released ==> Intent(s).Some? && Intent(s).value.Free?)
    && (s.log == [] ==> s.status == Reserved && s.settlement.None? && s.release.None?)
  }

  /** Every call names the session's handle, and every settlement its one settlement ID. */
  ghost predicate CallsAreOwn(s: Session) {
    && (s.settlement.Some? ==> s.settlement.value.handle == s.handle && s.settlement.value.id != "")
    && (s.settlement.Some? ==> s.settlement.value.actual.Keys <= s.estimated)
    && (s.release.Some? ==> s.release.value.handle == s.handle)
    && (s.release.Some? ==> s.release.value.id != "" && s.release.value.notExecuted)
    && (s.release.Some? && s.settlement.Some? ==> !s.settlement.value.complete)
    && (forall i :: 0 <= i < |s.log| ==> HandleOf(s.log[i].call) == s.handle)
    && (forall i :: 0 <= i < |s.log| && !s.log[i].call.Free? ==>
          s.settlement.Some? && SettlementOf(s.log[i].call).id == s.settlement.value.id)
  }

  function SettlementOf(call: Call): Settlement
    requires !call.Free?
  {
    if call.Commit? then call.settlement else call.kept
  }

  function HandleOf(call: Call): Handle {
    if call.Free? then call.proof.handle else SettlementOf(call).handle
  }

  ghost predicate SessionSound(s: Session) {
    LogFollowsIntent(s) && StatusFollowsLog(s) && CallsAreOwn(s)
  }

  lemma SettleKeepsSound(s: Session, id: string, actual: map<UnitName, nat>, complete: bool)
    requires SessionSound(s) && !s.busy
    ensures SessionSound(BeginSettle(s, id, actual, complete).0)
  {
  }

  lemma ReleaseKeepsSound(s: Session, proof: Proof)
    requires SessionSound(s) && !s.busy
    ensures SessionSound(BeginRelease(s, proof).0)
  {
  }

  lemma EndKeepsSound(s: Session, acked: bool)
    requires SessionSound(s)
    ensures SessionSound(EndCall(s, acked))
  {
  }

  /** Recovery: a session bound to a final call may always repeat it. Until it is acknowledged the same call is sent
      again; afterwards the repetition succeeds without a call. */
  lemma RepeatIsTheSameCall(s: Session)
    requires SessionSound(s) && !s.busy && Intent(s).Some?
    ensures var again := Intent(s).value;
      var reply := if again.Commit? then BeginSettle(s, again.settlement.id, again.settlement.actual, true).1
                   else if again.Free? then BeginRelease(s, again.proof).1 else AlreadyDone;
      reply == (if Settled(s) then AlreadyDone else Calling(again))
  {
  }

  /** Once bound, a session sends nothing but its final call. */
  lemma BoundSessionsOnlyRepeat(s: Session, id: string, actual: map<UnitName, nat>, complete: bool, proof: Proof)
    requires SessionSound(s) && !s.busy && Intent(s).Some?
    ensures var reply := BeginSettle(s, id, actual, complete).1; reply.Calling? ==> Some(reply.call) == Intent(s)
    ensures var reply := BeginRelease(s, proof).1; reply.Calling? ==> Some(reply.call) == Intent(s)
  {
  }

  // ---------------------------------------------------------------------------------------------
  // Any number of sessions, one backend, an unreliable network

  /** What the backend durably knows about a handle. */
  datatype Entry = Untouched | Retained(kept: Settlement) | Charged(settlement: Settlement) | Freed(proof: Proof)

  predicate Closed(e: Entry) {
    e.Charged? || e.Freed?
  }

  function Effect(call: Call): Entry {
    match call
    case Retain(kept) => Retained(kept)
    case Commit(settlement) => Charged(settlement)
    case Free(proof) => Freed(proof)
  }

  /** The Backend contract: a finalized handle never changes again, a call has its own effect or none, and an
      acknowledged Commit or Release is in effect. Refusing is always allowed. */
  predicate Contract(before: Entry, call: Call, after: Entry, ok: bool) {
    && (after == before || (!Closed(before) && after == Effect(call)))
    && (ok && Final(call) ==> after == Effect(call))
  }

  /** `acks` are the final calls the backend has acknowledged. */
  datatype World = World(sessions: seq<Session>, ledger: map<Handle, Entry>, acks: set<Call>)

  function Lookup(w: World, h: Handle): Entry {
    if h in w.ledger then w.ledger[h] else Untouched
  }

  datatype Act =
    | Settle(i: nat, id: string, actual: map<UnitName, nat>, complete: bool)
    | Release(i: nat, proof: Proof)
    | Deliver(i: nat, k: nat, after: Entry, ok: bool)   // the k-th call of session i reaches the backend, perhaps again
    | Answer(i: nat, acked: bool)                       // the call in flight returns

  /** An acknowledgement of a final call cannot be forged; everything else about an answer can. */
  predicate Honest(w: World, s: Session, acked: bool) {
    s.busy && s.log != [] && (acked && Final(s.log[|s.log| - 1].call) ==> s.log[|s.log| - 1].call in w.acks)
  }

  function Step(w: World, act: Act): World {
    if act.i >= |w.sessions| then w
    else
      var s := w.sessions[act.i];
      match act
      case Settle(i, id, actual, complete) =>
        if s.busy then w else w.(sessions := w.sessions[i := BeginSettle(s, id, actual, complete).0])
      case Release(i, proof) =>
        if s.busy then w else w.(sessions := w.sessions[i := BeginRelease(s, proof).0])
      case Deliver(i, k, after, ok) =>
        if k < |s.log| && Contract(Lookup(w, s.handle), s.log[k].call, after, ok) then
          w.(ledger := w.ledger[s.handle := after],
             acks := if ok && Final(s.log[k].call) then w.acks + {s.log[k].call} else w.acks)
        else w
      case Answer(i, acked) =>
        if Honest(w, s, acked) then w.(sessions := w.sessions[i := EndCall(s, acked)]) else w
  }

  function Exec(w: World, acts: seq<Act>): World
    decreases |acts|
  {
    if acts == [] then w else Exec(Step(w, acts[0]), acts[1..])
  }

  ghost predicate Initial(w: World) {
    && w.ledger == map[] && w.acks == {}
    && forall i :: 0 <= i < |w.sessions| ==> w.sessions[i] == Admit(w.sessions[i].handle, w.sessions[i].estimated)
  }

  ghost predicate AllSound(w: World) {
    forall i :: 0 <= i < |w.sessions| ==> SessionSound(w.sessions[i])
  }

  /** Acknowledged calls are in effect, and acknowledged sessions hold such a call. */
  ghost predicate AcksInEffect(w: World) {
    && (forall call :: call in w.acks ==> Final(call) && Lookup(w, HandleOf(call)) == Effect(call))
    && (forall i :: 0 <= i < |w.sessions| && Settled(w.sessions[i]) && Intent(w.sessions[i]).Some? ==>
          Intent(w.sessions[i]).value in w.acks)
  }

  /** Whoever finalized a handle is a session on that handle bound to exactly that call. */
  ghost predicate FinalsHaveAuthors(w: World) {
    forall h :: Closed(Lookup(w, h)) ==> Authored(w, h)
  }

  ghost predicate Authored(w: World, h: Handle) {
    exists i :: 0 <= i < |w.sessions| && w.sessions[i].handle == h && IntendsEntry(w.sessions[i], Lookup(w, h))
  }

  predicate IntendsEntry(s: Session, e: Entry) {
    Intent(s).Some? && Effect(Intent(s).value) == e
  }

  /** A session keeps its handle, and an intent once formed is never given up. */
  predicate Continues(s: Session, s': Session) {
    s'.handle == s.handle && (Intent(s).Some? ==> Intent(s') == Intent(s))
  }

  lemma SettleContinues(s: Session, id: string, actual: map<UnitName, nat>, complete: bool)
    requires SessionSound(s) && !s.busy
    ensures Continues(s, BeginSettle(s, id, actual, complete).0)
    ensures Settled(BeginSettle(s, id, actual, complete).0) ==> BeginSettle(s, id, actual, complete).0 == s
  {
  }

  lemma ReleaseContinues(s: Session, proof: Proof)
    requires SessionSound(s) && !s.busy
    ensures Continues(s, BeginRelease(s, proof).0)
    ensures Settled(BeginRelease(s, proof).0) ==> BeginRelease(s, proof).0 == s
  {
  }

  /** Replacing one session by a later version of itself keeps what is known about the ledger. */
  lemma SessionMoves(w: World, i: nat, s': Session)
    requires i < |w.sessions| && AllSound(w) && AcksInEffect(w) && FinalsHaveAuthors(w)
    requires SessionSound(s') && Continues(w.sessions[i], s')
    requires Settled(s') && Intent(s').Some? ==> Intent(s').value in w.acks
    ensures AllSound(w.(sessions := w.sessions[i := s'])) && AcksInEffect(w.(sessions := w.sessions[i := s']))
    ensures FinalsHaveAuthors(w.(sessions := w.sessions[i := s']))
  {
    var w' := w.(sessions := w.sessions[i := s']);
    forall h | Closed(Lookup(w', h)) ensures Authored(w', h) {
      assert Lookup(w', h) == Lookup(w, h) && Authored(w, h);
      var j :| 0 <= j < |w.sessions| && w.sessions[j].handle == h && IntendsEntry(w.sessions[j], Lookup(w, h));
      assert w'.sessions[j].handle == h && IntendsEntry(w'.sessions[j], Lookup(w', h));
    }
  }

  lemma DeliverKeeps(w: World, i: nat, k: nat, after: Entry, ok: bool)
    requires AllSound(w) && AcksInEffect(w) && FinalsHaveAuthors(w)
    ensures var w' := Step(w, Deliver(i, k, after, ok)); AllSound(w') && AcksInEffect(w') && FinalsHaveAuthors(w')
  {
    var w' := Step(w, Deliver(i, k, after, ok));
    if i < |w.sessions| && k < |w.sessions[i].log|
       && Contract(Lookup(w, w.sessions[i].handle), w.sessions[i].log[k].call, after, ok) {
      var s := w.sessions[i];
      assert SessionSound(s);
      assert HandleOf(s.log[k].call) == s.handle;
      forall h | Closed(Lookup(w', h)) ensures Authored(w', h) {
        if Lookup(w', h) == Lookup(w, h) {
          assert Authored(w, h);
        } else {
          assert h == s.handle && after == Effect(s.log[k].call);
          assert IntendsEntry(w'.sessions[i], Lookup(w', h));
        }
      }
    }
  }

  ghost predicate Inv(w: World) {
    AllSound(w) && AcksInEffect(w) && FinalsHaveAuthors(w)
  }

  lemma StepKeeps(w: World, act: Act)
    requires Inv(w)
    ensures Inv(Step(w, act)) && |Step(w, act).sessions| == |w.sessions|
    ensures forall i :: 0 <= i < |w.sessions| ==> Step(w, act).sessions[i].handle == w.sessions[i].handle
  {
    if act.i < |w.sessions| {
      var s := w.sessions[act.i];
      match act
      case Settle(i, id, actual, complete) =>
        if !s.busy {
          SettleKeepsSound(s, id, actual, complete);
          SettleContinues(s, id, actual, complete);
          SessionMoves(w, i, BeginSettle(s, id, actual, complete).0);
        }
      case Release(i, proof) =>
        if !s.busy {
          ReleaseKeepsSound(s, proof);
          ReleaseContinues(s, proof);
          SessionMoves(w, i, BeginRelease(s, proof).0);
        }
      case Deliver(i, k, after, ok) => DeliverKeeps(w, i, k, after, ok);
      case Answer(i, acked) =>
        if Honest(w, s, acked) {
          EndKeepsSound(s, acked);
          SessionMoves(w, i, EndCall(s, acked));
        }
    }
  }

  lemma {:induction false} ExecKeeps(w: World, acts: seq<Act>)
    requires Inv(w)
    ensures Inv(Exec(w, acts)) && |Exec(w, acts).sessions| == |w.sessions|
    ensures forall i :: 0 <= i < |w.sessions| ==> Exec(w, acts).sessions[i].handle == w.sessions[i].handle
    decreases |acts|
  {
    if acts != [] {
      StepKeeps(w, acts[0]);
      ExecKeeps(Step(w, acts[0]), acts[1..]);
    }
  }

  lemma RunIsSound(w: World, acts: seq<Act>)
    requires Initial(w)
    ensures Inv(Exec(w, acts)) && |Exec(w, acts).sessions| == |w.sessions|
    ensures forall i :: 0 <= i < |w.sessions| ==> Exec(w, acts).sessions[i].handle == w.sessions[i].handle
  {
    ExecKeeps(w, acts);
  }

  /** Pending calls, then only identical Commits or only identical Releases, none after an acknowledged one. */
  ghost predicate Disciplined(log: seq<Sent>, settled: nat) {
    && settled <= |log|
    && (forall i :: 0 <= i < settled ==> log[i].call.Retain?)
    && (forall i :: settled <= i < |log| ==> Final(log[i].call) && log[i].call == log[settled].call)
    && (forall i :: settled <= i < |log| - 1 ==> !log[i].acked)
    && (forall i, j :: 0 <= i < |log| && 0 <= j < |log| ==> SameAccount(log[i].call, log[j].call))
  }

  predicate SameAccount(a: Call, b: Call) {
    HandleOf(a) == HandleOf(b) && (!a.Free? && !b.Free? ==> SettlementOf(a).id == SettlementOf(b).id)
  }

  lemma EverySessionIsDisciplined(w: World, acts: seq<Act>, i: nat)
    requires Initial(w) && i < |w.sessions|
    ensures |Exec(w, acts).sessions| == |w.sessions|
    ensures exists settled: nat :: Disciplined(Exec(w, acts).sessions[i].log, settled)
  {
    RunIsSound(w, acts);
    assert SessionSound(Exec(w, acts).sessions[i]);
    SoundIsDisciplined(Exec(w, acts).sessions[i]);
  }

  lemma SoundIsDisciplined(s: Session)
    requires SessionSound(s)
    ensures Disciplined(s.log, FirstFinal(s.log))
  {
    forall i, j | 0 <= i < |s.log| && 0 <= j < |s.log| ensures SameAccount(s.log[i].call, s.log[j].call) {
      assert HandleOf(s.log[i].call) == s.handle == HandleOf(s.log[j].call);
    }
  }

  function FirstFinal(log: seq<Sent>): (k: nat)
    ensures k <= |log| && (forall i :: 0 <= i < k ==> !Final(log[i].call)) && (k < |log| ==> Final(log[k].call))
  {
    if log == [] || Final(log[0].call) then 0 else FirstFinal(log[1..]) + 1
  }

  /** The ledger holds exactly what a settled session was told it holds. */
  predicate LedgerHolds(w: World, i: nat)
    requires i < |w.sessions|
  {
    var s := w.sessions[i];
    && (s.status == Committed ==> s.settlement.Some? && Lookup(w, s.handle) == Charged(s.settlement.value))
    && (s.status == Released ==> s.release.Some? && Lookup(w, s.handle) == Freed(s.release.value))
  }

  /** What a session holds was asked for: its settlement by a Settle with those very values, its release by a Release
      with that proof. */
  ghost predicate AskedFor(w: World, acts: seq<Act>) {
    forall i :: 0 <= i < |w.sessions| ==>
      SettlementAsked(w.sessions[i], i, acts) && ReleaseAsked(w.sessions[i], i, acts)
  }

  ghost predicate SettlementAsked(s: Session, i: nat, acts: seq<Act>) {
    s.settlement.Some? ==>
      && s.settlement.value.handle == s.handle
      && Settle(i, s.settlement.value.id, s.settlement.value.actual, s.settlement.value.complete) in acts
  }

  ghost predicate ReleaseAsked(s: Session, i: nat, acts: seq<Act>) {
    s.release.Some? ==> Release(i, s.release.value) in acts
  }

  lemma StepAsks(w: World, done: seq<Act>, act: Act)
    requires AskedFor(w, done)
    ensures AskedFor(Step(w, act), done + [act])
  {
    if act.i < |w.sessions| {
      if act.Settle? { SettleExact(w.sessions[act.i], act.id, act.actual, act.complete); }
      if act.Release? { ReleaseExact(w.sessions[act.i], act.proof); }
    }
    forall i | 0 <= i < |w.sessions|
      ensures SettlementAsked(Step(w, act).sessions[i], i, done + [act])
      ensures ReleaseAsked(Step(w, act).sessions[i], i, done + [act])
    {
      assert SettlementAsked(w.sessions[i], i, done) && ReleaseAsked(w.sessions[i], i, done);
      assert act in done + [act];
    }
  }

  lemma {:induction false} ExecAsks(w: World, done: seq<Act>, acts: seq<Act>)
    requires AskedFor(w, done)
    ensures AskedFor(Exec(w, acts), done + acts)
    decreases |acts|
  {
    if acts == [] {
      assert done + acts == done;
    } else {
      StepAsks(w, done, acts[0]);
      ExecAsks(Step(w, acts[0]), done + [acts[0]], acts[1..]);
      assert done + [acts[0]] + acts[1..] == done + acts;
    }
  }

  /** What the ledger holds for a settled session is what some caller reported: a committed session's entry is the usage
      of one of its own complete Settle calls, a released one's the proof of one of its own Release calls. */
  lemma LedgerHoldsWhatWasReported(w: World, acts: seq<Act>, i: nat)
    requires Initial(w) && i < |w.sessions|
    ensures var w' := Exec(w, acts);
      && |w'.sessions| == |w.sessions|
      && (w'.sessions[i].status == Committed ==> exists id: string, actual: map<UnitName, nat> ::
            && Settle(i, id, actual, true) in acts
            && Lookup(w', w.sessions[i].handle) == Charged(Settlement(w.sessions[i].handle, id, actual, true)))
      && (w'.sessions[i].status == Released ==> exists proof: Proof ::
            Release(i, proof) in acts && Lookup(w', w.sessions[i].handle) == Freed(proof))
  {
    RunIsSound(w, acts);
    ExecAsks(w, [], acts);
    assert [] + acts == acts;
    var w' := Exec(w, acts);
    SettledEntry(w', i);
    var s := w'.sessions[i];
    assert SettlementAsked(s, i, acts) && ReleaseAsked(s, i, acts);
    assert SessionSound(s);
    if s.status == Committed {
      var asked := s.settlement.value;
      assert asked == Settlement(s.handle, asked.id, asked.actual, true);
    }
  }

  /** Exclusivity: however acknowledgements are lost and calls repeated, no handle ends committed for one session
      and released for another, and a committed session's usage is exactly what the ledger holds. */
  lemma FinalStatesAreExclusive(w: World, acts: seq<Act>, i: nat, j: nat)
    requires Initial(w) && i < |w.sessions| && j < |w.sessions| && w.sessions[i].handle == w.sessions[j].handle
    ensures var w' := Exec(w, acts);
      && |w'.sessions| == |w.sessions|
      && !(w'.sessions[i].status == Committed && w'.sessions[j].status == Released)
      && LedgerHolds(w', i)
  {
    RunIsSound(w, acts);
    var w' := Exec(w, acts);
    SettledEntry(w', i);
    SettledEntry(w', j);
  }

  lemma SettledEntry(w: World, i: nat)
    requires Inv(w) && i < |w.sessions|
    ensures var s := w.sessions[i]; Settled(s) ==>
      && Intent(s).Some? && Lookup(w, s.handle) == Effect(Intent(s).value)
      && (s.status == Committed <==> Intent(s).value.Commit?)
  {
    var s := w.sessions[i];
    assert SessionSound(s);
    if Settled(s) {
      assert Intent(s).value in w.acks;
      assert HandleOf(Intent(s).value) == s.handle;
    }
  }

  /** A lost acknowledgement never strands a handle: where only one session uses it, a finalized ledger entry is
      the one that session is bound to, so repeating the same call is the right recovery. */
  lemma LostAcknowledgementAgrees(w: World, acts: seq<Act>, i: nat)
    requires Initial(w) && i < |w.sessions|
    requires forall j :: 0 <= j < |w.sessions| && j != i ==> w.sessions[j].handle != w.sessions[i].handle
    ensures var w' := Exec(w, acts);
      && |w'.sessions| == |w.sessions|
      && (Closed(Lookup(w', w.sessions[i].handle)) ==> IntendsEntry(w'.sessions[i], Lookup(w', w.sessions[i].handle)))
  {
    RunIsSound(w, acts);
    var w' := Exec(w, acts);
    if Closed(Lookup(w', w.sessions[i].handle)) {
      assert Authored(w', w.sessions[i].handle);
    }
  }
}
