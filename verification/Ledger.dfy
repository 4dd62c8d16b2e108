/**
 The ledger object: its tables as fields, each public method one transaction.
 Every method keeps the stored history acceptable to the verifier and says exactly
 when it succeeds and what it writes.
 */
module Ledger {
  import opened Wrappers
  import opened Plans
  import opened LedgerTables
  import opened LedgerAudit
  import opened LedgerOps
  import opened LedgerRuns

  class Ledger {
    var version: nat
    var plan: seq<Row>
    var attempts: map<Id, Attempt>
    var events: seq<Event>
    var reconciliations: map<Id, Reconciliation>
    var retries: map<Id, Retry>

    function View(): Db
      reads this
    {
      Db(version, plan, attempts, events, reconciliations, retries)
    }

    ghost predicate Valid()
      reads this
    {
      Healthy(View())
    }

    /** Write the schema and seed one planned row per item. */
    constructor (plan: seq<Row>)
      requires ValidPlan(plan)
      ensures Valid() && View() == Created(plan)
    {
      this.version, this.plan := 1, plan;
      attempts, reconciliations, retries := map[], map[], map[];
      events := Created(plan).events;
      new;
      CreatedHealthy(plan);
    }

    /** Refuse an invalid plan before anything is created. */
    static method Create(plan: seq<Row>) returns (r: Ledger?)
      ensures r != null <==> ValidPlan(plan)
      ensures r != null ==> fresh(r) && r.Valid() && r.View() == Created(plan)
    {
      r := null;
      var ok := ValidatePlan(plan);
      if ok {
        r := new Ledger(plan);
      }
    }

    /** One guarded insert into the event table. */
    method Append(w: Id, state: State, attempt: Option<Id>, request: Option<Digest>, result: Option<Digest>,
                  code: Option<Code>)
        returns (ok: bool)
      modifies this`events
      ensures ok <==> InsertEvent(old(View()), w, state, attempt, request, result, code).Some?
      ensures ok ==> Some(View()) == InsertEvent(old(View()), w, state, attempt, request, result, code)
      ensures !ok ==> View() == old(View())
    {
      var e := Event(NextId(events), w, state, attempt, request, result, code);
      ok := EventRowOk(e) && ForeignKeys(View(), e) && EventGuard(View(), e);
      if ok {
        events := events + [e];
      }
    }

    method Reserve(w: Id, request: Digest, uuid: Id, admit: nat -> bool) returns (r: Result<Id, Error>)
      requires Valid()
      modifies this
      ensures Valid()
      ensures r.Ok? <==>
        old(InState(View(), w, Planned) && DepsCompleted(View(), w) && admit(|attempts| + 1) && uuid !in attempts)
      ensures r.Ok? ==> r.value == uuid
      ensures r.Ok? ==>
        View() == Plus(WithAttempt(old(View()), uuid, w, request), ReservedRow(old(View()), w, request, uuid))
      ensures r.Err? ==> View() == old(View())
    {
      ReserveAgrees(View(), w, request, uuid, admit);
      var c := Current(View(), w);
      if c.None? {
        return Err(UnknownWork);
      }
      if c.value.state != Planned {
        return Err(InvalidTransition);
      }
      if Unresolved(View(), w) {
        return Err(Error.DependencyUnresolved);
      }
      if !admit(|attempts| + 1) {
        return Err(AdmissionExhausted);
      }
      if InsertAttempt(View(), uuid, Attempt(w, request)).None? {
        return Err(GuardAborted);
      }
      attempts := attempts[uuid := Attempt(w, request)];
      var ok := Append(w, Reserved, Some(uuid), Some(request), None, None);
      return Ok(uuid);
    }

    method Move(a: Id, source: State, target: State, result: Option<Digest>, code: Option<Code>)
      returns (r: Result<(), Error>)
      requires Valid() && PlainMove(source, target, result, code)
      modifies this`events
      ensures Valid()
      ensures r.Ok? <==> old(a in attempts && InState(View(), attempts[a].work, source))
      ensures r.Ok? ==> old(a in attempts && Current(View(), attempts[a].work).Some?)
      ensures r.Ok? ==> View() == Plus(old(View()), MoveRow(old(View()), a, target, result, code))
      ensures r.Err? ==> View() == old(View())
    {
      TransitionAgrees(View(), a, source, target, result, code);
      if a !in attempts {
        return Err(UnknownAttempt);
      }
      var c := Current(View(), attempts[a].work);
      if c.None? {
        return Err(UnknownWork);
      }
      if c.value.state != source || c.value.attempt != Some(a) {
        return Err(InvalidTransition);
      }
      var digest := if target == Completed then c.value.result else result;
      var ok := Append(c.value.work, target, Some(a), c.value.request, digest, code);
      return Ok(());
    }

    /** The single durable step before any provider call. */
    method Start(a: Id) returns (r: Result<(), Error>)
      requires Valid()
      modifies this`events
      ensures Valid()
      ensures r.Ok? <==> old(a in attempts && InState(View(), attempts[a].work, Reserved))
      ensures r.Ok? ==> InState(View(), attempts[a].work, InFlight)
      ensures r.Err? ==> View() == old(View())
    {
      r := Move(a, Reserved, InFlight, None, None);
      MovedState(old(View()), a, InFlight, None, None);
    }

    method RecordResult(a: Id, result: Digest) returns (r: Result<(), Error>)
      requires Valid()
      modifies this`events
      ensures Valid()
      ensures r.Ok? <==> old(a in attempts && InState(View(), attempts[a].work, InFlight))
      ensures r.Ok? ==> InState(View(), attempts[a].work, ResultSaved)
      ensures r.Ok? ==> Current(View(), attempts[a].work).value.result == Some(result)
      ensures r.Err? ==> View() == old(View())
    {
      r := Move(a, InFlight, ResultSaved, Some(result), None);
      MovedState(old(View()), a, ResultSaved, Some(result), None);
    }

    /** Completion keeps the digest the result was saved with. */
    method Complete(a: Id) returns (r: Result<(), Error>)
      requires Valid()
      modifies this`events
      ensures Valid()
      ensures r.Ok? <==> old(a in attempts && InState(View(), attempts[a].work, ResultSaved))
      ensures r.Ok? ==> InState(View(), attempts[a].work, Completed)
      ensures r.Ok? ==>
        Current(View(), attempts[a].work).value.result == old(Current(View(), attempts[a].work).value.result)
      ensures r.Err? ==> View() == old(View())
    {
      r := Move(a, ResultSaved, Completed, None, None);
      MovedState(old(View()), a, Completed, None, None);
    }

    method Fail(a: Id, code: Code, limited: bool) returns (r: Result<(), Error>)
      requires Valid()
      modifies this`events
      ensures Valid()
      ensures r.Ok? <==> IsFailureCode(code) && old(a in attempts && InState(View(), attempts[a].work, InFlight))
      ensures r.Ok? ==> InState(View(), attempts[a].work, if limited then Limited else Failed)
      ensures r.Ok? ==> Current(View(), attempts[a].work).value.code == Some(code)
      ensures r.Err? ==> View() == old(View())
    {
      if !IsFailureCode(code) {
        return Err(InvalidCode);
      }
      var target := if limited then Limited else Failed;
      r := Move(a, InFlight, target, None, Some(code));
      MovedState(old(View()), a, target, None, Some(code));
    }

    method Skip(w: Id, state: State, code: Code) returns (r: Result<(), Error>)
      requires Valid()
      modifies this`events
      ensures Valid()
      ensures r.Ok? <==>
        (state == Unavailable || state == Blocked) && IsSkipCode(code) && old(InState(View(), w, Planned))
      ensures r.Ok? ==> View() == Plus(old(View()), Event(NextId(old(events)), w, state, None, None, None, Some(code)))
      ensures r.Err? ==> View() == old(View())
    {
      SkipAgrees(View(), w, state, code);
      if state != Unavailable && state != Blocked {
        return Err(InvalidState);
      }
      if !IsSkipCode(code) {
        return Err(InvalidCode);
      }
      var c := Current(View(), w);
      if c.None? {
        return Err(UnknownWork);
      }
      if c.value.state != Planned {
        return Err(InvalidTransition);
      }
      var ok := Append(w, state, None, None, None, Some(code));
      return Ok(());
    }

    /** Mark every in-flight attempt uncertain; everything else keeps its row. */
    method Recover()
      requires Valid()
      modifies this`events
      ensures Valid()
      ensures SameTables(old(View()), View())
      ensures forall w :: if old(InState(View(), w, InFlight)) then MarkedUncertain(old(View()), View(), w)
                          else Current(View(), w) == old(Current(View(), w))
      ensures (forall w :: !old(InState(View(), w, InFlight))) ==> View() == old(View())
    {
      hide MarkedUncertain, InState;
      ghost var start := View();
      RecoverAgrees(start);
      var works := InFlightWorks(View());
      var i := 0;
      while i < |works|
        invariant 0 <= i <= |works|
        invariant MarkUncertain(View(), works[i..]) == LedgerOps.Recover(start)
        invariant LedgerOps.Recover(start).Ok?
      {
        var c := Current(View(), works[i]);
        assert works[i..][0] == works[i] && works[i..][1..] == works[i + 1..];
        var ok := Append(works[i], Uncertain, c.value.attempt, c.value.request, None, Some(Interrupted));
        i := i + 1;
      }
      assert works[i..] == [];
    }

    /** Grant the one retry, upgrading the schema to version 3 on first use. */
    method AuthorizeUnsentRetry(a: Id, receipt: Digest, evidence: Digest) returns (r: Result<(), Error>)
      requires Valid()
      modifies this
      ensures Valid()
      ensures r.Ok? <==> old(a in attempts && InState(View(), attempts[a].work, Uncertain) && a !in retries)
      ensures r.Ok? ==> View() == RetriedDb(old(View()), a, receipt, evidence)
      ensures r.Err? ==> View() == old(View())
    {
      RetryAgrees(View(), a, receipt, evidence);
      var c := RowOfAttempt(View(), plan, a);
      if c.None? || c.value.state != Uncertain {
        return Err(InvalidTransition);
      }
      if version >= 3 && a in retries {
        return Err(RetryAlreadyUsed);
      }
      var granted := GrantRetry(a, receipt, evidence);
      return if granted then Ok(()) else Err(GuardAborted);
    }

    /** The writes of a granted retry: schema upgrade, evidence row, reserved event, full verification. */
    method GrantRetry(a: Id, receipt: Digest, evidence: Digest) returns (ok: bool)
      requires Valid() && a in attempts && InState(View(), attempts[a].work, Uncertain) && a !in retries
      modifies this
      ensures ok && Valid() && View() == RetriedDb(old(View()), a, receipt, evidence)
    {
      hide InsertRetry, InsertEvent, Sane, Accepts, Current;
      ghost var start := View();
      RetryWrites(start, a, receipt, evidence);
      var c := Current(View(), attempts[a].work).value;
      if version < 3 {
        version := 3;
      }
      var row := Retry(c.id, receipt, evidence);
      ok := InsertRetry(View(), a, row).Some?;
      retries := retries[a := row];
      assert View() == RetryTables(start, a, receipt, evidence);
      var appended := Append(c.work, Reserved, Some(a), c.request, None, None);
      var verified := VerifyHistory(View());
      ok := ok && appended && verified;
    }

    /** Record a recovered result, upgrading the schema to version 2 on first use. */
    method ReconcileResult(a: Id, result: Digest, receipt: Digest) returns (r: Result<(), Error>)
      requires Valid()
      modifies this
      ensures Valid()
      ensures r.Ok? <==> old(a in attempts
        && if a in reconciliations then reconciliations[a] == Reconciliation(receipt, result)
                                              else InState(View(), attempts[a].work, Uncertain))
      ensures r.Ok? ==> View() == if old(a in reconciliations) then old(View())
                                  else Plus(ReconcileTables(old(View()), a, result, receipt),
                                            ReconcileRow(old(View()), a, result))
      ensures r.Err? ==> View() == old(View())
    {
      ReconcileAgrees(View(), a, result, receipt);
      AttemptRow(View(), a);
      var c := RowOfAttempt(View(), plan, a);
      if c.None? {
        return Err(InvalidTransition);
      }
      if version >= 2 && a in reconciliations {
        if reconciliations[a] != Reconciliation(receipt, result) {
          return Err(ReconciliationMismatch);
        }
        return Ok(());
      }
      if c.value.state != Uncertain {
        return Err(InvalidTransition);
      }
      var written := WriteReconciliation(a, result, receipt);
      return if written then Ok(()) else Err(GuardAborted);
    }

    /** The writes of a reconciliation: schema upgrade, evidence row, saved event, full verification. */
    method WriteReconciliation(a: Id, result: Digest, receipt: Digest) returns (ok: bool)
      requires Valid() && a in attempts && InState(View(), attempts[a].work, Uncertain)
      modifies this
      ensures ok && Valid()
        && View() == Plus(ReconcileTables(old(View()), a, result, receipt), ReconcileRow(old(View()), a, result))
    {
      hide InsertReconciliation, InsertEvent, Sane, Accepts, Current;
      ghost var start := View();
      ReconcileWrites(start, a, result, receipt);
      var c := Current(View(), attempts[a].work).value;
      if version < 2 {
        version := 2;
      }
      var row := Reconciliation(receipt, result);
      ok := InsertReconciliation(View(), a, row).Some?;
      reconciliations := reconciliations[a := row];
      assert View() == ReconcileTables(start, a, result, receipt);
      var appended := Append(c.work, ResultSaved, Some(a), c.request, Some(result), None);
      var verified := VerifyHistory(View());
      ok := ok && appended && verified;
    }
  }

  lemma MovedState(db: Db, a: Id, target: State, result: Option<Digest>, code: Option<Code>)
    ensures a in db.attempts && Current(db, db.attempts[a].work).Some? ==>
      var e := MoveRow(db, a, target, result, code); Current(Plus(db, e), db.attempts[a].work) == Some(e)
  {
    if a in db.attempts && Current(db, db.attempts[a].work).Some? {
      CurrentAfterAppend(db.events, MoveRow(db, a, target, result, code), db.attempts[a].work);
    }
  }
}
