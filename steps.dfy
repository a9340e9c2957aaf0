/**
 * The durable-step engine as the pipelines see it. Every `step.run` is an entry in the run's
 * ledger, keyed by its name and by how many steps of that name came before it (the helpers
 * reuse names such as "update-video-status"). A run also leaves a trace of effects: the record
 * writes its steps made, the events it sent and the e-mails it handed over. Cancellation is the
 * number of ledger entries after which the engine has seen the cancel event; from then on no
 * step starts.
 */
module Steps {
  import opened Wrappers
  import opened Tables
  import opened Schema
  import opened Store
  import opened Events
  import opened Collaborators

  datatype Outcome = Succeeded | Failed | Slept(until: Timestamp)

  datatype Entry = Entry(name: string, occurrence: nat, outcome: Outcome)

  /** How many entries of `log` carry `name`. */
  function Occurrences(log: seq<Entry>, name: string): nat
    decreases |log|
  {
    if log == [] then 0
    else Occurrences(log[..|log| - 1], name) + (if log[|log| - 1].name == name then 1 else 0)
  }

  /** The ledger after one more step named `name`. */
  function Record(log: seq<Entry>, name: string, outcome: Outcome): seq<Entry> {
    log + [Entry(name, Occurrences(log, name), outcome)]
  }

  /** Every entry's occurrence index counts the earlier entries of its name. */
  ghost predicate Keyed(log: seq<Entry>) {
    forall i :: 0 <= i < |log| ==> log[i].occurrence == Occurrences(log[..i], log[i].name)
  }

  lemma RecordKeepsKeyed(log: seq<Entry>, name: string, outcome: Outcome)
    requires Keyed(log)
    ensures Keyed(Record(log, name, outcome))
  {
    var r := Record(log, name, outcome);
    forall i | 0 <= i < |r| ensures r[i].occurrence == Occurrences(r[..i], r[i].name) {
      if i < |log| {
        assert r[..i] == log[..i];
      } else {
        assert r[..i] == log;
      }
    }
  }

  lemma {:induction false} OccurrencesGrow(log: seq<Entry>, i: nat, j: nat, name: string)
    requires i <= j <= |log|
    ensures Occurrences(log[..i], name) <= Occurrences(log[..j], name)
    decreases j - i
  {
    if i < j {
      assert log[..j][..j - 1] == log[..j - 1];
      OccurrencesGrow(log, i, j - 1, name);
    }
  }

  /** Two entries of a keyed ledger never share a key, even when they share a name. */
  lemma KeysUnique(log: seq<Entry>, i: nat, j: nat)
    requires Keyed(log) && i < j < |log|
    ensures (log[i].name, log[i].occurrence) != (log[j].name, log[j].occurrence)
  {
    if log[i].name == log[j].name {
      assert log[..i + 1][..i] == log[..i];
      OccurrencesGrow(log, i + 1, j, log[i].name);
    }
  }

  /** The step names of a ledger, in order. */
  function Names(log: seq<Entry>): (r: seq<string>)
    ensures |r| == |log| && forall i :: 0 <= i < |log| ==> r[i] == log[i].name
  {
    seq(|log|, i requires 0 <= i < |log| => log[i].name)
  }

  lemma NamesRecord(log: seq<Entry>, name: string, outcome: Outcome)
    ensures Names(Record(log, name, outcome)) == Names(log) + [name]
  {
  }

  /** A record write, an event sent or an e-mail handed to the mail service. */
  datatype Effect =
    | VideoStatus(video: Id, status: string)
    | VideoData(video: Id, audioUrl: string, captions: seq<Word>, images: seq<string>, title: string, status: string)
    | VideoUrl(video: Id, url: string)
    | VideoRendering(video: Id, rendering: string)
    | ImageJob(generation: Id, status: string, image: Option<string>)
    | ScheduleStatus(schedule: Id, status: string)
    | Sent(event: Event)
    | Mailed(to: string, payload: EmailPayload)

  /** Where a run stands: its ledger, the store, and its effects so far. */
  datatype Ctx = Ctx(log: seq<Entry>, state: State, effects: seq<Effect>)

  /** How control leaves a piece of a pipeline: with a value, by throwing, or by being cancelled. */
  datatype Exit<+T> = Next(value: T) | Raise | Halt {
    function Propagate<U>(): Exit<U>
      requires !Next?
    {
      if Halt? then Halt else Raise
    }
  }

  /** Where the rest of a pipeline picks up after a piece that did not throw: the context and the value. */
  datatype Resume<+T> = Resume(ctx: Ctx, value: T)

  /** A piece of a pipeline run from some context: where it leaves the run, and how. */
  datatype Flow<+T> = Flow(ctx: Ctx, exit: Exit<T>) {
    predicate IsFailure() { !exit.Next? }

    function PropagateFailure<U>(): Flow<U>
      requires IsFailure()
    {
      Flow(ctx, exit.Propagate())
    }

    function Extract(): Resume<T>
      requires !IsFailure()
    {
      Resume(ctx, exit.value)
    }
  }

  /** The engine has seen the cancel event by the time `n` steps are recorded. */
  predicate Halts(cancel: Option<nat>, n: nat) {
    cancel.Some? && cancel.value <= n
  }

  /** What the body of one step does: the store afterwards, its effects, and its value or error. */
  datatype Attempt<+T> = Attempt(state: State, effects: seq<Effect>, result: Result<T>)

  /**
   * `step.run(name, body)`: nothing happens once the run is cancelled; otherwise the body runs,
   * its writes stay even when it throws, and the ledger records one entry for it.
   */
  function RunStep<T>(c: Ctx, cancel: Option<nat>, name: string, a: Attempt<T>): (r: Flow<T>)
    ensures Halts(cancel, |c.log|) ==> r == Flow(c, Halt)
    ensures !Halts(cancel, |c.log|) ==>
      && r.ctx == Ctx(Record(c.log, name, if a.result.Ok? then Succeeded else Failed), a.state, c.effects + a.effects)
      && (r.exit.Next? <==> a.result.Ok?) && !r.exit.Halt?
      && (r.exit.Next? ==> r.exit.value == a.result.value)
  {
    if Halts(cancel, |c.log|) then Flow(c, Halt)
    else
      var c' := Ctx(Record(c.log, name, if a.result.Ok? then Succeeded else Failed), a.state, c.effects + a.effects);
      if a.result.Ok? then Flow(c', Next(a.result.value)) else Flow(c', Raise)
  }

  /** A value used outside a step: reading a field of a missing document throws. */
  function Found<T>(c: Ctx, o: Option<T>): (r: Flow<T>)
    ensures r.ctx == c && (r.exit.Next? <==> o.Some?) && !r.exit.Halt?
    ensures o.Some? ==> r.exit == Next(o.value)
  {
    if o.Some? then Flow(c, Next(o.value)) else Flow(c, Raise)
  }

  /** The run in progress: its ledger and its effects, with the point where it is cancelled. */
  class Execution {
    var log: seq<Entry>
    var effects: seq<Effect>
    const cancel: Option<nat>

    ghost predicate Valid()
      reads this
    {
      Keyed(log)
    }

    constructor (cancel: Option<nat>)
      ensures Valid() && log == [] && effects == [] && this.cancel == cancel
    {
      log, effects := [], [];
      this.cancel := cancel;
    }

    /** The engine's check before a step starts. */
    predicate Halted()
      reads this
    {
      Halts(cancel, |log|)
    }

    /** The engine records a finished step. */
    method Log(name: string, outcome: Outcome)
      requires Valid()
      modifies this
      ensures Valid()
      ensures log == Record(old(log), name, outcome) && effects == old(effects)
    {
      RecordKeepsKeyed(log, name, outcome);
      log := Record(log, name, outcome);
    }

    /** A step body's effects land as they happen. */
    method Emit(es: seq<Effect>)
      modifies this
      ensures effects == old(effects) + es && log == old(log)
    {
      effects := effects + es;
    }
  }

  function Current(db: Db, ex: Execution): Ctx
    reads db, ex
  {
    Ctx(ex.log, db.Snapshot(), ex.effects)
  }

  /** A step whose body only calls a provider: its outcome is `r` and it writes nothing. */
  method RunCall<T>(db: Db, ex: Execution, name: string, r: Result<T>) returns (exit: Exit<T>)
    requires ex.Valid()
    modifies ex
    ensures ex.Valid()
    ensures Flow(Current(db, ex), exit) == RunStep(old(Current(db, ex)), ex.cancel, name, Attempt(db.Snapshot(), [], r))
  {
    if ex.Halted() {
      return Halt;
    }
    if r.Err? {
      ex.Log(name, Failed);
      return Raise;
    }
    ex.Log(name, Succeeded);
    exit := Next(r.value);
  }
}
