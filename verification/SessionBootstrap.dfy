/**
 verifySession: single flight of the session check, and the order in which it stores and clears its promise.

 The inner async function runs synchronously up to its first await, so when obtaining the client or starting the
 request throws, its `finally` clears the variable before the outer assignment stores the promise.
 */
module SessionBootstraps {
  import opened Options

  datatype Status = Loading | Authenticated | Unauthenticated

  /** How auth/me ends: a 200 with a user, any other response, or a rejection. */
  datatype Reply = User(id: nat) | Other | Rejected

  /** A run of the inner function is the value of its promise once it has settled. */
  datatype State = State(status: Status, user: Option<nat>, verification: Option<nat>, runs: seq<Option<bool>>)

  datatype Event =
    | Call(clientThrows: bool)
    | Answer(run: nat, reply: Reply)
    | StoreChanges(status: Status, user: Option<nat>)

  predicate Pending(s: State, run: nat) { run < |s.runs| && s.runs[run].None? }

  function Next(s: State, e: Event): State {
    match e
    case Call(clientThrows) =>
      if s.status == Authenticated || s.verification.Some? then s
      else s.(verification := Some(|s.runs|), runs := s.runs + [if clientThrows then Some(false) else None])
    case Answer(run, reply) =>
      if !Pending(s, run) then s
      else
        var written := s.status == Loading && reply.User?;
        var status := if written then Authenticated else s.status;
        State(status, if written then Some(reply.id) else s.user, None, s.runs[run := Some(status == Authenticated)])
    case StoreChanges(status, user) => s.(status := status, user := user)
  }

  function Run(s: State, es: seq<Event>): State
    decreases es
  {
    if es == [] then s else Run(Next(s, es[0]), es[1..])
  }

  function Fresh(status: Status): State { State(status, None, None, []) }

  /** Every run in flight is the one the variable holds, so there is at most one. */
  ghost predicate SingleFlight(s: State) {
    && (s.verification.Some? ==> s.verification.value < |s.runs|)
    && forall run: nat | Pending(s, run) :: s.verification == Some(run)
  }

  /** The variable holds a promise that has already settled. */
  predicate Pinned(s: State) {
    s.verification.Some? && s.verification.value < |s.runs| && s.runs[s.verification.value].Some?
  }

  lemma NextKeepsSingleFlight(s: State, e: Event)
    requires SingleFlight(s)
    ensures SingleFlight(Next(s, e))
  {
    var s' := Next(s, e);
    forall run: nat | Pending(s', run) ensures s'.verification == Some(run) {
      if run < |s.runs| { assert s'.runs[run].None? ==> Pending(s, run); }
    }
  }

  lemma {:induction false} RunKeepsSingleFlight(s: State, es: seq<Event>)
    requires SingleFlight(s)
    ensures SingleFlight(Run(s, es))
    decreases es
  {
    if es != [] {
      NextKeepsSingleFlight(s, es[0]);
      RunKeepsSingleFlight(Next(s, es[0]), es[1..]);
    }
  }

  /**
   A pinned variable is pinned for good: whatever happens, no request is sent again, and every later call of an
   unauthenticated session gets the old answer.
   */
  lemma {:induction false} PinnedForever(s: State, es: seq<Event>)
    requires SingleFlight(s) && Pinned(s)
    ensures var s' := Run(s, es); Pinned(s') && s'.verification == s.verification && s'.runs == s.runs
    decreases es
  {
    if es != [] {
      assert es[0].Answer? ==> !Pending(s, es[0].run);
      PinnedForever(Next(s, es[0]), es[1..]);
    }
  }

  predicate Throws(e: Event) { e.Call? && e.clientThrows }

  /** A run whose calls never throw at once leaves the variable empty or holding the run in flight. */
  lemma {:induction false} ClearedWhenSettled(s: State, es: seq<Event>)
    requires SingleFlight(s) && !Pinned(s)
    requires forall e | e in es :: !Throws(e)
    ensures var s' := Run(s, es);
            && SingleFlight(s') && !Pinned(s')
            && (s'.verification.Some? ==> Pending(s', s'.verification.value))
    decreases es
  {
    if es != [] {
      NextKeepsSingleFlight(s, es[0]);
      assert !Throws(es[0]);
      ClearedWhenSettled(Next(s, es[0]), es[1..]);
    }
  }

  /** One step pins the variable exactly when it is a call that starts a run whose client throws at once. */
  lemma PinsIff(s: State, e: Event)
    requires SingleFlight(s) && !Pinned(s)
    ensures Pinned(Next(s, e)) <==> Throws(e) && s.status != Authenticated && s.verification.None?
  {
    if e.Answer? && s.verification.Some? { assert Pending(s, s.verification.value); }
  }

  /** A settled check says whether the session is authenticated at that moment; a late one leaves the store alone. */
  lemma AnswerTellsStatus(s: State, run: nat, reply: Reply)
    requires Pending(s, run)
    ensures var s' := Next(s, Answer(run, reply));
            && s'.runs[run] == Some(s'.status == Authenticated)
            && (s.status != Loading || !reply.User? ==> s'.status == s.status && s'.user == s.user)
            && (s.status == Loading && reply.User? ==> s'.status == Authenticated && s'.user == Some(reply.id))
  {
  }

  lemma {:induction false} SettledStays(s: State, es: seq<Event>, run: nat)
    requires run < |s.runs| && s.runs[run].Some?
    ensures run < |Run(s, es).runs| && Run(s, es).runs[run] == s.runs[run]
    decreases es
  {
    if es != [] { SettledStays(Next(s, es[0]), es[1..], run); }
  }

  /**
   Over any run, a check that settles does so in one step, its own answer, and its value says for good whether the
   session was authenticated right after that step.
   */
  lemma {:induction false} SettledTellsStatus(s: State, es: seq<Event>, run: nat) returns (i: nat)
    requires Pending(s, run) && !Pending(Run(s, es), run)
    ensures i < |es| && es[i].Answer? && es[i].run == run && Pending(Run(s, es[..i]), run)
    ensures run < |Run(s, es).runs| && Run(s, es).runs[run] == Some(Run(s, es[..i + 1]).status == Authenticated)
    decreases es
  {
    var s1 := Next(s, es[0]);
    if !Pending(s1, run) {
      AnswerTellsStatus(s, run, es[0].reply);
      SettledStays(s1, es[1..], run);
      assert es[..0] == [] && es[..1] == [es[0]] && [es[0]][1..] == [];
      assert Run(s, [es[0]]) == Run(s1, []);
      return 0;
    }
    var k := SettledTellsStatus(s1, es[1..], run);
    i := k + 1;
    assert es[..i][1..] == es[1..][..k] && es[..i][0] == es[0];
    assert es[..i + 1][1..] == es[1..][..k + 1] && es[..i + 1][0] == es[0];
  }

  /** Once the session has left loading, no number of checks writes to the store. */
  lemma {:induction false} LateAnswersWriteNothing(s: State, es: seq<Event>)
    requires s.status != Loading && forall e | e in es :: !e.StoreChanges?
    ensures Run(s, es).status == s.status && Run(s, es).user == s.user
    decreases es
  {
    if es != [] {
      assert es[0] in es;
      LateAnswersWriteNothing(Next(s, es[0]), es[1..]);
    }
  }

  class SessionBootstrap {
    var status: Status
    var user: Option<nat>
    var verificationPromise: Option<nat>
    var runs: seq<Option<bool>>

    function View(): State reads this { State(status, user, verificationPromise, runs) }

    constructor (status: Status)
      ensures View() == Fresh(status)
    {
      this.status, user, verificationPromise, runs := status, None, None, [];
    }

    /** verifySession: None means `true` at once, otherwise the promise that the caller awaits. */
    method VerifySession(clientThrows: bool) returns (promise: Option<nat>)
      modifies this
      ensures View() == Next(old(View()), Call(clientThrows))
      ensures promise == if status == Authenticated then None else verificationPromise
      ensures promise.None? <==> status == Authenticated
    {
      if status == Authenticated { return None; }
      if verificationPromise.Some? { return verificationPromise; }
      var started := Start(clientThrows);
      verificationPromise := Some(started);
      return verificationPromise;
    }

    /** The synchronous part of the inner function. */
    method Start(clientThrows: bool) returns (run: nat)
      requires status != Authenticated && verificationPromise.None?
      modifies this
      ensures run == |old(runs)| && runs == old(runs) + [if clientThrows then Some(false) else None]
      ensures status == old(status) && user == old(user) && verificationPromise.None?
    {
      run := |runs|;
      if clientThrows {
        runs := runs + [Some(status == Authenticated)];
        verificationPromise := None;
      } else {
        runs := runs + [None];
      }
    }

    /** The inner function after `await getApiClient().auth.me()`. */
    method Resume(run: nat, reply: Reply)
      requires Pending(View(), run)
      modifies this
      ensures View() == Next(old(View()), Answer(run, reply))
    {
      var result: bool;
      if reply == Rejected || status != Loading {
        result := status == Authenticated;
      } else if reply.User? {
        status, user := Authenticated, Some(reply.id);
        result := true;
      } else {
        result := false;
      }
      runs := runs[run := Some(result)];
      verificationPromise := None;
    }
  }
}
