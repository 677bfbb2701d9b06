/**
  Confirmation tickets: an answer of the dialog reaches only the session it was asked
  for, and takes effect at most once.
*/
module Tickets {
  import opened Types
  import opened ProcessControl
  import opened Session
  import opened SessionInvariant

  /** The event answers ticket t while the session it was issued for is waiting. */
  predicate Settles(s: State, e: Event, t: string) {
    && s.session.status == Confirming
    && s.ticket == t
    && ((e.Confirmation? && e.ticket == t && e.operation != OtherOperation) || (e.DialogError? && e.ticket == t))
  }

  predicate Issues(e: Event, t: string) {
    e.Begin? && e.request.ticket == t
  }

  /** How many events of a run settle ticket t. */
  function Settled(s: State, events: seq<Event>, t: string): nat
    decreases |events|
  {
    if events == [] then 0
    else
      var front, e := events[..|events| - 1], events[|events| - 1];
      Settled(s, front, t) + (if Settles(Run(s, front), e, t) then 1 else 0)
  }

  function Issued(events: seq<Event>, t: string): nat
    decreases |events|
  {
    if events == [] then 0
    else Issued(events[..|events| - 1], t) + (if Issues(events[|events| - 1], t) then 1 else 0)
  }

  predicate Pending(s: State, t: string) {
    s.session.status == Confirming && s.ticket == t
  }

  lemma ConfirmKeepsTicket(s: State, a: ConfirmAnswers)
    requires Inv(s) && s.session.status == Confirming
    ensures ConfirmBegin(s, a).ticket == s.ticket
    ensures ConfirmBegin(s, a).session.status != Confirming
  {}

  lemma BeginPends(s: State, q: Request, d: Dialog, cleanup: Restore, a: ConfirmAnswers, t: string)
    requires Inv(s) && Pending(BeginStep(s, q, d, cleanup, a), t)
    ensures q.ticket == t || Pending(s, t)
  {
    if BeginCode(s, q) == ApiOk {
      var s0 := s.(idle := 0);
      AdmitEstablishes(s0, q, cleanup);
      ConfirmKeepsTicket(Admit(s0, q, cleanup), a);
    }
  }

  lemma ConfirmationPends(s: State, ticket: string, operation: Operation, a: ConfirmAnswers, c: Closing, t: string)
    requires Inv(s) && Pending(ConfirmationStep(s, ticket, operation, a, c), t)
    ensures Pending(s, t) && !Effective(s, ticket, operation)
  {
    if Effective(s, ticket, operation) {
      ConfirmKeepsTicket(s, a);
    }
  }

  lemma EndPends(s: State, token: Option<Remote>, uid: int, gate: Gate, c: Closing, t: string)
    requires Pending(EndStep(s, token, uid, gate, c), t)
    ensures Pending(s, t)
  {
    ExitKeepsSession(s.(idle := 0), c.exit);
  }

  lemma AnomalyPends(s: State, c: Closing, t: string)
    requires Pending(AnomalyStep(s, c), t)
    ensures Pending(s, t)
  {
    ExitKeepsSession(s, c.exit);
  }

  lemma LoopPends(s: State, now: nat, delta: nat, c: Closing, t: string)
    requires Pending(LoopStep(s, now, delta, c), t)
    ensures Pending(s, t)
  {
    ExitKeepsSession(s, c.exit);
  }

  lemma SystemPends(s: State, e: Event, t: string)
    requires Inv(s) && !FromCaller(e) && Pending(Next(s, e), t)
    ensures Pending(s, t)
  {
    match e
    case AppDied(bundle, c) => AppDieEstablishes(s, c);
    case RemoteDied(remote, c) => AppDieEstablishes(s, c);
    case Anomaly(c) => AnomalyPends(s, c, t);
    case ScreenConnected(screens, c) =>
      if s.session.active {
        AnomalyPends(s, c, t);
      }
    case AncoChanged(isAncoKey, value, persist) => AncoChangesParams(s, e);
    case LoopCheck(now, delta, c) => LoopPends(s, now, delta, c, t);
  }

  /** A ticket becomes pending only by being issued; settling it ends that. */
  lemma PendingStep(s: State, e: Event, t: string)
    requires Inv(s)
    ensures Pending(Next(s, e), t) ==> Issues(e, t) || (Pending(s, t) && !Settles(s, e, t))
  {
    if Pending(Next(s, e), t) {
      match e
      case Begin(q, d, cleanup, a) => BeginPends(s, q, d, cleanup, a, t);
      case End(token, uid, gate, c) => EndPends(s, token, uid, gate, c, t);
      case Query(gate) =>
      case Confirmation(ticket, operation, a, c) => ConfirmationPends(s, ticket, operation, a, c, t);
      case DialogError(ticket, c) =>
      case _ => SystemPends(s, e, t);
    }
  }

  /** The ledger of one ticket: a settled ticket and a pending one never exceed the
      number of times it was issued. */
  lemma {:induction false} SettledWithinIssued(s: State, events: seq<Event>, t: string)
    requires Starting(s)
    ensures Settled(s, events, t) + (if Pending(Run(s, events), t) then 1 else 0) <= Issued(events, t)
    decreases |events|
  {
    if events != [] {
      var front := events[..|events| - 1];
      InvOnRuns(s, front);
      SettledWithinIssued(s, front, t);
      PendingStep(Run(s, front), events[|events| - 1], t);
    }
  }

  /** With a fresh ticket for every request, each ticket takes effect at most once. */
  lemma TicketTakesEffectOnce(s: State, events: seq<Event>, t: string)
    requires Starting(s) && Issued(events, t) <= 1
    ensures Settled(s, events, t) <= 1
  {
    SettledWithinIssued(s, events, t);
  }

  /** The event ends the wait for ticket t: it settles it, opens a session with another
      ticket, or leaves no session. */
  predicate Ends(s: State, e: Event, t: string) {
    || Settles(s, e, t)
    || (e.Begin? && e.request.ticket != t && BeginCode(s, e.request) == ApiOk)
    || Next(s, e).session == NO_SESSION
  }

  lemma EndedIsNotPending(s: State, e: Event, t: string)
    requires Inv(s) && Ends(s, e, t)
    ensures !Pending(Next(s, e), t)
  {
    if Settles(s, e, t) {
      PendingStep(s, e, t);
    } else if Next(s, e).session != NO_SESSION {
      AdmitEstablishes(s.(idle := 0), e.request, e.cleanup);
      ConfirmKeepsTicket(Admit(s.(idle := 0), e.request, e.cleanup), e.confirm);
    }
  }

  /** A ticket that is not issued again never comes back. */
  lemma {:induction false} NeverPendingAgain(s: State, events: seq<Event>, t: string)
    requires Inv(s) && !Pending(s, t) && Issued(events, t) == 0
    ensures Inv(Run(s, events)) && !Pending(Run(s, events), t)
    decreases |events|
  {
    if events != [] {
      var front, e := events[..|events| - 1], events[|events| - 1];
      NeverPendingAgain(s, front, t);
      NextKeepsInv(Run(s, front), e);
      PendingStep(Run(s, front), e, t);
    }
  }

  /** Once the session of a ticket was answered, superseded or finished, and whatever
      happened since except that the ticket was issued again, an answer that carries it
      settles nothing and changes no session, callback table or control. A confirmation
      changes nothing at all; a dialog error at most writes a parameter again while there is
      no session. */
  lemma StaleAnswerIsInert(s: State, first: seq<Event>, last: Event, second: seq<Event>, e: Event)
    requires Starting(s) && (e.Confirmation? || e.DialogError?)
    requires Ends(Run(s, first), last, e.ticket) && Issued(second, e.ticket) == 0
    ensures
      var later := Run(Next(Run(s, first), last), second);
      && !Settles(later, e, e.ticket)
      && Next(later, e) == later.(params := Next(later, e).params)
      && (Next(later, e) != later ==> e.DialogError? && later.session == NO_SESSION)
  {
    InvOnRuns(s, first);
    EndedIsNotPending(Run(s, first), last, e.ticket);
    NextKeepsInv(Run(s, first), last);
    NeverPendingAgain(Next(Run(s, first), last), second, e.ticket);
    UnsettledIsInert(Run(Next(Run(s, first), last), second), e);
  }

  lemma UnsettledIsInert(s: State, e: Event)
    requires Inv(s) && (e.Confirmation? || e.DialogError?) && !Pending(s, e.ticket)
    ensures Next(s, e) == s.(params := Next(s, e).params)
    ensures Next(s, e) != s ==> e.DialogError? && s.session == NO_SESSION
  {}
}
