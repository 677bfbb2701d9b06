/**
  The token-to-callback table.

  Next to the table the manager keeps two histories: every enrolment, which numbers
  the accepted sessions 1, 2, ..., and every message it sent, tagged with the number of
  the session that was current when it was sent.
*/
module Callbacks {
  import opened Types

  datatype Message = OnBegin(code: Code) | OnInterrupted(code: Code) | OnEnd

  datatype Enrolment = Enrolment(token: Remote, callback: Remote)

  datatype Delivery = Delivery(session: nat, to: Remote, message: Message)

  datatype Registry = Registry(entries: map<Remote, Remote>, enrolled: seq<Enrolment>, log: seq<Delivery>)

  function Enrol(r: Registry, token: Option<Remote>, callback: Option<Remote>): Registry {
    if token.None? || callback.None? then r
    else Registry(r.entries[token.value := callback.value],
                  r.enrolled + [Enrolment(token.value, callback.value)], r.log)
  }

  function Withdraw(r: Registry, token: Option<Remote>): Registry {
    if token.None? then r else Registry(r.entries - {token.value}, r.enrolled, r.log)
  }

  function Deliver(r: Registry, token: Option<Remote>, m: Message): Registry {
    if token.None? || token.value !in r.entries then r
    else Registry(r.entries, r.enrolled, r.log + [Delivery(|r.enrolled|, r.entries[token.value], m)])
  }

  class CallbackManager {
    var callbacks: map<Remote, Remote>
    ghost var enrolled: seq<Enrolment>
    ghost var log: seq<Delivery>

    constructor ()
      ensures Abs() == Registry(map[], [], [])
    {
      callbacks, enrolled, log := map[], [], [];
    }

    ghost function Abs(): Registry
      reads this
    {
      Registry(callbacks, enrolled, log)
    }

    method RegisterCallback(token: Option<Remote>, callback: Option<Remote>) returns (ret: int)
      modifies this
      ensures Abs() == Enrol(old(Abs()), token, callback)
      ensures ret == if token.None? || callback.None? then -1 else 0
    {
      if token.None? || callback.None? {
        return -1;
      }
      callbacks := callbacks[token.value := callback.value];
      enrolled := enrolled + [Enrolment(token.value, callback.value)];
      return 0;
    }

    method UnregisterCallback(token: Option<Remote>) returns (ret: int)
      modifies this
      ensures Abs() == Withdraw(old(Abs()), token)
      ensures ret == if token.None? then -1 else 0
    {
      if token.None? {
        return -1;
      }
      if token.value in callbacks {
        callbacks := callbacks - {token.value};
      }
      assert callbacks == old(callbacks) - {token.value};
      return 0;
    }

    method GetCallback(token: Option<Remote>) returns (callback: Option<Remote>)
      ensures callback == if token.Some? && token.value in callbacks then Some(callbacks[token.value]) else None
    {
      if token.None? || token.value !in callbacks {
        return None;
      }
      return Some(callbacks[token.value]);
    }

    /** OnBegin, OnInterrupted and OnEnd differ only in the message they send. */
    method Send(token: Option<Remote>, m: Message)
      modifies this
      ensures Abs() == Deliver(old(Abs()), token, m)
    {
      if token.None? || token.value !in callbacks {
        return;
      }
      log := log + [Delivery(|enrolled|, callbacks[token.value], m)];
    }
  }
}
