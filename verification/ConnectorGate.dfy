/**
 The QQ gate of the connector routes: the two admission tables, who holds a reservation, and the done callbacks that
 will release one more time. Every ingress path goes through it, and every exit path gives its event back.
 */
module ConnectorGate {
  import opened Wrappers
  import opened TurnStore
  import Q = QqAdmission

  /**
   What an ingress path brings besides the event: whether the registry lets the message in, its session, the two clock
   readings of the admission, whether the turn service is there, and whether the early record can be stored.
   */
  datatype Visit = Visit(allowed: bool, session: string, first: int, second: int, ready: bool, stored: bool)

  /** `holders` are the attempts whose reservation has not been given back, `rated` those counted by the rate table. */
  datatype Gate = Gate(
    tables: Q.State,
    limits: Q.Limits,
    holders: map<Owner, string>,
    callbacks: map<Owner, string>,
    rated: set<Owner>)

  function Opened(limits: Q.Limits, last: int): Gate {
    Gate(Q.State(map[], {}, [], last), limits, map[], map[], {})
  }

  function Asked(g: Gate, event: string, session: string, replay: bool, now: int): Q.Decision {
    Q.Decide(Q.Pruned(g.tables.recent, now), g.tables.inflight, event, session, replay, g.limits)
  }

  function Tabled(g: Gate, a: Q.Action): Gate {
    g.(tables := Q.Step(g.tables, a, g.limits))
  }

  /** The two questions of a webhook; the answer to the second is not looked at. `None` means that no task is made. */
  function Pass(g: Gate, key: Key, v: Visit, replay: bool, early: bool): (Gate, Option<Q.Decision>) {
    if key.connector != Qq then (g, if v.ready && (early ==> v.stored) then Some(Q.Decision(true, false)) else None)
    else
      var checked := Tabled(g, Q.Check(key.event, v.session, replay, v.first));
      if !Asked(g, key.event, v.session, replay, v.first).admitted || !v.ready then (checked, None)
      else
        var answer := Asked(checked, key.event, v.session, replay, v.second);
        var taken := Tabled(checked, Q.Reserve(key.event, v.session, replay, v.second));
        if early && !v.stored then (Unqueued(taken, key.event, answer.counted), None) else (taken, Some(answer))
  }

  /** An event that could not be recorded early gives back its slot, and its rate entry if it made one. */
  function Unqueued(g: Gate, event: string, counted: bool): Gate {
    var freed := Tabled(g, Q.Finish(event));
    if counted then Tabled(freed, Q.GiveBack(event)) else freed
  }

  /** A webhook task is made; its done callback will release the event whatever becomes of it. */
  function Launched(g: Gate, key: Key, id: Owner, answer: Q.Decision): Gate {
    if key.connector != Qq then g
    else g.(holders := if answer.admitted then g.holders[id := key.event] else g.holders,
            callbacks := g.callbacks[id := key.event],
            rated := if answer.counted then g.rated + {id} else g.rated)
  }

  function Held(g: Gate, id: Owner, event: string): Gate {
    g.(holders := g.holders[id := event])
  }

  /** The `finally` of an attempt that has run. */
  function Left(g: Gate, key: Key, id: Owner): Gate {
    if key.connector != Qq then g else Tabled(g, Q.Finish(key.event)).(holders := g.holders - {id})
  }

  function CalledBack(g: Gate, id: Owner): Gate
    requires id in g.callbacks
  {
    Tabled(g, Q.Finish(g.callbacks[id])).(holders := g.holders - {id}, callbacks := g.callbacks - {id})
  }

  /** A replayed turn gives its rate entry back. */
  function Refunded(g: Gate, key: Key, id: Owner): Gate {
    if id in g.rated then Tabled(g, Q.GiveBack(key.event)) else g
  }
}
